/** The download loop of scripts/fetch_recipes.js: candidate URLs are tried
    in order until one yields a file large enough to be the full dump. */
module CandidateSelection {
  import opened Results

  /** The two mirrors of the recipe dump, in the order they are tried. */
  const Candidates: seq<string> := [
    "https://raw.githubusercontent.com/ao-data/ao-bin-dumps/master/formatted/recipes.json",
    "https://github.com/ao-data/ao-bin-dumps/raw/master/formatted/recipes.json"
  ]

  /** A file smaller than this many bytes is rejected as truncated. */
  const MinSize: nat := 2_000_000

  /** Why a single download was rejected by `download` itself. */
  datatype DownloadError =
    | HttpStatus(code: int)        // a final response other than 200
    | RequestFailed(reason: string) // the request emitted an error

  /** What downloading one candidate produced: an error, or a saved file of
      the given size in bytes. */
  datatype Outcome = Failed(error: DownloadError) | Saved(size: nat)

  /** The error the loop ends with when no candidate is accepted. */
  datatype SelectError =
    | DownloadFailed(error: DownloadError)
    | TooSmall(size: nat)
    | NoCandidates   // the loop never ran, so `lastErr` stayed null

  /** A download the loop accepts. */
  predicate Acceptable(o: Outcome) {
    o.Saved? && o.size >= MinSize
  }

  /** The error recorded as `lastErr` for a rejected download. */
  function Rejection(o: Outcome): SelectError
    requires !Acceptable(o)
  {
    match o
    case Failed(err) => DownloadFailed(err)
    case Saved(size) => TooSmall(size)
  }

  /** Runs the loop over candidates whose downloads would produce `outcomes`
      (`outcomes[i]` for the i-th candidate). Returns the index of the
      accepted candidate, or the error of the last attempt, and how many
      downloads were started: the first acceptable candidate wins and no later
      one is tried. */
  method SelectSource(outcomes: seq<Outcome>) returns (res: Result<nat, SelectError>, tried: nat)
    ensures res.Success? <==> exists i :: 0 <= i < |outcomes| && Acceptable(outcomes[i])
    ensures res.Success? ==> res.value < |outcomes| && Acceptable(outcomes[res.value])
    ensures res.Success? ==> forall j :: 0 <= j < res.value ==> !Acceptable(outcomes[j])
    ensures res.Success? ==> tried == res.value + 1
    ensures res.Failure? ==> tried == |outcomes|
    ensures res.Failure? && |outcomes| == 0 ==> res.error == NoCandidates
    ensures res.Failure? && |outcomes| > 0 ==> res.error == Rejection(outcomes[|outcomes| - 1])
  {
    var ok := false;
    var lastErr: Option<SelectError> := None;
    var i := 0;
    tried := 0;
    while i < |outcomes|
      invariant 0 <= i <= |outcomes|
      invariant tried == i
      invariant forall j :: 0 <= j < i ==> !Acceptable(outcomes[j])
      invariant i == 0 <==> lastErr.None?
      invariant i > 0 ==> !Acceptable(outcomes[i - 1]) && lastErr == Some(Rejection(outcomes[i - 1]))
    {
      tried := tried + 1;
      var o := outcomes[i];
      if o.Failed? {
        lastErr := Some(DownloadFailed(o.error));
      } else if o.size < MinSize {
        lastErr := Some(TooSmall(o.size));
      } else {
        ok := true;
        break;
      }
      i := i + 1;
    }
    if ok {
      res := Success(i);
    } else {
      match lastErr
      case Some(e) => res := Failure(e);
      case None => res := Failure(NoCandidates);
    }
  }

  /** The loop as the script runs it, over its two mirrors: `outcomes[i]` is
      what downloading `Candidates[i]` produces. The accepted URL is the first
      mirror whose download is large enough. Since the list is not empty, a
      failure always carries the error of the last mirror and never the
      fallback error. */
  method SelectRecipesSource(outcomes: seq<Outcome>) returns (res: Result<string, SelectError>, tried: nat)
    requires |outcomes| == |Candidates|
    ensures res.Success? <==> exists i :: 0 <= i < |Candidates| && Acceptable(outcomes[i])
    ensures res.Success? ==> exists i :: 0 <= i < |Candidates| && res.value == Candidates[i] && Acceptable(outcomes[i])
                                         && tried == i + 1 && forall j :: 0 <= j < i ==> !Acceptable(outcomes[j])
    ensures res.Failure? ==> tried == |Candidates| && res.error == Rejection(outcomes[1])
    ensures res.Failure? ==> !res.error.NoCandidates?
  {
    var picked;
    picked, tried := SelectSource(outcomes);
    match picked
    case Success(i) => res := Success(Candidates[i]);
    case Failure(e) => res := Failure(e);
  }
}
