/**
 * The Redux reducer holding the state of the repository file listing:
 * whether a fetch is under way, whether the last fetch failed, and the
 * files last received. The file type itself is left as a type parameter.
 */
module FilesReducer {
  import opened Wrappers

  datatype FilesState<F> = FilesState(fetching: bool, error: bool, fileList: seq<F>)

  /** The three action kinds of the reducer, plus any other action the store dispatches. */
  datatype FileAction<F> =
    | InitGetFiles
    | GetFilesFail
    | GetFilesSuccess(payload: seq<F>)
    | Other

  /** The state before any action: nothing listed, a fetch pending, no error. */
  function Initial<F>(): (s: FilesState<F>)
    ensures s.fileList == []
    ensures s.fetching && !s.error
  {
    FilesState(true, false, [])
  }

  /** One transition. */
  function Step<F>(s: FilesState<F>, a: FileAction<F>): (r: FilesState<F>)
    // a new request: only `fetching` moves
    ensures a.InitGetFiles? ==> r.fetching && r.error == s.error && r.fileList == s.fileList
    // a failed request keeps the files shown so far
    ensures a.GetFilesFail? ==> r.error && !r.fetching && r.fileList == s.fileList
    // a successful request replaces the list wholesale and clears the error
    ensures a.GetFilesSuccess? ==> r.fileList == a.payload && !r.fetching && !r.error
    ensures a.Other? ==> r == s
  {
    match a
    case InitGetFiles => s.(fetching := true)
    case GetFilesFail => s.(error := true, fetching := false)
    case GetFilesSuccess(payload) => s.(fileList := payload, fetching := false, error := false)
    case Other => s
  }

  /** The exported reducer: an absent state stands for the initial one. */
  function FileReducer<F>(state: Option<FilesState<F>>, a: FileAction<F>): (r: FilesState<F>)
    ensures state.None? ==> r == Step(Initial(), a)
    ensures state.Some? ==> r == Step(state.value, a)
  {
    Step(state.GetOr(Initial()), a)
  }

  /** The state after dispatching `acts` in order, starting from `s`. */
  function ReduceAll<F>(s: FilesState<F>, acts: seq<FileAction<F>>): FilesState<F>
    decreases |acts|
  {
    if |acts| == 0 then s
    else Step(ReduceAll(s, acts[..|acts| - 1]), acts[|acts| - 1])
  }

  /** Whether an action ends a fetch, successfully or not. */
  predicate Settles<F>(a: FileAction<F>) {
    a.GetFilesFail? || a.GetFilesSuccess?
  }

  /** Whether an action is one of the three the reducer reacts to. */
  predicate Recognised<F>(a: FileAction<F>) {
    !a.Other?
  }

  // ---------------------------------------------------------------- lemmas

  /** Dispatching the same action twice is the same as dispatching it once. */
  lemma StepIdempotent<F>(s: FilesState<F>, a: FileAction<F>)
    ensures Step(Step(s, a), a) == Step(s, a)
  {
  }

  /** Whatever the prior state, a settling action leaves no fetch pending. */
  lemma SettledIsNotFetching<F>(s: FilesState<F>, a: FileAction<F>)
    requires Settles(a)
    ensures !Step(s, a).fetching
  {
  }

  /** Actions the reducer does not recognise, however many, change nothing. */
  lemma {:induction false} OthersAreNeutral<F>(s: FilesState<F>, acts: seq<FileAction<F>>)
    requires forall j | 0 <= j < |acts| :: !Recognised(acts[j])
    ensures ReduceAll(s, acts) == s
    decreases |acts|
  {
    if |acts| > 0 {
      OthersAreNeutral(s, acts[..|acts| - 1]);
    }
  }

  /** The listed files are the payload of the last successful fetch ... */
  lemma {:induction false} FileListIsLastPayload<F>(s: FilesState<F>, acts: seq<FileAction<F>>, i: nat)
    requires i < |acts| && acts[i].GetFilesSuccess?
    requires forall j | i < j < |acts| :: !acts[j].GetFilesSuccess?
    ensures ReduceAll(s, acts).fileList == acts[i].payload
    decreases |acts|
  {
    if i < |acts| - 1 {
      FileListIsLastPayload(s, acts[..|acts| - 1], i);
    }
  }

  /** ... and are untouched when no fetch has succeeded. */
  lemma {:induction false} FileListWithoutSuccess<F>(s: FilesState<F>, acts: seq<FileAction<F>>)
    requires forall j | 0 <= j < |acts| :: !acts[j].GetFilesSuccess?
    ensures ReduceAll(s, acts).fileList == s.fileList
    decreases |acts|
  {
    if |acts| > 0 {
      FileListWithoutSuccess(s, acts[..|acts| - 1]);
    }
  }

  /** The error flag reports whether the last settling action was a failure ... */
  lemma {:induction false} ErrorIsLastSettlement<F>(s: FilesState<F>, acts: seq<FileAction<F>>, i: nat)
    requires i < |acts| && Settles(acts[i])
    requires forall j | i < j < |acts| :: !Settles(acts[j])
    ensures ReduceAll(s, acts).error <==> acts[i].GetFilesFail?
    decreases |acts|
  {
    if i < |acts| - 1 {
      ErrorIsLastSettlement(s, acts[..|acts| - 1], i);
    }
  }

  /** ... and keeps its prior value while nothing has settled (a new request does not clear it). */
  lemma {:induction false} ErrorWithoutSettlement<F>(s: FilesState<F>, acts: seq<FileAction<F>>)
    requires forall j | 0 <= j < |acts| :: !Settles(acts[j])
    ensures ReduceAll(s, acts).error == s.error
    decreases |acts|
  {
    if |acts| > 0 {
      ErrorWithoutSettlement(s, acts[..|acts| - 1]);
    }
  }

  /** A fetch is pending exactly when the last recognised action was a new request ... */
  lemma {:induction false} FetchingIsLastRequest<F>(s: FilesState<F>, acts: seq<FileAction<F>>, i: nat)
    requires i < |acts| && Recognised(acts[i])
    requires forall j | i < j < |acts| :: !Recognised(acts[j])
    ensures ReduceAll(s, acts).fetching <==> acts[i].InitGetFiles?
    decreases |acts|
  {
    if i < |acts| - 1 {
      FetchingIsLastRequest(s, acts[..|acts| - 1], i);
    }
  }

  /** ... so from the initial state a fetch stays pending until something settles it. */
  lemma {:induction false} PendingUntilSettled<F>(acts: seq<FileAction<F>>)
    requires forall j | 0 <= j < |acts| :: !Settles(acts[j])
    ensures ReduceAll(Initial<F>(), acts).fetching
    ensures !ReduceAll(Initial<F>(), acts).error
    ensures ReduceAll(Initial<F>(), acts).fileList == []
    decreases |acts|
  {
    if |acts| > 0 {
      PendingUntilSettled(acts[..|acts| - 1]);
    }
  }

  /**
   * A retry after a failure, with nothing settled since, is pending while
   * still reporting the earlier error.
   */
  lemma RetryKeepsStaleError<F>(s: FilesState<F>, acts: seq<FileAction<F>>)
    requires |acts| > 0 && acts[0].GetFilesFail? && acts[|acts| - 1].InitGetFiles?
    requires forall j | 0 < j < |acts| :: !Settles(acts[j])
    ensures ReduceAll(s, acts).fetching && ReduceAll(s, acts).error
  {
    ErrorIsLastSettlement(s, acts, 0);
    FetchingIsLastRequest(s, acts, |acts| - 1);
  }
}
