/**
 * The layout's task cache: loading the list from the remote store,
 * normalising the shape of the response, and the summary statistics.
 */
module Layout {
  import opened Tasks
  import opened Seqs
  import opened Requests
  import ApiPaths

  // ------------------------------------------------------- response shape

  /** A property of the response object: an array of tasks, or anything else (absent included). */
  datatype Field = ArrayValue(items: seq<Task>) | NotArray

  /** The body of the list response: a bare array, an object, or anything else (null included). */
  datatype Body = BareArray(items: seq<Task>) | Object(tasks: Field, data: Field) | Other

  /**
   * The list the cache takes from a response body: a bare array as it is,
   * else an array under `tasks`, else an array under `data`, else nothing.
   */
  function NormaliseBody(b: Body): (r: seq<Task>)
    ensures b.BareArray? ==> r == b.items
    ensures b.Object? && b.tasks.ArrayValue? ==> r == b.tasks.items
    ensures b.Object? && !b.tasks.ArrayValue? && b.data.ArrayValue? ==> r == b.data.items
    ensures r != [] ==> b.BareArray? || (b.Object? && (b.tasks.ArrayValue? || b.data.ArrayValue?))
  {
    match b
    case BareArray(items) => items
    case Object(ArrayValue(items), _) => items
    case Object(NotArray, ArrayValue(items)) => items
    case _ => []
  }

  /** A list wrapped under `tasks` or `data` reads the same as the bare list. */
  lemma WrappedListsReadAsBare(items: seq<Task>, other: Field)
    ensures NormaliseBody(Object(ArrayValue(items), other)) == NormaliseBody(BareArray(items))
    ensures NormaliseBody(Object(NotArray, ArrayValue(items))) == NormaliseBody(BareArray(items))
  {
  }

  // --------------------------------------------------------------- stats

  datatype CacheStats = CacheStats(totalCount: nat, completedTasks: nat, pendingCount: nat, completionPercentage: nat)

  /** `Math.round(completed / total * 100)`, 0 for an empty list, in exact arithmetic. */
  function Percentage(completed: nat, total: nat): (p: nat)
    requires completed <= total
    ensures total == 0 ==> p == 0
    ensures p <= 100
    ensures total > 0 ==> 2 * (p * total) <= 200 * completed + total < 2 * (p * total) + 2 * total
  {
    if total == 0 then 0
    else
      var p := (200 * completed + total) / (2 * total);
      assert 2 * total * p <= 200 * completed + total;
      PercentageAtMost100(completed, total, p);
      p
  }

  lemma PercentageAtMost100(completed: nat, total: nat, p: nat)
    requires 0 < total && completed <= total
    requires 2 * total * p <= 200 * completed + total
    ensures p <= 100
  {
    assert 200 * completed + total <= 201 * total;
    assert total * (2 * p) < total * 202;
  }

  /** The layout's summary over the whole cache. */
  function Stats(tasks: seq<Task>): (s: CacheStats)
    ensures s.totalCount == |tasks|
    ensures s.completedTasks == |Filter(tasks, IsCompleted)| <= s.totalCount
    ensures s.completionPercentage == Percentage(s.completedTasks, s.totalCount)
    ensures s.pendingCount == s.totalCount - s.completedTasks
    ensures s.completionPercentage <= 100
    ensures s.totalCount == 0 ==> s.completionPercentage == 0
  {
    var completed := |Filter(tasks, IsCompleted)|;
    CacheStats(|tasks|, completed, |tasks| - completed, Percentage(completed, |tasks|))
  }

  /** The pending count is the number of tasks not completed. */
  lemma PendingCountsOpenTasks(tasks: seq<Task>)
    ensures Stats(tasks).pendingCount == |Filter(tasks, t => !IsCompleted(t))|
  {
    FilterComplement(tasks, IsCompleted, t => !IsCompleted(t));
  }

  /** One of four tasks completed is 25 percent. */
  lemma QuarterIs25()
    ensures Percentage(1, 4) == 25
  {
  }

  // ------------------------------------------------------------ the cache

  const AUTH_MESSAGE_401: string := "Request failed with status code 401"
  const AUTH_MESSAGE_403: string := "Request failed with status code 403"
  const LOAD_FALLBACK: string := "Could not load tasks. Please try again."

  /** 401 and 403 end the session. */
  predicate IsAuthFailure<T>(o: Outcome<T>) {
    o.Failed? && (o.status == Some(401) || o.status == Some(403))
  }

  /**
   * The message shown when a load fails, or is aborted: an abort has no
   * response, so it takes the generic branch with its own `err.message`.
   */
  function LoadErrorMessage(o: Outcome<Body>): (m: string)
    requires !o.Ok?
    ensures IsAuthFailure(o) ==> m == (if o.status == Some(401) then AUTH_MESSAGE_401 else AUTH_MESSAGE_403)
    ensures !IsAuthFailure(o) ==> m == FailureMessage(o, LOAD_FALLBACK)
    ensures o.Cancelled? ==> m == CANCELED_MESSAGE
    ensures m != ""
  {
    if StatusOf(o) == Some(401) then AUTH_MESSAGE_401
    else if StatusOf(o) == Some(403) then AUTH_MESSAGE_403
    else FailureMessage(o, LOAD_FALLBACK)
  }

  /**
   * The guard meant to keep an abort silent calls `isCancel` on the
   * configured instance, which does not have it (only the default axios
   * export does), so as written an aborted load shows "canceled"; the
   * evidently intended loader shows nothing.
   */
  lemma CancelledLoadShowsError(o: Outcome<Body>)
    requires o.Cancelled?
    ensures LoadErrorMessage(o) == "canceled"
    ensures !IsAuthFailure(o)
  {
  }

  /** The cached list with its loading flag and error message. */
  class TaskCache {
    var tasks: seq<Task>
    var loading: bool
    var error: Option<string>

    /** The layout starts empty, loading, with no error. */
    constructor ()
      ensures tasks == [] && loading && error == None
    {
      tasks := [];
      loading := true;
      error := None;
    }

    /**
     * One run of the loader as written. `token` is the stored credential
     * and `outcome` how the GET of the task list ends. Without a token no
     * request is made and the session is ended; otherwise a success
     * replaces the list wholesale and any other end, an abort included,
     * keeps the list and sets the error (ending the session for 401 and
     * 403). Loading is over in every case. `path` is the requested path,
     * `logout` whether the session was ended.
     */
    method Load(token: Option<string>, outcome: Outcome<Body>) returns (path: Option<string>, logout: bool)
      modifies this
      ensures !loading
      ensures path == (if Truthy(token) then Some(ApiPaths.GET_ALL) else None)
      ensures logout <==> !Truthy(token) || IsAuthFailure(outcome)
      ensures tasks == (if Truthy(token) && outcome.Ok? then NormaliseBody(outcome.payload) else old(tasks))
      ensures error == (if Truthy(token) && !outcome.Ok? then Some(LoadErrorMessage(outcome)) else None)
    {
      loading := true;
      error := None;
      logout := false;
      path := None;
      if !Truthy(token) {
        logout := true;
        loading := false;
        return;
      }
      path := Some(ApiPaths.GET_ALL);
      match outcome {
        case Ok(body) =>
          tasks := NormaliseBody(body);
        case _ =>
          error := Some(LoadErrorMessage(outcome));
          logout := IsAuthFailure(outcome);
      }
      loading := false;
    }

    /**
     * The loader with the abort guard working as its comment intends: an
     * aborted load leaves the list, the error and the session alone and
     * only ends loading; every other case is as in `Load`.
     */
    method LoadIntended(token: Option<string>, outcome: Outcome<Body>) returns (path: Option<string>, logout: bool)
      modifies this
      ensures !loading
      ensures path == (if Truthy(token) then Some(ApiPaths.GET_ALL) else None)
      ensures logout <==> !Truthy(token) || IsAuthFailure(outcome)
      ensures tasks == (if Truthy(token) && outcome.Ok? then NormaliseBody(outcome.payload) else old(tasks))
      ensures error == (if Truthy(token) && outcome.Failed? then Some(LoadErrorMessage(outcome)) else None)
      ensures outcome.Cancelled? ==> error == None && (logout <==> !Truthy(token))
    {
      loading := true;
      error := None;
      logout := false;
      path := None;
      if !Truthy(token) {
        logout := true;
        loading := false;
        return;
      }
      path := Some(ApiPaths.GET_ALL);
      match outcome {
        case Ok(body) =>
          tasks := NormaliseBody(body);
        case Cancelled =>
        case Failed(status, _, _) =>
          error := Some(LoadErrorMessage(outcome));
          logout := IsAuthFailure(outcome);
      }
      loading := false;
    }
  }
}
