/**
 * The endpoint paths of the remote task store (`API_PATHS`).
 */
module ApiPaths {
  import opened Tasks

  const LOGIN: string := "/api/auth/login"
  const SIGNUP: string := "/api/auth/signup"

  const ADD: string := "/api/tasks"
  const GET_ALL: string := "/api/tasks"

  /** The prefix every task-specific path starts with. */
  const TASK_PREFIX: string := "/api/tasks/"

  /** `` `/api/tasks/${id}` `` for DELETE. */
  function Delete(id: string): (p: string)
    ensures |p| == |TASK_PREFIX| + |id|
    ensures p[..|TASK_PREFIX|] == TASK_PREFIX && p[|TASK_PREFIX|..] == id
  {
    TASK_PREFIX + id
  }

  /** `` `/api/tasks/${id}` `` for UPDATE. */
  function Update(id: string): (p: string)
    ensures |p| == |TASK_PREFIX| + |id|
    ensures p[..|TASK_PREFIX|] == TASK_PREFIX && p[|TASK_PREFIX|..] == id
  {
    TASK_PREFIX + id
  }

  /** `` `/api/tasks/${id}/status` ``. */
  function UpdateStatus(id: string): (p: string)
    ensures |p| == |TASK_PREFIX| + |id| + 7
    ensures p[..|TASK_PREFIX|] == TASK_PREFIX
  {
    TASK_PREFIX + id + "/status"
  }

  /** `${id}` of an optional value: a missing id is rendered as "undefined". */
  function IdText(id: Option<string>): string {
    match id
    case Some(s) => s
    case None => "undefined"
  }

  /** Creating and listing tasks share one path. */
  lemma AddIsGetAll()
    ensures ADD == GET_ALL
  {
  }

  /** DELETE and UPDATE address the same resource. */
  lemma DeleteIsUpdate(id: string)
    ensures Delete(id) == Update(id)
  {
  }

  /** The status path is the task path followed by "/status". */
  lemma UpdateStatusExtendsUpdate(id: string)
    ensures UpdateStatus(id) == Update(id) + "/status"
  {
  }

  /** Distinct ids address distinct tasks: the id can be read back from the path. */
  lemma UpdateInjective(a: string, b: string)
    ensures Update(a) == Update(b) <==> a == b
  {
    if Update(a) == Update(b) {
      calc {
        a;
        Update(a)[|TASK_PREFIX|..];
        Update(b)[|TASK_PREFIX|..];
        b;
      }
    }
  }

  /** The two auth paths differ, and no task path is an auth path. */
  lemma TaskPathsAreNotAuthPaths(id: string)
    ensures LOGIN != SIGNUP
    ensures ADD != LOGIN && ADD != SIGNUP
    ensures Update(id) != LOGIN && Update(id) != SIGNUP
    ensures UpdateStatus(id) != LOGIN && UpdateStatus(id) != SIGNUP
  {
    assert LOGIN[5] == 'a' && SIGNUP[5] == 'a';
    assert LOGIN[10] == 'l' && SIGNUP[10] == 's';
    assert ADD[5] == 't';
    assert Update(id)[5] == TASK_PREFIX[5] == 't';
    assert UpdateStatus(id)[5] == TASK_PREFIX[5] == 't';
  }
}
