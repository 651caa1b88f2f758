/**
 * The task record the remote store serves, and the small JavaScript value
 * rules (truthiness, `||` defaults, `toLowerCase`) the view-model relies on.
 */
module Tasks {

  datatype Option<+T> = None | Some(value: T) {
    function GetOr(default: T): T {
      match this
      case Some(v) => v
      case None => default
    }
  }

  /** JavaScript truthiness of an optional string: present and not empty. */
  predicate Truthy(o: Option<string>) {
    o.Some? && o.value != ""
  }

  /** `o || fallback` for an optional string. */
  function Or(o: Option<string>, fallback: string): string {
    if Truthy(o) then o.value else fallback
  }

  /** `toLowerCase` on one character (ASCII letters only). */
  function LowerChar(c: char): char {
    if 'A' <= c <= 'Z' then (c as int + 32) as char else c
  }

  /** `toLowerCase` on a string (ASCII letters only). */
  function Lower(s: string): (r: string)
    ensures |r| == |s|
    ensures forall i :: 0 <= i < |s| ==> r[i] == LowerChar(s[i])
  {
    seq(|s|, i requires 0 <= i < |s| => LowerChar(s[i]))
  }

  /** Lower-casing is idempotent, so a filter value compares equal however it is cased. */
  lemma LowerIdempotent(s: string)
    ensures Lower(Lower(s)) == Lower(s)
  {
  }

  const COMPLETED: string := "COMPLETED"
  const IN_PROGRESS: string := "IN_PROGRESS"

  datatype Subtask = Subtask(title: string, completed: bool)

  /**
   * A task as cached on the client. Every field is optional because the
   * client never validates what the server sends; `dbId` is the store's
   * `_id`, `createdAtAlt` its alternative `created_at` field, and the date
   * fields hold the raw text the server sends.
   */
  datatype Task = Task(
    id: Option<string>,
    dbId: Option<string>,
    title: Option<string>,
    description: Option<string>,
    dueDate: Option<string>,
    priority: Option<string>,
    status: Option<string>,
    createdAt: Option<string>,
    createdAtAlt: Option<string>,
    updatedAt: Option<string>,
    subtasks: Option<seq<Subtask>>)

  /** `task.status === "COMPLETED"`. */
  predicate IsCompleted(t: Task) {
    t.status == Some(COMPLETED)
  }
}
