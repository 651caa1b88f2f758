/**
 * One task row: the optimistic completion toggle, the subtask checkboxes,
 * the subtask progress and the word-based truncation of the description.
 */
module TaskItem {
  import opened Tasks
  import opened Seqs
  import opened Requests
  import ApiPaths

  // ----------------------------------------------------- completion toggle

  /** The status a click asks the server for: the opposite of what is shown. */
  function ClickStatus(isCompleted: bool): (s: string)
    ensures s == COMPLETED <==> !isCompleted
    ensures s == COMPLETED || s == IN_PROGRESS
  {
    if isCompleted then IN_PROGRESS else COMPLETED
  }

  /**
   * Once the server has stored the requested status, the refreshed task
   * shows the same completion as the optimistic flip did.
   */
  lemma RefreshAgreesWithFlip(t: Task, wasCompleted: bool)
    ensures IsCompleted(t.(status := Some(ClickStatus(wasCompleted)))) == !wasCompleted
  {
  }

  // ------------------------------------------------------------- subtasks

  predicate SubtaskDone(st: Subtask) {
    st.completed
  }

  /** `prev.map((s, idx) => idx === i ? { ...s, completed: !s.completed } : s)`. */
  function ToggleAt(s: seq<Subtask>, i: nat): (r: seq<Subtask>)
    ensures |r| == |s|
    ensures forall k :: 0 <= k < |s| && k != i ==> r[k] == s[k]
    ensures i < |s| ==> r[i].title == s[i].title && r[i].completed == !s[i].completed
  {
    seq(|s|, k requires 0 <= k < |s| => if k == i then s[k].(completed := !s[k].completed) else s[k])
  }

  /** Toggling the same checkbox twice restores the list. */
  lemma ToggleTwice(s: seq<Subtask>, i: nat)
    ensures ToggleAt(ToggleAt(s, i), i) == s
  {
  }

  /** An index outside the list changes nothing. */
  lemma ToggleOutOfRange(s: seq<Subtask>, i: nat)
    requires i >= |s|
    ensures ToggleAt(s, i) == s
  {
  }

  /** Toggling one subtask moves the completed count by exactly one. */
  lemma {:induction false} ToggleCount(s: seq<Subtask>, i: nat)
    requires i < |s|
    ensures |Filter(ToggleAt(s, i), SubtaskDone)|
         == |Filter(s, SubtaskDone)| + (if s[i].completed then -1 else 1)
  {
    var r := ToggleAt(s, i);
    assert r == [r[0]] + r[1..] && s == [s[0]] + s[1..];
    if i > 0 {
      assert r[1..] == ToggleAt(s[1..], i - 1);
      ToggleCount(s[1..], i - 1);
    } else {
      assert r[1..] == s[1..];
    }
  }

  /**
   * Percentage of completed subtasks, 0 without subtasks. The source works
   * in floating point; here the ratio is exact.
   */
  function Progress(s: seq<Subtask>): (p: real)
    ensures 0.0 <= p <= 100.0
    ensures s == [] ==> p == 0.0
    ensures p == 0.0 <==> Filter(s, SubtaskDone) == []
    ensures p == 100.0 <==> s != [] && forall k :: 0 <= k < |s| ==> s[k].completed
    ensures s != [] ==> p == 100.0 * (|Filter(s, SubtaskDone)| as real) / (|s| as real)
  {
    if |s| == 0 then 0.0
    else
      var done := |Filter(s, SubtaskDone)|;
      AllDoneIffFull(s);
      RatioBounds(done, |s|);
      (done as real / |s| as real) * 100.0
  }

  /** Every subtask is done exactly when the filter keeps them all. */
  lemma AllDoneIffFull(s: seq<Subtask>)
    ensures |Filter(s, SubtaskDone)| == |s| <==> forall k :: 0 <= k < |s| ==> s[k].completed
  {
    var q := (st: Subtask) => !st.completed;
    FilterComplement(s, SubtaskDone, q);
    if exists k :: 0 <= k < |s| && !s[k].completed {
      var k :| 0 <= k < |s| && !s[k].completed;
      FilterMember(s, q, s[k]);
    }
  }

  /** The bounds of `done / total * 100` in exact arithmetic. */
  lemma RatioBounds(done: nat, total: nat)
    requires 0 < total && done <= total
    ensures 0.0 <= (done as real / total as real) * 100.0 <= 100.0
    ensures (done as real / total as real) * 100.0 == 0.0 <==> done == 0
    ensures (done as real / total as real) * 100.0 == 100.0 <==> done == total
    ensures (done as real / total as real) * 100.0 == 100.0 * (done as real) / (total as real)
  {
    var q := done as real / total as real;
    assert q * total as real == done as real;
    if done == total {
      assert q == 1.0;
    }
    if q * 100.0 == 100.0 {
      assert q == 1.0;
      assert done as real == total as real;
    }
  }

  // ---------------------------------------------------- words of the text

  /** `text.split(' ')`: every single space separates two words, so "" is one empty word. */
  function Split(s: string): (ws: seq<string>)
    ensures |ws| >= 1
    ensures forall k :: 0 <= k < |ws| ==> ' ' !in ws[k]
  {
    if s == [] then [""]
    else
      var rest := Split(s[1..]);
      if s[0] == ' ' then [""] + rest
      else [[s[0]] + rest[0]] + rest[1..]
  }

  /** `words.join(' ')`. */
  function Join(ws: seq<string>): string {
    if ws == [] then ""
    else if |ws| == 1 then ws[0]
    else ws[0] + " " + Join(ws[1..])
  }

  /** Joining the words of a text gives the text back. */
  lemma {:induction false} JoinSplit(s: string)
    ensures Join(Split(s)) == s
  {
    if s != [] {
      var rest := Split(s[1..]);
      JoinSplit(s[1..]);
      assert s == [s[0]] + s[1..];
      if s[0] == ' ' {
        assert Split(s)[1..] == rest;
      } else {
        var ws := Split(s);
        assert ws[1..] == rest[1..];
        if |rest| == 1 {
        } else {
          assert rest == [rest[0]] + rest[1..];
          assert Join(rest) == rest[0] + " " + Join(rest[1..]);
        }
      }
    }
  }

  /** A word without spaces in front of a text is one more word. */
  lemma {:induction false} SplitWordThen(w: string, tail: string)
    requires ' ' !in w
    ensures Split(w + " " + tail) == [w] + Split(tail)
  {
    if w == [] {
      assert w + " " + tail == [' '] + tail;
    } else {
      SplitWordThen(w[1..], tail);
      var s := w + " " + tail;
      assert s[0] == w[0] && s[1..] == w[1..] + " " + tail;
      assert [w[0]] + w[1..] == w;
    }
  }

  /** A word without spaces splits to itself. */
  lemma {:induction false} SplitWord(w: string)
    requires ' ' !in w
    ensures Split(w) == [w]
  {
    if w != [] {
      SplitWord(w[1..]);
      assert [w[0]] + w[1..] == w;
    }
  }

  /** Splitting joined words gives the words back, when none holds a space. */
  lemma {:induction false} SplitJoin(ws: seq<string>)
    requires ws != []
    requires forall k :: 0 <= k < |ws| ==> ' ' !in ws[k]
    ensures Split(Join(ws)) == ws
  {
    if |ws| == 1 {
      SplitWord(ws[0]);
    } else {
      SplitJoin(ws[1..]);
      SplitWordThen(ws[0], Join(ws[1..]));
      assert [ws[0]] + ws[1..] == ws;
    }
  }

  /** The first `k` words joined are the text up to the `k`-th separator. */
  lemma {:induction false} JoinSplitAt(ws: seq<string>, k: nat)
    requires 1 <= k < |ws|
    ensures Join(ws) == Join(ws[..k]) + " " + Join(ws[k..])
  {
    if k > 1 {
      JoinSplitAt(ws[1..], k - 1);
      assert ws[1..][..k - 1] == ws[..k][1..];
      assert ws[1..][k - 1..] == ws[k..];
    }
  }

  /** `t` appended to the last of the words `ws`. */
  function AppendLast(ws: seq<string>, t: string): (r: seq<string>)
    requires ws != []
    ensures |r| == |ws|
  {
    ws[..|ws| - 1] + [ws[|ws| - 1] + t]
  }

  /** Text with no space appended to a text only lengthens its last word. */
  lemma {:induction false} SplitAppend(s: string, t: string)
    requires ' ' !in t
    ensures Split(s + t) == AppendLast(Split(s), t)
  {
    if s == [] {
      SplitWord(t);
      assert s + t == t && "" + t == t;
    } else {
      var u := s + t;
      assert u[0] == s[0] && u[1..] == s[1..] + t;
      var rest := Split(s[1..]);
      SplitAppend(s[1..], t);
      var a := AppendLast(rest, t);
      if s[0] == ' ' {
        assert AppendLast([""] + rest, t) == [""] + a;
      } else if |rest| == 1 {
        assert a == [rest[0] + t];
        assert [s[0]] + (rest[0] + t) == ([s[0]] + rest[0]) + t;
      } else {
        assert a[0] == rest[0] && a[1..] == AppendLast(rest[1..], t);
        var w := [[s[0]] + rest[0]] + rest[1..];
        assert AppendLast(w, t) == [[s[0]] + rest[0]] + AppendLast(rest[1..], t);
      }
    }
  }

  // ----------------------------------------------------------- truncation

  const WORD_LIMIT: nat := 29
  const FLAG_LIMIT: nat := 25
  const ELLIPSIS: string := "..."

  /**
   * `truncateDescription(text)`: an empty text stays empty; a text of at
   * most 29 words is shown as it is; a longer one is cut after its 29th
   * word and marked with "...".
   */
  function Truncate(text: string): (r: string)
    ensures text == "" ==> r == ""
    ensures |Split(text)| <= WORD_LIMIT ==> r == text
    ensures |Split(text)| > WORD_LIMIT ==>
      |r| >= |ELLIPSIS| && r[|r| - |ELLIPSIS|..] == ELLIPSIS
      && r[..|r| - |ELLIPSIS|] < text
      && Split(r[..|r| - |ELLIPSIS|]) == Split(text)[..WORD_LIMIT]
  {
    if text == "" then ""
    else
      var words := Split(text);
      if |words| <= WORD_LIMIT then text
      else
        var kept := Join(words[..WORD_LIMIT]);
        TruncatedIsProperPrefix(text);
        var r := kept + ELLIPSIS;
        assert r[..|r| - |ELLIPSIS|] == kept && r[|r| - |ELLIPSIS|..] == ELLIPSIS;
        r
  }

  /** The kept words are a proper prefix of the text and split back to themselves. */
  lemma TruncatedIsProperPrefix(text: string)
    requires |Split(text)| > WORD_LIMIT
    ensures Join(Split(text)[..WORD_LIMIT]) < text
    ensures Split(Join(Split(text)[..WORD_LIMIT])) == Split(text)[..WORD_LIMIT]
  {
    var words := Split(text);
    JoinSplit(text);
    JoinSplitAt(words, WORD_LIMIT);
    SplitJoin(words[..WORD_LIMIT]);
  }

  /** A truncated description is left alone by a second truncation. */
  lemma TruncateIdempotent(text: string)
    ensures Truncate(Truncate(text)) == Truncate(text)
  {
    var r := Truncate(text);
    if |Split(text)| > WORD_LIMIT {
      var kept := r[..|r| - |ELLIPSIS|];
      assert r == kept + ELLIPSIS;
      SplitAppend(kept, ELLIPSIS);
      assert |Split(r)| == |Split(kept)| == WORD_LIMIT;
    }
  }

  /** `needsTruncation`: a present description of more than 25 words. */
  predicate NeedsTruncation(description: Option<string>) {
    Truthy(description) && |Split(description.value)| > FLAG_LIMIT
  }

  /**
   * The description paragraph of the row: absent for a missing or empty
   * description, else the whole text when expanded and the truncated
   * text when collapsed. Whatever is shown differs from the description
   * only when the row also flags it as long.
   */
  function ShownDescription(description: Option<string>, expanded: bool): (r: Option<string>)
    ensures r.None? <==> !Truthy(description)
    ensures r.Some? && expanded ==> r.value == description.value
    ensures r.Some? && !expanded ==> r.value == Truncate(description.value)
    ensures r.Some? && r.value != description.value ==> NeedsTruncation(description)
  {
    if !Truthy(description) then None
    else if expanded then Some(description.value)
    else
      var shown := Truncate(description.value);
      if shown == description.value then Some(shown)
      else
        TruncatedIsFlagged(description.value);
        Some(shown)
  }

  /** A description the truncation changes is always flagged. */
  lemma TruncatedIsFlagged(text: string)
    requires Truncate(text) != text
    ensures NeedsTruncation(Some(text))
  {
  }

  /** Descriptions of 26 to 29 words are flagged, yet shown in full. */
  lemma FlaggedButWhole(text: string)
    requires FLAG_LIMIT < |Split(text)| <= WORD_LIMIT
    ensures NeedsTruncation(Some(text)) && Truncate(text) == text
  {
  }

  // ------------------------------------------------------------ the row

  /** The row's state: the task it shows, its completion checkbox and its subtask list. */
  class TaskItemState {
    var task: Task
    var isCompleted: bool
    var subtasks: seq<Subtask>

    constructor (t: Task)
      ensures task == t && isCompleted == IsCompleted(t) && subtasks == t.subtasks.GetOr([])
    {
      task := t;
      isCompleted := IsCompleted(t);
      subtasks := t.subtasks.GetOr([]);
    }

    /**
     * A new task value from the parent. The checkbox is reset from the
     * status only when the status changed; the subtask list keeps its
     * local state.
     */
    method ReceiveTask(t: Task)
      modifies this
      ensures task == t && subtasks == old(subtasks)
      ensures isCompleted == (if t.status != old(task.status) then IsCompleted(t) else old(isCompleted))
    {
      if t.status != task.status {
        isCompleted := IsCompleted(t);
      }
      task := t;
    }

    /**
     * A click on the checkbox. `outcome` is how the status update ends.
     * The checkbox flips at once (`shown`), flips back if the request
     * fails, the list is refreshed on success, and the session ends on 401.
     */
    method Complete(outcome: Outcome<()>) returns (path: string, newStatus: string, shown: bool, refresh: bool, logout: bool)
      modifies this
      ensures newStatus == ClickStatus(old(isCompleted))
      ensures path == ApiPaths.UpdateStatus(ApiPaths.IdText(task.id))
      ensures shown == !old(isCompleted)
      ensures refresh <==> outcome.Ok?
      ensures isCompleted == (if outcome.Ok? then !old(isCompleted) else old(isCompleted))
      ensures logout <==> StatusOf(outcome) == Some(401)
      ensures task == old(task) && subtasks == old(subtasks)
    {
      newStatus := ClickStatus(isCompleted);
      isCompleted := !isCompleted;
      shown := isCompleted;
      path := ApiPaths.UpdateStatus(ApiPaths.IdText(task.id));
      refresh := false;
      logout := false;
      if outcome.Ok? {
        refresh := true;
      } else {
        isCompleted := !isCompleted;
        logout := StatusOf(outcome) == Some(401);
      }
    }

    /** The delete action: the list is refreshed on success, the session ends on 401. */
    method Delete(outcome: Outcome<()>) returns (path: string, refresh: bool, logout: bool)
      ensures path == ApiPaths.Delete(ApiPaths.IdText(task.id))
      ensures refresh <==> outcome.Ok?
      ensures logout <==> StatusOf(outcome) == Some(401)
      ensures !(refresh && logout)
    {
      path := ApiPaths.Delete(ApiPaths.IdText(task.id));
      refresh := outcome.Ok?;
      logout := StatusOf(outcome) == Some(401);
    }

    /** The checkbox of subtask `i`. */
    method ToggleSubtask(i: nat)
      modifies this
      ensures subtasks == ToggleAt(old(subtasks), i)
      ensures task == old(task) && isCompleted == old(isCompleted)
    {
      subtasks := ToggleAt(subtasks, i);
    }
  }
}
