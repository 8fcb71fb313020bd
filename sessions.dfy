/** Editing sessions: an editor's content and its caretaker driven by a
    sequence of calls, as a client would make them. */
module Sessions {
  import opened HistorySpec

  /** The calls a client makes: edit the editor, or ask the caretaker to
      save, undo or redo. */
  datatype Op = AppendOp(text: string) | SaveOp | UndoOp | RedoOp

  /** The editor's content together with its caretaker's state. */
  datatype Session = Session(content: string, history: HistoryState)

  /** A new editor (empty content) with a new caretaker. */
  const Initial: Session := Session("", Empty)

  /** One call. Every call keeps the caretaker's invariant, and no call ever
      drops or rewrites a stored snapshot. */
  function Step(s: Session, op: Op): (r: Session)
    requires Inv(s.history)
    ensures Inv(r.history)
    ensures s.history.snapshots <= r.history.snapshots
    ensures |r.history.snapshots| == |s.history.snapshots| + (if op == SaveOp then 1 else 0)
  {
    match op
    case AppendOp(text) => Session(s.content + text, s.history)
    case SaveOp => Session(s.content, Save(s.history, s.content))
    case UndoOp => var (h, c) := Undo(s.history, s.content); Session(c, h)
    case RedoOp => var (h, c) := Redo(s.history, s.content); Session(c, h)
  }

  function SaveCount(ops: seq<Op>): nat {
    if ops == [] then 0 else (if ops[0] == SaveOp then 1 else 0) + SaveCount(ops[1..])
  }

  /** A sequence of calls, made in order. Every reachable state keeps the
      invariant, the snapshots are only ever extended, and they grow by
      exactly one per save. */
  function Run(s: Session, ops: seq<Op>): (r: Session)
    requires Inv(s.history)
    ensures Inv(r.history)
    ensures s.history.snapshots <= r.history.snapshots
    ensures |r.history.snapshots| == |s.history.snapshots| + SaveCount(ops)
    decreases |ops|
  {
    if ops == [] then s else Run(Step(s, ops[0]), ops[1..])
  }

  /** Running two call sequences one after the other is running their
      concatenation. */
  lemma {:induction false} RunConcat(s: Session, a: seq<Op>, b: seq<Op>)
    requires Inv(s.history)
    ensures Run(s, a + b) == Run(Run(s, a), b)
    decreases |a|
  {
    if a == [] {
      assert a + b == b;
    } else {
      assert (a + b)[0] == a[0];
      assert (a + b)[1..] == a[1..] + b;
      RunConcat(Step(s, a[0]), a[1..], b);
    }
  }

  /** One append call per string, in order. */
  function Appends(texts: seq<string>): seq<Op> {
    if texts == [] then [] else [AppendOp(texts[0])] + Appends(texts[1..])
  }

  /** All strings joined in order. */
  function Concat(texts: seq<string>): string {
    if texts == [] then "" else texts[0] + Concat(texts[1..])
  }

  /** Appending a series of strings extends the content by their
      concatenation and leaves the caretaker alone. */
  lemma {:induction false} RunAppends(s: Session, texts: seq<string>)
    requires Inv(s.history)
    ensures Run(s, Appends(texts)) == Session(s.content + Concat(texts), s.history)
    decreases |texts|
  {
    if texts != [] {
      var ops := Appends(texts);
      assert ops[0] == AppendOp(texts[0]) && ops[1..] == Appends(texts[1..]);
      RunAppends(Step(s, ops[0]), texts[1..]);
      assert s.content + texts[0] + Concat(texts[1..]) == s.content + Concat(texts);
    }
  }

  /** A new editor given any series of appends and then saved holds, and has
      saved as its only snapshot, the concatenation of the appended strings. */
  lemma AppendsThenSave(texts: seq<string>)
    ensures Run(Initial, Appends(texts) + [SaveOp]).content == Concat(texts)
    ensures Run(Initial, Appends(texts) + [SaveOp]).history
            == HistoryState([TextEditorMemento(Concat(texts))], 0)
  {
    RunConcat(Initial, Appends(texts), [SaveOp]);
    RunAppends(Initial, texts);
  }

  /** `k` copies of one call. */
  function Repeat(op: Op, k: nat): seq<Op> {
    if k == 0 then [] else [op] + Repeat(op, k - 1)
  }

  lemma {:induction false} RepeatSnoc(op: Op, k: nat)
    requires k > 0
    ensures Repeat(op, k) == Repeat(op, k - 1) + [op]
  {
    if k > 1 {
      RepeatSnoc(op, k - 1);
    }
  }

  /** Undoing `k` times and then redoing `k` times, with no save in between,
      returns the caretaker to exactly where it was; if anything was undone,
      the editor ends on the snapshot at the original cursor. */
  lemma {:induction false} UndoRedoRoundTrip(s: Session, k: nat)
    requires Inv(s.history) && k <= s.history.cursor
    ensures Run(s, Repeat(UndoOp, k) + Repeat(RedoOp, k)).history == s.history
    ensures k > 0 ==>
              Run(s, Repeat(UndoOp, k) + Repeat(RedoOp, k)).content
              == s.history.snapshots[s.history.cursor].savedContent
    decreases k
  {
    if k > 0 {
      var middle := Repeat(UndoOp, k - 1) + Repeat(RedoOp, k - 1);
      RepeatSnoc(RedoOp, k);
      assert Repeat(UndoOp, k) + Repeat(RedoOp, k) == [UndoOp] + middle + [RedoOp];
      RunConcat(s, [UndoOp] + middle, [RedoOp]);
      RunConcat(s, [UndoOp], middle);
      var s1 := Step(s, UndoOp);
      assert Run(s, [UndoOp]) == s1;
      UndoRedoRoundTrip(s1, k - 1);
      var r1 := Run(s1, middle);
      assert r1.history == s1.history;
      assert Run(r1, [RedoOp]) == Step(r1, RedoOp);
    }
  }

  /** The call sequence of the demonstration: after two appends each
      followed by a save the content is "Hello, world!", undo brings back
      "Hello, " and redo "Hello, world!" again. */
  lemma HelloWorldScenario()
    ensures var s := Run(Initial, [AppendOp("Hello, "), SaveOp, AppendOp("world!"), SaveOp]);
            s.content == "Hello, world!" &&
            Step(s, UndoOp).content == "Hello, " &&
            Step(Step(s, UndoOp), RedoOp).content == "Hello, world!"
  {
  }

  /** With a single snapshot undo is a no-op: the content stays "A" and undo
      stays impossible. */
  lemma SingleSnapshotScenario()
    ensures var s := Run(Initial, [AppendOp("A"), SaveOp, UndoOp]);
            s.content == "A" && !CanUndo(s.history)
  {
  }

  /** Two calls in a row are the two steps one after the other. */
  lemma RunTwo(s: Session, a: Op, b: Op)
    requires Inv(s.history)
    ensures Run(s, [a, b]) == Step(Step(s, a), b)
  {
    var s1 := Step(s, a);
    var s2 := Step(s1, b);
    assert [a, b][0] == a && [a, b][1..] == [b];
    assert Run(s, [a, b]) == Run(s1, [b]);
    assert [b][0] == b && [b][1..] == [];
    assert Run(s1, [b]) == Run(s2, []);
  }

  /** Two edits each saved, one undo, then a save. */
  const ForwardBranchOps: seq<Op> := [AppendOp("A"), SaveOp, AppendOp("B"), SaveOp, UndoOp, SaveOp]

  /** Saving after an undo does not cut off the forward branch: the stale
      "AB" snapshot stays stored, the new snapshot is appended after it and
      the cursor jumps to the end, so redo is impossible. */
  lemma SaveAfterUndoKeepsForwardBranch()
    ensures Run(Initial, ForwardBranchOps)
            == Session("A", HistoryState([TextEditorMemento("A"), TextEditorMemento("AB"),
                                          TextEditorMemento("A")], 2))
    ensures !CanRedo(Run(Initial, ForwardBranchOps).history)
  {
    var first, second, third := [AppendOp("A"), SaveOp], [AppendOp("B"), SaveOp], [UndoOp, SaveOp];
    var a, ab := TextEditorMemento("A"), TextEditorMemento("AB");
    var s2 := Session("A", HistoryState([a], 0));
    var s4 := Session("AB", HistoryState([a, ab], 1));
    var s6 := Session("A", HistoryState([a, ab, a], 2));
    RunTwo(Initial, AppendOp("A"), SaveOp);
    assert Step(Initial, AppendOp("A")) == Session("A", Empty);
    assert Step(Session("A", Empty), SaveOp) == s2;
    RunTwo(s2, AppendOp("B"), SaveOp);
    assert Step(s2, AppendOp("B")) == Session("AB", s2.history);
    assert Step(Session("AB", s2.history), SaveOp) == s4;
    RunTwo(s4, UndoOp, SaveOp);
    assert Step(s4, UndoOp) == Session("A", HistoryState([a, ab], 0));
    assert Step(Session("A", HistoryState([a, ab], 0)), SaveOp) == s6;
    RunConcat(Initial, first, second);
    RunConcat(Initial, first + second, third);
    assert first + second + third == ForwardBranchOps;
  }
}
