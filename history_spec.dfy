/** The caretaker's state machine as values: the list of saved mementos and
    the cursor `currentState`, with save, undo and redo as pure functions.
    The editor's content travels alongside as a plain string. */
module HistorySpec {

  /** A memento: one saved copy of the editor's content. As a value it can
      never change after it has been built. */
  datatype TextEditorMemento = TextEditorMemento(savedContent: string) {
    /** The saved content, as it was when the memento was built. */
    function GetSavedContent(): (s: string)
      ensures s == savedContent
    {
      savedContent
    }
  }

  /** A memento hands back exactly the content it was built with, and two
      mementos are interchangeable exactly when their contents agree. */
  lemma MementoKeepsContent(content: string, other: TextEditorMemento)
    ensures TextEditorMemento(content).GetSavedContent() == content
    ensures other == TextEditorMemento(content) <==> other.GetSavedContent() == content
  {
  }

  /** The caretaker's state: the saved snapshots in save order and the
      cursor into them (-1 while nothing has been saved). */
  datatype HistoryState = HistoryState(snapshots: seq<TextEditorMemento>, cursor: int)

  /** A freshly built caretaker. */
  const Empty: HistoryState := HistoryState([], -1)

  /** The caretaker's invariant: the cursor is -1 or indexes a snapshot, and
      it is -1 exactly when nothing has been saved. */
  predicate Inv(h: HistoryState) {
    -1 <= h.cursor < |h.snapshots| && (h.cursor == -1 <==> h.snapshots == [])
  }

  /** Store a memento of `content` at the end of the history and point the
      cursor at it. Nothing already stored is dropped or moved, whatever the
      cursor was before. */
  function Save(h: HistoryState, content: string): (r: HistoryState)
    ensures |r.snapshots| == |h.snapshots| + 1
    ensures r.snapshots[..|h.snapshots|] == h.snapshots
    ensures r.snapshots[|h.snapshots|].savedContent == content
    ensures r.cursor == |h.snapshots|
    ensures Inv(r) && !CanRedo(r)
  {
    var snapshots := h.snapshots + [TextEditorMemento(content)];
    HistoryState(snapshots, |snapshots| - 1)
  }

  /** Undo is allowed when there is an earlier snapshot; under the
      invariant the snapshot it moves to is then a stored one. */
  predicate CanUndo(h: HistoryState)
    ensures CanUndo(h) && Inv(h) ==> 0 <= h.cursor - 1 < |h.snapshots| - 1
    ensures Inv(h) && |h.snapshots| <= 1 ==> !CanUndo(h)
  {
    h.cursor > 0
  }

  /** Redo is allowed when there is a later snapshot; under the invariant
      the snapshot it moves to is then a stored one. */
  predicate CanRedo(h: HistoryState)
    ensures CanRedo(h) && Inv(h) ==> 0 < h.cursor + 1 < |h.snapshots|
    ensures Inv(h) && h.snapshots != [] ==> (CanRedo(h) <==> h.cursor != |h.snapshots| - 1)
  {
    h.cursor < |h.snapshots| - 1
  }

  /** Step the cursor back one snapshot and hand that snapshot's content to
      the editor; a silent no-op when there is nothing earlier. The result
      is the new history and the editor's new content. */
  function Undo(h: HistoryState, content: string): (r: (HistoryState, string))
    requires Inv(h)
    ensures Inv(r.0) && r.0.snapshots == h.snapshots
    ensures CanUndo(h) ==> r.0.cursor == h.cursor - 1 && r.1 == h.snapshots[h.cursor - 1].savedContent
    ensures !CanUndo(h) ==> r.0 == h && r.1 == content
  {
    if CanUndo(h) then
      var cursor := h.cursor - 1;
      (HistoryState(h.snapshots, cursor), h.snapshots[cursor].savedContent)
    else
      (h, content)
  }

  /** Step the cursor forward one snapshot and hand that snapshot's content
      to the editor; a silent no-op when there is nothing later. */
  function Redo(h: HistoryState, content: string): (r: (HistoryState, string))
    requires Inv(h)
    ensures Inv(r.0) && r.0.snapshots == h.snapshots
    ensures CanRedo(h) ==> r.0.cursor == h.cursor + 1 && r.1 == h.snapshots[h.cursor + 1].savedContent
    ensures !CanRedo(h) ==> r.0 == h && r.1 == content
  {
    if CanRedo(h) then
      var cursor := h.cursor + 1;
      (HistoryState(h.snapshots, cursor), h.snapshots[cursor].savedContent)
    else
      (h, content)
  }

  /** A new caretaker holds nothing, satisfies the invariant and can neither
      undo nor redo. */
  lemma EmptyIsValid()
    ensures Inv(Empty) && Empty.snapshots == []
    ensures !CanUndo(Empty) && !CanRedo(Empty)
  {
  }

  /** Under the invariant, undo is possible exactly when an earlier snapshot
      exists, so with zero or one snapshot undo changes nothing. */
  lemma CanUndoNeedsTwoSnapshots(h: HistoryState, content: string)
    requires Inv(h)
    ensures CanUndo(h) ==> |h.snapshots| >= 2
    ensures |h.snapshots| <= 1 ==> !CanUndo(h) && Undo(h, content) == (h, content)
  {
  }

  /** Under the invariant, redo is impossible exactly when the cursor is on
      the newest snapshot or nothing was saved. */
  lemma CannotRedoIffAtNewest(h: HistoryState)
    requires Inv(h)
    ensures !CanRedo(h) <==> (h.snapshots == [] || h.cursor == |h.snapshots| - 1)
  {
  }

  /** A save made after an undo keeps the forward snapshots: every snapshot
      stored before stays at its index. */
  lemma SaveKeepsEverySnapshot(h: HistoryState, content: string, i: int)
    requires 0 <= i < |h.snapshots|
    ensures Save(h, content).snapshots[i] == h.snapshots[i]
  {
  }

  /** A successful undo makes redo possible, and undo followed by redo puts
      the cursor back where it was and the editor on that snapshot. */
  lemma UndoThenRedo(h: HistoryState, content: string)
    requires Inv(h) && CanUndo(h)
    ensures CanRedo(Undo(h, content).0)
    ensures var (h1, c1) := Undo(h, content);
            Redo(h1, c1) == (h, h.snapshots[h.cursor].savedContent)
  {
  }

  /** A successful redo makes undo possible, and redo followed by undo puts
      the cursor back where it was and the editor on that snapshot. */
  lemma RedoThenUndo(h: HistoryState, content: string)
    requires Inv(h) && CanRedo(h)
    ensures CanUndo(Redo(h, content).0)
    ensures var (h1, c1) := Redo(h, content);
            Undo(h1, c1) == (h, h.snapshots[h.cursor].savedContent)
  {
  }
}
