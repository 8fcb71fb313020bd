# Memento undo/redo for a text editor, in Dafny

This project models the undo/redo machinery of `MementoPattern.java`. There are three roles:

- `TextEditor` is the originator. It holds a mutable `content` string. It can append text, export its content as a memento, and restore its content from a memento.
- `TextEditorMemento` is an immutable holder of one saved string.
- `TextEditorHistory` is the caretaker. It keeps the list of saved mementos and a cursor, `currentState`. Its operations are `save`, `canUndo`, `undo`, `canRedo` and `redo`.

The model has three layers:

- `history_spec.dfy`, module `HistorySpec`. The caretaker's state as a value (`HistoryState`: snapshots and cursor), its invariant `Inv`, and save/undo/redo as pure functions. Lemmas cover the guards and the undo/redo round trips. The memento is the datatype `TextEditorMemento`; it is a value, so its saved content cannot change after construction.
- `sessions.dfy`, module `Sessions`. A client's call sequence (append, save, undo, redo) replayed from a new editor and caretaker. Inductive lemmas cover every reachable state. A scenario lemma gives the call sequence of `main`.
- `memento_pattern.dfy`, module `MementoPattern`. The classes `TextEditor` and `TextEditorHistory`, with the source's fields updated in place. The `TextEditor` methods state their effect on `content` directly. Each `TextEditorHistory` method is proved against the `HistorySpec` function for that operation. `RunDemo` is `main` without its printing.

`save` is modelled as the code is written. It always appends at the end of the list and never truncates the snapshots beyond the cursor, even right after an undo. A common alternative truncates the snapshots after the cursor before appending; this code does not, and neither does the model. `Sessions.SaveAfterUndoKeepsForwardBranch` pins down this policy.

## Model

| member | source | states |
|---|---|---|
| HistorySpec.TextEditorMemento.GetSavedContent | MementoPattern.java:37-39 | returns the content the memento holds |
| HistorySpec.MementoKeepsContent | MementoPattern.java:30-40 | a memento built from a content hands back exactly that content, and two mementos are equal exactly when their contents are |
| HistorySpec.CanUndo | MementoPattern.java:53-55 | true iff `cursor > 0`; under the invariant the snapshot undo moves to is then a stored one; with zero or one snapshot it is false |
| HistorySpec.CanRedo | MementoPattern.java:65-67 | true iff `cursor < size - 1`; under the invariant the snapshot redo moves to is then a stored one, and with snapshots stored it is false exactly when the cursor is on the newest |
| HistorySpec.Save | MementoPattern.java:47-51 | exactly one snapshot is added, holding the given content, at the end; every earlier snapshot stays in place; the cursor ends on the new snapshot, so the invariant holds and redo is impossible |
| HistorySpec.Undo | MementoPattern.java:53-63 | keeps the invariant and the snapshot list; when `cursor > 0` the cursor drops by one and the content becomes the snapshot at the new cursor; otherwise neither the history nor the content changes |
| HistorySpec.Redo | MementoPattern.java:65-75 | keeps the invariant and the snapshot list; when `cursor < size - 1` the cursor rises by one and the content becomes the snapshot at the new cursor; otherwise neither the history nor the content changes |
| HistorySpec.EmptyIsValid | MementoPattern.java:44-45 | a new caretaker (no snapshots, cursor -1) satisfies the invariant and can neither undo nor redo |
| HistorySpec.CanUndoNeedsTwoSnapshots | MementoPattern.java:53-63 | under the invariant, undo is possible only with at least two snapshots; with zero or one snapshot undo is a no-op |
| HistorySpec.CannotRedoIffAtNewest | MementoPattern.java:65-67 | under the invariant, redo is impossible exactly when nothing was saved or the cursor is on the newest snapshot |
| HistorySpec.SaveKeepsEverySnapshot | MementoPattern.java:47-51 | a save leaves every snapshot that was already stored unchanged at its index, whatever the cursor was |
| HistorySpec.UndoThenRedo | MementoPattern.java:57-75 | after a successful undo, redo is possible; undo then redo restores the original history and sets the content to the snapshot at the original cursor |
| HistorySpec.RedoThenUndo | MementoPattern.java:57-75 | after a successful redo, undo is possible; redo then undo restores the original history and sets the content to the snapshot at the original cursor |
| Sessions.Step | MementoPattern.java:12-75 | any single client call keeps the caretaker's invariant, never removes or rewrites a stored snapshot, and adds a snapshot only on save |
| Sessions.Run | MementoPattern.java:43-75 | every state reachable by a call sequence keeps the invariant; the snapshot list is only ever extended, by exactly one snapshot per save |
| Sessions.RunAppends | MementoPattern.java:12-14 | a series of appends extends the content by the concatenation of the appended strings and leaves the caretaker unchanged |
| Sessions.AppendsThenSave | MementoPattern.java:8-51 | from a new editor, any series of appends followed by a save leaves content equal to the concatenation of the appended strings, stored as the only snapshot with the cursor on it |
| Sessions.UndoRedoRoundTrip | MementoPattern.java:57-75 | undoing k times and then redoing k times (with k at most the cursor) returns the caretaker to its exact starting state; when k > 0 the content is the snapshot at the starting cursor |
| Sessions.HelloWorldScenario | MementoPattern.java:80-95 | append "Hello, ", save, append "world!", save gives "Hello, world!"; undo then gives "Hello, " and redo gives "Hello, world!" |
| Sessions.SingleSnapshotScenario | MementoPattern.java:53-63 | append "A", save, undo leaves the content "A" and undo still impossible |
| Sessions.SaveAfterUndoKeepsForwardBranch | MementoPattern.java:47-51 | two saves, an undo and a save leave three snapshots "A", "AB", "A", with the cursor on the last one and redo impossible: the forward branch is not truncated |
| MementoPattern.TextEditor.constructor | MementoPattern.java:8-10 | a new editor has empty content |
| MementoPattern.TextEditor.AppendText | MementoPattern.java:12-14 | content becomes the old content followed by the text; nothing else changes |
| MementoPattern.TextEditor.GetContent | MementoPattern.java:16-18 | returns the current content and reads only the editor |
| MementoPattern.TextEditor.RestoreFromMemento | MementoPattern.java:20-22 | content becomes the memento's saved content |
| MementoPattern.TextEditor.SaveToMemento | MementoPattern.java:24-26 | returns a memento that holds the current content, and changes nothing |
| MementoPattern.TextEditorHistory.constructor | MementoPattern.java:44-45 | a new caretaker holds no snapshots, its cursor is -1 and the invariant holds |
| MementoPattern.TextEditorHistory.Save | MementoPattern.java:47-51 | the new state is `HistorySpec.Save` of the old state and the editor's content; the editor is not modified; the invariant is kept |
| MementoPattern.TextEditorHistory.CanUndo | MementoPattern.java:53-55 | true iff `currentState > 0`; under the invariant `currentState - 1` then indexes the list |
| MementoPattern.TextEditorHistory.Undo | MementoPattern.java:57-63 | the new state and the editor's new content are `HistorySpec.Undo` of the old ones; the invariant is kept |
| MementoPattern.TextEditorHistory.CanRedo | MementoPattern.java:65-67 | true iff `currentState < size - 1`; under the invariant `currentState + 1` then indexes the list |
| MementoPattern.TextEditorHistory.Redo | MementoPattern.java:69-75 | the new state and the editor's new content are `HistorySpec.Redo` of the old ones; the invariant is kept |
| MementoPattern.RunDemo | MementoPattern.java:79-96 | the three contents the demonstration prints are "Hello, world!", "Hello, " and "Hello, world!" |

## Left out

- Console output in `main` (MementoPattern.java:89-95). This is I/O. `RunDemo` returns the three strings instead of printing them.
- Object identity and aliasing of `TextEditorMemento` (MementoPattern.java:29-40). The memento is a value datatype. Its field is the getter `getSavedContent`, and immutability holds by construction.
- `ArrayList` internals (MementoPattern.java:44). The list is a Dafny `seq` that is appended to and indexed.
- A truncating redo policy. The code does not truncate on save, so the model does not either.
- Every `TextEditorHistory` method requires the invariant `Valid()`. In the Java class it always holds because the fields are private; `EmptyIsValid` and the ensures of each method show it holds initially and is preserved.
- Java `null` (MementoPattern.java:13, 21, 48, 59-61, 71-73). The model's types exclude null references and null strings, so these cases are not modelled: `appendText(null)` appends the four characters "null"; `save(null)` and `restoreFromMemento(null)` throw before changing anything; `undo(null)` and `redo(null)`, when their guard holds, move `currentState` first and then throw, leaving the cursor moved and the content not restored.
