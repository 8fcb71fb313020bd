/** The originator and the caretaker as objects whose fields change in place;
    each method is proved against the functions of HistorySpec. */
module MementoPattern {
  import opened HistorySpec

  /** The originator: a text editor whose content is edited in place. */
  class TextEditor {
    var content: string

    constructor ()
      ensures content == ""
    {
      content := "";
    }

    method AppendText(text: string)
      modifies this
      ensures content == old(content) + text
    {
      content := content + text;
    }

    /** The current content; reading it changes nothing. */
    function GetContent(): (s: string)
      reads this
      ensures s == content
    {
      content
    }

    /** Overwrite the content with the memento's. */
    method RestoreFromMemento(memento: TextEditorMemento)
      modifies this
      ensures content == memento.savedContent
    {
      content := memento.GetSavedContent();
    }

    /** Capture the current content; the editor itself is left alone. */
    method SaveToMemento() returns (memento: TextEditorMemento)
      ensures memento.savedContent == GetContent()
    {
      memento := TextEditorMemento(content);
    }
  }

  /** The caretaker: the list of saved mementos and the cursor into it. */
  class TextEditorHistory {
    var history: seq<TextEditorMemento>
    var currentState: int

    /** The caretaker's state as a value. */
    function State(): HistoryState
      reads this
    {
      HistoryState(history, currentState)
    }

    ghost predicate Valid()
      reads this
    {
      Inv(State())
    }

    constructor ()
      ensures Valid() && State() == Empty
    {
      history := [];
      currentState := -1;
    }

    /** Append a memento of the editor's content and point the cursor at it;
        the editor is not changed. */
    method Save(textEditor: TextEditor)
      requires Valid()
      modifies this
      ensures Valid()
      ensures State() == HistorySpec.Save(old(State()), textEditor.content)
    {
      var memento := textEditor.SaveToMemento();
      history := history + [memento];
      currentState := |history| - 1;
    }

    predicate CanUndo()
      reads this
      ensures CanUndo() <==> currentState > 0
      ensures CanUndo() && Valid() ==> 0 <= currentState - 1 < |history|
    {
      HistorySpec.CanUndo(State())
    }

    method Undo(textEditor: TextEditor)
      requires Valid()
      modifies this, textEditor
      ensures Valid()
      ensures (State(), textEditor.content) == HistorySpec.Undo(old(State()), old(textEditor.content))
    {
      if CanUndo() {
        currentState := currentState - 1;
        var memento := history[currentState];
        textEditor.RestoreFromMemento(memento);
      }
    }

    predicate CanRedo()
      reads this
      ensures CanRedo() <==> currentState < |history| - 1
      ensures CanRedo() && Valid() ==> 0 <= currentState + 1 < |history|
    {
      HistorySpec.CanRedo(State())
    }

    method Redo(textEditor: TextEditor)
      requires Valid()
      modifies this, textEditor
      ensures Valid()
      ensures (State(), textEditor.content) == HistorySpec.Redo(old(State()), old(textEditor.content))
    {
      if CanRedo() {
        currentState := currentState + 1;
        var memento := history[currentState];
        textEditor.RestoreFromMemento(memento);
      }
    }
  }

  /** The demonstration program without its console output: the contents it
      would print after the two saves, after the undo and after the redo. */
  method RunDemo() returns (current: string, afterUndo: string, afterRedo: string)
    ensures current == "Hello, world!"
    ensures afterUndo == "Hello, "
    ensures afterRedo == "Hello, world!"
  {
    var textEditor := new TextEditor();
    var history := new TextEditorHistory();

    textEditor.AppendText("Hello, ");
    history.Save(textEditor);

    textEditor.AppendText("world!");
    history.Save(textEditor);
    assert "Hello, " + "world!" == "Hello, world!";

    current := textEditor.GetContent();

    history.Undo(textEditor);
    afterUndo := textEditor.GetContent();

    history.Redo(textEditor);
    afterRedo := textEditor.GetContent();
  }
}
