/**
 * The decorator variant of the versioned editor (Assignments.Extra): a plain
 * `TextEditor`, the generic undo/redo base `VersionedChanges<TMemento>`, and
 * the `VersionedTextEditor` decorator that gives a wrapped editor a history.
 *
 * `VersionedChanges<M>` is the base class's two stacks as a value; its
 * template methods (`TakeSnapshot`, `UndoInternal`, `RedoInternal`) become
 * the snapshot passed in and the memento handed back to be restored.
 */
module VersionedTextEditorDecorator {
  import opened Outcomes
  import StackEditor = TextEditorMemento

  /** The memento of the decorator: the content it saves. */
  datatype TextEditorMemento = TextEditorMemento(content: string)

  /** The two stacks of `VersionedChanges<M>`; the last element is the top. */
  datatype VersionedChanges<M> = VersionedChanges(undoStack: seq<M>, redoStack: seq<M>)
  {
    function UndoCount(): nat { |undoStack| }
    function RedoCount(): nat { |redoStack| }

    /** `SaveCurrentState`: pushes the snapshot and drops everything that could be redone. */
    function SaveCurrentState(snapshot: M): VersionedChanges<M> {
      VersionedChanges(undoStack + [snapshot], [])
    }

    /**
     * `Undo`, given the snapshot `TakeSnapshot` would take: the new stacks
     * and the memento `UndoInternal` receives.
     */
    function Undo(snapshot: M): Result<(VersionedChanges<M>, M)> {
      if |undoStack| < 1 then Err(InvalidOperation("No more states to undo."))
      else Ok((VersionedChanges(undoStack[..|undoStack| - 1], redoStack + [snapshot]), undoStack[|undoStack| - 1]))
    }

    /** `Redo`, the mirror image of `Undo`. */
    function Redo(snapshot: M): Result<(VersionedChanges<M>, M)> {
      if |redoStack| < 1 then Err(InvalidOperation("No more states to redo."))
      else Ok((VersionedChanges(undoStack + [snapshot], redoStack[..|redoStack| - 1]), redoStack[|redoStack| - 1]))
    }
  }

  /** Undo fails exactly on an empty undo stack; otherwise it moves one memento across and keeps the total. */
  lemma UndoMovesOneMemento<M>(h: VersionedChanges<M>, snapshot: M)
    ensures h.Undo(snapshot).Err? <==> h.undoStack == []
    ensures h.Undo(snapshot).Ok? ==>
      && h.Undo(snapshot).value.1 == h.undoStack[|h.undoStack| - 1]
      && h.Undo(snapshot).value.0.UndoCount() == h.UndoCount() - 1
      && h.Undo(snapshot).value.0.RedoCount() == h.RedoCount() + 1
  {
  }

  /** Redo fails exactly on an empty redo stack; otherwise it moves one memento back and keeps the total. */
  lemma RedoMovesOneMemento<M>(h: VersionedChanges<M>, snapshot: M)
    ensures h.Redo(snapshot).Err? <==> h.redoStack == []
    ensures h.Redo(snapshot).Ok? ==>
      && h.Redo(snapshot).value.1 == h.redoStack[|h.redoStack| - 1]
      && h.Redo(snapshot).value.0.UndoCount() == h.UndoCount() + 1
      && h.Redo(snapshot).value.0.RedoCount() == h.RedoCount() - 1
  {
  }

  /**
   * Undo followed by redo (taking the snapshot of the restored state) gives
   * back the stacks and hands back the snapshot taken by the undo.
   */
  lemma RedoUndoesUndo<M>(h: VersionedChanges<M>, current: M)
    requires h.undoStack != []
    ensures h.Undo(current).Ok?
    ensures var (h', restored) := h.Undo(current).value;
      h'.Redo(restored) == Ok((h, current))
  {
    var u := h.undoStack;
    assert u[..|u| - 1] + [u[|u| - 1]] == u;
    assert (h.redoStack + [current])[..|h.redoStack|] == h.redoStack;
  }

  /** Redo followed by undo gives back the stacks and the snapshot taken by the redo. */
  lemma UndoUndoesRedo<M>(h: VersionedChanges<M>, current: M)
    requires h.redoStack != []
    ensures h.Redo(current).Ok?
    ensures var (h', restored) := h.Redo(current).value;
      h'.Undo(restored) == Ok((h, current))
  {
    var r := h.redoStack;
    assert r[..|r| - 1] + [r[|r| - 1]] == r;
    assert (h.undoStack + [current])[..|h.undoStack|] == h.undoStack;
  }

  /** The plain editor: its content is overwritten by every change. */
  class TextEditor {
    var content: string

    constructor()
      ensures content == ""
    {
      content := "";
    }

    method ChangeContent(text: string)
      modifies this
      ensures content == text
    {
      content := text;
    }
  }

  /** The decorator: a `VersionedChanges<TextEditorMemento>` wrapped around a `TextEditor`. */
  class VersionedTextEditor {
    const textEditor: TextEditor
    var undoStack: seq<TextEditorMemento>
    var redoStack: seq<TextEditorMemento>

    /** The base class's stacks as a value. */
    function History(): VersionedChanges<TextEditorMemento>
      reads this
    {
      VersionedChanges(undoStack, redoStack)
    }

    /** The content is always the wrapped editor's. */
    function Content(): string
      reads this, textEditor
    {
      textEditor.content
    }

    function UndoCount(): nat
      reads this
    {
      |undoStack|
    }

    function RedoCount(): nat
      reads this
    {
      |redoStack|
    }

    function TakeSnapshot(): TextEditorMemento
      reads this, textEditor
    {
      TextEditorMemento(textEditor.content)
    }

    constructor(textEditor: TextEditor)
      ensures this.textEditor == textEditor
      ensures History() == VersionedChanges([], [])
    {
      this.textEditor := textEditor;
      undoStack := [];
      redoStack := [];
    }

    method SaveCurrentState()
      modifies this
      ensures History() == old(History()).SaveCurrentState(old(TakeSnapshot()))
    {
      undoStack := undoStack + [TakeSnapshot()];
      redoStack := [];
    }

    /** Every change is recorded, even one to the current content. */
    method ChangeContent(text: string)
      modifies this, textEditor
      ensures History() == old(History()).SaveCurrentState(TextEditorMemento(old(textEditor.content)))
      ensures Content() == text
    {
      SaveCurrentState();
      textEditor.ChangeContent(text);
    }

    method UndoInternal(memento: TextEditorMemento)
      modifies textEditor
      ensures Content() == memento.content
    {
      textEditor.ChangeContent(memento.content);
    }

    method RedoInternal(memento: TextEditorMemento)
      modifies textEditor
      ensures Content() == memento.content
    {
      textEditor.ChangeContent(memento.content);
    }

    method Undo() returns (outcome: Outcome)
      modifies this, textEditor
      ensures var r := old(History()).Undo(old(TakeSnapshot()));
        if r.Err? then outcome == Threw(r.exception) && History() == old(History()) && Content() == old(Content())
        else outcome == Completed && History() == r.value.0 && Content() == r.value.1.content
    {
      if |undoStack| < 1 {
        return Threw(InvalidOperation("No more states to undo."));
      }
      var memento := undoStack[|undoStack| - 1];
      undoStack := undoStack[..|undoStack| - 1];
      redoStack := redoStack + [TakeSnapshot()];
      UndoInternal(memento);
      outcome := Completed;
    }

    method Redo() returns (outcome: Outcome)
      modifies this, textEditor
      ensures var r := old(History()).Redo(old(TakeSnapshot()));
        if r.Err? then outcome == Threw(r.exception) && History() == old(History()) && Content() == old(Content())
        else outcome == Completed && History() == r.value.0 && Content() == r.value.1.content
    {
      if |redoStack| < 1 {
        return Threw(InvalidOperation("No more states to redo."));
      }
      var memento := redoStack[|redoStack| - 1];
      redoStack := redoStack[..|redoStack| - 1];
      undoStack := undoStack + [TakeSnapshot()];
      RedoInternal(memento);
      outcome := Completed;
    }
  }

  /** The decorator's content and stacks seen as the state of the stack-based editor. */
  function AsEditorState(content: string, h: VersionedChanges<TextEditorMemento>): StackEditor.EditorState {
    StackEditor.EditorState(content, Contents(h.undoStack), Contents(h.redoStack))
  }

  function Contents(ms: seq<TextEditorMemento>): (r: seq<string>)
    ensures |r| == |ms|
    ensures forall i :: 0 <= i < |ms| ==> r[i] == ms[i].content
  {
    if ms == [] then [] else Contents(ms[..|ms| - 1]) + [ms[|ms| - 1].content]
  }

  /**
   * The two editors agree on undo and redo, and on every change to a
   * different text; they differ only in that the decorator also records a
   * change to the same text.
   */
  lemma AgreesWithStackEditor(content: string, h: VersionedChanges<TextEditorMemento>, text: string)
    ensures text != content ==>
      AsEditorState(text, h.SaveCurrentState(TextEditorMemento(content)))
      == AsEditorState(content, h).Change(text)
    ensures text == content ==>
      AsEditorState(content, h).Change(text).undo != AsEditorState(text, h.SaveCurrentState(TextEditorMemento(content))).undo
    ensures h.Undo(TextEditorMemento(content)).Ok? <==> AsEditorState(content, h).Undo().Ok?
    ensures h.Undo(TextEditorMemento(content)).Ok? ==>
      AsEditorState(h.Undo(TextEditorMemento(content)).value.1.content, h.Undo(TextEditorMemento(content)).value.0)
      == AsEditorState(content, h).Undo().value
    ensures h.Redo(TextEditorMemento(content)).Ok? <==> AsEditorState(content, h).Redo().Ok?
    ensures h.Redo(TextEditorMemento(content)).Ok? ==>
      AsEditorState(h.Redo(TextEditorMemento(content)).value.1.content, h.Redo(TextEditorMemento(content)).value.0)
      == AsEditorState(content, h).Redo().value
  {
    var m := TextEditorMemento(content);
    assert Contents(h.undoStack + [m]) == Contents(h.undoStack) + [content];
    assert Contents(h.redoStack + [m]) == Contents(h.redoStack) + [content];
    if h.undoStack != [] {
      assert Contents(h.undoStack[..|h.undoStack| - 1]) == Contents(h.undoStack)[..|h.undoStack| - 1];
    }
    if h.redoStack != [] {
      assert Contents(h.redoStack[..|h.redoStack| - 1]) == Contents(h.redoStack)[..|h.redoStack| - 1];
    }
  }

  /** The first half of the decorator's test: two versions, one undo and one redo. */
  method EditingScenarioStart() returns (e: VersionedTextEditor, observed: seq<(string, nat, nat)>, threw: seq<bool>)
    ensures fresh(e) && fresh(e.textEditor)
    ensures e.Content() == "Version 2"
    ensures e.History() == VersionedChanges([TextEditorMemento(""), TextEditorMemento("Version 1")], [])
    ensures observed == [("", 0, 0), ("Version 1", 1, 0), ("Version 2", 2, 0), ("Version 1", 1, 1), ("Version 2", 2, 0)]
    ensures threw == [true, true]
  {
    var inner := new TextEditor();
    e := new VersionedTextEditor(inner);
    var s0 := (e.Content(), e.UndoCount(), e.RedoCount());
    var o1 := e.Undo();
    assert o1.Threw? && e.History() == VersionedChanges([], []);
    e.ChangeContent("Version 1");
    assert e.History() == VersionedChanges([TextEditorMemento("")], []);
    var s1 := (e.Content(), e.UndoCount(), e.RedoCount());
    var o2 := e.Redo();
    assert o2.Threw? && e.Content() == "Version 1";
    threw := [o1.Threw?, o2.Threw?];
    e.ChangeContent("Version 2");
    assert e.History() == VersionedChanges([TextEditorMemento(""), TextEditorMemento("Version 1")], []);
    var s2 := (e.Content(), e.UndoCount(), e.RedoCount());
    var _ := e.Undo();
    assert e.Content() == "Version 1";
    assert e.History() == VersionedChanges([TextEditorMemento("")], [TextEditorMemento("Version 2")]);
    var s3 := (e.Content(), e.UndoCount(), e.RedoCount());
    var _ := e.Redo();
    assert e.Content() == "Version 2";
    var s4 := (e.Content(), e.UndoCount(), e.RedoCount());
    observed := [s0, s1, s2, s3, s4];
  }

  /** The test's third version replaces the second: undo, then "Version 3". */
  method ReplaceSecondVersion(e: VersionedTextEditor) returns (s5: (string, nat, nat))
    requires e.Content() == "Version 2"
    requires e.History() == VersionedChanges([TextEditorMemento(""), TextEditorMemento("Version 1")], [])
    modifies e, e.textEditor
    ensures e.Content() == "Version 3"
    ensures e.History() == VersionedChanges([TextEditorMemento(""), TextEditorMemento("Version 1")], [])
    ensures s5 == ("Version 3", 2, 0)
  {
    var _ := e.Undo();
    assert e.Content() == "Version 1";
    assert e.History() == VersionedChanges([TextEditorMemento("")], [TextEditorMemento("Version 2")]);
    e.ChangeContent("Version 3");
    s5 := (e.Content(), e.UndoCount(), e.RedoCount());
  }

  /** Two undos back to the empty text, then two redos forward to "Version 3". */
  method UndoTwiceRedoTwice(e: VersionedTextEditor) returns (s6: (string, nat, nat), s7: (string, nat, nat))
    requires e.Content() == "Version 3"
    requires e.History() == VersionedChanges([TextEditorMemento(""), TextEditorMemento("Version 1")], [])
    modifies e, e.textEditor
    ensures s6 == ("", 0, 2) && s7 == ("Version 3", 2, 0)
  {
    var _ := e.Undo();
    assert e.Content() == "Version 1";
    assert e.History() == VersionedChanges([TextEditorMemento("")], [TextEditorMemento("Version 3")]);
    var _ := e.Undo();
    assert e.Content() == "";
    assert e.History() == VersionedChanges([], [TextEditorMemento("Version 3"), TextEditorMemento("Version 1")]);
    s6 := (e.Content(), e.UndoCount(), e.RedoCount());
    var _ := e.Redo();
    assert e.Content() == "Version 1";
    assert e.History() == VersionedChanges([TextEditorMemento("")], [TextEditorMemento("Version 3")]);
    var _ := e.Redo();
    s7 := (e.Content(), e.UndoCount(), e.RedoCount());
  }

  /** The decorator's test: the same scenario and observations as the stack-based editor's. */
  method EditingScenario() returns (observed: seq<(string, nat, nat)>, threw: seq<bool>)
    ensures observed == [
      ("", 0, 0), ("Version 1", 1, 0), ("Version 2", 2, 0), ("Version 1", 1, 1),
      ("Version 2", 2, 0), ("Version 3", 2, 0), ("", 0, 2), ("Version 3", 2, 0)]
    ensures threw == [true, true]
  {
    var e;
    e, observed, threw := EditingScenarioStart();
    var s5 := ReplaceSecondVersion(e);
    var s6, s7 := UndoTwiceRedoTwice(e);
    observed := observed + [s5, s6, s7];
  }
}
