/**
 * The undo/redo text editor `VersionedTextEditor` of the Assignments
 * namespace: the content plus two stacks of content snapshots.
 *
 * `EditorState` is the editor's state as a value and its member functions
 * are the operations on it; the class `VersionedTextEditor` keeps the same
 * state in fields and its methods are proved to move it as those functions
 * say.  Stacks are sequences whose last element is the top.
 */
module TextEditorMemento {
  import opened Outcomes

  datatype EditorState = EditorState(content: string, undo: seq<string>, redo: seq<string>)
  {
    /** `ChangeContent`: an edit to the same text is ignored; otherwise the old text is saved and redo is dropped. */
    function Change(text: string): EditorState {
      if text == content then this
      else EditorState(text, undo + [content], [])
    }

    /** `Undo`: swaps the current text for the top undo snapshot, saving it for redo. */
    function Undo(): Result<EditorState> {
      if |undo| == 0 then Err(InvalidOperation("Cannot undo"))
      else Ok(EditorState(undo[|undo| - 1], undo[..|undo| - 1], redo + [content]))
    }

    /** `Redo`: the mirror image of `Undo`. */
    function Redo(): Result<EditorState> {
      if |redo| == 0 then Err(InvalidOperation("Cannot redo"))
      else Ok(EditorState(redo[|redo| - 1], undo + [content], redo[..|redo| - 1]))
    }

    /** `n` successive undos, failing as soon as one fails. */
    function UndoTimes(n: nat): Result<EditorState>
      decreases n
    {
      if n == 0 then Ok(this)
      else match Undo()
        case Err(e) => Err(e)
        case Ok(s) => s.UndoTimes(n - 1)
    }

    /** `n` successive redos, failing as soon as one fails. */
    function RedoTimes(n: nat): Result<EditorState>
      decreases n
    {
      if n == 0 then Ok(this)
      else match Redo()
        case Err(e) => Err(e)
        case Ok(s) => s.RedoTimes(n - 1)
    }
  }

  /** A new editor: empty content, no history. */
  const Initial := EditorState("", [], [])

  /** Editing to the current text changes nothing at all. */
  lemma ChangeToSameContentIsNoOp(s: EditorState)
    ensures s.Change(s.content) == s
  {
  }

  /** A real edit records exactly one undo step, makes redo impossible, and can be undone. */
  lemma ChangeRecordsOneStep(s: EditorState, text: string)
    requires text != s.content
    ensures s.Change(text).content == text
    ensures |s.Change(text).undo| == |s.undo| + 1
    ensures s.Change(text).redo == []
    ensures s.Change(text).Undo() == Ok(EditorState(s.content, s.undo, [text]))
  {
    var u := s.undo + [s.content];
    assert s.Change(text) == EditorState(text, u, []);
    assert u[..|s.undo|] == s.undo && u[|s.undo|] == s.content;
    assert [] + [text] == [text];
    assert EditorState(text, u, []).Undo() == Ok(EditorState(s.content, s.undo, [text]));
  }

  /** Undo fails exactly when there is nothing to undo; otherwise it moves one snapshot between the stacks. */
  lemma UndoMovesOneSnapshot(s: EditorState)
    ensures s.Undo().Err? <==> s.undo == []
    ensures s.Undo().Ok? ==>
      && s.Undo().value.content == s.undo[|s.undo| - 1]
      && |s.Undo().value.undo| == |s.undo| - 1
      && |s.Undo().value.redo| == |s.redo| + 1
  {
  }

  /** Redo fails exactly when there is nothing to redo; otherwise it moves one snapshot back. */
  lemma RedoMovesOneSnapshot(s: EditorState)
    ensures s.Redo().Err? <==> s.redo == []
    ensures s.Redo().Ok? ==>
      && s.Redo().value.content == s.redo[|s.redo| - 1]
      && |s.Redo().value.undo| == |s.undo| + 1
      && |s.Redo().value.redo| == |s.redo| - 1
  {
  }

  /** Undo followed by redo gives back the state before the undo. */
  lemma RedoUndoesUndo(s: EditorState)
    requires s.undo != []
    ensures s.Undo().Ok? && s.Undo().value.Redo() == Ok(s)
  {
    assert s.undo[..|s.undo| - 1] + [s.undo[|s.undo| - 1]] == s.undo;
    assert (s.redo + [s.content])[..|s.redo|] == s.redo;
  }

  /** Redo followed by undo gives back the state before the redo. */
  lemma UndoUndoesRedo(s: EditorState)
    requires s.redo != []
    ensures s.Redo().Ok? && s.Redo().value.Undo() == Ok(s)
  {
    assert s.redo[..|s.redo| - 1] + [s.redo[|s.redo| - 1]] == s.redo;
    assert (s.undo + [s.content])[..|s.undo|] == s.undo;
  }

  /** Undo and redo never change the total number of snapshots kept. */
  lemma HistorySizeIsConserved(s: EditorState)
    ensures s.Undo().Ok? ==> |s.Undo().value.undo| + |s.Undo().value.redo| == |s.undo| + |s.redo|
    ensures s.Redo().Ok? ==> |s.Redo().value.undo| + |s.Redo().value.redo| == |s.undo| + |s.redo|
  {
  }

  /**
   * Undoing `n` steps succeeds while there are `n` snapshots, and that many
   * redos afterwards restore the state exactly.
   */
  lemma {:induction false} RedoTimesUndoesUndoTimes(s: EditorState, n: nat)
    requires n <= |s.undo|
    ensures s.UndoTimes(n).Ok?
    ensures s.UndoTimes(n).value.RedoTimes(n) == Ok(s)
    decreases n
  {
    if n > 0 {
      RedoUndoesUndo(s);
      var t := s.Undo().value;
      RedoTimesUndoesUndoTimes(t, n - 1);
      var u := t.UndoTimes(n - 1).value;
      RedoTimesLast(u, n - 1);
    }
  }

  /** `n` redos are `n - 1` redos followed by one more. */
  lemma {:induction false} RedoTimesLast(s: EditorState, n: nat)
    ensures s.RedoTimes(n + 1) == (match s.RedoTimes(n) case Err(e) => Err(e) case Ok(t) => t.Redo())
    decreases n
  {
    if n > 0 {
      match s.Redo()
      case Err(_) =>
      case Ok(t) => RedoTimesLast(t, n - 1);
    }
  }

  /** An edit made after an undo makes the undone version unreachable: redo is emptied. */
  lemma ChangeAfterUndoDiscardsRedo(s: EditorState, text: string)
    requires s.undo != [] && text != s.Undo().value.content
    ensures s.Undo().value.Change(text).redo == []
    ensures |s.Undo().value.Change(text).undo| == |s.undo|
  {
  }

  class VersionedTextEditor {
    var content: string
    var undoHistory: seq<string>
    var redoHistory: seq<string>

    /** The editor's state as a value. */
    function State(): EditorState
      reads this
    {
      EditorState(content, undoHistory, redoHistory)
    }

    function UndoCount(): nat
      reads this
    {
      |undoHistory|
    }

    function RedoCount(): nat
      reads this
    {
      |redoHistory|
    }

    function Content(): string
      reads this
    {
      content
    }

    constructor()
      ensures State() == Initial
    {
      content := "";
      undoHistory := [];
      redoHistory := [];
    }

    method ChangeContent(text: string)
      modifies this
      ensures State() == old(State()).Change(text)
    {
      if text == content {
        return;
      }
      undoHistory := undoHistory + [content];
      content := text;
      redoHistory := [];
    }

    method Redo() returns (outcome: Outcome)
      modifies this
      ensures old(State()).Redo().Err? ==> outcome == Threw(old(State()).Redo().exception) && State() == old(State())
      ensures old(State()).Redo().Ok? ==> outcome == Completed && State() == old(State()).Redo().value
    {
      if |redoHistory| == 0 {
        return Threw(InvalidOperation("Cannot redo"));
      }
      undoHistory := undoHistory + [content];
      content := redoHistory[|redoHistory| - 1];
      redoHistory := redoHistory[..|redoHistory| - 1];
      outcome := Completed;
    }

    method Undo() returns (outcome: Outcome)
      modifies this
      ensures old(State()).Undo().Err? ==> outcome == Threw(old(State()).Undo().exception) && State() == old(State())
      ensures old(State()).Undo().Ok? ==> outcome == Completed && State() == old(State()).Undo().value
    {
      if |undoHistory| == 0 {
        return Threw(InvalidOperation("Cannot undo"));
      }
      redoHistory := redoHistory + [content];
      content := undoHistory[|undoHistory| - 1];
      undoHistory := undoHistory[..|undoHistory| - 1];
      outcome := Completed;
    }
  }

  /** The first half of the assignment's test: two versions, one undo and one redo. */
  method EditingScenarioStart() returns (e: VersionedTextEditor, observed: seq<(string, nat, nat)>, threw: seq<bool>)
    ensures fresh(e) && e.State() == EditorState("Version 2", ["", "Version 1"], [])
    ensures observed == [("", 0, 0), ("Version 1", 1, 0), ("Version 2", 2, 0), ("Version 1", 1, 1), ("Version 2", 2, 0)]
    ensures threw == [true, true]
  {
    var v1, v2 := "Version 1", "Version 2";
    assert |v1| != 0 && v2[8] != v1[8];
    e := new VersionedTextEditor();
    var s0 := (e.Content(), e.UndoCount(), e.RedoCount());
    var o1 := e.Undo();
    e.ChangeContent(v1);
    var s1 := (e.Content(), e.UndoCount(), e.RedoCount());
    var o2 := e.Redo();
    threw := [o1.Threw?, o2.Threw?];
    e.ChangeContent(v2);
    assert e.State() == EditorState(v2, ["", v1], []);
    var s2 := (e.Content(), e.UndoCount(), e.RedoCount());
    var _ := e.Undo();
    var s3 := (e.Content(), e.UndoCount(), e.RedoCount());
    var _ := e.Redo();
    var s4 := (e.Content(), e.UndoCount(), e.RedoCount());
    observed := [s0, s1, s2, s3, s4];
  }

  /** After an undo, "Version 3" replaces the undone second version. */
  method ReplaceSecondVersion(e: VersionedTextEditor) returns (s5: (string, nat, nat))
    requires e.State() == EditorState("Version 2", ["", "Version 1"], [])
    modifies e
    ensures e.State() == EditorState("Version 3", ["", "Version 1"], [])
    ensures s5 == ("Version 3", 2, 0)
  {
    var v1, v3 := "Version 1", "Version 3";
    assert v3[8] != v1[8];
    var _ := e.Undo();
    assert e.State() == EditorState(v1, [""], ["Version 2"]);
    e.ChangeContent(v3);
    s5 := (e.Content(), e.UndoCount(), e.RedoCount());
  }

  /** Undoing twice reaches the empty text, and redoing twice returns to "Version 3". */
  method UndoTwiceRedoTwice(e: VersionedTextEditor) returns (s6: (string, nat, nat), s7: (string, nat, nat))
    requires e.State() == EditorState("Version 3", ["", "Version 1"], [])
    modifies e
    ensures s6 == ("", 0, 2) && s7 == ("Version 3", 2, 0)
  {
    var v1, v3 := "Version 1", "Version 3";
    var _ := e.Undo();
    assert e.State() == EditorState(v1, [""], [v3]);
    var _ := e.Undo();
    assert e.State() == EditorState("", [], [v3, v1]);
    s6 := (e.Content(), e.UndoCount(), e.RedoCount());
    var _ := e.Redo();
    assert e.State() == EditorState(v1, [""], [v3]);
    var _ := e.Redo();
    s7 := (e.Content(), e.UndoCount(), e.RedoCount());
  }

  /**
   * The assignment's test: after an undo, a third version replaces the
   * undone second one; undoing twice reaches the empty text and redoing
   * twice returns to the third version.
   */
  method EditingScenario() returns (observed: seq<(string, nat, nat)>, threw: seq<bool>)
    ensures observed == [
      ("", 0, 0), ("Version 1", 1, 0), ("Version 2", 2, 0), ("Version 1", 1, 1),
      ("Version 2", 2, 0), ("Version 3", 2, 0), ("", 0, 2), ("Version 3", 2, 0)]
    ensures threw == [true, true]
  {
    var e;
    e, observed, threw := EditingScenarioStart();
    var s5 := ReplaceSecondVersion(e);
    var s6, s7 := UndoTwiceRedoTwice(e);
    observed := observed + [s5, s6, s7];
  }
}
