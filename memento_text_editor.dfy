/** The memento demo `TextEditor`: typed text with save and restore through `EditorMemento`. */
module MementoTextEditor {
  /** An immutable snapshot of the editor's content. */
  datatype EditorMemento = EditorMemento(savedContent: string)

  class TextEditor {
    var content: string

    constructor()
      ensures content == ""
    {
      content := "";
    }

    method Type(text: string)
      modifies this
      ensures content == old(content) + text
    {
      content := content + text;
    }

    function GetContent(): string
      reads this
    {
      content
    }

    function Save(): EditorMemento
      reads this
    {
      EditorMemento(content)
    }

    method Restore(memento: EditorMemento)
      modifies this
      ensures content == memento.savedContent
    {
      content := memento.savedContent;
    }
  }

  /** Restoring a memento taken earlier undoes everything typed since. */
  method TypeThenRestore(editor: TextEditor, text: string)
    modifies editor
    ensures editor.content == old(editor.content)
  {
    var memento := editor.Save();
    editor.Type(text);
    editor.Restore(memento);
  }

  /** The demo's test: type, save, type more, restore. */
  method HelloScenario() returns (content: string)
    ensures content == "Hello "
  {
    var editor := new TextEditor();
    editor.Type("Hello ");
    var memento := editor.Save();
    editor.Type("World!");
    editor.Restore(memento);
    content := editor.GetContent();
  }
}
