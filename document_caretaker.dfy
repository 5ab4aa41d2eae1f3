/**
 * The memento demo `Document` / `DocumentMemento` / `DocumentCaretaker`: a
 * document whose content and author are saved on a stack of versions and
 * restored last-in first-out.
 */
module DocumentCaretaker {
  /** A saved version: content and author (the creation time stamp is not modelled). */
  datatype DocumentMemento = DocumentMemento(content: string, author: string)

  class Document {
    var content: string
    var author: string

    constructor()
      ensures content == "" && author == ""
    {
      content := "";
      author := "";
    }

    method UpdateContent(content: string, author: string)
      modifies this
      ensures this.content == content && this.author == author
    {
      this.content := content;
      this.author := author;
    }

    function CreateMemento(): DocumentMemento
      reads this
    {
      DocumentMemento(content, author)
    }

    method RestoreFromMemento(memento: DocumentMemento)
      modifies this
      ensures CreateMemento() == memento
    {
      content := memento.content;
      author := memento.author;
    }
  }

  /** Saving a document and restoring that memento gives back the same content and author. */
  method RoundTrip(document: Document)
    modifies document
    ensures document.content == old(document.content) && document.author == old(document.author)
  {
    var memento := document.CreateMemento();
    document.RestoreFromMemento(memento);
  }

  class DocumentCaretaker {
    /** The saved versions, the most recent last. */
    var history: seq<DocumentMemento>

    constructor()
      ensures history == []
    {
      history := [];
    }

    method SaveVersion(document: Document)
      modifies this
      ensures history == old(history) + [document.CreateMemento()]
    {
      history := history + [document.CreateMemento()];
    }

    /** Pops the most recent version into the document; with no saved version nothing changes. */
    method RestoreLastVersion(document: Document)
      modifies this, document
      ensures old(|history|) == 0 ==> history == old(history) && document.CreateMemento() == old(document.CreateMemento())
      ensures old(|history|) > 0 ==>
        && document.CreateMemento() == old(history[|history| - 1])
        && history == old(history[..|history| - 1])
    {
      if |history| > 0 {
        var memento := history[|history| - 1];
        history := history[..|history| - 1];
        document.RestoreFromMemento(memento);
      }
    }

    function GetVersionCount(): nat
      reads this
    {
      |history|
    }
  }

  /** Saving then restoring at once undoes nothing and leaves the history as it was. */
  method SaveThenRestore(caretaker: DocumentCaretaker, document: Document)
    modifies caretaker, document
    ensures caretaker.history == old(caretaker.history)
    ensures document.CreateMemento() == old(document.CreateMemento())
  {
    caretaker.SaveVersion(document);
    caretaker.RestoreLastVersion(document);
  }

  /** The demo's test: two saved versions, a third unsaved edit, then one restore. */
  method VersionScenario() returns (content: string, author: string, versions: nat)
    ensures content == "Second version" && author == "Bob" && versions == 1
  {
    var document := new Document();
    var caretaker := new DocumentCaretaker();
    document.UpdateContent("First version", "Alice");
    caretaker.SaveVersion(document);
    document.UpdateContent("Second version", "Bob");
    caretaker.SaveVersion(document);
    document.UpdateContent("Third version", "Charlie");
    caretaker.RestoreLastVersion(document);
    content, author, versions := document.content, document.author, caretaker.GetVersionCount();
  }
}
