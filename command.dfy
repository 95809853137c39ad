/** The command demo: a text editor whose edits are wrapped in command
    objects, and an invoker that keeps the executed commands for undo. Go
    strings are byte strings; here one char stands for one byte. */
module Command {

  /** The text after TextEditor.Add(s): s appended at the end. */
  function Appended(text: string, s: string): (r: string)
    ensures |r| == |text| + |s| && r[..|text|] == text && r[|text|..] == s
  {
    text + s
  }

  /** The text after TextEditor.Delete(n): the last n bytes cut off when there
      are at least n of them, otherwise the text unchanged. */
  function Truncated(text: string, n: nat): (r: string)
    ensures n <= |text| ==> |r| == |text| - n && text == r + text[|text| - n..]
    ensures n > |text| ==> r == text
  {
    if n <= |text| then text[..|text| - n] else text
  }

  /** Deleting as many bytes as were just added restores the text. */
  lemma TruncateUndoesAppend(text: string, s: string)
    ensures Truncated(Appended(text, s), |s|) == text
  {
    assert Appended(text, s)[..|text|] == text;
  }

  /** Receiver. */
  class TextEditor {
    var text: string

    constructor ()
      ensures text == ""
    {
      text := "";
    }

    method Add(s: string)
      modifies this
      ensures text == Appended(old(text), s)
    {
      text := text + s;
    }

    /** Go's n is an int; a negative n would make the slice bound exceed the
        length and panic, so only counts are modelled. */
    method Delete(n: nat)
      modifies this
      ensures text == Truncated(old(text), n)
    {
      if n <= |text| {
        text := text[..|text| - n];
      }
    }
  }

  /** The one concrete command: append a fixed text to an editor. */
  class AddTextCommand {
    const editor: TextEditor
    const text: string

    constructor (editor: TextEditor, text: string)
      ensures this.editor == editor && this.text == text
    {
      this.editor := editor;
      this.text := text;
    }

    method Execute()
      modifies editor
      ensures editor.text == Appended(old(editor.text), text)
    {
      editor.Add(text);
    }

    /** Deletes as many bytes as the command appended. */
    method Unexecute()
      modifies editor
      ensures editor.text == Truncated(old(editor.text), |text|)
    {
      editor.Delete(|text|);
    }
  }

  /** Invoker: runs commands and keeps them, most recent last. */
  class CommandInvoker {
    var history: seq<AddTextCommand>

    constructor ()
      ensures history == []
    {
      history := [];
    }

    method Execute(c: AddTextCommand)
      modifies this, c.editor
      ensures history == old(history) + [c]
      ensures c.editor.text == Appended(old(c.editor.text), c.text)
    {
      c.Execute();
      history := history + [c];
    }

    /** Unexecutes the most recent command and drops it from the history;
        with an empty history nothing happens. */
    method Undo()
      modifies this, if history == [] then {} else {history[|history| - 1].editor}
      ensures old(history) == [] ==> history == []
      ensures old(history) != [] ==> history == old(history)[..|old(history)| - 1]
      ensures old(history) != [] ==>
        var last := old(history)[|old(history)| - 1];
        last.editor.text == Truncated(old(last.editor.text), |last.text|)
    {
      if |history| > 0 {
        var lastCommand := history[|history| - 1];
        lastCommand.Unexecute();
        history := history[..|history| - 1];
      }
    }
  }

  /** The demo: "Hello, " then "world!", then one undo leaves "Hello, ". */
  method Demo() returns (afterFirst: string, afterSecond: string, afterUndo: string)
    ensures afterFirst == "Hello, " && afterSecond == "Hello, world!" && afterUndo == "Hello, "
  {
    var editor := new TextEditor();
    var invoker := new CommandInvoker();
    var addCommand1 := new AddTextCommand(editor, "Hello, ");
    invoker.Execute(addCommand1);
    afterFirst := editor.text;
    var addCommand2 := new AddTextCommand(editor, "world!");
    invoker.Execute(addCommand2);
    afterSecond := editor.text;
    invoker.Undo();
    afterUndo := editor.text;
    TruncateUndoesAppend("Hello, ", "world!");
  }
}
