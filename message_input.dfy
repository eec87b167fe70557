/** The message composer: a draft, an optional slash command shown as a chip,
    the command list's open flag and the files picked in the hidden file
    input. Each handler updates that state; a submit hands the composed text
    and the files to the page. */
module MessageInput {
  import opened Wrappers
  import opened Text
  import opened QueryClient

  /** The labels of the command list, in display order. */
  const Commands: seq<string> := ["/code", "/image", "/paraphrase"]

  /** What `value.match(/^\/\w+/)` matches: a slash and the longest run of
      word characters after it, when there is at least one. */
  function CommandMatch(v: string): (m: Option<string>)
    ensures m.Some? ==>
      && |m.value| >= 2 && m.value <= v && m.value[0] == '/'
      && (forall i :: 1 <= i < |m.value| ==> IsWordChar(m.value[i]))
      && (|m.value| == |v| || !IsWordChar(v[|m.value|]))
    ensures m.None? <==> !StartsWith(v, "/") || |v| == 1 || !IsWordChar(v[1])
  {
    if v != [] && v[0] == '/' && WordRun(v[1..]) != [] then
      var w := WordRun(v[1..]);
      assert v == [v[0]] + v[1..];
      assert |w| == |v| - 1 || v[1..][|w|] == v[1 + |w|];
      Some("/" + w)
    else None
  }

  /** The command a typed value selects: its match, when that is exactly one
      of the labels. */
  function RecognisedCommand(v: string): Option<string> {
    match CommandMatch(v)
    case Some(m) => if m in Commands then Some(m) else None
    case None => None
  }

  /** A value selects a command exactly when it starts with that label and
      the label is not followed by a further word character. */
  lemma RecognisedCommandSpec(v: string, c: string)
    ensures RecognisedCommand(v) == Some(c) <==>
      c in Commands && StartsWith(v, c) && (|v| == |c| || !IsWordChar(v[|c|]))
  {
    if c in Commands && StartsWith(v, c) && (|v| == |c| || !IsWordChar(v[|c|])) {
      assert c[1..] <= v[1..];
      assert forall i :: 0 <= i < |c| - 1 ==> IsWordChar(c[1..][i]);
      assert |c| - 1 == |v| - 1 || v[1..][|c| - 1] == v[|c|];
      WordRunUnique(v[1..], c[1..]);
      assert c == "/" + c[1..];
    }
  }

  /** Typing `/code hola` selects `/code`; `/codex` selects nothing, for its
      match is the whole `/codex`. */
  lemma RecognisedCommandExamples()
    ensures RecognisedCommand("/code hola") == Some("/code")
    ensures RecognisedCommand("/codex") == None
  {
    RecognisedCommandSpec("/code hola", "/code");
    assert "/code hola"[5] == ' ';
    assert "/codex"[1..] == "codex";
    WordRunUnique("codex", "codex");
    assert "/" + "codex" == "/codex";
    assert CommandMatch("/codex") == Some("/codex");
    assert "/codex" !in Commands by {
      assert "/codex"[1] != "/image"[1];
    }
  }

  /** The submit guard: a non-blank draft or at least one attached file. */
  predicate CanSubmit(message: string, files: seq<File>) {
    Trim(message) != [] || |files| > 0
  }

  /** The send button's `disabled` attribute. */
  predicate SubmitDisabled(disabled: bool, message: string, files: seq<File>) {
    disabled || (Trim(message) == [] && |files| == 0)
  }

  /** While the composer is enabled, the send button is enabled exactly when
      a submit would send. */
  lemma SubmitButtonMatchesGuard(message: string, files: seq<File>)
    ensures !SubmitDisabled(false, message, files) <==> CanSubmit(message, files)
    ensures SubmitDisabled(true, message, files)
  {
  }

  /** The text sent: the command, a space and the draft when a command is
      active, otherwise the draft; trimmed either way. */
  function ComposedText(activeCommand: Option<string>, message: string): string {
    if activeCommand.Some? && activeCommand.value != "" then Trim(activeCommand.value + " " + message)
    else Trim(message)
  }

  /** Every label starts with `/` and ends with a letter. */
  lemma CommandShape(c: string)
    requires c in Commands
    ensures |c| >= 2 && c[0] == '/' && !IsSpace(c[|c| - 1])
  {
  }

  /** With a command active, the text sent starts with the command: it is
      the command alone for a blank draft, and otherwise the command, a space
      and the draft with its trailing whitespace removed (leading whitespace
      of the draft is kept, so it is `Trim` of the draft when the draft
      starts with a non-space). */
  lemma ComposedWithCommand(c: string, message: string)
    requires c in Commands
    ensures Blank(message) ==> ComposedText(Some(c), message) == c
    ensures !Blank(message) ==> ComposedText(Some(c), message) == c + " " + TrimEnd(message)
    ensures !Blank(message) && !IsSpace(message[0]) ==> ComposedText(Some(c), message) == c + " " + Trim(message)
    ensures StartsWith(ComposedText(Some(c), message), c)
  {
    CommandShape(c);
    TrimJoin(c, message);
    if !Blank(message) && !IsSpace(message[0]) {
      TrimNoLeadingSpace(message);
    }
  }

  /** What a submit hands to the page: the text and the file list (always a
      list, possibly empty). */
  datatype Sent = Sent(text: string, files: seq<File>)

  class Composer {
    var message: string
    var showCommands: bool
    var activeCommand: Option<string>
    var files: seq<File>

    /** The active command, when there is one, is one of the labels. */
    ghost predicate Valid()
      reads this
    {
      activeCommand.Some? ==> activeCommand.value in Commands
    }

    constructor ()
      ensures Valid()
      ensures message == "" && !showCommands && activeCommand == None && files == []
    {
      message := "";
      showCommands := false;
      activeCommand := None;
      files := [];
    }

    /** The textarea's change handler. A value that selects a command makes it
        active and keeps only the trimmed rest as the draft; any other value
        becomes the draft verbatim, leaving the command as it was, and a lone
        `/` also opens the command list. */
    method HandleChange(v: string)
      requires Valid()
      modifies this
      ensures Valid()
      ensures files == old(files)
      ensures RecognisedCommand(v).Some? ==>
        && activeCommand == RecognisedCommand(v)
        && message == Trim(v[|RecognisedCommand(v).value|..])
        && showCommands == old(showCommands)
      ensures RecognisedCommand(v).None? ==>
        && activeCommand == old(activeCommand)
        && message == v
        && showCommands == (old(showCommands) || v == "/")
    {
      if StartsWith(v, "/") {
        var m := CommandMatch(v);
        if m.Some? && m.value in Commands {
          activeCommand := m;
          message := Trim(v[|m.value|..]);
          return;
        }
        if v == "/" {
          showCommands := true;
        }
      }
      message := v;
    }

    /** The form's submit handler: when the guard holds, sends the composed
        text with the files and clears the draft, the command and the file
        input; otherwise changes nothing. */
    method HandleSubmit() returns (sent: Option<Sent>)
      requires Valid()
      modifies this
      ensures Valid()
      ensures showCommands == old(showCommands)
      ensures sent.Some? <==> CanSubmit(old(message), old(files))
      ensures sent.Some? ==>
        && sent.value == Sent(ComposedText(old(activeCommand), old(message)), old(files))
        && message == "" && activeCommand == None && files == []
      ensures sent.None? ==> message == old(message) && activeCommand == old(activeCommand) && files == old(files)
    {
      if CanSubmit(message, files) {
        sent := Some(Sent(ComposedText(activeCommand, message), files));
        message := "";
        activeCommand := None;
        files := [];
      } else {
        sent := None;
      }
    }

    /** The textarea's key handler: Enter without Shift submits; `/` on an
        empty draft opens the command list (and is not typed); Backspace with a
        command active and the cursor at the start clears the draft and the
        command. Any other key changes nothing here. */
    method HandleKeyDown(key: string, shift: bool, cursor: nat) returns (sent: Option<Sent>)
      requires Valid()
      modifies this
      ensures Valid()
      ensures key == "Enter" && !shift ==>
        && showCommands == old(showCommands)
        && (sent.Some? <==> CanSubmit(old(message), old(files)))
        && (sent.Some? ==> sent.value == Sent(ComposedText(old(activeCommand), old(message)), old(files))
                           && message == "" && activeCommand == None && files == [])
        && (sent.None? ==> message == old(message) && activeCommand == old(activeCommand) && files == old(files))
      ensures !(key == "Enter" && !shift) ==> sent.None? && files == old(files)
      ensures !(key == "Enter" && !shift) && key == "/" && old(message) == "" ==>
        showCommands && message == old(message) && activeCommand == old(activeCommand)
      ensures !(key == "Enter" && !shift) && !(key == "/" && old(message) == "") ==>
        && showCommands == old(showCommands)
        && (if key == "Backspace" && old(activeCommand).Some? && cursor == 0
            then message == "" && activeCommand == None
            else message == old(message) && activeCommand == old(activeCommand))
    {
      sent := None;
      if key == "Enter" && !shift {
        sent := HandleSubmit();
      } else if key == "/" && message == "" {
        showCommands := true;
      } else if key == "Backspace" && activeCommand.Some? {
        if cursor <= 0 {
          message := "";
          activeCommand := None;
        }
      }
    }

    /** Picking a command from the list: it becomes active, the draft is
        cleared and the list closes. */
    method HandleCommandClick(c: string)
      requires Valid() && c in Commands
      modifies this
      ensures Valid()
      ensures activeCommand == Some(c) && message == "" && !showCommands && files == old(files)
    {
      activeCommand := Some(c);
      message := "";
      showCommands := false;
    }

    /** Choosing files in the file input: they replace the attached files, and
        when the draft is not blank the message is submitted at once. */
    method HandleFileChange(chosen: seq<File>) returns (sent: Option<Sent>)
      requires Valid()
      modifies this
      ensures Valid()
      ensures showCommands == old(showCommands)
      ensures sent.Some? <==> Trim(old(message)) != [] && |chosen| > 0
      ensures sent.Some? ==>
        && sent.value == Sent(ComposedText(old(activeCommand), old(message)), chosen)
        && message == "" && activeCommand == None && files == []
      ensures sent.None? ==> message == old(message) && activeCommand == old(activeCommand) && files == chosen
    {
      files := chosen;
      sent := None;
      if Trim(message) != [] && |files| > 0 {
        sent := HandleSubmit();
      }
    }

    /** The chip's close button: clears the command and the draft. */
    method ClearCommand()
      requires Valid()
      modifies this
      ensures Valid()
      ensures message == "" && activeCommand == None
      ensures showCommands == old(showCommands) && files == old(files)
    {
      message := "";
      activeCommand := None;
    }

    /** The command list opening or closing on its own (a click outside, the
        trigger button). */
    method SetShowCommands(open: bool)
      modifies this
      ensures showCommands == open
      ensures message == old(message) && activeCommand == old(activeCommand) && files == old(files)
    {
      showCommands := open;
    }
  }

  /** Typing `/code hola` into a fresh composer and submitting sends
      `/code hola`: the typed label becomes the chip and is put back in front
      of the draft. */
  method SubmitTypedCommand() returns (sent: Option<Sent>)
    ensures sent == Some(Sent("/code hola", []))
  {
    var input := new Composer();
    RecognisedCommandExamples();
    TypedCommandText();
    input.HandleChange("/code hola");
    sent := input.HandleSubmit();
  }

  /** The draft left after typing `/code hola` and the text composed from it. */
  lemma TypedCommandText()
    ensures Trim("/code hola"[|"/code"|..]) == "hola"
    ensures ComposedText(Some("/code"), "hola") == "/code hola"
  {
    assert "/code hola"[|"/code"|..] == " hola";
    assert Trim(" hola") == "hola" by {
      assert SkipSpaces(" hola", 0) == 1;
      assert DropTrailingSpaces(" hola", 1, 5) == 5;
      assert " hola"[1..5] == "hola";
    }
    assert TrimEnd("hola") == "hola";
    TrimJoin("/code", "hola");
    assert "/code" + " " + "hola" == "/code hola";
  }

  /** `/codex` is not a label: it stays in the draft and is sent as typed,
      with no command. */
  method SubmitUnknownCommand() returns (sent: Option<Sent>)
    ensures sent == Some(Sent("/codex", []))
  {
    var input := new Composer();
    UnknownCommandText();
    input.HandleChange("/codex");
    sent := input.HandleSubmit();
  }

  /** The draft `/codex` is no label and is its own trimmed text. */
  lemma UnknownCommandText()
    ensures RecognisedCommand("/codex") == None
    ensures Trim("/codex") == "/codex" && ComposedText(None, "/codex") == "/codex"
  {
    RecognisedCommandExamples();
    assert SkipSpaces("/codex", 0) == 0;
    assert DropTrailingSpaces("/codex", 0, 6) == 6;
    assert "/codex"[0..6] == "/codex";
  }

  /** Typing only whitespace and submitting sends nothing. */
  method SubmitBlank(v: string) returns (sent: Option<Sent>)
    requires Blank(v)
    ensures sent == None
  {
    var input := new Composer();
    input.HandleChange(v);
    TrimSpec(v);
    sent := input.HandleSubmit();
  }
}
