/** The `data` field of the event-stream format (section 9.2, "Server-sent events", of the
    WHATWG HTML Living Standard): how the in-app stream frames a message, and how a
    conforming client turns the bytes it receives back into the data of dispatched events. */
module EventStream {
  import Strings

  /** The frame written for one pushed message: one `data` line and a blank line. */
  function Frame(message: string): string
  {
    "data: " + message + "\n\n"
  }

  /** Everything written to one stream by a sequence of pushes. */
  function Frames(messages: seq<string>): string
  {
    if |messages| == 0 then "" else Frame(messages[0]) + Frames(messages[1..])
  }

  /** A further push appends its frame to what the stream already carries. */
  lemma {:induction false} FramesAppend(messages: seq<string>, message: string)
    ensures Frames(messages + [message]) == Frames(messages) + Frame(message)
    decreases |messages|
  {
    if |messages| == 0 {
      assert messages + [message] == [message];
      assert Frames([message]) == Frame(message) + Frames([]);
    } else {
      assert (messages + [message])[1..] == messages[1..] + [message];
      FramesAppend(messages[1..], message);
    }
  }

  /** Field name of one line: up to the first colon, or the whole line. */
  function FieldName(line: string): string
  {
    if ':' in line then FieldNameBefore(line, 0) else line
  }

  function FieldNameBefore(line: string, i: nat): string
    requires i <= |line|
    decreases |line| - i
  {
    if i == |line| || line[i] == ':' then line[..i] else FieldNameBefore(line, i + 1)
  }

  /** Field value of one line: after the first colon, less one leading space; "" when there is no colon. */
  function FieldValue(line: string): string
  {
    var name := FieldName(line);
    if |name| < |line| then
      var v := line[|name| + 1..];
      if |v| > 0 && v[0] == ' ' then v[1..] else v
    else ""
  }

  /** Interprets complete lines (section 9.2.6): a blank line dispatches the data buffer
      (less its final line feed) unless it is empty; a `data` field appends its value and a line
      feed; comments and every other field leave the data buffer alone. */
  function Interpret(lines: seq<string>, buffer: string): seq<string>
  {
    if |lines| == 0 then []
    else
      var line := lines[0];
      if line == "" then
        if buffer == "" then Interpret(lines[1..], "")
        else [buffer[..|buffer| - 1]] + Interpret(lines[1..], "")
      else if line[0] == ':' then Interpret(lines[1..], buffer)
      else if FieldName(line) == "data" then Interpret(lines[1..], buffer + FieldValue(line) + "\n")
      else Interpret(lines[1..], buffer)
  }

  /** The data of the events a client dispatches from a stream whose lines end in a line feed
      (the unterminated last line and a pending data buffer are discarded at end of stream). */
  function Decode(stream: string): seq<string>
  {
    var lines := Strings.Split(stream, '\n');
    Interpret(lines[..|lines| - 1], "")
  }

  /** A message without line breaks makes one `data` line that carries the message verbatim. */
  lemma {:induction false} DataLine(message: string)
    requires '\n' !in message
    ensures FieldName("data: " + message) == "data"
    ensures FieldValue("data: " + message) == message
  {
    var line := "data: " + message;
    assert line[0] == 'd' && line[1] == 'a' && line[2] == 't' && line[3] == 'a' && line[4] == ':';
    assert FieldNameBefore(line, 4) == line[..4] == "data";
    assert FieldNameBefore(line, 0) == FieldNameBefore(line, 1) == FieldNameBefore(line, 2)
        == FieldNameBefore(line, 3) == FieldNameBefore(line, 4);
    assert ':' in line;
    assert line[5..] == " " + message;
  }

  /** A `data` line at the start of an event puts its value and a line feed in the data buffer. */
  lemma InterpretDataLine(message: string, lines: seq<string>)
    requires '\n' !in message
    ensures Interpret(["data: " + message] + lines, "") == Interpret(lines, message + "\n")
  {
    DataLine(message);
    assert (["data: " + message] + lines)[0] == "data: " + message;
    assert (["data: " + message] + lines)[1..] == lines;
    assert "" + message + "\n" == message + "\n";
  }

  /** A blank line dispatches a non-empty data buffer, less its final line feed. */
  lemma InterpretBlankLine(message: string, lines: seq<string>)
    ensures Interpret([""] + lines, message + "\n") == [message] + Interpret(lines, "")
  {
    assert ([""] + lines)[1..] == lines;
    assert (message + "\n")[..|message + "\n"| - 1] == message;
  }

  /** A comment, or a field other than `data`, leaves the data buffer alone. */
  lemma InterpretOtherLine(line: string, lines: seq<string>, buffer: string)
    requires line != "" && FieldName(line) != "data"
    ensures Interpret([line] + lines, buffer) == Interpret(lines, buffer)
  {
    assert ([line] + lines)[1..] == lines;
  }

  /** The lines of a frame followed by more stream: the `data` line, a blank line, then the
      lines of the rest. */
  lemma SplitFrame(message: string, rest: string)
    requires '\n' !in message
    ensures Strings.Split(Frame(message) + rest, '\n') == ["data: " + message, ""] + Strings.Split(rest, '\n')
  {
    var line := "data: " + message;
    assert '\n' !in line;
    assert Frame(message) + rest == line + ['\n'] + ("" + ['\n'] + rest);
    Strings.SplitAfterPiece(line, '\n', "" + ['\n'] + rest);
    Strings.SplitAfterPiece("", '\n', rest);
  }

  /** One frame followed by more stream is its message and then whatever the rest decodes to. */
  lemma {:induction false} InterpretFrame(message: string, rest: string)
    requires '\n' !in message && '\r' !in message
    ensures var lines := Strings.Split(Frame(message) + rest, '\n');
      && |lines| >= 2
      && Interpret(lines[..|lines| - 1], "")
         == [message] + Interpret(Strings.Split(rest, '\n')[..|Strings.Split(rest, '\n')| - 1], "")
  {
    SplitFrame(message, rest);
    var tail := Strings.Split(rest, '\n');
    var t := tail[..|tail| - 1];
    var lines := ["data: " + message, ""] + tail;
    assert lines[..|lines| - 1] == ["data: " + message] + ([""] + t);
    InterpretDataLine(message, [""] + t);
    InterpretBlankLine(message, t);
  }

  /** A client decodes what the pushes wrote into exactly the pushed messages, in order,
      as long as no message holds a line break. */
  lemma {:induction false} DecodeFrames(messages: seq<string>)
    requires forall k :: 0 <= k < |messages| ==> '\n' !in messages[k] && '\r' !in messages[k]
    ensures Decode(Frames(messages)) == messages
    decreases |messages|
  {
    if |messages| > 0 {
      var rest := Frames(messages[1..]);
      assert Frames(messages) == Frame(messages[0]) + rest;
      InterpretFrame(messages[0], rest);
      DecodeFrames(messages[1..]);
      assert messages == [messages[0]] + messages[1..];
    }
  }

  /** The lines of the frame of a message holding one line feed. */
  lemma SplitTwoLineFrame(first: string, second: string)
    requires '\n' !in first && '\n' !in second
    ensures Strings.Split(Frame(first + "\n" + second), '\n') == ["data: " + first, second, "", ""]
  {
    var line := "data: " + first;
    assert '\n' !in line;
    var tail1 := second + ['\n'] + ("" + ['\n'] + "");
    assert Frame(first + "\n" + second) == line + ['\n'] + tail1;
    Strings.SplitAfterPiece("", '\n', "");
    Strings.SplitAfterPiece(second, '\n', "" + ['\n'] + "");
    Strings.SplitAfterPiece(line, '\n', tail1);
  }

  /** The message is written verbatim: of a message holding a line feed, a client keeps only
      the part before the first line feed (here the second line is not a `data` field). */
  lemma {:induction false} MultilineMessageTruncated(first: string, second: string)
    requires '\n' !in first && '\n' !in second
    requires second != "" && FieldName(second) != "data"
    ensures Decode(Frame(first + "\n" + second)) == [first]
  {
    SplitTwoLineFrame(first, second);
    var lines := ["data: " + first, second, "", ""];
    assert lines[..|lines| - 1] == ["data: " + first] + ([second] + ([""] + []));
    InterpretDataLine(first, [second] + ([""] + []));
    InterpretOtherLine(second, [""] + [], first + "\n");
    InterpretBlankLine(first, []);
  }
}
