/** The command line of the firmware's main loop: bytes arrive in the terminal input FIFO,
    are collected into a 1024-byte command buffer, and a line feed turns the buffer into a
    command and up to 16 arguments for the menu.

    Text is the sequence of scalar values `from_utf8` decodes; the menu that runs a
    command is outside the model, and whether it reports an error is a parameter. */
module Terminal {
  import opened Wrappers
  import opened Utf8

  const CMD_BUF_SIZE: nat := 1024
  const MAX_ARGS: nat := 16
  const LF: byte := 10
  const SPACE: int := 0x20

  /** A maximal run of non-white-space characters, as `split_whitespace` yields them. */
  predicate IsWord(w: seq<int>)
  {
    w != [] && forall k :: 0 <= k < |w| ==> !IsWhitespace(w[k])
  }

  /** The length of the word `s` starts with. */
  function WordLength(s: seq<int>): (n: nat)
    requires s != [] && !IsWhitespace(s[0])
    ensures 1 <= n <= |s|
    ensures forall k :: 0 <= k < n ==> !IsWhitespace(s[k])
    ensures n < |s| ==> IsWhitespace(s[n])
    decreases |s|
  {
    if |s| == 1 || IsWhitespace(s[1]) then 1 else 1 + WordLength(s[1..])
  }

  /** `split_whitespace`: the words of `s`, in order. */
  function Words(s: seq<int>): (ws: seq<seq<int>>)
    ensures forall i :: 0 <= i < |ws| ==> IsWord(ws[i])
    decreases |s|
  {
    if s == [] then []
    else if IsWhitespace(s[0]) then Words(s[1..])
    else
      var n := WordLength(s);
      [s[..n]] + Words(s[n..])
  }

  /** `trim().is_empty()`: the piece holds white space only. */
  predicate IsBlank(w: seq<int>)
  {
    forall k :: 0 <= k < |w| ==> IsWhitespace(w[k])
  }

  /** `filter(|l| !l.trim().is_empty())`. */
  function NonBlank(ws: seq<seq<int>>): seq<seq<int>>
    decreases |ws|
  {
    if ws == [] then []
    else if IsBlank(ws[0]) then NonBlank(ws[1..])
    else [ws[0]] + NonBlank(ws[1..])
  }

  /** The pieces of a line the main loop works with. */
  function Parts(text: seq<int>): seq<seq<int>>
  {
    NonBlank(Words(text))
  }

  /** No word is blank, so the filter the main loop adds after `split_whitespace` drops
      nothing. */
  lemma {:induction false} FilterKeepsWords(ws: seq<seq<int>>)
    requires forall i :: 0 <= i < |ws| ==> IsWord(ws[i])
    ensures NonBlank(ws) == ws
    decreases |ws|
  {
    if ws != [] {
      assert !IsBlank(ws[0]) by {
        assert !IsWhitespace(ws[0][0]);
      }
      FilterKeepsWords(ws[1..]);
      assert [ws[0]] + ws[1..] == ws;
    }
  }

  /** Words joined by single spaces. */
  function Unwords(ws: seq<seq<int>>): seq<int>
    decreases |ws|
  {
    if ws == [] then [] else if |ws| == 1 then ws[0] else ws[0] + [SPACE] + Unwords(ws[1..])
  }

  /** The word at the start of `w + tail` is `w` when `tail` is empty or starts with white
      space. */
  lemma WordLengthOf(w: seq<int>, tail: seq<int>)
    requires IsWord(w)
    requires tail == [] || IsWhitespace(tail[0])
    ensures WordLength(w + tail) == |w|
  {
    assert forall k :: 0 <= k < |w| ==> (w + tail)[k] == w[k];
    assert |w| < |w + tail| ==> (w + tail)[|w|] == tail[0];
  }

  /** Splitting words joined by spaces gives the words back. */
  lemma {:induction false} WordsUnwords(ws: seq<seq<int>>)
    requires forall i :: 0 <= i < |ws| ==> IsWord(ws[i])
    ensures Words(Unwords(ws)) == ws
    decreases |ws|
  {
    if |ws| == 1 {
      var w := ws[0];
      WordLengthOf(w, []);
      assert w + [] == w;
      assert w[|w|..] == [];
      assert w[..|w|] == w;
    } else if |ws| > 1 {
      var w, tail := ws[0], [SPACE] + Unwords(ws[1..]);
      assert Unwords(ws) == w + tail;
      WordLengthOf(w, tail);
      assert (w + tail)[..|w|] == w;
      assert (w + tail)[|w|..] == tail;
      assert tail[1..] == Unwords(ws[1..]);
      WordsUnwords(ws[1..]);
      assert [w] + ws[1..] == ws;
    }
  }

  /** The arguments collected from the pieces after the command: the first 16, in order. */
  function FirstArgs(rest: seq<seq<int>>): (args: seq<seq<int>>)
    ensures |args| <= MAX_ARGS && |args| <= |rest|
    ensures args == rest[..|args|]
    ensures |args| == MAX_ARGS || args == rest
  {
    if |rest| <= MAX_ARGS then rest else rest[..MAX_ARGS]
  }

  /** What the main loop reports. */
  datatype Output = Prompt | BufferFull | InvalidUtf8 | CommandFailed

  /** A command handed to the menu. */
  datatype Command = Command(name: seq<int>, args: seq<seq<int>>)

  /** The main loop's state: the bytes in the command buffer, the input FIFO, what it has
      reported and the commands it has run. */
  datatype LoopState = LoopState(line: seq<byte>, fifo: seq<byte>, out: seq<Output>, ran: seq<Command>)

  /** One pass of the main loop, taking one byte from the FIFO if there is one;
      `commandFails` is whether the menu reports an error for a command it runs. */
  function LoopStep(s: LoopState, commandFails: bool): LoopState
  {
    if s.fifo == [] then s
    else
      var b, t := s.fifo[0], s.(fifo := s.fifo[1..]);
      if b == LF then
        match Decode(t.line)
        case None => t.(out := t.out + [InvalidUtf8])
        case Some(text) =>
          var parts := Parts(text);
          if parts == [] then t.(out := t.out + [Prompt])
          else
            t.(line := [], fifo := [], ran := t.ran + [Command(parts[0], FirstArgs(parts[1..]))],
               out := t.out + (if commandFails then [CommandFailed] else []) + [Prompt])
      else if |t.line| < CMD_BUF_SIZE then t.(line := t.line + [b])
      else t.(out := t.out + [BufferFull])
  }

  /** What can happen: a byte arriving in the FIFO from the UART interrupt, or a pass of the
      main loop. */
  datatype Event = Receive(b: byte) | Pass(commandFails: bool)

  function Apply(s: LoopState, e: Event): LoopState
  {
    match e
    case Receive(b) => s.(fifo := s.fifo + [b])
    case Pass(fails) => LoopStep(s, fails)
  }

  function Run(s: LoopState, es: seq<Event>): LoopState
    decreases |es|
  {
    if es == [] then s else Run(Apply(s, es[0]), es[1..])
  }

  /** The command buffer never holds more than 1024 bytes, whatever arrives. */
  lemma {:induction false} LineStaysBounded(s: LoopState, es: seq<Event>)
    requires |s.line| <= CMD_BUF_SIZE
    ensures |Run(s, es).line| <= CMD_BUF_SIZE
    decreases |es|
  {
    if es != [] {
      LineStaysBounded(Apply(s, es[0]), es[1..]);
    }
  }

  /** A pass that takes a byte other than a line feed stores it after the bytes already in
      the buffer, which stay as they were; with the buffer full it drops the byte and
      reports it. */
  lemma StoreByte(s: LoopState, fails: bool)
    requires s.fifo != [] && s.fifo[0] != LF
    ensures |s.line| < CMD_BUF_SIZE ==> LoopStep(s, fails).line == s.line + [s.fifo[0]]
    ensures |s.line| >= CMD_BUF_SIZE ==> LoopStep(s, fails).line == s.line
    ensures |s.line| >= CMD_BUF_SIZE ==> LoopStep(s, fails).out == s.out + [BufferFull]
  {
  }

  /** A line feed after a blank line, or after bytes that are not UTF-8, leaves the buffer
      as it is and runs nothing. */
  lemma NothingToRunKeepsLine(s: LoopState, fails: bool)
    requires s.fifo != [] && s.fifo[0] == LF
    requires Decode(s.line).None? || Parts(Decode(s.line).value) == []
    ensures LoopStep(s, fails).line == s.line
    ensures LoopStep(s, fails).ran == s.ran
  {
  }

  /** A line feed after a line holding a command runs it with its first 16 arguments in
      order, then empties the buffer and the FIFO. */
  lemma LineFeedRunsCommand(s: LoopState, fails: bool)
    requires s.fifo != [] && s.fifo[0] == LF
    requires Decode(s.line).Some? && Parts(Decode(s.line).value) != []
    ensures var parts := Parts(Decode(s.line).value);
      LoopStep(s, fails).ran == s.ran + [Command(parts[0], FirstArgs(parts[1..]))]
    ensures LoopStep(s, fails).line == [] && LoopStep(s, fails).fifo == []
  {
  }

  /** Once the buffer holds a byte that never occurs in UTF-8, every line feed is refused:
      the buffer is never emptied again and no command ever runs. */
  lemma {:induction false} InvalidByteWedgesLine(s: LoopState, es: seq<Event>, i: nat)
    requires i < |s.line| && IsNeverUtf8(s.line[i])
    ensures s.line <= Run(s, es).line
    ensures Run(s, es).ran == s.ran
    decreases |es|
  {
    if es != [] {
      var t := Apply(s, es[0]);
      assert s.line <= t.line && t.ran == s.ran by {
        if es[0].Pass? && s.fifo != [] && s.fifo[0] == LF {
          NeverUtf8Rejected(s.line, i);
        }
      }
      InvalidByteWedgesLine(t, es[1..], i);
      assert Run(s, es) == Run(t, es[1..]);
    }
  }

  /** The main-loop pass with the evidently intended error arm: after reporting invalid
      UTF-8, the buffer is emptied (`cmd_buf_len = 0`) as it is after a command. Every
      other pass is `LoopStep`. */
  function LoopStepIntended(s: LoopState, commandFails: bool): LoopState
  {
    if s.fifo != [] && s.fifo[0] == LF && Decode(s.line).None? then
      s.(line := [], fifo := s.fifo[1..], out := s.out + [InvalidUtf8])
    else LoopStep(s, commandFails)
  }

  /** With the intended error arm, a line feed after invalid UTF-8 reports the error, runs
      nothing and empties the buffer. */
  lemma IntendedDiscardsInvalidLine(s: LoopState, fails: bool)
    requires s.fifo != [] && s.fifo[0] == LF && Decode(s.line).None?
    ensures LoopStepIntended(s, fails).line == []
    ensures LoopStepIntended(s, fails).fifo == s.fifo[1..]
    ensures LoopStepIntended(s, fails).ran == s.ran
    ensures LoopStepIntended(s, fails).out == s.out + [InvalidUtf8]
  {
  }

  /** ...so the console recovers: a command typed after the rejected line runs, where the
      code as written never runs one again (`InvalidByteWedgesLine`). */
  lemma IntendedRecoversFromInvalidLine(s: LoopState, fails: bool, ws: seq<seq<int>>)
    requires s.fifo == [LF] && Decode(s.line).None?
    requires 1 <= |ws| <= MAX_ARGS + 1
    requires forall i :: 0 <= i < |ws| ==> IsWord(ws[i])
    requires forall j :: 0 <= j < |Unwords(ws)| ==> IsScalar(Unwords(ws)[j])
    requires |Encode(Unwords(ws))| <= CMD_BUF_SIZE
    ensures var t := LoopStepIntended(s, fails);
      Run(t.(fifo := Encode(Unwords(ws)) + [LF]), Passes(|Encode(Unwords(ws))| + 1)).ran
        == s.ran + [Command(ws[0], ws[1..])]
  {
    var t := LoopStepIntended(s, fails);
    assert t.line == [] && t.fifo == [] && t.ran == s.ran;
    TypedLineRunsCommand(t, ws);
  }

  /** `n` passes of the main loop in which the menu succeeds. */
  function Passes(n: nat): seq<Event>
  {
    if n == 0 then [] else [Pass(false)] + Passes(n - 1)
  }

  /** Bytes other than line feeds waiting in the FIFO all land in the buffer, one per
      pass, when there is room for them. */
  lemma {:induction false} PassesStoreBytes(s: LoopState, bytes: seq<byte>, rest: seq<byte>)
    requires s.fifo == bytes + rest
    requires LF !in bytes
    requires |s.line| + |bytes| <= CMD_BUF_SIZE
    ensures Run(s, Passes(|bytes|)) == s.(line := s.line + bytes, fifo := rest)
    decreases |bytes|
  {
    if bytes == [] {
      assert s.line + bytes == s.line;
    } else {
      var t := LoopStep(s, false);
      assert (bytes + rest)[1..] == bytes[1..] + rest;
      assert t == s.(line := s.line + [bytes[0]], fifo := bytes[1..] + rest);
      PassesStoreBytes(t, bytes[1..], rest);
      assert s.line + [bytes[0]] + bytes[1..] == s.line + bytes;
    }
  }

  /** No scalar value other than U+000A encodes to a byte string holding a line feed. */
  lemma {:induction false} NoLineFeedInEncoding(cs: seq<int>)
    requires forall i :: 0 <= i < |cs| ==> IsScalar(cs[i]) && cs[i] != 10
    ensures LF !in Encode(cs)
    decreases |cs|
  {
    if cs != [] {
      assert LF !in EncodeChar(cs[0]);
      NoLineFeedInEncoding(cs[1..]);
    }
  }

  /** Typing a command and up to 16 arguments separated by spaces, then a line feed, into an
      empty buffer runs exactly that command with those arguments. */
  lemma TypedLineRunsCommand(s: LoopState, ws: seq<seq<int>>)
    requires s.line == [] && s.fifo == []
    requires 1 <= |ws| <= MAX_ARGS + 1
    requires forall i :: 0 <= i < |ws| ==> IsWord(ws[i])
    requires forall j :: 0 <= j < |Unwords(ws)| ==> IsScalar(Unwords(ws)[j])
    requires |Encode(Unwords(ws))| <= CMD_BUF_SIZE
    ensures Run(s.(fifo := Encode(Unwords(ws)) + [LF]), Passes(|Encode(Unwords(ws))| + 1)).ran
      == s.ran + [Command(ws[0], ws[1..])]
  {
    var bytes := Encode(Unwords(ws));
    var s0 := s.(fifo := bytes + [LF]);
    TypedLineBuffered(s0, ws);
    TypedLineDecodes(ws);
    LineFeedRunsCommand(s0.(line := bytes, fifo := [LF]), false);
    RunPassesSplit(s0, |bytes|);
  }

  /** The bytes of a typed line all land in the buffer, leaving the line feed. */
  lemma TypedLineBuffered(s: LoopState, ws: seq<seq<int>>)
    requires forall i :: 0 <= i < |ws| ==> IsWord(ws[i])
    requires forall j :: 0 <= j < |Unwords(ws)| ==> IsScalar(Unwords(ws)[j])
    requires s.line == [] && s.fifo == Encode(Unwords(ws)) + [LF]
    requires |Encode(Unwords(ws))| <= CMD_BUF_SIZE
    ensures Run(s, Passes(|Encode(Unwords(ws))|)) == s.(line := Encode(Unwords(ws)), fifo := [LF])
  {
    var text := Unwords(ws);
    UnwordsHasNoLineFeed(ws);
    NoLineFeedInEncoding(text);
    PassesStoreBytes(s, Encode(text), [LF]);
  }

  /** A typed line decodes and splits back into the words typed. */
  lemma TypedLineDecodes(ws: seq<seq<int>>)
    requires forall i :: 0 <= i < |ws| ==> IsWord(ws[i])
    requires forall j :: 0 <= j < |Unwords(ws)| ==> IsScalar(Unwords(ws)[j])
    ensures Decode(Encode(Unwords(ws))) == Some(Unwords(ws))
    ensures Parts(Unwords(ws)) == ws
  {
    DecodeEncode(Unwords(ws));
    WordsUnwords(ws);
    FilterKeepsWords(ws);
  }

  /** Words joined by spaces hold no line feed, which is white space. */
  lemma {:induction false} UnwordsHasNoLineFeed(ws: seq<seq<int>>)
    requires forall i :: 0 <= i < |ws| ==> IsWord(ws[i])
    ensures forall j :: 0 <= j < |Unwords(ws)| ==> Unwords(ws)[j] != 10
    decreases |ws|
  {
    if |ws| > 1 {
      UnwordsHasNoLineFeed(ws[1..]);
      var u := Unwords(ws);
      forall j | 0 <= j < |u|
        ensures u[j] != 10
      {
        if j < |ws[0]| {
          assert u[j] == ws[0][j];
        } else if j > |ws[0]| {
          assert u[j] == Unwords(ws[1..])[j - |ws[0]| - 1];
        }
      }
    } else if |ws| == 1 {
      assert forall j :: 0 <= j < |ws[0]| ==> !IsWhitespace(ws[0][j]);
    }
  }

  /** `n + 1` passes are `n` passes followed by one more. */
  lemma {:induction false} RunPassesSplit(s: LoopState, n: nat)
    ensures Run(s, Passes(n + 1)) == LoopStep(Run(s, Passes(n)), false)
    decreases n
  {
    if n == 0 {
      assert Passes(1)[1..] == [];
    } else {
      assert Passes(n + 1)[1..] == Passes(n);
      assert Passes(n)[1..] == Passes(n - 1);
      RunPassesSplit(LoopStep(s, false), n - 1);
    }
  }

  /** The main loop's own state, updated in place. */
  class Console {
    const cmdBuf: array<byte>
    var cmdBufLen: nat
    var fifo: seq<byte>
    var out: seq<Output>
    var ran: seq<Command>

    predicate Valid()
      reads this
    {
      cmdBuf.Length == CMD_BUF_SIZE && cmdBufLen <= CMD_BUF_SIZE
    }

    function State(): LoopState
      requires Valid()
      reads this, cmdBuf
    {
      LoopState(cmdBuf[..cmdBufLen], fifo, out, ran)
    }

    /** A zeroed buffer, nothing received, reported or run. */
    constructor ()
      ensures Valid() && State() == LoopState([], [], [], [])
      ensures fresh(cmdBuf)
    {
      cmdBuf := new byte[CMD_BUF_SIZE](_ => 0);
      cmdBufLen := 0;
      fifo, out, ran := [], [], [];
    }

    /** The UART interrupt queueing a received byte. */
    method Receive(b: byte)
      requires Valid()
      modifies this
      ensures Valid() && State() == Apply(old(State()), Event.Receive(b))
    {
      fifo := fifo + [b];
    }

    /** One pass of the main loop, blinking apart. */
    method Pass(commandFails: bool)
      requires Valid()
      modifies this, cmdBuf
      ensures Valid() && State() == LoopStep(old(State()), commandFails)
    {
      if fifo == [] {
        return;
      }
      var b := fifo[0];
      fifo := fifo[1..];
      if b == LF {
        match Decode(cmdBuf[..cmdBufLen])
        case None =>
          out := out + [InvalidUtf8];
        case Some(text) =>
          var parts := Parts(text);
          if parts != [] {
            var args, argsLen := CollectArgs(parts[1..]);
            ran := ran + [Command(parts[0], args[..argsLen])];
            if commandFails {
              out := out + [CommandFailed];
            }
            DrainInput();
            cmdBufLen := 0;
          }
          out := out + [Prompt];
      } else if cmdBufLen < cmdBuf.Length {
        cmdBuf[cmdBufLen] := b;
        cmdBufLen := cmdBufLen + 1;
      } else {
        out := out + [BufferFull];
      }
    }

    /** Dequeue until the FIFO is empty. */
    method DrainInput()
      modifies this`fifo
      ensures fifo == []
    {
      while fifo != []
        decreases |fifo|
      {
        fifo := fifo[1..];
      }
    }
  }

  /** Fills a fresh array of 16 empty arguments from `rest`, stopping when `rest` runs out. */
  method CollectArgs(rest: seq<seq<int>>) returns (args: array<seq<int>>, argsLen: nat)
    ensures fresh(args) && args.Length == MAX_ARGS && argsLen <= MAX_ARGS
    ensures args[..argsLen] == FirstArgs(rest)
  {
    args := new seq<int>[MAX_ARGS](_ => []);
    argsLen := 0;
    var i := 0;
    while i < args.Length
      invariant 0 <= i <= args.Length
      invariant argsLen == i && i <= |rest|
      invariant args[..argsLen] == rest[..i]
    {
      if i >= |rest| {
        break;
      }
      args[i] := rest[i];
      argsLen := argsLen + 1;
      i := i + 1;
    }
  }
}
