/**
 logStderr (client.go:1313-1431): the plugin's stderr, as bufio.Reader.ReadLine cuts it, is copied
 to config.Stderr and turned into log records.  Bytes are characters here.
*/
module StderrPump {
  import opened Basics

  // ---------------------------------------------------------------- what ReadLine may return

  /** One result of ReadLine. */
  datatype Read = Read(line: string, isPrefix: bool)

  predicate SplitsCRLF(a: string, b: string)
  {
    a != [] && a[|a| - 1] == '\r' && b != [] && b[0] == '\n'
  }

  /** A full buffer cuts a line short, but never inside a "\r\n". */
  ghost predicate IsPrefixRead(input: string, r: Read)
  {
    && r.isPrefix && r.line != [] && r.line <= input && '\n' !in r.line
    && !SplitsCRLF(r.line, input[|r.line|..])
  }

  /** The rest of a line, its "\n" or "\r\n" removed. */
  ghost predicate IsLineRead(input: string, r: Read, n: nat)
  {
    && !r.isPrefix && n < |input| && input[n] == '\n' && '\n' !in input[..n]
    && r.line == if n > 0 && input[n - 1] == '\r' then input[..n - 1] else input[..n]
  }

  /** The last, unterminated line. */
  ghost predicate IsLastRead(input: string, r: Read)
  {
    !r.isPrefix && input != [] && '\n' !in input && r.line == input
  }

  /** `pieces` is a sequence of results that ReadLine can return for `input`, whatever its buffer. */
  ghost predicate Cuts(input: string, pieces: seq<Read>)
    decreases |pieces|
  {
    if pieces == [] then input == []
    else
      || (IsPrefixRead(input, pieces[0]) && Cuts(input[|pieces[0].line|..], pieces[1..]))
      || (exists n: nat :: IsLineRead(input, pieces[0], n) && Cuts(input[n + 1..], pieces[1..]))
      || (IsLastRead(input, pieces[0]) && pieces[1..] == [])
  }

  // ---------------------------------------------------------------- log records

  /** hclog's levels. */
  datatype Level = NoLevel | Trace | Debug | Info | Warn | Error | Off

  function Rank(l: Level): nat
  {
    match l
    case NoLevel => 0 case Trace => 1 case Debug => 2 case Info => 3 case Warn => 4 case Error => 5 case Off => 6
  }

  /** A JSON line that parseJSON understood; `level` is its "@level" as hclog reads it. */
  datatype Entry = Entry(level: Level, message: string, pairs: seq<(string, string)>)

  datatype Record = Plain(level: Level, line: string) | Structured(level: Level, entry: Entry)

  /** The logger drops records below its level. */
  predicate Passes(r: Record, logger: Level)
  {
    Rank(logger) <= Rank(r.level)
  }

  function Logged(r: Record, logger: Level): seq<Record>
  {
    if Passes(r, logger) then [r] else []
  }

  function Emitted(records: seq<Record>, logger: Level): seq<Record>
  {
    if records == [] then []
    else
      var n := |records| - 1;
      Emitted(records[..n], logger) + Logged(records[n], logger)
  }

  lemma EmittedAppend(records: seq<Record>, r: Record, logger: Level)
    ensures Emitted(records + [r], logger) == Emitted(records, logger) + Logged(r, logger)
  {
    assert (records + [r])[..|records|] == records;
  }

  function Tag(line: string): Option<Level>
  {
    if "[TRACE]" <= line then Some(Trace)
    else if "[DEBUG]" <= line then Some(Debug)
    else if "[INFO]" <= line then Some(Info)
    else if "[WARN]" <= line then Some(Warn)
    else if "[ERROR]" <= line then Some(Error)
    else None
  }

  /** The first line of a stack trace. */
  predicate StartsPanic(line: string)
  {
    Tag(line).None? && ("panic: " <= line || "fatal error: " <= line)
  }

  /** The level of a line that is not JSON: its tag, else Error inside a panic, else Debug. */
  function LineLevel(line: string, inPanic: bool): Level
  {
    if Tag(line).Some? then Tag(line).value else if StartsPanic(line) || inPanic then Error else Debug
  }

  /** The record a whole line calls for. */
  function LineRecord(parse: string -> Option<Entry>, line: string, inPanic: bool): Record
  {
    match parse(line)
    case None => Plain(LineLevel(line, inPanic), line)
    case Some(e) => if e.level.NoLevel? || e.level.Off? then Plain(Debug, line) else Structured(e.level, e)
  }

  /** A panic, once begun, goes on to the end. */
  function PanicAfter(parse: string -> Option<Entry>, line: string, inPanic: bool): bool
  {
    inPanic || (parse(line).None? && StartsPanic(line))
  }

  // ---------------------------------------------------------------- what a record must be

  predicate Untagged(line: string)
  {
    && !("[TRACE]" <= line) && !("[DEBUG]" <= line) && !("[INFO]" <= line)
    && !("[WARN]" <= line) && !("[ERROR]" <= line)
  }

  predicate BeginsPanic(parse: string -> Option<Entry>, line: string)
  {
    parse(line).None? && Untagged(line) && ("panic: " <= line || "fatal error: " <= line)
  }

  /** `out` is the one record `r`, unless the logger's level is above it. */
  predicate Shows(out: seq<Record>, r: Record, logger: Level)
  {
    out == if Rank(logger) <= Rank(r.level) then [r] else []
  }

  /** The levels are in hclog's order. */
  lemma LevelsAscend()
    ensures Rank(NoLevel) < Rank(Trace) < Rank(Debug) < Rank(Info) < Rank(Warn) < Rank(Error) < Rank(Off)
  {
  }

  /** What the logger gets to see of a whole line: an entry at its own level, or the line at its tag's
      level, at Error from the beginning of a panic on, and otherwise at Debug. */
  ghost predicate LineLaw(parse: string -> Option<Entry>, logger: Level, line: string, panicking: bool, out: seq<Record>)
  {
    match parse(line)
    case Some(e) =>
      if e.level in {Trace, Debug, Info, Warn, Error} then Shows(out, Structured(e.level, e), logger)
      else Shows(out, Plain(Debug, line), logger)
    case None =>
      && ("[TRACE]" <= line ==> Shows(out, Plain(Trace, line), logger))
      && ("[DEBUG]" <= line ==> Shows(out, Plain(Debug, line), logger))
      && ("[INFO]" <= line ==> Shows(out, Plain(Info, line), logger))
      && ("[WARN]" <= line ==> Shows(out, Plain(Warn, line), logger))
      && ("[ERROR]" <= line ==> Shows(out, Plain(Error, line), logger))
      && (Untagged(line) ==> Shows(out, Plain(if panicking then Error else Debug, line), logger))
  }

  /** A line has at most one tag. */
  lemma {:induction false} TagsDiffer(line: string)
    ensures "[TRACE]" <= line ==> |line| > 1 && line[1] == 'T'
    ensures "[DEBUG]" <= line ==> |line| > 1 && line[1] == 'D'
    ensures "[INFO]" <= line ==> |line| > 1 && line[1] == 'I'
    ensures "[WARN]" <= line ==> |line| > 1 && line[1] == 'W'
    ensures "[ERROR]" <= line ==> |line| > 1 && line[1] == 'E'
  {
    assert "[TRACE]"[1] == 'T' && "[DEBUG]"[1] == 'D' && "[INFO]"[1] == 'I' && "[WARN]"[1] == 'W' && "[ERROR]"[1] == 'E';
  }

  /** The record a line calls for keeps the law. */
  lemma {:induction false} RecordLaw(parse: string -> Option<Entry>, logger: Level, line: string, inPanic: bool)
    ensures PanicAfter(parse, line, inPanic) <==> inPanic || BeginsPanic(parse, line)
    ensures LineLaw(parse, logger, line, PanicAfter(parse, line, inPanic), Logged(LineRecord(parse, line, inPanic), logger))
  {
    TagsDiffer(line);
    assert Untagged(line) <==> Tag(line).None?;
  }

  /** A panic has begun in a whole line before piece `i`, or in it. */
  ghost predicate PanicBy(parse: string -> Option<Entry>, pieces: seq<Read>, i: nat)
    requires i < |pieces|
  {
    exists j: nat :: j <= i && WholeLine(pieces, j) && BeginsPanic(parse, pieces[j].line)
  }

  /** What the logger gets to see of piece `i`: a piece of a long line always goes out at Debug. */
  ghost predicate PieceLaw(parse: string -> Option<Entry>, logger: Level, pieces: seq<Read>, i: nat, out: seq<Record>)
    requires i < |pieces|
  {
    if WholeLine(pieces, i) then LineLaw(parse, logger, pieces[i].line, PanicBy(parse, pieces, i), out)
    else Shows(out, Plain(Debug, pieces[i].line), logger)
  }

  // ---------------------------------------------------------------- the plain pump

  /** The lines that were read whole, as opposed to piece by piece. */
  predicate WholeLine(pieces: seq<Read>, i: nat)
    requires i < |pieces|
  {
    !pieces[i].isPrefix && (i == 0 || !pieces[i - 1].isPrefix)
  }

  function PanickedBefore(parse: string -> Option<Entry>, pieces: seq<Read>, i: nat): bool
    requires i <= |pieces|
  {
    i > 0 && (if WholeLine(pieces, i - 1) then PanicAfter(parse, pieces[i - 1].line, PanickedBefore(parse, pieces, i - 1))
              else PanickedBefore(parse, pieces, i - 1))
  }

  /** The panic state is sticky: it holds exactly when some earlier whole line began a panic. */
  lemma {:induction false} PanicIsSticky(parse: string -> Option<Entry>, pieces: seq<Read>, i: nat)
    requires i <= |pieces|
    ensures PanickedBefore(parse, pieces, i)
       <==> exists j: nat :: j < i && WholeLine(pieces, j) && parse(pieces[j].line).None? && StartsPanic(pieces[j].line)
  {
    if i > 0 {
      PanicIsSticky(parse, pieces, i - 1);
      assert WholeLine(pieces, i - 1) && parse(pieces[i - 1].line).None? && StartsPanic(pieces[i - 1].line)
             ==> PanickedBefore(parse, pieces, i);
    }
  }

  /** The record for piece `i`, parsing every whole line. */
  function PieceRecord(parse: string -> Option<Entry>, pieces: seq<Read>, i: nat): Record
    requires i < |pieces|
  {
    if WholeLine(pieces, i) then LineRecord(parse, pieces[i].line, PanickedBefore(parse, pieces, i))
    else Plain(Debug, pieces[i].line)
  }

  /** One record for each of the first `i` pieces, skipping nothing. */
  function PlainRecords(parse: string -> Option<Entry>, pieces: seq<Read>, i: nat): seq<Record>
    requires i <= |pieces|
  {
    if i == 0 then [] else PlainRecords(parse, pieces, i - 1) + [PieceRecord(parse, pieces, i - 1)]
  }

  /** What is written to config.Stderr: each piece, with a newline after the last piece of a line. */
  function Written(pieces: seq<Read>): string
  {
    if pieces == [] then []
    else
      var n := |pieces| - 1;
      Written(pieces[..n]) + pieces[n].line + if pieces[n].isPrefix then [] else "\n"
  }

  // ---------------------------------------------------------------- the pump

  /** The part of the loop that deals with a whole line while the logger is on, with the shortcut for
      entries below the logger's level.  `out` is what the logger lets through. */
  method LogLine(parse: string -> Option<Entry>, logger: Level, line: string, inPanic: bool)
    returns (out: seq<Record>, panicking: bool)
    ensures panicking <==> inPanic || BeginsPanic(parse, line)
    ensures LineLaw(parse, logger, line, panicking, out)
    ensures panicking == PanicAfter(parse, line, inPanic)
    ensures out == Logged(LineRecord(parse, line, inPanic), logger)
  {
    RecordLaw(parse, logger, line, inPanic);
    panicking := inPanic;
    var entry := parse(line);
    if entry.None? {
      if "[TRACE]" <= line { return Logged(Plain(Trace, line), logger), panicking; }
      if "[DEBUG]" <= line { return Logged(Plain(Debug, line), logger), panicking; }
      if "[INFO]" <= line { return Logged(Plain(Info, line), logger), panicking; }
      if "[WARN]" <= line { return Logged(Plain(Warn, line), logger), panicking; }
      if "[ERROR]" <= line { return Logged(Plain(Error, line), logger), panicking; }
      if "panic: " <= line || "fatal error: " <= line {
        panicking := true;
      }
      out := Logged(Plain(if panicking then Error else Debug, line), logger);
    } else {
      var level := entry.value.level;
      if !level.NoLevel? && Rank(level) < Rank(logger) {
        return [], panicking;
      }
      out := Logged(if level.NoLevel? || level.Off? then Plain(Debug, line) else Structured(level, entry.value), logger);
    }
  }

  lemma NothingWhenOff(parse: string -> Option<Entry>, pieces: seq<Read>, i: nat)
    requires i < |pieces|
    ensures Logged(PieceRecord(parse, pieces, i), Off) == []
  {
  }

  /** The plain pump keeps the law. */
  lemma {:induction false} PlainLaw(parse: string -> Option<Entry>, logger: Level, pieces: seq<Read>, i: nat)
    requires i < |pieces|
    ensures PieceLaw(parse, logger, pieces, i, Logged(PieceRecord(parse, pieces, i), logger))
  {
    if WholeLine(pieces, i) {
      PanicByNow(parse, pieces, i);
      RecordLaw(parse, logger, pieces[i].line, PanickedBefore(parse, pieces, i));
    }
  }

  lemma {:induction false} PanicByNow(parse: string -> Option<Entry>, pieces: seq<Read>, i: nat)
    requires i < |pieces| && WholeLine(pieces, i)
    ensures PanicBy(parse, pieces, i) <==> PanickedBefore(parse, pieces, i) || BeginsPanic(parse, pieces[i].line)
  {
    PanicIsSticky(parse, pieces, i);
    if PanickedBefore(parse, pieces, i) {
      var j: nat :| j < i && WholeLine(pieces, j) && parse(pieces[j].line).None? && StartsPanic(pieces[j].line);
      assert BeginsPanic(parse, pieces[j].line);
    }
  }

  /** What one more piece adds. */
  lemma PlainStep(parse: string -> Option<Entry>, logger: Level, pieces: seq<Read>, i: nat)
    requires i < |pieces|
    ensures Emitted(PlainRecords(parse, pieces, i + 1), logger)
         == Emitted(PlainRecords(parse, pieces, i), logger) + Logged(PieceRecord(parse, pieces, i), logger)
    ensures Written(pieces[..i + 1]) == Written(pieces[..i]) + pieces[i].line + if pieces[i].isPrefix then [] else "\n"
  {
    assert pieces[..i + 1][..i] == pieces[..i];
    EmittedAppend(PlainRecords(parse, pieces, i), PieceRecord(parse, pieces, i), logger);
  }

  /** What the plain pump shows of the first `n` pieces, piece by piece. */
  function PlainOuts(parse: string -> Option<Entry>, logger: Level, pieces: seq<Read>, n: nat): (outs: seq<seq<Record>>)
    requires n <= |pieces|
    ensures |outs| == n
  {
    if n == 0 then [] else PlainOuts(parse, logger, pieces, n - 1) + [Logged(PieceRecord(parse, pieces, n - 1), logger)]
  }

  lemma {:induction false} EmittedByPiece(parse: string -> Option<Entry>, logger: Level, pieces: seq<Read>, n: nat)
    requires n <= |pieces|
    ensures Emitted(PlainRecords(parse, pieces, n), logger) == Concat(PlainOuts(parse, logger, pieces, n))
  {
    if n > 0 {
      EmittedByPiece(parse, logger, pieces, n - 1);
      EmittedAppend(PlainRecords(parse, pieces, n - 1), PieceRecord(parse, pieces, n - 1), logger);
      ConcatAppend(PlainOuts(parse, logger, pieces, n - 1), Logged(PieceRecord(parse, pieces, n - 1), logger));
    }
  }

  lemma {:induction false} PlainOutsLaw(parse: string -> Option<Entry>, logger: Level, pieces: seq<Read>, n: nat, i: nat)
    requires i < n <= |pieces|
    ensures PieceLaw(parse, logger, pieces, i, PlainOuts(parse, logger, pieces, n)[i])
  {
    if i < n - 1 {
      PlainOutsLaw(parse, logger, pieces, n - 1, i);
    } else {
      PlainLaw(parse, logger, pieces, i);
    }
  }

  /** logStderr's loop with its two shortcuts: no parsing when the logger is off, and no record for
      an entry below the logger's level.  `emitted` is what the logger lets through. */
  method Pump(parse: string -> Option<Entry>, logger: Level, pieces: seq<Read>)
    returns (stderr: string, emitted: seq<Record>)
    ensures stderr == Written(pieces)
    ensures emitted == Emitted(PlainRecords(parse, pieces, |pieces|), logger)
    ensures exists outs: seq<seq<Record>> ::
              |outs| == |pieces| && emitted == Concat(outs) &&
              forall i :: 0 <= i < |pieces| ==> PieceLaw(parse, logger, pieces, i, outs[i])
  {
    var loggerDisabled := logger.Off?;
    var continuation, inPanic := false, false;
    stderr, emitted := [], [];
    for i := 0 to |pieces|
      invariant stderr == Written(pieces[..i])
      invariant emitted == Emitted(PlainRecords(parse, pieces, i), logger)
      invariant continuation == (i > 0 && pieces[i - 1].isPrefix)
      invariant !loggerDisabled ==> inPanic == PanickedBefore(parse, pieces, i)
    {
      PlainStep(parse, logger, pieces, i);
      var line, isPrefix := pieces[i].line, pieces[i].isPrefix;
      stderr := stderr + line;
      if isPrefix || continuation {
        emitted := emitted + Logged(Plain(Debug, line), logger);
        if !isPrefix {
          stderr := stderr + "\n";
        }
        continuation := isPrefix;
        continue;
      }
      stderr := stderr + "\n";
      if loggerDisabled {
        NothingWhenOff(parse, pieces, i);
        continue;
      }
      var out, panicking := LogLine(parse, logger, line, inPanic);
      emitted, inPanic := emitted + out, panicking;
    }
    assert pieces[..|pieces|] == pieces;
    EmittedByPiece(parse, logger, pieces, |pieces|);
    ghost var outs := PlainOuts(parse, logger, pieces, |pieces|);
    forall i | 0 <= i < |pieces| ensures PieceLaw(parse, logger, pieces, i, outs[i]) {
      PlainOutsLaw(parse, logger, pieces, |pieces|, i);
    }
  }

  // ---------------------------------------------------------------- transparency

  /** `s` without the carriage returns that stand before a newline. */
  function DropCR(s: string): (r: string)
    ensures |r| <= |s|
    ensures |r| == |s| ==> r == s
  {
    if s == [] then []
    else if s[0] == '\r' && |s| > 1 && s[1] == '\n' then DropCR(s[1..])
    else [s[0]] + DropCR(s[1..])
  }

  ghost predicate HasCRLF(s: string)
  {
    exists i :: 0 <= i < |s| - 1 && s[i] == '\r' && s[i + 1] == '\n'
  }

  lemma {:induction false} DropCRExactly(s: string)
    ensures DropCR(s) == s <==> !HasCRLF(s)
  {
    if s != [] {
      DropCRExactly(s[1..]);
      if HasCRLF(s[1..]) {
        var i :| 0 <= i < |s[1..]| - 1 && s[1..][i] == '\r' && s[1..][i + 1] == '\n';
        assert s[i + 1] == '\r' && s[i + 2] == '\n';
      }
      if HasCRLF(s) && !(s[0] == '\r' && s[1] == '\n') {
        var i :| 0 <= i < |s| - 1 && s[i] == '\r' && s[i + 1] == '\n';
        assert s[1..][i - 1] == '\r' && s[1..][i] == '\n';
      }
    }
  }

  /** Dropping works piece by piece, when the cut is not inside a "\r\n". */
  lemma {:induction false} DropCRSplit(a: string, b: string)
    requires !SplitsCRLF(a, b)
    ensures DropCR(a + b) == DropCR(a) + DropCR(b)
  {
    if a == [] {
      assert a + b == b;
    } else {
      assert (a + b)[1..] == a[1..] + b;
      DropCRSplit(a[1..], b);
    }
  }

  lemma {:induction false} DropCRInside(s: string)
    requires '\n' !in s
    ensures DropCR(s) == s
  {
    DropCRExactly(s);
  }

  /** Writing from the front. */
  lemma {:induction false} WrittenFront(pieces: seq<Read>)
    requires pieces != []
    ensures Written(pieces) == pieces[0].line + (if pieces[0].isPrefix then [] else "\n") + Written(pieces[1..])
  {
    var n := |pieces| - 1;
    if n > 0 {
      WrittenFront(pieces[..n]);
      assert pieces[..n][1..] == pieces[1..][..n - 1];
    }
  }

  /** The newline the pump adds after an unterminated last line, if it was not cut short. */
  function Added(input: string, pieces: seq<Read>): string
  {
    if input == [] || input[|input| - 1] == '\n' || pieces == [] || pieces[|pieces| - 1].isPrefix then [] else "\n"
  }

  lemma {:induction false} LineIsCopied(input: string, r: Read, n: nat)
    requires IsLineRead(input, r, n)
    ensures DropCR(input[..n + 1]) == r.line + "\n"
  {
    DropCRInside(r.line);
    if n > 0 && input[n - 1] == '\r' {
      assert input[..n + 1] == r.line + "\r\n";
      DropCRSplit(r.line, "\r\n");
      assert "\r\n"[1..] == "\n";
    } else {
      assert input[..n + 1] == r.line + "\n";
      DropCRSplit(r.line, "\n");
    }
  }

  /** One step of the copy: the first piece is what becomes of `first`. */
  lemma {:induction false} CopiesStep(first: string, after: string, pieces: seq<Read>)
    requires pieces != []
    requires !SplitsCRLF(first, after)
    requires DropCR(first) == pieces[0].line + (if pieces[0].isPrefix then [] else "\n")
    requires Written(pieces[1..]) == DropCR(after) + Added(after, pieces[1..])
    requires Added(first + after, pieces) == Added(after, pieces[1..])
    ensures Written(pieces) == DropCR(first + after) + Added(first + after, pieces)
  {
    WrittenFront(pieces);
    DropCRSplit(first, after);
    assert DropCR(first) + (DropCR(after) + Added(after, pieces[1..]))
        == (DropCR(first) + DropCR(after)) + Added(after, pieces[1..]);
  }

  /** For every input and every way of cutting it, config.Stderr gets the input with "\r\n" turned
      into "\n" and perhaps a final newline. */
  lemma {:induction false} CopiesInput(input: string, pieces: seq<Read>)
    requires Cuts(input, pieces)
    ensures Written(pieces) == DropCR(input) + Added(input, pieces)
    decreases |pieces|
  {
    if pieces != [] {
      var r, rest := pieces[0], pieces[1..];
      if IsPrefixRead(input, r) && Cuts(input[|r.line|..], rest) {
        CopiesInput(input[|r.line|..], rest);
        PrefixIsCopied(input, pieces);
      } else if IsLastRead(input, r) && rest == [] {
        LastIsCopied(input, pieces);
      } else {
        var n: nat :| IsLineRead(input, r, n) && Cuts(input[n + 1..], rest);
        CopiesInput(input[n + 1..], rest);
        WholeLineIsCopied(input, pieces, n);
      }
    }
  }

  lemma {:induction false} PrefixIsCopied(input: string, pieces: seq<Read>)
    requires pieces != [] && IsPrefixRead(input, pieces[0])
    requires |pieces[0].line| == |input| <==> pieces[1..] == []
    requires var after := input[|pieces[0].line|..]; Written(pieces[1..]) == DropCR(after) + Added(after, pieces[1..])
    ensures Written(pieces) == DropCR(input) + Added(input, pieces)
  {
    var first, after := pieces[0].line, input[|pieces[0].line|..];
    assert input == first + after;
    DropCRInside(first);
    CopiesStep(first, after, pieces);
  }

  lemma {:induction false} WholeLineIsCopied(input: string, pieces: seq<Read>, n: nat)
    requires pieces != [] && IsLineRead(input, pieces[0], n)
    requires n + 1 == |input| <==> pieces[1..] == []
    requires Written(pieces[1..]) == DropCR(input[n + 1..]) + Added(input[n + 1..], pieces[1..])
    ensures Written(pieces) == DropCR(input) + Added(input, pieces)
  {
    LineIsCopied(input, pieces[0], n);
    assert input == input[..n + 1] + input[n + 1..];
    CopiesStep(input[..n + 1], input[n + 1..], pieces);
  }

  lemma {:induction false} LastIsCopied(input: string, pieces: seq<Read>)
    requires |pieces| == 1 && IsLastRead(input, pieces[0])
    ensures Written(pieces) == DropCR(input) + Added(input, pieces)
  {
    DropCRInside(input);
    assert Written(pieces[..0]) == [];
  }

  /** The copy is byte for byte exactly when no line ends in "\r\n" and the input is empty, ends in a
      newline, or ends in a piece that filled the buffer. */
  lemma {:induction false} TransparentExactlyWhen(input: string, pieces: seq<Read>)
    requires Cuts(input, pieces)
    ensures Written(pieces) == input <==>
              && !HasCRLF(input)
              && (input == [] || input[|input| - 1] == '\n' || pieces[|pieces| - 1].isPrefix)
  {
    CopiesInput(input, pieces);
    DropCRExactly(input);
    LastByte(input);
  }

  /** Dropping keeps the last byte, so a missing newline cannot make up for a dropped byte. */
  lemma {:induction false} LastByte(s: string)
    ensures s == [] <==> DropCR(s) == []
    ensures s != [] ==> DropCR(s)[|DropCR(s)| - 1] == s[|s| - 1]
  {
    if |s| > 1 {
      LastByte(s[1..]);
    }
  }
}
