/** The line framer of the AT channel: reads of any size are cut into lines until a final
    result code. Prompt mode is not part of this model. */
module AtFramer {
  import opened Text

  predicate IsError(line: string) {
    line == "ERROR" || "+CME ERROR" <= line || "+CMS ERROR" <= line
  }

  function StripCr(line: string): string {
    if line != "" && line[|line| - 1] == '\r' then line[..|line| - 1] else line
  }

  /** The first newline, or the length when there is none. */
  function NewlineAt(s: string): (i: nat)
    ensures i <= |s|
    ensures i < |s| ==> s[i] == '\n'
    ensures i == |s| <==> '\n' !in s
  {
    if s == "" then 0
    else if s[0] == '\n' then 0
    else
      assert s == [s[0]] + s[1..];
      1 + NewlineAt(s[1..])
  }

  lemma {:induction false} NewlineAtIsFirst(s: string)
    ensures '\n' !in s[..NewlineAt(s)]
  {
    if s != "" && s[0] != '\n' {
      NewlineAtIsFirst(s[1..]);
      assert s[..NewlineAt(s)] == [s[0]] + s[1..][..NewlineAt(s[1..])];
    }
  }

  /** `rest` is everything after the last line used, whether buffered or still unread. */
  datatype Outcome = Outcome(ok: bool, lines: seq<string>, rest: string)

  /** What one line means: blank or echo, a final result code, or information. */
  datatype Kind = Skip | Good | Bad | Info

  function KindOf(line: string, cmd: string): Kind {
    if line == "" || line == cmd then Skip
    else if line == "OK" then Good
    else if IsError(line) then Bad
    else Info
  }

  function Prepend(lines: seq<string>, o: Outcome): Outcome {
    o.(lines := lines + o.lines)
  }

  /** One complete text, cut at its newlines. */
  function Framed(s: string, cmd: string): Outcome
    decreases |s|
  {
    var nl := NewlineAt(s);
    if nl == |s| then Outcome(false, [], s)
    else
      var line := StripCr(s[..nl]);
      var rest := s[nl + 1..];
      match KindOf(line, cmd)
      case Skip => Framed(rest, cmd)
      case Good => Outcome(true, [], rest)
      case Bad => Outcome(false, [line], rest)
      case Info => Prepend([line], Framed(rest, cmd))
  }

  function Flatten(chunks: seq<string>): string {
    if chunks == [] then "" else chunks[0] + Flatten(chunks[1..])
  }

  lemma FlattenNext(rx: string, chunks: seq<string>, i: nat)
    requires i < |chunks|
    ensures rx + Flatten(chunks[i..]) == (rx + chunks[i]) + Flatten(chunks[i + 1..])
  {
    assert chunks[i..][0] == chunks[i];
    assert chunks[i..][1..] == chunks[i + 1..];
  }

  lemma FlattenEnd(rx: string, chunks: seq<string>, i: nat)
    requires i == |chunks|
    ensures rx + Flatten(chunks[i..]) == rx
  {
    assert chunks[i..] == [];
  }

  lemma PrependTwice(a: seq<string>, b: seq<string>, o: Outcome)
    ensures Prepend(a, Prepend(b, o)) == Prepend(a + b, o)
  {
  }

  lemma {:induction false} NewlineInFront(a: string, b: string)
    requires '\n' in a
    ensures NewlineAt(a + b) == NewlineAt(a)
  {
    if a[0] != '\n' {
      assert a == [a[0]] + a[1..];
      assert (a + b)[1..] == a[1..] + b;
      NewlineInFront(a[1..], b);
    }
  }

  // ------------------------------------------------------- what a modem sends

  /** One line as it comes over the wire, with its line end. */
  datatype Sent = Sent(line: string, eol: string)

  predicate EndOfLine(eol: string) {
    eol == "\r\n" || eol == "\n"
  }

  /** A line as the modem means it. */
  predicate Clean(line: string) {
    '\n' !in line && (line != "" ==> line[|line| - 1] != '\r')
  }

  predicate ErrorCode(line: string) {
    || line == "ERROR"
    || (|line| >= 10 && line[..10] == "+CME ERROR")
    || (|line| >= 10 && line[..10] == "+CMS ERROR")
  }

  /** Information lines, with blank lines and echoes of the command among them. */
  predicate Transcript(sent: seq<Sent>, cmd: string) {
    forall i :: 0 <= i < |sent| ==>
      && Clean(sent[i].line) && EndOfLine(sent[i].eol)
      && (sent[i].line == "" || sent[i].line == cmd || (sent[i].line != "OK" && !ErrorCode(sent[i].line)))
  }

  /** Everything on the wire: the transcript, a last line, and what follows. */
  function Wire(sent: seq<Sent>, last: string, eol: string, rest: string): string {
    if sent == [] then last + eol + rest
    else sent[0].line + sent[0].eol + Wire(sent[1..], last, eol, rest)
  }

  function Information(sent: seq<Sent>, cmd: string): seq<string> {
    if sent == [] then []
    else (if sent[0].line == "" || sent[0].line == cmd then [] else [sent[0].line]) + Information(sent[1..], cmd)
  }

  lemma {:induction false} NewlineAfter(a: string, b: string)
    requires '\n' !in a && b != "" && b[0] == '\n'
    ensures NewlineAt(a + b) == |a|
  {
    if a == "" {
      assert a + b == b;
    } else {
      assert (a + b)[1..] == a[1..] + b;
      NewlineAfter(a[1..], b);
    }
  }

  lemma LineCut(line: string, eol: string, rest: string)
    requires Clean(line) && EndOfLine(eol)
    ensures var s := line + eol + rest;
            var nl := NewlineAt(s);
            nl < |s| && StripCr(s[..nl]) == line && s[nl + 1..] == rest
  {
    var s := line + eol + rest;
    var before := if eol == "\n" then line else line + "\r";
    assert s == before + ("\n" + rest);
    NewlineAfter(before, "\n" + rest);
    assert s[..|before|] == before && s[|before| + 1..] == rest;
  }

  lemma ErrorCodesAreErrors(line: string)
    ensures IsError(line) <==> ErrorCode(line)
  {
  }

  /** How one line on the wire is taken. */
  lemma LineTaken(line: string, eol: string, rest: string, cmd: string)
    requires Clean(line) && EndOfLine(eol)
    ensures Framed(line + eol + rest, cmd) ==
            if line == "" || line == cmd then Framed(rest, cmd)
            else if line == "OK" then Outcome(true, [], rest)
            else if ErrorCode(line) then Outcome(false, [line], rest)
            else Prepend([line], Framed(rest, cmd))
  {
    LineCut(line, eol, rest);
    ErrorCodesAreErrors(line);
  }

  /** What the modem means by a transcript that ends in this final result code. */
  function Meant(sent: seq<Sent>, last: string, rest: string, cmd: string): Outcome {
    Outcome(last == "OK", Information(sent, cmd) + (if last == "OK" then [] else [last]), rest)
  }

  lemma OneLineLess(sent: seq<Sent>, last: string, rest: string, cmd: string)
    requires sent != []
    ensures Meant(sent, last, rest, cmd) ==
            if sent[0].line == "" || sent[0].line == cmd then Meant(sent[1..], last, rest, cmd)
            else Prepend([sent[0].line], Meant(sent[1..], last, rest, cmd))
  {
  }

  predicate FinalCode(last: string, cmd: string) {
    Clean(last) && last != cmd && (last == "OK" || ErrorCode(last))
  }

  /** A transcript that ends in a final result code: its information lines, the code's verdict
      with an error code as the last line, and the rest untouched. */
  lemma {:induction false} TranscriptTaken(sent: seq<Sent>, last: string, eol: string, rest: string, cmd: string)
    requires Transcript(sent, cmd) && FinalCode(last, cmd) && EndOfLine(eol)
    ensures Framed(Wire(sent, last, eol, rest), cmd) == Meant(sent, last, rest, cmd)
  {
    if sent == [] {
      LineTaken(last, eol, rest, cmd);
      assert [] + [last] == [last];
    } else {
      var more := Wire(sent[1..], last, eol, rest);
      LineTaken(sent[0].line, sent[0].eol, more, cmd);
      TranscriptTaken(sent[1..], last, eol, rest, cmd);
      OneLineLess(sent, last, rest, cmd);
    }
  }

  /** Without one, the information lines so far and the incomplete line. */
  lemma {:induction false} TranscriptPending(sent: seq<Sent>, tail: string, cmd: string)
    requires Transcript(sent, cmd) && '\n' !in tail
    ensures Framed(Wire(sent, "", "", tail), cmd) == Outcome(false, Information(sent, cmd), tail)
  {
    if sent == [] {
      assert Wire(sent, "", "", tail) == tail;
      FramedTail(tail, cmd);
    } else {
      LineTaken(sent[0].line, sent[0].eol, Wire(sent[1..], "", "", tail), cmd);
      TranscriptPending(sent[1..], tail, cmd);
    }
  }

  class Modem {
    var rx: string   // partial-line buffer, kept across commands

    constructor ()
      ensures rx == ""
    {
      rx := "";
    }

    /** The inner loop: use up the complete lines of the buffer, up to a final result code.
        `plain` is the outcome of all the text not yet framed; what remains of it is the buffer
        and `unread`, with outcome `o`. */
    method TakeLines(cmd: string, ghost unread: string, ghost plain: Outcome)
      returns (done: bool, ok: bool, lines: seq<string>, ghost o: Outcome)
      requires plain == Framed(rx + unread, cmd)
      modifies this
      ensures !done ==> !ok && '\n' !in rx
      ensures plain == Prepend(lines, o)
      ensures o == if done then Outcome(ok, [], rx + unread) else Framed(rx + unread, cmd)
    {
      done, ok, lines, o := false, false, [], plain;
      while '\n' in rx
        invariant plain == Prepend(lines, o)
        invariant o == Framed(rx + unread, cmd)
        decreases |rx|
      {
        var nl := NewlineAt(rx);
        FirstLine(rx, unread, cmd);
        var line := StripCr(rx[..nl]);
        rx := rx[nl + 1..];
        if line == "" || line == cmd {
          continue;
        }
        if line == "OK" {
          return true, true, lines, o;
        }
        o := if IsError(line) then Outcome(false, [], rx + unread) else Framed(rx + unread, cmd);
        PrependTwice(lines, [line], o);
        lines := lines + [line];
        if IsError(line) {
          return true, false, lines, o;
        }
      }
    }

    /** The outer loop: append each read and use up its lines. */
    method TakeReads(cmd: string, chunks: seq<string>, ghost plain: Outcome)
      returns (done: bool, ok: bool, lines: seq<string>, used: nat, ghost o: Outcome)
      requires plain == Framed(rx + Flatten(chunks), cmd)
      modifies this
      ensures used <= |chunks| && (done ==> used > 0) && (!done ==> used == |chunks| && !ok)
      ensures !done && used > 0 ==> '\n' !in rx
      ensures used == 0 ==> rx == old(rx) && lines == []
      ensures plain == Prepend(lines, o)
      ensures var left := rx + Flatten(chunks[used..]); o == if done then Outcome(ok, [], left) else Framed(left, cmd)
    {
      done, ok, lines, used, o := false, false, [], 0, plain;
      assert chunks[0..] == chunks;
      while used < |chunks|
        invariant used <= |chunks| && !done && !ok
        invariant used == 0 ==> rx == old(rx) && lines == []
        invariant used > 0 ==> '\n' !in rx
        invariant plain == Prepend(lines, o)
        invariant o == Framed(rx + Flatten(chunks[used..]), cmd)
      {
        ghost var before := o;
        FlattenNext(rx, chunks, used);
        rx := rx + chunks[used];
        used := used + 1;
        var more;
        done, ok, more, o := TakeLines(cmd, Flatten(chunks[used..]), before);
        PrependTwice(lines, more, o);
        lines := lines + more;
        if done {
          return;
        }
      }
    }

    /** run_at without a prompt. `chunks` are the non-empty reads that arrive before the
        deadline, of which the first `used` are consumed. The outcome is the plain one for the
        bytes taken together, however they were cut, exactly when the buffer held no complete
        line to begin with or at least one read arrives. */
    method RunAt(cmd: string, chunks: seq<string>) returns (ok: bool, lines: seq<string>, used: nat)
      requires forall r | r in chunks :: r != ""
      modifies this
      ensures used <= |chunks|
      ensures Outcome(ok, lines, rx + Flatten(chunks[used..])) == Framed(old(rx) + Flatten(chunks), cmd)
              <==> '\n' !in old(rx) || chunks != []
      ensures forall sent, last, eol, rest |
                && old(rx) + Flatten(chunks) == Wire(sent, last, eol, rest) && ('\n' !in old(rx) || chunks != [])
                && Transcript(sent, cmd) && FinalCode(last, cmd) && EndOfLine(eol) ::
                && ok == (last == "OK")
                && lines == Information(sent, cmd) + (if ok then [] else [last])
                && rx + Flatten(chunks[used..]) == rest
    {
      var done;
      ghost var o;
      done, ok, lines, used, o := TakeReads(cmd, chunks, Framed(rx + Flatten(chunks), cmd));
      if !done {
        FlattenEnd(rx, chunks, used);
        if '\n' in rx {
          FramedShrinks(rx, cmd);
        } else {
          FramedTail(rx, cmd);
        }
      }
      forall sent, last, eol, rest |
        && old(rx) + Flatten(chunks) == Wire(sent, last, eol, rest) && ('\n' !in old(rx) || chunks != [])
        && Transcript(sent, cmd) && FinalCode(last, cmd) && EndOfLine(eol)
        ensures Outcome(ok, lines, rx + Flatten(chunks[used..])) == Meant(sent, last, rest, cmd)
      {
        TranscriptTaken(sent, last, eol, rest, cmd);
      }
    }
  }

  /** The first complete line of the buffer is the first line of all that follows. */
  lemma FirstLine(rx: string, unread: string, cmd: string)
    requires '\n' in rx
    ensures var nl := NewlineAt(rx);
            var line := StripCr(rx[..nl]);
            var rest := rx[nl + 1..] + unread;
            Framed(rx + unread, cmd) ==
              match KindOf(line, cmd)
              case Skip => Framed(rest, cmd)
              case Good => Outcome(true, [], rest)
              case Bad => Outcome(false, [line], rest)
              case Info => Prepend([line], Framed(rest, cmd))
  {
    var nl := NewlineAt(rx);
    NewlineInFront(rx, unread);
    assert (rx + unread)[..nl] == rx[..nl];
    assert (rx + unread)[nl + 1..] == rx[nl + 1..] + unread;
  }

  lemma FramedTail(s: string, cmd: string)
    requires '\n' !in s
    ensures Framed(s, cmd) == Outcome(false, [], s)
  {
  }

  /** A complete line is always used up. */
  lemma {:induction false} FramedShrinks(s: string, cmd: string)
    ensures |Framed(s, cmd).rest| <= |s|
    ensures '\n' in s ==> |Framed(s, cmd).rest| < |s|
    decreases |s|
  {
    var nl := NewlineAt(s);
    if nl < |s| {
      var rest := s[nl + 1..];
      assert |rest| < |s|;
      FramedShrinks(rest, cmd);
      match KindOf(StripCr(s[..nl]), cmd)
      case Skip => assert Framed(s, cmd) == Framed(rest, cmd);
      case Good =>
      case Bad =>
      case Info => assert Framed(s, cmd).rest == Framed(rest, cmd).rest;
    }
  }

  /** The same, over the pieces of the text between newlines. */
  function FromPieces(parts: seq<string>, cmd: string): Outcome
    requires parts != []
  {
    if |parts| == 1 then Outcome(false, [], parts[0])
    else
      var line := StripCr(parts[0]);
      match KindOf(line, cmd)
      case Skip => FromPieces(parts[1..], cmd)
      case Good => Outcome(true, [], Join(parts[1..], '\n'))
      case Bad => Outcome(false, [line], Join(parts[1..], '\n'))
      case Info => Prepend([line], FromPieces(parts[1..], cmd))
  }

  lemma FromPiecesStep(piece: string, more: seq<string>, cmd: string)
    requires more != []
    ensures FromPieces([piece] + more, cmd) ==
            match KindOf(StripCr(piece), cmd)
            case Skip => FromPieces(more, cmd)
            case Good => Outcome(true, [], Join(more, '\n'))
            case Bad => Outcome(false, [StripCr(piece)], Join(more, '\n'))
            case Info => Prepend([StripCr(piece)], FromPieces(more, cmd))
  {
    assert ([piece] + more)[1..] == more;
  }

  /** Framing is splitting at newlines, all at once. */
  lemma {:induction false} FramedIsSplitting(s: string, cmd: string)
    ensures Framed(s, cmd) == FromPieces(Split(s, '\n'), cmd)
    decreases |s|
  {
    var nl := NewlineAt(s);
    if nl == |s| {
      SplitOfPlain(s, '\n');
    } else {
      var piece, rest := s[..nl], s[nl + 1..];
      assert s == piece + ['\n'] + rest;
      NewlineAtIsFirst(s);
      SplitOfPlain(piece, '\n');
      SplitAfter(piece, rest, '\n');
      JoinOfSplit(rest, '\n');
      FromPiecesStep(piece, Split(rest, '\n'), cmd);
      FramedIsSplitting(rest, cmd);
    }
  }
}
