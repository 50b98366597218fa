/** A child's stderr, forwarded line by line: what is emitted does not depend on how the stream is
    cut into reads. */
module Stderr {

  type Byte = bv8

  const NEWLINE: Byte := 10
  const RETURN: Byte := 13
  const STDERR_LINE_LIMIT: nat := 64 * 1024

  /** A line as emitted: the bytes of its text, and how many more it had. */
  datatype Line = Line(text: seq<Byte>, dropped: nat)

  function Cut(raw: seq<Byte>): seq<Byte> {
    if |raw| <= STDERR_LINE_LIMIT then raw else raw[..STDERR_LINE_LIMIT]
  }

  function StripReturn(bytes: seq<Byte>): seq<Byte> {
    if bytes != [] && bytes[|bytes| - 1] == RETURN then bytes[..|bytes| - 1] else bytes
  }

  function StderrLine(bytes: seq<Byte>, dropped: nat): Line {
    Line(StripReturn(bytes), dropped)
  }

  function Shown(raw: seq<Byte>): Line {
    StderrLine(Cut(raw), |raw| - |Cut(raw)|)
  }

  /** Where the first newline is, or the length. */
  function FirstNewline(s: seq<Byte>): (at: nat)
    ensures at <= |s|
    ensures at < |s| ==> s[at] == NEWLINE
    ensures forall i :: 0 <= i < at ==> s[i] != NEWLINE
  {
    if s == [] || s[0] == NEWLINE then 0 else 1 + FirstNewline(s[1..])
  }

  /** The whole stream, split on newlines; a last piece without one counts unless it is empty. */
  function RawLines(s: seq<Byte>): seq<seq<Byte>>
    decreases |s|
  {
    var at := FirstNewline(s);
    if at < |s| then [s[..at]] + RawLines(s[at + 1..])
    else if s == [] then [] else [s]
  }

  function Emitted(lines: seq<seq<Byte>>): seq<Line> {
    seq(|lines|, i requires 0 <= i < |lines| => Shown(lines[i]))
  }

  /** What is read until the end, which is a read of nothing. */
  function Stream(chunks: seq<seq<Byte>>): seq<Byte> {
    if chunks == [] || chunks[0] == [] then [] else chunks[0] + Stream(chunks[1..])
  }

  /** Nothing counts after the read of nothing that ends the stream. */
  lemma {:induction false} NothingAfterTheEnd(before: seq<seq<Byte>>, after: seq<seq<Byte>>)
    ensures Stream(before + [[]] + after) == Stream(before)
  {
    if before == [] {
      assert ([] + [[]] + after)[0] == [];
    } else {
      NothingAfterTheEnd(before[1..], after);
      assert (before + [[]] + after)[1..] == before[1..] + [[]] + after;
    }
  }

  lemma FirstNewlineIs(s: seq<Byte>, before: seq<Byte>, after: seq<Byte>)
    requires NEWLINE !in before
    ensures FirstNewline(before + [NEWLINE] + after) == |before|
  {
    var s := before + [NEWLINE] + after;
    assert s[|before|] == NEWLINE;
    assert forall i :: 0 <= i < |before| ==> s[i] == before[i];
  }

  lemma RawLinesStep(before: seq<Byte>, after: seq<Byte>)
    requires NEWLINE !in before
    ensures RawLines(before + [NEWLINE] + after) == [before] + RawLines(after)
  {
    var s := before + [NEWLINE] + after;
    FirstNewlineIs(s, before, after);
    assert s[..|before|] == before && s[|before| + 1..] == after;
  }

  lemma CutGrows(raw: seq<Byte>, more: seq<Byte>)
    ensures var room := SaturatingSub(STDERR_LINE_LIMIT, |Cut(raw)|);
            && |Cut(raw + more)| <= |raw + more|
            && Cut(raw + more) == Cut(raw) + (if |more| > room then more[..room] else more)
  {
    var room := STDERR_LINE_LIMIT - |Cut(raw)|;
    if |raw| > STDERR_LINE_LIMIT {
      assert (raw + more)[..STDERR_LINE_LIMIT] == raw[..STDERR_LINE_LIMIT] + more[..0];
    } else if |more| > room {
      assert (raw + more)[..STDERR_LINE_LIMIT] == raw + more[..room];
    }
  }

  lemma EmittedMore(done: seq<seq<Byte>>, raw: seq<Byte>)
    ensures Emitted(done + [raw]) == Emitted(done) + [StderrLine(Cut(raw), |raw| - |Cut(raw)|)]
  {
  }

  /** One line ends inside the buffer. */
  lemma LineEnds(raw: seq<Byte>, buffer: seq<Byte>, rest: seq<Byte>, at: nat)
    requires NEWLINE !in raw && at == FirstNewline(buffer) && at < |buffer|
    ensures RawLines(raw + (buffer + rest)) == [raw + buffer[..at]] + RawLines([] + (buffer[at + 1..] + rest))
  {
    var (grown, after) := (raw + buffer[..at], buffer[at + 1..] + rest);
    assert raw + (buffer + rest) == grown + [NEWLINE] + after;
    assert [] + after == after;
    RawLinesStep(grown, after);
  }

  lemma LastPiece(raw: seq<Byte>)
    requires NEWLINE !in raw
    ensures RawLines(raw + ([] + [])) == if raw == [] then [] else [raw]
  {
    assert raw + ([] + []) == raw;
  }

  /** Reads `chunks` one after another, as a buffered reader hands them out: what comes out is the
      whole stream split on newlines, whatever the chunks. */
  method Forward(chunks: seq<seq<Byte>>) returns (out: seq<Line>)
    ensures out == Emitted(RawLines(Stream(chunks)))
  {
    hide RawLines, Cut, Emitted, StderrLine;
    out := [];
    var (next, buffer: seq<Byte>) := (0, []);
    var (line: seq<Byte>, dropped) := ([], 0);
    ghost var (raw: seq<Byte>, done: seq<seq<Byte>>) := ([], []);
    ghost var lines := RawLines(Stream(chunks));
    Begins(chunks);
    while true
      invariant next <= |chunks|
      invariant NEWLINE !in raw && line == Cut(raw) && |line| <= |raw| && dropped == |raw| - |line|
      invariant out == Emitted(done)
      invariant lines == done + RawLines(raw + (buffer + Stream(chunks[next..])))
      decreases |chunks| - next, |buffer|
    {
      if buffer == [] {
        if next == |chunks| || chunks[next] == [] {
          break;
        }
        buffer := chunks[next];
        next := next + 1;
        assert [] + Stream(chunks[next - 1..]) == buffer + Stream(chunks[next..]);
        continue;
      }
      var at := FirstNewline(buffer);
      var ended := at < |buffer|;
      var body := buffer[..at];
      var room := SaturatingSub(STDERR_LINE_LIMIT, |line|);
      CutGrows(raw, body);
      ghost var rest := Stream(chunks[next..]);
      if |body| > room {
        line := line + body[..room];
        dropped := dropped + (|body| - room);
      } else {
        line := line + body;
      }
      if ended {
        LineEnds(raw, buffer, rest, at);
        EmittedMore(done, raw + body);
        out := out + [StderrLine(line, dropped)];
        done := done + [raw + body];
        buffer := buffer[at + 1..];
        Begins([]);
        line, dropped, raw := [], 0, [];
      } else {
        assert raw + (buffer + rest) == (raw + body) + ([] + rest);
        buffer := [];
        raw := raw + body;
      }
    }
    assert Stream(chunks[next..]) == [] && done + [] == done;
    LastPiece(raw);
    EmptyCut(raw);
    if line != [] {
      EmittedMore(done, raw);
      out := out + [StderrLine(line, dropped)];
    }
  }

  function SaturatingSub(a: nat, b: nat): nat {
    if a < b then 0 else a - b
  }

  lemma Begins(chunks: seq<seq<Byte>>)
    ensures Cut([]) == [] && Emitted([]) == []
    ensures [] + RawLines([] + ([] + Stream(chunks[0..]))) == RawLines(Stream(chunks))
  {
    assert chunks[0..] == chunks && [] + ([] + Stream(chunks)) == Stream(chunks);
  }

  lemma EmptyCut(raw: seq<Byte>)
    ensures Cut(raw) == [] <==> raw == []
  {
  }

  // --- What the split lines are ---

  /** Lines put together again, each with its newline. */
  function Unlines(lines: seq<seq<Byte>>): seq<Byte> {
    if lines == [] then [] else lines[0] + [NEWLINE] + Unlines(lines[1..])
  }

  /** `s`, with a newline at its end if it has anything after its last one. */
  function Completed(s: seq<Byte>): seq<Byte> {
    if s == [] || s[|s| - 1] == NEWLINE then s else s + [NEWLINE]
  }

  lemma CompletedAfter(before: seq<Byte>, after: seq<Byte>)
    ensures Completed(before + [NEWLINE] + after) == before + [NEWLINE] + Completed(after)
  {
    var s := before + [NEWLINE] + after;
    if after != [] {
      assert s[|s| - 1] == after[|after| - 1];
    }
    assert s + [NEWLINE] == before + [NEWLINE] + (after + [NEWLINE]);
  }

  /** The lines are the stream cut at its newlines and nowhere else: put together again they give it
      back, with a newline after the last piece when it had none. */
  lemma {:induction false} LinesGiveBackTheStream(s: seq<Byte>)
    ensures forall i :: 0 <= i < |RawLines(s)| ==> NEWLINE !in RawLines(s)[i]
    ensures Unlines(RawLines(s)) == Completed(s)
    decreases |s|
  {
    var at := FirstNewline(s);
    if at < |s| {
      var (before, after) := (s[..at], s[at + 1..]);
      LinesGiveBackTheStream(after);
      assert s == before + [NEWLINE] + after;
      CompletedAfter(before, after);
      RawLinesStep(before, after);
      hide RawLines, Completed;
      assert RawLines(s)[1..] == RawLines(after);
    } else if s != [] {
      assert Unlines([s]) == s + [NEWLINE] + Unlines([s][1..]);
      assert [s][1..] == [] && s + [NEWLINE] + [] == s + [NEWLINE];
      assert s[|s| - 1] != NEWLINE;
    }
  }

  /** Every byte of a line is shown or counted, but for one: a return at the end of what is kept,
      whether it ended the line or stood where the line was cut. */
  lemma ShownOrCounted(raw: seq<Byte>)
    ensures var (kept, line) := (Cut(raw), Shown(raw));
            var lost := if kept != [] && kept[|kept| - 1] == RETURN then 1 else 0;
            && |line.text| + line.dropped + lost == |raw|
            && line.text <= raw && |line.text| <= STDERR_LINE_LIMIT
            && (line.dropped > 0 <==> |raw| > STDERR_LINE_LIMIT)
  {
  }

  /** Two ways to cut one stream into reads emit the same lines. */
  lemma ChunkingDoesNotMatter(x: seq<seq<Byte>>, y: seq<seq<Byte>>)
    requires (forall i :: 0 <= i < |x| ==> x[i] != []) && (forall i :: 0 <= i < |y| ==> y[i] != [])
    requires Concat(x) == Concat(y)
    ensures Emitted(RawLines(Stream(x))) == Emitted(RawLines(Stream(y)))
  {
    StreamIsConcat(x);
    StreamIsConcat(y);
  }

  function Concat(chunks: seq<seq<Byte>>): seq<Byte> {
    if chunks == [] then [] else chunks[0] + Concat(chunks[1..])
  }

  lemma {:induction false} StreamIsConcat(chunks: seq<seq<Byte>>)
    requires forall i :: 0 <= i < |chunks| ==> chunks[i] != []
    ensures Stream(chunks) == Concat(chunks)
  {
    if chunks != [] {
      StreamIsConcat(chunks[1..]);
    }
  }
}
