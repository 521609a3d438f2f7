/** Reading a child's output line by line with a bound on what is kept (`transport/mod.rs`,
    `read_bounded_line` and the loop of `spawn_output_drain`). */
module BoundedLine {
  import opened Common

  newtype Byte = b: int | 0 <= b < 256

  const NEWLINE: Byte := 10
  const CARRIAGE_RETURN: Byte := 13

  datatype Line = Line(text: seq<Byte>, truncated: bool)

  /** What the drain records: a line that did not fit leaves nothing of itself. */
  datatype Diagnostic = Text(text: seq<Byte>) | Suppressed

  // ---------------------------------------------------------------- lines of a byte sequence

  /** Position of the first newline, or the length. */
  function LineEnd(s: seq<Byte>): (n: nat)
    ensures n <= |s| && NEWLINE !in s[..n]
    ensures n < |s| ==> s[n] == NEWLINE
  {
    if s == [] || s[0] == NEWLINE then 0
    else
      var n := 1 + LineEnd(s[1..]);
      assert s[..n] == [s[0]] + s[1..][..n - 1];
      n
  }

  function FirstLine(s: seq<Byte>): seq<Byte> { s[..LineEnd(s)] }

  function AfterLine(s: seq<Byte>): seq<Byte> {
    if LineEnd(s) < |s| then s[LineEnd(s) + 1..] else []
  }

  function WithoutCr(s: seq<Byte>): seq<Byte> {
    if s != [] && s[|s| - 1] == CARRIAGE_RETURN then s[..|s| - 1] else s
  }

  function Prefix(s: seq<Byte>, limit: nat): seq<Byte> {
    if |s| <= limit then s else s[..limit]
  }

  /** The line as the reader returns it. */
  function Bounded(line: seq<Byte>, limit: nat): Line {
    Line(WithoutCr(Prefix(line, limit)), |line| > limit)
  }

  /** The lines of `s`, without their newlines. */
  function RawLines(s: seq<Byte>): seq<seq<Byte>>
    decreases |s|
  {
    if s == [] then [] else [FirstLine(s)] + RawLines(AfterLine(s))
  }

  function Unlines(lines: seq<seq<Byte>>): seq<Byte> {
    if lines == [] then [] else lines[0] + [NEWLINE] + Unlines(lines[1..])
  }

  function Recorded(lines: seq<seq<Byte>>, limit: nat): seq<Diagnostic> {
    seq(|lines|, i requires 0 <= i < |lines| => Record(Bounded(lines[i], limit)))
  }

  function Record(line: Line): Diagnostic {
    if line.truncated then Suppressed else Text(line.text)
  }

  /** There is only one such position. */
  lemma {:induction false} LineEndIs(s: seq<Byte>, n: nat)
    requires n <= |s| && NEWLINE !in s[..n]
    requires n < |s| ==> s[n] == NEWLINE
    ensures LineEnd(s) == n
  {
    if n > 0 {
      assert s[0] == s[..n][0] && s[1..][..n - 1] == s[..n][1..];
      LineEndIs(s[1..], n - 1);
    }
  }

  lemma LineEndAt(line: seq<Byte>, rest: seq<Byte>)
    requires NEWLINE !in line
    ensures FirstLine(line + [NEWLINE] + rest) == line
    ensures AfterLine(line + [NEWLINE] + rest) == rest
  {
    var s := line + [NEWLINE] + rest;
    assert s[..|line|] == line;
    LineEndIs(s, |line|);
  }

  /** A line and its end make up the input. */
  lemma {:induction false} Reassemble(s: seq<Byte>)
    ensures s == if LineEnd(s) < |s| then FirstLine(s) + [NEWLINE] + AfterLine(s) else FirstLine(s)
  {
    var n := LineEnd(s);
    if n < |s| {
      assert s == s[..n] + [s[n]] + s[n + 1..];
    }
  }

  predicate Terminated(s: seq<Byte>) { s == [] || s[|s| - 1] == NEWLINE }

  /** One line and the join of the rest. */
  lemma {:induction false} UnlinesStep(s: seq<Byte>)
    requires s != []
    ensures Unlines(RawLines(s)) == FirstLine(s) + [NEWLINE] + Unlines(RawLines(AfterLine(s)))
  {
    var lines := RawLines(s);
    assert lines[0] == FirstLine(s) && lines[1..] == RawLines(AfterLine(s));
  }

  /** Whether a newline ends the input is decided after its first line. */
  lemma TerminatedAfter(line: seq<Byte>, rest: seq<Byte>)
    ensures Terminated(line + [NEWLINE] + rest) <==> Terminated(rest)
    ensures line + [NEWLINE] + (rest + [NEWLINE]) == line + [NEWLINE] + rest + [NEWLINE]
  {
    var s := line + [NEWLINE] + rest;
    assert s[|s| - 1] == if rest == [] then NEWLINE else rest[|rest| - 1];
  }

  lemma NotTerminated(s: seq<Byte>)
    requires s != [] && NEWLINE !in s
    ensures !Terminated(s)
  {
    assert s[|s| - 1] in s;
  }

  /** Splitting loses nothing but a missing last newline. */
  lemma {:induction false} UnlinesOfRaw(s: seq<Byte>)
    ensures Unlines(RawLines(s)) == if Terminated(s) then s else s + [NEWLINE]
    decreases |s|
  {
    if s != [] {
      var n, line, rest := LineEnd(s), FirstLine(s), AfterLine(s);
      UnlinesStep(s);
      Reassemble(s);
      if n < |s| {
        UnlinesOfRaw(rest);
        TerminatedAfter(line, rest);
      } else {
        NotTerminated(line);
        assert Unlines(RawLines([])) == [];
      }
    }
  }

  /** Splitting is the inverse of joining newline-terminated lines. */
  lemma {:induction false} RawOfUnlines(lines: seq<seq<Byte>>)
    requires forall line :: line in lines ==> NEWLINE !in line
    ensures RawLines(Unlines(lines)) == lines
  {
    if lines != [] {
      LineEndAt(lines[0], Unlines(lines[1..]));
      RawOfUnlines(lines[1..]);
    }
  }

  // ---------------------------------------------------------------- the reader

  function Flatten(chunks: seq<seq<Byte>>): seq<Byte> {
    if chunks == [] then [] else chunks[0] + Flatten(chunks[1..])
  }

  /** A `BufReader`: the chunks are what its `fill_buf` calls will yield, split in any way. */
  class Reader {
    var chunks: seq<seq<Byte>>

    ghost predicate Valid() reads this { forall c :: c in chunks ==> c != [] }

    ghost function Remaining(): seq<Byte> reads this { Flatten(chunks) }

    constructor (chunks: seq<seq<Byte>>)
      requires forall c :: c in chunks ==> c != []
      ensures Valid() && Remaining() == Flatten(chunks)
    {
      this.chunks := chunks;
    }

    method FillBuf() returns (available: seq<Byte>)
      requires Valid()
      ensures available <= Remaining()
      ensures available == [] <==> Remaining() == []
      ensures available == if chunks == [] then [] else chunks[0]
    {
      if chunks == [] { return []; }
      assert chunks[0] in chunks;
      return chunks[0];
    }

    method Consume(count: nat)
      requires Valid() && chunks != [] && count <= |chunks[0]|
      modifies this
      ensures Valid() && Remaining() == old(Remaining())[count..]
    {
      var head, tail := chunks[0], chunks[1..];
      assert Flatten(chunks) == head + Flatten(tail);
      assert forall c :: c in tail ==> c in chunks;
      if count == |head| {
        chunks := tail;
      } else {
        chunks := [head[count..]] + tail;
        assert chunks[1..] == tail;
      }
    }
  }

  /** `iter().position`. */
  method Position(s: seq<Byte>) returns (found: bool, at: nat)
    ensures at <= |s| && NEWLINE !in s[..at]
    ensures if found then at < |s| && s[at] == NEWLINE else at == |s|
  {
    at := 0;
    while at < |s| && s[at] != NEWLINE
      invariant at <= |s| && NEWLINE !in s[..at]
    {
      at := at + 1;
    }
    found := at < |s|;
  }

  /** The loop's state: `seen` of the line has been read, `rest` is left after it and after the newline
      if that was reached, and what was kept is the start of `seen`. */
  ghost predicate Reading(all: seq<Byte>, seen: seq<Byte>, rest: seq<Byte>, limit: nat,
                          retained: seq<Byte>, truncated: bool, reachedNewline: bool)
  {
    && NEWLINE !in seen
    && all == seen + (if reachedNewline then [NEWLINE] + rest else rest)
    && retained == Prefix(seen, limit) && (truncated <==> |seen| > limit)
  }

  lemma PrefixMore(seen: seq<Byte>, chunk: seq<Byte>, at: nat, limit: nat)
    requires at <= |chunk|
    ensures var retained := Prefix(seen, limit);
            var copied := if at < limit - |retained| then at else limit - |retained|;
            && Prefix(seen + chunk[..at], limit) == retained + chunk[..copied]
            && (|seen + chunk[..at]| > limit <==> |seen| > limit || copied < at)
  {
  }

  lemma ReadChunk(all: seq<Byte>, seen: seq<Byte>, rest: seq<Byte>, limit: nat,
                  retained: seq<Byte>, truncated: bool, chunk: seq<Byte>, at: nat)
    requires Reading(all, seen, rest, limit, retained, truncated, false)
    requires chunk <= rest && at <= |chunk| && NEWLINE !in chunk[..at]
    requires at < |chunk| ==> chunk[at] == NEWLINE
    ensures var consumed := if at < |chunk| then at + 1 else at;
            var copied := if at < limit - |retained| then at else limit - |retained|;
            Reading(all, seen + chunk[..at], rest[consumed..], limit, retained + chunk[..copied],
                    truncated || copied < at, at < |chunk|)
  {
    PrefixMore(seen, chunk, at, limit);
    if at < |chunk| {
      assert rest == chunk[..at] + ([NEWLINE] + rest[at + 1..]);
      assert seen + (chunk[..at] + ([NEWLINE] + rest[at + 1..])) == (seen + chunk[..at]) + ([NEWLINE] + rest[at + 1..]);
    } else {
      assert rest == chunk[..at] + rest[at..];
      assert seen + (chunk[..at] + rest[at..]) == (seen + chunk[..at]) + rest[at..];
    }
  }

  lemma {:induction false} ReadWhole(all: seq<Byte>, seen: seq<Byte>, rest: seq<Byte>, limit: nat,
                                     retained: seq<Byte>, truncated: bool, reachedNewline: bool)
    requires Reading(all, seen, rest, limit, retained, truncated, reachedNewline)
    requires reachedNewline || rest == []
    ensures Line(WithoutCr(retained), truncated) == Bounded(FirstLine(all), limit) && rest == AfterLine(all)
    ensures all == [] <==> !reachedNewline && retained == [] && !truncated
  {
    if reachedNewline {
      assert all == seen + [NEWLINE] + rest;
      LineEndAt(seen, rest);
    } else {
      assert all == seen == all[..|all|];
      LineEndIs(all, |all|);
    }
  }

  /** For every way the input is split into chunks: none exactly at the end of input; otherwise the
      first line, cut to the limit, without a trailing CR in what was kept, with `truncated` exactly when
      the line was longer; and the input is consumed through the newline. */
  method ReadBoundedLine(reader: Reader, limit: nat) returns (line: Option<Line>)
    requires reader.Valid()
    modifies reader
    ensures reader.Valid()
    ensures line == if old(reader.Remaining()) == [] then None
                    else Some(Bounded(FirstLine(old(reader.Remaining())), limit))
    ensures reader.Remaining() == AfterLine(old(reader.Remaining()))
  {
    var retained, truncated, reachedNewline := [], false, false;
    ghost var all, seen := reader.Remaining(), [];
    while !reachedNewline
      invariant reader.Valid()
      invariant Reading(all, seen, reader.Remaining(), limit, retained, truncated, reachedNewline)
      decreases !reachedNewline, |reader.Remaining()|
    {
      var available := reader.FillBuf();
      if available == [] {
        ReadWhole(all, seen, reader.Remaining(), limit, retained, truncated, false);
        if retained == [] && !truncated { return None; }
        return Some(Line(WithoutCr(retained), truncated));
      }
      var found, at := Position(available);
      ReadChunk(all, seen, reader.Remaining(), limit, retained, truncated, available, at);
      var consumed := if found then at + 1 else |available|;
      var remaining := if |retained| < limit then limit - |retained| else 0;
      var copied := if at < remaining then at else remaining;
      retained := retained + available[..copied];
      truncated := truncated || copied < at;
      reader.Consume(consumed);
      seen := seen + available[..at];
      reachedNewline := found;
    }
    ReadWhole(all, seen, reader.Remaining(), limit, retained, truncated, true);
    line := Some(Line(WithoutCr(retained), truncated));
  }

  lemma RecordedMore(lines: seq<seq<Byte>>, line: seq<Byte>, rest: seq<seq<Byte>>, limit: nat)
    ensures Recorded(lines + [line], limit) == Recorded(lines, limit) + [Record(Bounded(line, limit))]
    ensures lines + ([line] + rest) == lines + [line] + rest
  {
  }

  /** The drain thread's loop: for every split into chunks it records, in order, every line of the
      output, and nothing at all of a line that was too long. */
  method DrainOutput(reader: Reader, limit: nat) returns (recorded: seq<Diagnostic>)
    requires reader.Valid()
    modifies reader
    ensures recorded == Recorded(RawLines(old(reader.Remaining())), limit)
    ensures reader.Remaining() == []
  {
    recorded := [];
    ghost var lines := [];
    while true
      invariant reader.Valid()
      invariant lines + RawLines(reader.Remaining()) == RawLines(old(reader.Remaining()))
      invariant recorded == Recorded(lines, limit)
      decreases |reader.Remaining()|
    {
      ghost var before := reader.Remaining();
      var line := ReadBoundedLine(reader, limit);
      if line.None? { return; }
      RecordedMore(lines, FirstLine(before), RawLines(AfterLine(before)), limit);
      recorded := recorded + [Record(line.value)];
      lines := lines + [FirstLine(before)];
    }
  }

  // ---------------------------------------------------------------- what is kept of a line

  predicate EndsInCr(s: seq<Byte>) { |s| > 0 && s[|s| - 1] == CARRIAGE_RETURN }

  /** A line that fits is kept whole, but for one CR at its end; of a longer one the first `limit` bytes are kept,
      but for one CR at their end, and it is marked. */
  lemma KeptOfLine(line: seq<Byte>, limit: nat)
    ensures var kept := Bounded(line, limit); var shown := if |line| <= limit then line else line[..limit];
            && (kept.truncated <==> |line| > limit)
            && (if EndsInCr(shown) then kept.text + [CARRIAGE_RETURN] == shown else kept.text == shown)
  {
  }

  /** The drain records a line that fits, without one CR at its end, and nothing of a longer one. */
  lemma RecordedOfLine(line: seq<Byte>, limit: nat)
    ensures Record(Bounded(line, limit)).Suppressed? <==> |line| > limit
    ensures |line| <= limit ==>
              var text := Record(Bounded(line, limit)).text;
              if EndsInCr(line) then text + [CARRIAGE_RETURN] == line else text == line
  {
    KeptOfLine(line, limit);
  }
}
