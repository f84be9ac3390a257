/**
 * The incremental JSONL tail (crates/sessiontap-adapters/src/qwen.rs:33-86): each poll reads what
 * was appended since the last one and returns the values of the lines it completed. JSON decoding
 * of a trimmed line is a parameter.
 */
module JsonlTail {
  import opened Common

  newtype byte = x: int | 0 <= x < 256

  const NEWLINE: byte := 10

  datatype Codec<V> = Codec(maxLine: nat, parse: seq<byte> -> Option<V>)

  datatype File = File(identity: nat, content: seq<byte>)

  datatype Error = NotText | TooLong | BadJson

  datatype Outcome<V> = Values(values: seq<V>) | Failed(error: Error)

  datatype Tail = Tail(offset: nat, pending: seq<byte>, identity: Option<nat>)

  /** A poll's new state and result; `collected` also has the values a failing poll drops. */
  datatype Polled<V> = Polled(tail: Tail, outcome: Outcome<V>, collected: seq<V>)

  // ---- UTF-8, as reading a line into a string demands it ----

  datatype Utf8State = Ready | One | Two | Three | AfterE0 | AfterED | AfterF0 | AfterF4 | Bad

  function Continue(b: byte, low: byte, high: byte, next: Utf8State): Utf8State {
    if low <= b <= high then next else Bad
  }

  function Utf8Step(q: Utf8State, b: byte): Utf8State {
    match q
    case Ready =>
      if b < 0x80 then Ready
      else if b < 0xC2 then Bad
      else if b < 0xE0 then One
      else if b == 0xE0 then AfterE0
      else if b == 0xED then AfterED
      else if b < 0xF0 then Two
      else if b == 0xF0 then AfterF0
      else if b < 0xF4 then Three
      else if b == 0xF4 then AfterF4
      else Bad
    case One => Continue(b, 0x80, 0xBF, Ready)
    case Two => Continue(b, 0x80, 0xBF, One)
    case Three => Continue(b, 0x80, 0xBF, Two)
    case AfterE0 => Continue(b, 0xA0, 0xBF, One)
    case AfterED => Continue(b, 0x80, 0x9F, One)
    case AfterF0 => Continue(b, 0x90, 0xBF, Two)
    case AfterF4 => Continue(b, 0x80, 0x8F, Two)
    case Bad => Bad
  }

  function Utf8From(q: Utf8State, s: seq<byte>): Utf8State
    decreases |s|
  {
    if s == [] then q else Utf8Step(Utf8From(q, s[..|s| - 1]), s[|s| - 1])
  }

  predicate Utf8(s: seq<byte>) {
    Utf8From(Ready, s) == Ready
  }

  lemma {:induction false} Utf8Joins(q: Utf8State, a: seq<byte>, b: seq<byte>)
    ensures Utf8From(q, a + b) == Utf8From(Utf8From(q, a), b)
    decreases |b|
  {
    if b == [] {
      assert a + b == a;
    } else {
      var n := |b| - 1;
      Utf8Joins(q, a, b[..n]);
      assert (a + b)[..|a + b| - 1] == a + b[..n];
    }
  }

  // ---- Polling ----

  /** The end of the line at `i`: past its newline, or the end of the file. */
  function LineEnd(s: seq<byte>, i: nat): (e: nat)
    requires i < |s|
    ensures i < e <= |s|
    ensures forall k :: i <= k < e - 1 ==> s[k] != NEWLINE
    ensures s[e - 1] == NEWLINE || e == |s|
    decreases |s| - i
  {
    if s[i] == NEWLINE || i + 1 == |s| then i + 1 else LineEnd(s, i + 1)
  }

  /** Reading one line, or the piece of it that is there: more to read, or an error. */
  datatype Piece<V> = More(tail: Tail, values: seq<V>) | Stop(tail: Tail, error: Error)

  function ReadPiece<V>(codec: Codec<V>, t: Tail, values: seq<V>, line: seq<byte>): Piece<V>
    requires line != []
  {
    var read := t.(offset := t.offset + |line|, pending := t.pending + line);
    if !Utf8(line) then Stop(t, NotText)
    else if |read.pending| > codec.maxLine then Stop(read, TooLong)
    else if line[|line| - 1] != NEWLINE then More(read, values)
    else
      match codec.parse(read.pending)
      case None => Stop(read, BadJson)
      case Some(v) => More(read.(pending := []), values + [v])
  }

  /** Reads lines from the tail's offset to the end of the file or the first error. */
  function ReadLines<V>(codec: Codec<V>, content: seq<byte>, t: Tail, values: seq<V>): (r: Polled<V>)
    ensures t.offset <= |content| ==> t.offset <= r.tail.offset <= |content|
    decreases |content| - t.offset
  {
    if t.offset >= |content| then Polled(t, Values(values), values)
    else
      match ReadPiece(codec, t, values, content[t.offset..LineEnd(content, t.offset)])
      case More(t', values') => ReadLines(codec, content, t', values')
      case Stop(t', error) => Polled(t', Failed(error), values)
  }

  /** A shorter file, or another one, is read from its start. */
  predicate Restarts(t: Tail, file: File) {
    |file.content| < t.offset || (t.identity.Some? && t.identity.value != file.identity)
  }

  function Begin(t: Tail, file: File): (u: Tail)
    ensures u.offset <= |file.content| && u.identity == Some(file.identity)
  {
    if Restarts(t, file) then Tail(0, [], Some(file.identity)) else t.(identity := Some(file.identity))
  }

  function Poll<V>(codec: Codec<V>, t: Tail, file: File): Polled<V> {
    ReadLines(codec, file.content, Begin(t, file), [])
  }

  // ---- The whole-file reading ----

  /** Reading byte by byte: the unfinished line, and every value so far. */
  datatype Scan<V> = Scan(pending: seq<byte>, parsed: seq<V>)

  /** A line that does not parse, or is too long, stays in front of what follows it. */
  function FeedByte<V>(codec: Codec<V>, c: Scan<V>, b: byte): Scan<V> {
    var p := c.pending + [b];
    if b == NEWLINE && |p| <= codec.maxLine && codec.parse(p).Some?
    then Scan([], c.parsed + [codec.parse(p).value])
    else Scan(p, c.parsed)
  }

  function Feed<V>(codec: Codec<V>, s: seq<byte>): Scan<V> {
    if s == [] then Scan([], []) else FeedByte(codec, Feed(codec, s[..|s| - 1]), s[|s| - 1])
  }

  /** The complete lines of a text, newline included. */
  function Lines(s: seq<byte>): seq<seq<byte>> {
    if s == [] then []
    else
      var n := |s| - 1;
      if s[n] == NEWLINE then Lines(s[..n]) + [Rest(s[..n]) + [NEWLINE]] else Lines(s[..n])
  }

  /** What follows the last newline. */
  function Rest(s: seq<byte>): seq<byte> {
    if s == [] then []
    else
      var n := |s| - 1;
      if s[n] == NEWLINE then [] else Rest(s[..n]) + [s[n]]
  }

  predicate Fine<V>(codec: Codec<V>, line: seq<byte>) {
    Utf8(line) && |line| <= codec.maxLine && codec.parse(line).Some?
  }

  predicate AllFine<V>(codec: Codec<V>, lines: seq<seq<byte>>) {
    lines == [] || (AllFine(codec, lines[..|lines| - 1]) && Fine(codec, lines[|lines| - 1]))
  }

  /** Every complete line parses and fits, and the unfinished one is text and fits. */
  predicate Clean<V>(codec: Codec<V>, s: seq<byte>) {
    AllFine(codec, Lines(s)) && Utf8(Rest(s)) && |Rest(s)| <= codec.maxLine
  }

  function ParseAll<V>(codec: Codec<V>, lines: seq<seq<byte>>): seq<V>
    requires AllFine(codec, lines)
  {
    if lines == [] then []
    else ParseAll(codec, lines[..|lines| - 1]) + [codec.parse(lines[|lines| - 1]).value]
  }

  lemma FineAdds<V>(codec: Codec<V>, lines: seq<seq<byte>>, line: seq<byte>)
    ensures AllFine(codec, lines + [line]) <==> AllFine(codec, lines) && Fine(codec, line)
    ensures AllFine(codec, lines + [line]) ==>
              ParseAll(codec, lines + [line]) == ParseAll(codec, lines) + [codec.parse(line).value]
  {
    assert (lines + [line])[..|lines|] == lines;
  }

  /** Where every line parses and fits, the byte-by-byte reading is the values of the lines. */
  lemma {:induction false} FeedIsLineByLine<V>(codec: Codec<V>, s: seq<byte>)
    requires AllFine(codec, Lines(s))
    ensures Feed(codec, s) == Scan(Rest(s), ParseAll(codec, Lines(s)))
  {
    if s != [] {
      var n := |s| - 1;
      if s[n] == NEWLINE {
        FineAdds(codec, Lines(s[..n]), Rest(s[..n]) + [NEWLINE]);
      }
      FeedIsLineByLine(codec, s[..n]);
    }
  }

  // ---- One piece of a line ----

  lemma Snoc<V>(codec: Codec<V>, s: seq<byte>, b: byte)
    ensures Feed(codec, s + [b]) == FeedByte(codec, Feed(codec, s), b)
    ensures Lines(s + [b]) == Lines(s) + if b == NEWLINE then [Rest(s) + [b]] else []
    ensures Rest(s + [b]) == if b == NEWLINE then [] else Rest(s) + [b]
  {
    assert (s + [b])[..|s|] == s;
    assert Lines(s) + [] == Lines(s);
  }

  lemma {:induction false} PieceWithin<V>(codec: Codec<V>, s: seq<byte>, x: seq<byte>)
    requires forall i :: 0 <= i < |x| ==> x[i] != NEWLINE
    ensures Feed(codec, s + x) == Scan(Feed(codec, s).pending + x, Feed(codec, s).parsed)
    ensures Lines(s + x) == Lines(s) && Rest(s + x) == Rest(s) + x
    decreases |x|
  {
    if x == [] {
      assert s + x == s && Rest(s) + x == Rest(s) && Feed(codec, s).pending + x == Feed(codec, s).pending;
    } else {
      var n := |x| - 1;
      PieceWithin(codec, s, x[..n]);
      Snoc(codec, s + x[..n], x[n]);
      LastComesOff(s, x);
      LastComesOff(Rest(s), x);
      LastComesOff(Feed(codec, s).pending, x);
    }
  }

  lemma PieceToNewline<V>(codec: Codec<V>, s: seq<byte>, x: seq<byte>)
    requires x != [] && x[|x| - 1] == NEWLINE
    requires forall i :: 0 <= i < |x| - 1 ==> x[i] != NEWLINE
    ensures var p := Feed(codec, s).pending + x;
            Feed(codec, s + x) ==
            if |p| <= codec.maxLine && codec.parse(p).Some?
            then Scan([], Feed(codec, s).parsed + [codec.parse(p).value])
            else Scan(p, Feed(codec, s).parsed)
    ensures Lines(s + x) == Lines(s) + [Rest(s) + x] && Rest(s + x) == []
  {
    var n := |x| - 1;
    PieceWithin(codec, s, x[..n]);
    Snoc(codec, s + x[..n], x[n]);
    LastComesOff(s, x);
    LastComesOff(Rest(s), x);
    LastComesOff(Feed(codec, s).pending, x);
  }

  /** The piece a poll reads next: up to a newline, or the last one. */
  lemma NextPiece<V>(codec: Codec<V>, content: seq<byte>, read: seq<byte>, i: nat)
    requires i < |content|
    ensures var e := LineEnd(content, i);
            var line := content[i..e];
            var p := Feed(codec, read).pending + line;
            && line != []
            && Feed(codec, read + line) ==
               (if line[|line| - 1] == NEWLINE && |p| <= codec.maxLine && codec.parse(p).Some?
                then Scan([], Feed(codec, read).parsed + [codec.parse(p).value])
                else Scan(p, Feed(codec, read).parsed))
            && Rest(read + line) == (if line[|line| - 1] == NEWLINE then [] else Rest(read) + line)
            && Lines(read + line) == Lines(read) + (if line[|line| - 1] == NEWLINE then [Rest(read) + line] else [])
  {
    var e := LineEnd(content, i);
    var line := content[i..e];
    if line[|line| - 1] == NEWLINE {
      PieceToNewline(codec, read, line);
    } else {
      PieceWithin(codec, read, line);
      assert Lines(read) + [] == Lines(read);
    }
  }

  // ---- A poll agrees with the whole-file reading ----

  /** The tail and the values after one piece, as the byte-by-byte reading has them. */
  lemma PieceAgrees<V>(codec: Codec<V>, content: seq<byte>, t: Tail, values: seq<V>, read: seq<byte>, seen: seq<V>)
    requires t.offset < |content| && Feed(codec, read) == Scan(t.pending, seen + values)
    ensures var line := content[t.offset..LineEnd(content, t.offset)];
            var r := ReadPiece(codec, t, values, line);
            match r
            case More(t', values') =>
              && t' == t.(offset := t.offset + |line|, pending := t'.pending)
              && Feed(codec, read + line) == Scan(t'.pending, seen + values')
            case Stop(t', error) =>
              && t' == t.(offset := t'.offset, pending := t'.pending)
              && (t' == t || (t'.offset == t.offset + |line| && Feed(codec, read + line) == Scan(t'.pending, seen + values)))
  {
    hide LineEnd, Feed, Utf8, Lines, Rest;
    NextPiece(codec, content, read, t.offset);
    var line := content[t.offset..LineEnd(content, t.offset)];
    var p := t.pending + line;
    if codec.parse(p).Some? {
      Reassociate(seen, values, [codec.parse(p).value]);
    }
  }

  /**
   * Wherever a poll stops, its unfinished line and the values it met are those of reading, byte by
   * byte, everything consumed so far, whatever that was; a poll that succeeds has read it all.
   */
  predicate Agrees<V(==)>(codec: Codec<V>, content: seq<byte>, t: Tail, r: Polled<V>, read: seq<byte>, seen: seq<V>) {
    && t.offset <= r.tail.offset <= |content|
    && r.tail.identity == t.identity
    && Feed(codec, read + content[t.offset..r.tail.offset]) == Scan(r.tail.pending, seen + r.collected)
    && (r.outcome.Values? ==> r.tail.offset == |content| && r.outcome.values == r.collected)
  }

  lemma MoreAgrees<V>(codec: Codec<V>, content: seq<byte>, t: Tail, t': Tail, r: Polled<V>, read: seq<byte>, seen: seq<V>)
    requires t.offset <= t'.offset <= |content| && t'.identity == t.identity
    requires Agrees(codec, content, t', r, read + content[t.offset..t'.offset], seen)
    ensures Agrees(codec, content, t, r, read, seen)
  {
    var n := r.tail.offset;
    assert read + content[t.offset..t'.offset] + content[t'.offset..n] == read + content[t.offset..n];
  }

  lemma EndAgrees<V>(codec: Codec<V>, content: seq<byte>, t: Tail, r: Polled<V>, read: seq<byte>, seen: seq<V>)
    requires t.offset <= |content| && Feed(codec, read) == Scan(t.pending, seen + r.collected) && r.tail == t
    requires r.outcome.Values? ==> t.offset == |content| && r.outcome.values == r.collected
    ensures Agrees(codec, content, t, r, read, seen)
  {
    assert read + content[t.offset..t.offset] == read;
  }

  lemma {:induction false} ReadAgrees<V>(codec: Codec<V>, content: seq<byte>, t: Tail, values: seq<V>,
                                         read: seq<byte>, seen: seq<V>)
    requires t.offset <= |content| && Feed(codec, read) == Scan(t.pending, seen + values)
    ensures Agrees(codec, content, t, ReadLines(codec, content, t, values), read, seen)
    decreases |content| - t.offset
  {
    hide Feed, LineEnd, Utf8;
    var r := ReadLines(codec, content, t, values);
    if t.offset == |content| {
      EndAgrees(codec, content, t, r, read, seen);
    } else {
      var e := LineEnd(content, t.offset);
      var line := content[t.offset..e];
      PieceAgrees(codec, content, t, values, read, seen);
      match ReadPiece(codec, t, values, line)
      case More(t', values') =>
        ReadAgrees(codec, content, t', values', read + line, seen);
        MoreAgrees(codec, content, t, t', r, read, seen);
      case Stop(t', _) =>
        if t' == t {
          EndAgrees(codec, content, t, r, read, seen);
        }
    }
  }

  // ---- When a poll succeeds ----

  lemma {:induction false} BadLinesStay<V>(codec: Codec<V>, s: seq<byte>, x: seq<byte>)
    requires !AllFine(codec, Lines(s))
    ensures !AllFine(codec, Lines(s + x))
    decreases |x|
  {
    if x == [] {
      assert s + x == s;
    } else {
      var n := |x| - 1;
      BadLinesStay(codec, s, x[..n]);
      Snoc(codec, s + x[..n], x[n]);
      LastComesOff(s, x);
      if x[n] == NEWLINE {
        FineAdds(codec, Lines(s + x[..n]), Rest(s + x[..n]) + [x[n]]);
      } else {
        assert Lines(s + x[..n]) + [] == Lines(s + x[..n]);
      }
    }
  }

  /** What decides about one piece. */
  predicate Takes<V>(codec: Codec<V>, pending: seq<byte>, line: seq<byte>)
    requires line != []
  {
    && Utf8(line) && |pending + line| <= codec.maxLine
    && (line[|line| - 1] == NEWLINE ==> codec.parse(pending + line).Some?)
  }

  lemma ReadTakes<V>(codec: Codec<V>, content: seq<byte>, t: Tail, values: seq<V>) returns (t': Tail, values': seq<V>)
    requires t.offset < |content|
    ensures var e := LineEnd(content, t.offset);
            var line := content[t.offset..e];
            var r := ReadLines(codec, content, t, values);
            if Takes(codec, t.pending, line) then
              && t'.offset == e && t'.pending == (if line[|line| - 1] == NEWLINE then [] else t.pending + line)
              && |values'| == |values| + (if line[|line| - 1] == NEWLINE then 1 else 0)
              && r == ReadLines(codec, content, t', values')
            else r.outcome.Failed? && r.collected == values
  {
    var piece := ReadPiece(codec, t, values, content[t.offset..LineEnd(content, t.offset)]);
    t', values' := piece.tail, if piece.More? then piece.values else [];
  }

  lemma WithinIffClean<V>(codec: Codec<V>, read: seq<byte>, line: seq<byte>)
    requires line != [] && Clean(codec, read)
    requires forall i :: 0 <= i < |line| ==> line[i] != NEWLINE
    ensures Takes(codec, Rest(read), line) <==> Clean(codec, read + line)
    ensures Rest(read + line) == Rest(read) + line
  {
    assert line[|line| - 1] != NEWLINE;
    PieceWithin(codec, read, line);
    Utf8Joins(Ready, Rest(read), line);
  }

  lemma NewlineIffClean<V>(codec: Codec<V>, read: seq<byte>, line: seq<byte>)
    requires line != [] && Clean(codec, read) && line[|line| - 1] == NEWLINE
    requires forall i :: 0 <= i < |line| - 1 ==> line[i] != NEWLINE
    ensures Takes(codec, Rest(read), line) <==> AllFine(codec, Lines(read + line))
    ensures Rest(read + line) == []
  {
    PieceToNewline(codec, read, line);
    Utf8Joins(Ready, Rest(read), line);
    FineAdds(codec, Lines(read), Rest(read) + line);
  }

  lemma TakesIffClean<V>(codec: Codec<V>, content: seq<byte>, i: nat, read: seq<byte>, whole: seq<byte>)
    requires i < |content| && Clean(codec, read) && whole == read + content[i..]
    ensures var e := LineEnd(content, i);
            var line := content[i..e];
            && whole == read + line + content[e..]
            && (Takes(codec, Rest(read), line) ==>
                  Clean(codec, read + line) && Rest(read + line) == if line[|line| - 1] == NEWLINE then [] else Rest(read) + line)
            && (!Takes(codec, Rest(read), line) ==> !Clean(codec, whole))
  {
    var e := LineEnd(content, i);
    var line := content[i..e];
    if line[|line| - 1] == NEWLINE {
      NewlineIffClean(codec, read, line);
      if !Takes(codec, Rest(read), line) {
        BadLinesStay(codec, read + line, content[e..]);
      }
    } else {
      WithinIffClean(codec, read, line);
      assert read + line == whole;
    }
  }

  /** From a clean start, a poll succeeds exactly when what it finds leaves everything read clean. */
  lemma {:induction false} ReadSucceedsIff<V>(codec: Codec<V>, content: seq<byte>, t: Tail, values: seq<V>,
                                              read: seq<byte>, whole: seq<byte>)
    requires t.offset <= |content| && Clean(codec, read) && t.pending == Rest(read)
    requires whole == read + content[t.offset..]
    ensures ReadLines(codec, content, t, values).outcome.Values? <==> Clean(codec, whole)
    decreases |content| - t.offset
  {
    if t.offset == |content| {
      assert whole == read;
    } else {
      TakesIffClean(codec, content, t.offset, read, whole);
      var t', values' := ReadTakes(codec, content, t, values);
      var line := content[t.offset..LineEnd(content, t.offset)];
      if Takes(codec, t.pending, line) {
        ReadSucceedsIff(codec, content, t', values', read + line, whole);
      }
    }
  }

  /**
   * Nothing is ahead, or the first piece ahead continues the unfinished line acceptably and
   * everything after that piece is clean.
   */
  predicate AheadFits<V>(codec: Codec<V>, pending: seq<byte>, content: seq<byte>, offset: nat) {
    offset < |content| ==>
      var e := LineEnd(content, offset);
      Takes(codec, pending, content[offset..e]) && Clean(codec, content[e..])
  }

  /** After a piece that was taken, the reading succeeds if and only if the rest of the file is clean. */
  lemma TakenSucceedsIff<V>(codec: Codec<V>, content: seq<byte>, t: Tail, values: seq<V>)
    requires t.offset <= |content| && (t.pending == [] || t.offset == |content|)
    ensures ReadLines(codec, content, t, values).outcome.Values? <==> Clean(codec, content[t.offset..])
  {
    hide Feed, Clean, ReadLines, Takes;
    NothingIsClean(codec);
    if t.pending == [] {
      assert [] + content[t.offset..] == content[t.offset..];
      ReadSucceedsIff(codec, content, t, values, [], content[t.offset..]);
    } else {
      assert content[t.offset..] == [];
      ReadAtEnd(codec, content, t, values);
    }
  }

  /** Any poll, from any state, succeeds if and only if what is ahead of it fits. */
  lemma PollSucceedsIff<V>(codec: Codec<V>, t: Tail, file: File)
    ensures var b := Begin(t, file);
            Poll(codec, t, file).outcome.Values? <==> AheadFits(codec, b.pending, file.content, b.offset)
  {
    hide Clean, Takes, Begin, ReadLines, LineEnd;
    var b, content := Begin(t, file), file.content;
    ReadAtEnd<V>(codec, content, b, []);
    if b.offset < |content| {
      var t', values' := ReadTakes<V>(codec, content, b, []);
      if Takes(codec, b.pending, content[b.offset..LineEnd(content, b.offset)]) {
        TakenSucceedsIff(codec, content, t', values');
      }
    }
  }

  lemma ReadAtEnd<V>(codec: Codec<V>, content: seq<byte>, t: Tail, values: seq<V>)
    ensures t.offset >= |content| ==> ReadLines(codec, content, t, values) == Polled(t, Values(values), values)
  {
  }

  lemma ReadStep<V>(codec: Codec<V>, content: seq<byte>, t: Tail, values: seq<V>)
    requires t.offset < |content|
    ensures var r := ReadLines(codec, content, t, values);
            var piece := ReadPiece(codec, t, values, content[t.offset..LineEnd(content, t.offset)]);
            && (piece.More? ==> r == ReadLines(codec, content, piece.tail, piece.values))
            && (piece.Stop? ==> r == Polled(piece.tail, Failed(piece.error), values))
  {
    hide ReadPiece, LineEnd;
  }

  /**
   * What makes a poll lose values, told from the tail and the file alone: the first piece ahead
   * completes a line that is accepted, and what follows it in the file is not clean.
   */
  predicate Loses<V>(codec: Codec<V>, t: Tail, file: File) {
    var b, content := Begin(t, file), file.content;
    && b.offset < |content|
    && var e := LineEnd(content, b.offset);
       && Takes(codec, b.pending, content[b.offset..e])
       && content[e - 1] == NEWLINE && !Clean(codec, content[e..])
  }

  lemma {:induction false} CollectedGrows<V>(codec: Codec<V>, content: seq<byte>, t: Tail, values: seq<V>)
    ensures |ReadLines(codec, content, t, values).collected| >= |values|
    decreases |content| - t.offset
  {
    hide Takes, LineEnd;
    if t.offset < |content| {
      var t', values' := ReadTakes(codec, content, t, values);
      if Takes(codec, t.pending, content[t.offset..LineEnd(content, t.offset)]) {
        CollectedGrows(codec, content, t', values');
      }
    }
  }

  /** A poll fails with values in hand, and so loses them, if and only if `Loses` holds before it. */
  lemma PollLosesIff<V>(codec: Codec<V>, t: Tail, file: File)
    ensures var r := Poll(codec, t, file);
            r.outcome.Failed? && r.collected != [] <==> Loses(codec, t, file)
  {
    hide Clean, Takes, Begin, ReadLines, LineEnd;
    var b, content := Begin(t, file), file.content;
    ReadAtEnd<V>(codec, content, b, []);
    if b.offset < |content| {
      var e := LineEnd(content, b.offset);
      var t', values' := ReadTakes<V>(codec, content, b, []);
      assert content[b.offset..e][e - b.offset - 1] == content[e - 1];
      if Takes(codec, b.pending, content[b.offset..e]) {
        TakenSucceedsIff(codec, content, t', values');
        CollectedGrows(codec, content, t', values');
        if content[e - 1] != NEWLINE {
          assert content[e..] == [];
          NothingIsClean(codec);
        }
      }
    }
  }

  lemma NothingIsClean<V>(codec: Codec<V>)
    ensures Clean(codec, []) && Rest([]) == []
  {
  }

  /**
   * A file that is shorter than what was read, or another one than was read, is read from its start,
   * as a new tail would; any other is read on from where the last poll stopped.
   */
  lemma RotationStartsOver<V>(codec: Codec<V>, t: Tail, file: File)
    ensures var rotated := |file.content| < t.offset || (t.identity.Some? && t.identity.value != file.identity);
            if rotated then Poll(codec, t, file) == Poll(codec, Tail(0, [], None), file)
            else Poll(codec, t, file) == ReadLines(codec, file.content, Tail(t.offset, t.pending, Some(file.identity)), [])
  {
    hide ReadLines;
  }

  // ---- Whether what was read is clean ----

  /** No continuation is clean: a complete line is not fine, or the unfinished one is too long. */
  predicate Stuck<V>(codec: Codec<V>, s: seq<byte>) {
    !AllFine(codec, Lines(s)) || |Rest(s)| > codec.maxLine
  }

  predicate Spoils(error: Option<Error>) {
    error == Some(TooLong) || error == Some(BadJson)
  }

  lemma {:induction false} LongLineStays<V>(codec: Codec<V>, s: seq<byte>, x: seq<byte>)
    requires Stuck(codec, s)
    ensures Stuck(codec, s + x)
    decreases |x|
  {
    if x == [] {
      NothingAdded(s);
    } else {
      var n := |x| - 1;
      LongLineStays(codec, s, x[..n]);
      var before := s + x[..n];
      LastComesOff(s, x);
      Snoc(codec, before, x[n]);
      hide Feed;
      if x[n] == NEWLINE {
        FineAdds(codec, Lines(before), Rest(before) + [x[n]]);
      } else {
        NothingAdded(Lines(before));
      }
    }
  }

  lemma StopAtNewline<V>(codec: Codec<V>, t: Tail, read: seq<byte>, line: seq<byte>)
    requires Clean(codec, read) && t.pending == Rest(read) && line != [] && line[|line| - 1] == NEWLINE
    requires forall i :: 0 <= i < |line| - 1 ==> line[i] != NEWLINE
    requires Utf8(line) && !Takes(codec, t.pending, line)
    ensures Stuck(codec, read + line)
  {
    hide Feed, Takes, AllFine, Utf8;
    NewlineIffClean(codec, read, line);
  }

  lemma StopWithin<V>(codec: Codec<V>, t: Tail, read: seq<byte>, line: seq<byte>)
    requires Clean(codec, read) && t.pending == Rest(read) && line != []
    requires forall i :: 0 <= i < |line| ==> line[i] != NEWLINE
    requires Utf8(line) && !Takes(codec, t.pending, line)
    ensures Stuck(codec, read + line)
  {
    assert line[|line| - 1] != NEWLINE && |t.pending + line| > codec.maxLine;
    hide Feed, AllFine, Utf8, Takes;
    WithinIffClean(codec, read, line);
  }

  /** What one piece leaves behind when the poll stops at it. */
  lemma StopLeaves<V>(codec: Codec<V>, content: seq<byte>, t: Tail, values: seq<V>, read: seq<byte>)
    requires t.offset < |content| && Clean(codec, read) && t.pending == Rest(read)
    ensures var line := content[t.offset..LineEnd(content, t.offset)];
            var r := ReadPiece(codec, t, values, line);
            r.Stop? ==>
              if r.error == NotText then r.tail == t
              else r.tail.offset == t.offset + |line| && Stuck(codec, read + line)
  {
    hide LineEnd, Utf8, Stuck, Clean, Rest;
    var line := content[t.offset..LineEnd(content, t.offset)];
    if Utf8(line) && !Takes(codec, t.pending, line) {
      if line[|line| - 1] == NEWLINE {
        StopAtNewline(codec, t, read, line);
      } else {
        StopWithin(codec, t, read, line);
      }
    }
  }

  /** Where a poll stops, what was read is clean, unless it stopped at a line it will never get past. */
  predicate EndsWell<V>(codec: Codec<V>, outcome: Outcome<V>, read: seq<byte>) {
    if outcome.Failed? && outcome.error != NotText then Stuck(codec, read) else Clean(codec, read)
  }

  lemma {:induction false} ReadEndsWell<V>(codec: Codec<V>, content: seq<byte>, t: Tail, values: seq<V>, read: seq<byte>)
    requires t.offset <= |content| && Clean(codec, read) && t.pending == Rest(read)
    ensures var r := ReadLines(codec, content, t, values);
            EndsWell(codec, r.outcome, read + content[t.offset..r.tail.offset])
    decreases |content| - t.offset
  {
    hide Feed, Clean, Stuck, Takes, ReadPiece, LineEnd;
    var r := ReadLines(codec, content, t, values);
    NothingConsumed(read, content, t.offset);
    if t.offset < |content| {
      var e := LineEnd(content, t.offset);
      var line := content[t.offset..e];
      TakesIffClean(codec, content, t.offset, read, read + content[t.offset..]);
      StopLeaves(codec, content, t, values, read);
      PieceTaken(codec, t, values, line);
      match ReadPiece(codec, t, values, line)
      case More(t', values') =>
        ReadEndsWell(codec, content, t', values', read + line);
        PiecesJoin(read, content, t.offset, e, r.tail.offset);
      case Stop(_, _) =>
    }
  }

  lemma NothingConsumed(read: seq<byte>, content: seq<byte>, a: nat)
    requires a <= |content|
    ensures read + content[a..a] == read
  {
  }

  lemma PiecesJoin(read: seq<byte>, content: seq<byte>, a: nat, e: nat, n: nat)
    requires a <= e <= n <= |content|
    ensures read + content[a..e] + content[e..n] == read + content[a..n]
  {
  }

  lemma PieceTaken<V>(codec: Codec<V>, t: Tail, values: seq<V>, line: seq<byte>)
    requires line != []
    ensures var r := ReadPiece(codec, t, values, line);
            && (r.More? <==> Takes(codec, t.pending, line))
            && (r.More? ==>
                  && r.tail.offset == t.offset + |line|
                  && r.tail.pending == if line[|line| - 1] == NEWLINE then [] else t.pending + line)
  {
  }

  // ---- Runs ----

  /** One poll: how it failed, if it did, and the values it met. */
  datatype Batch<V> = Batch(error: Option<Error>, values: seq<V>)

  function BatchOf<V>(r: Polled<V>): Batch<V> {
    Batch(if r.outcome.Failed? then Some(r.outcome.error) else None, r.collected)
  }

  /** Every value the polls met. */
  function Met<V>(polls: seq<Batch<V>>): seq<V> {
    if polls == [] then [] else Met(polls[..|polls| - 1]) + polls[|polls| - 1].values
  }

  /** The values the polls returned. */
  function Returned<V>(polls: seq<Batch<V>>): seq<V> {
    if polls == [] then []
    else
      var n := |polls| - 1;
      Returned(polls[..n]) + if polls[n].error.None? then polls[n].values else []
  }

  /** Some poll failed on a line that was too long or did not parse. */
  predicate Spoiled<V>(polls: seq<Batch<V>>) {
    polls != [] && (Spoiled(polls[..|polls| - 1]) || Spoils(polls[|polls| - 1].error))
  }

  /** The polls that failed met no value. */
  predicate LosesNothing<V>(polls: seq<Batch<V>>) {
    forall i :: 0 <= i < |polls| ==> polls[i].error.None? || polls[i].values == []
  }

  lemma PollsSnoc<V>(polls: seq<Batch<V>>, b: Batch<V>)
    ensures Met(polls + [b]) == Met(polls) + b.values
    ensures Spoiled(polls + [b]) <==> Spoiled(polls) || Spoils(b.error)
  {
    assert (polls + [b])[..|polls|] == polls;
  }

  lemma {:induction false} ReturnedLength<V>(polls: seq<Batch<V>>)
    ensures |Returned(polls)| <= |Met(polls)|
    ensures |Returned(polls)| == |Met(polls)| ==> LosesNothing(polls)
  {
    if polls != [] {
      ReturnedLength(polls[..|polls| - 1]);
    }
  }

  /** The polls returned every value they met if and only if those that failed met none. */
  lemma {:induction false} ReturnedIsMetIff<V>(polls: seq<Batch<V>>)
    ensures Returned(polls) == Met(polls) <==> LosesNothing(polls)
  {
    ReturnedLength(polls);
    if LosesNothing(polls) && polls != [] {
      ReturnedIsMetIff(polls[..|polls| - 1]);
    }
  }

  /**
   * A tail and the file it follows. Since the tail last started over: `read` is what it consumed
   * and `polls` what each poll did. `intact` says that the file it is reading has only been
   * appended to.
   */
  datatype World<V> = World(file: Option<File>, tail: Tail, read: seq<byte>, polls: seq<Batch<V>>, intact: bool)

  datatype Step = AppendStep(bytes: seq<byte>) | ReplaceStep(file: Option<File>) | PollStep

  /** A tail that starts over forgets what it read. */
  function Rebase<V>(w: World<V>, file: File): World<V> {
    if Restarts(w.tail, file) then World(w.file, Begin(w.tail, file), [], [], true)
    else w.(tail := Begin(w.tail, file))
  }

  function Advance<V>(w: World<V>, file: File, r: Polled<V>): World<V>
    requires w.tail.offset <= r.tail.offset <= |file.content|
  {
    World(w.file, r.tail, w.read + file.content[w.tail.offset..r.tail.offset], w.polls + [BatchOf(r)], w.intact)
  }

  function AfterPoll<V>(codec: Codec<V>, w: World<V>, file: File): World<V> {
    Advance(Rebase(w, file), file, Poll(codec, w.tail, file))
  }

  function After<V>(codec: Codec<V>, w: World<V>, step: Step): World<V> {
    match step
    case AppendStep(bytes) =>
      if w.file.Some? then w.(file := Some(w.file.value.(content := w.file.value.content + bytes))) else w
    case ReplaceStep(file) => w.(file := file, intact := w.tail.identity.None?)
    case PollStep => if w.file.Some? then AfterPoll(codec, w, w.file.value) else w
  }

  function Start<V>(): World<V> {
    World(None, Tail(0, [], None), [], [], true)
  }

  function Run<V>(codec: Codec<V>, steps: seq<Step>): World<V> {
    if steps == [] then Start() else After(codec, Run(codec, steps[..|steps| - 1]), steps[|steps| - 1])
  }

  /** What a run keeps about the reading itself. */
  predicate Faithful<V(==)>(codec: Codec<V>, w: World<V>) {
    && |w.read| == w.tail.offset
    && Feed(codec, w.read) == Scan(w.tail.pending, Met(w.polls))
    && (if Spoiled(w.polls) then Stuck(codec, w.read) else Clean(codec, w.read))
  }

  /** What a run keeps about the file. */
  predicate Following<V>(w: World<V>) {
    && (w.tail.identity.None? ==> w.tail == Tail(0, [], None) && w.read == [])
    && (w.intact && w.file.Some? ==>
          && w.tail.offset <= |w.file.value.content|
          && w.read == w.file.value.content[..w.tail.offset]
          && (w.tail.identity.Some? ==> w.tail.identity.value == w.file.value.identity))
  }

  lemma CleanFeeds<V>(codec: Codec<V>, s: seq<byte>)
    requires Clean(codec, s)
    ensures Feed(codec, s) == Scan(Rest(s), ParseAll(codec, Lines(s)))
  {
    FeedIsLineByLine(codec, s);
  }

  lemma RebaseKeeps<V>(codec: Codec<V>, w: World<V>, file: File)
    requires w.file == Some(file) && Faithful(codec, w) && Following(w)
    ensures var b := Rebase(w, file);
            Faithful(codec, b) && Following(b) && b.file == w.file && b.tail == Begin(w.tail, file)
  {
    hide Stuck;
    NothingIsClean(codec);
  }

  lemma AdvanceFeeds<V>(codec: Codec<V>, b: World<V>, file: File, r: Polled<V>)
    requires Faithful(codec, b) && b.tail.offset <= |file.content|
    requires r == ReadLines(codec, file.content, b.tail, [])
    ensures Agrees(codec, file.content, b.tail, r, b.read, Met(b.polls))
  {
    hide ReadLines, Clean, Stuck;
    NothingAdded(Met(b.polls));
    ReadAgrees(codec, file.content, b.tail, [], b.read, Met(b.polls));
  }

  /** Everything consumed, and what is still ahead in the file. */
  function Ahead<V>(w: World<V>, file: File): seq<byte>
    requires w.tail.offset <= |file.content|
  {
    w.read + file.content[w.tail.offset..]
  }

  lemma AdvanceEndsWell<V>(codec: Codec<V>, b: World<V>, file: File, r: Polled<V>)
    requires Faithful(codec, b) && b.tail.offset <= r.tail.offset <= |file.content|
    requires r == ReadLines(codec, file.content, b.tail, [])
    ensures var p := Advance(b, file, r);
            if Spoiled(p.polls) then Stuck(codec, p.read) else Clean(codec, p.read)
  {
    hide ReadLines, Clean, Stuck, Feed;
    PollsSnoc(b.polls, BatchOf(r));
    if Spoiled(b.polls) {
      LongLineStays(codec, b.read, file.content[b.tail.offset..r.tail.offset]);
    } else {
      CleanFeeds(codec, b.read);
      ReadEndsWell(codec, file.content, b.tail, [], b.read);
    }
  }

  lemma AdvanceIsFaithful<V>(codec: Codec<V>, b: World<V>, file: File, r: Polled<V>)
    requires Faithful(codec, b) && b.tail.offset <= |file.content|
    requires r == ReadLines(codec, file.content, b.tail, [])
    ensures Faithful(codec, Advance(b, file, r))
  {
    AdvanceFeeds(codec, b, file, r);
    AdvanceEndsWell(codec, b, file, r);
    PollsSnoc(b.polls, BatchOf(r));
    hide ReadLines, Clean, Stuck, Feed, Spoiled, Met;
  }

  lemma AdvanceFollows<V>(codec: Codec<V>, b: World<V>, file: File, r: Polled<V>)
    requires Following(b) && b.file == Some(file) && b.tail.identity == Some(file.identity)
    requires r.tail.identity == b.tail.identity && b.tail.offset <= r.tail.offset <= |file.content|
    ensures Following(Advance(b, file, r))
  {
    assert b.intact ==>
        file.content[..b.tail.offset] + file.content[b.tail.offset..r.tail.offset] == file.content[..r.tail.offset];
  }

  lemma PollKeeps<V>(codec: Codec<V>, w: World<V>, file: File)
    requires w.file == Some(file) && Faithful(codec, w) && Following(w)
    ensures Faithful(codec, AfterPoll(codec, w, file)) && Following(AfterPoll(codec, w, file))
  {
    hide ReadLines, Feed, Clean, Stuck;
    var b, r := Rebase(w, file), Poll(codec, w.tail, file);
    RebaseKeeps(codec, w, file);
    AdvanceFeeds(codec, b, file, r);
    AdvanceIsFaithful(codec, b, file, r);
    AdvanceFollows(codec, b, file, r);
  }

  lemma OtherStepsKeep<V>(codec: Codec<V>, w: World<V>, step: Step)
    requires !step.PollStep? && Faithful(codec, w) && Following(w)
    ensures Faithful(codec, After(codec, w, step)) && Following(After(codec, w, step))
  {
    hide Feed, Clean, Stuck, Spoiled, Met;
    if step.AppendStep? && w.file.Some? && w.intact {
      var content, n := w.file.value.content, w.tail.offset;
      assert (content + step.bytes)[..n] == content[..n];
    }
  }

  lemma {:induction false} RunIsFaithful<V>(codec: Codec<V>, steps: seq<Step>)
    ensures Faithful(codec, Run(codec, steps)) && Following(Run(codec, steps))
  {
    if steps == [] {
      NothingIsClean(codec);
    } else {
      hide AfterPoll, Faithful, Following;
      var n := |steps| - 1;
      RunIsFaithful(codec, steps[..n]);
      var w := Run(codec, steps[..n]);
      if !steps[n].PollStep? {
        OtherStepsKeep(codec, w, steps[n]);
      } else if w.file.Some? {
        PollKeeps(codec, w, w.file.value);
      }
    }
  }

  /**
   * For every interleaving of appends, replacements and polls, since the tail last started over:
   * the unfinished line and the values met, whether returned or dropped by a failing poll, are
   * those of reading the consumed bytes one by one, and these are a prefix of the file as long as
   * it was only appended to. What was read is clean unless a poll failed on a line too long or
   * unparseable. Exactly the values met by failing polls are lost.
   */
  lemma TailIsAWholeRead<V>(codec: Codec<V>, steps: seq<Step>)
    ensures var w := Run(codec, steps);
            && Feed(codec, w.read) == Scan(w.tail.pending, Met(w.polls))
            && (w.intact && w.file.Some? ==>
                  w.tail.offset <= |w.file.value.content| && w.read == w.file.value.content[..w.tail.offset])
            && (Clean(codec, w.read) <==> !Spoiled(w.polls))
            && (Clean(codec, w.read) ==>
                  Met(w.polls) == ParseAll(codec, Lines(w.read)) && w.tail.pending == Rest(w.read))
            && (Returned(w.polls) == Feed(codec, w.read).parsed <==> LosesNothing(w.polls))
  {
    RunIsFaithful(codec, steps);
    var w := Run(codec, steps);
    hide Run, Feed;
    if Clean(codec, w.read) {
      CleanFeeds(codec, w.read);
    }
    ReturnedIsMetIff(w.polls);
  }

  /** Some poll since the tail last started over met `Loses`. */
  predicate LostSince<V>(codec: Codec<V>, steps: seq<Step>) {
    if steps == [] then false
    else
      var n := |steps| - 1;
      var w := Run(codec, steps[..n]);
      if steps[n].PollStep? && w.file.Some? then
        Loses(codec, w.tail, w.file.value) || (!Restarts(w.tail, w.file.value) && LostSince(codec, steps[..n]))
      else LostSince(codec, steps[..n])
  }

  lemma LosesSnoc<V>(polls: seq<Batch<V>>, b: Batch<V>)
    ensures LosesNothing(polls + [b]) <==> LosesNothing(polls) && (b.error.None? || b.values == [])
  {
    assert (polls + [b])[|polls|] == b;
    assert forall i :: 0 <= i < |polls| ==> (polls + [b])[i] == polls[i];
  }

  lemma PolledLoses<V>(codec: Codec<V>, w: World<V>, file: File)
    ensures LosesNothing(AfterPoll(codec, w, file).polls)
            <==> !Loses(codec, w.tail, file) && (Restarts(w.tail, file) || LosesNothing(w.polls))
  {
    hide Poll, Loses, Begin, LosesNothing;
    PollLosesIff(codec, w.tail, file);
    var b := Rebase(w, file);
    assert LosesNothing<V>([]) by { NothingLost<V>(); }
    LosesSnoc(b.polls, BatchOf(Poll(codec, w.tail, file)));
  }

  lemma NothingLost<V>()
    ensures LosesNothing<V>([])
  {
  }

  lemma {:induction false} LosesNothingIff<V>(codec: Codec<V>, steps: seq<Step>)
    ensures LosesNothing(Run(codec, steps).polls) <==> !LostSince(codec, steps)
  {
    hide AfterPoll, Loses, LosesNothing, Restarts;
    NothingLost<V>();
    if steps != [] {
      var n := |steps| - 1;
      LosesNothingIff(codec, steps[..n]);
      var w := Run(codec, steps[..n]);
      if steps[n].PollStep? && w.file.Some? {
        PolledLoses(codec, w, w.file.value);
      }
    }
  }

  /**
   * Over every run, the values returned since the tail last started over are all those of reading
   * the consumed bytes one by one, if and only if no poll since then was made when the first piece
   * ahead completed an acceptable line and the rest of the file was not clean.
   */
  lemma EverythingIsReturnedIff<V>(codec: Codec<V>, steps: seq<Step>)
    ensures var w := Run(codec, steps);
            Returned(w.polls) == Feed(codec, w.read).parsed <==> !LostSince(codec, steps)
  {
    hide Run, Feed, LostSince, Returned, Met, Clean, LosesNothing;
    TailIsAWholeRead(codec, steps);
    LosesNothingIff(codec, steps);
  }

  lemma WholeFileAhead<V>(w: World<V>, file: File)
    requires w.file == Some(file) && Following(w)
    ensures var b := Rebase(w, file);
            b.tail.offset <= |file.content| && (b.intact ==> Ahead(b, file) == file.content)
  {
    var b := Rebase(w, file);
    if Restarts(w.tail, file) {
      assert [] + file.content[0..] == file.content;
    } else {
      assert file.content[..b.tail.offset] + file.content[b.tail.offset..] == file.content;
    }
  }

  /**
   * A poll that succeeds completes the reading of everything ahead. For a file that was only
   * appended to, and no line that spoiled the tail, also after polls that failed at a torn
   * character: the poll succeeds if and only if the whole file is clean, and then the values met so
   * far and those returned now are the values of all its complete lines.
   */
  lemma PollCompletesTheRead<V>(codec: Codec<V>, steps: seq<Step>)
    requires Run(codec, steps).file.Some?
    ensures var w := Run(codec, steps);
            var file := w.file.value;
            var b, r := Rebase(w, file), Poll(codec, w.tail, file);
            && b.tail.offset <= |file.content|
            && (r.outcome.Values? ==>
                  && Met(b.polls) + r.outcome.values == Feed(codec, Ahead(b, file)).parsed
                  && r.tail.offset == |file.content|)
            && (b.intact ==> Ahead(b, file) == file.content)
            && (b.intact && !Spoiled(b.polls) ==>
                  && (r.outcome.Values? <==> Clean(codec, file.content))
                  && (r.outcome.Values? ==>
                        && Met(b.polls) + r.outcome.values == ParseAll(codec, Lines(file.content))
                        && r.tail.pending == Rest(file.content)))
  {
    RunIsFaithful(codec, steps);
    hide Run, ReadLines, Stuck, Feed, Clean;
    var w := Run(codec, steps);
    var file := w.file.value;
    var b, r := Rebase(w, file), Poll(codec, w.tail, file);
    RebaseKeeps(codec, w, file);
    WholeFileAhead(w, file);
    AdvanceFeeds(codec, b, file, r);
    if r.outcome.Values? {
      assert file.content[b.tail.offset..r.tail.offset] == file.content[b.tail.offset..];
    }
    if b.intact && !Spoiled(b.polls) {
      CleanFeeds(codec, b.read);
      ReadSucceedsIff(codec, file.content, b.tail, [], b.read, file.content);
      if Clean(codec, file.content) {
        CleanFeeds(codec, file.content);
      }
    }
  }

  // ---- What failures do ----

  /** After a line over the limit nothing is returned until the tail starts over. */
  lemma OverlongIsStuck<V>(codec: Codec<V>, t: Tail, file: File)
    requires |t.pending| > codec.maxLine && !Restarts(t, file)
    ensures var r := Poll(codec, t, file);
            r.collected == [] && |r.tail.pending| > codec.maxLine
  {
    var u := Begin(t, file);
    if u.offset < |file.content| {
      var line := file.content[u.offset..LineEnd(file.content, u.offset)];
      assert ReadPiece<V>(codec, u, [], line).Stop?;
    }
  }

  const TORN: seq<byte> := [49, NEWLINE, 0xC3]

  lemma TornPollFails<V>(codec: Codec<V>, t: Tail)
    requires t == Tail(0, [], None)
    requires codec.maxLine >= 2 && codec.parse([49, NEWLINE]).Some?
    ensures Poll(codec, t, File(1, TORN)) ==
            Polled(Tail(2, [], Some(1)), Failed(NotText), [codec.parse([49, NEWLINE]).value])
  {
    var content := TORN;
    var u, t1 := Tail(0, [], Some(1)), Tail(2, [], Some(1));
    var v := codec.parse([49, NEWLINE]).value;
    assert LineEnd(content, 1) == 2 && LineEnd(content, 0) == 2 && LineEnd(content, 2) == 3;
    assert content[0..2] == [49, NEWLINE] && content[2..3] == [0xC3];
    FirstLine(codec);
    assert ReadLines(codec, content, t1, [v]) == Polled(t1, Failed(NotText), [v]) by {
      assert content[2..3][..0] == [];
      assert !Utf8(content[2..3]);
    }
    assert ReadLines<V>(codec, content, u, []) == ReadLines(codec, content, t1, [v]);
  }

  lemma MendedPollSucceeds<V>(codec: Codec<V>)
    requires codec.maxLine >= 2
    ensures Poll<V>(codec, Tail(2, [], Some(1)), File(1, TORN + [0xA9])) ==
            Polled(Tail(4, [0xC3, 0xA9], Some(1)), Values([]), [])
  {
    var content := TORN + [0xA9];
    var line: seq<byte> := [0xC3, 0xA9];
    assert LineEnd(content, 3) == 4 && LineEnd(content, 2) == 4 && content[2..4] == line;
    assert line[..1] == [0xC3] && line[..1][..0] == [] && [] + line == line;
    assert Utf8From(Ready, line[..1]) == One;
    assert ReadPiece<V>(codec, Tail(2, [], Some(1)), [], line) == More(Tail(4, line, Some(1)), []);
    assert ReadLines<V>(codec, content, Tail(4, line, Some(1)), []) == Polled(Tail(4, line, Some(1)), Values([]), []);
    assert ReadLines<V>(codec, content, Tail(2, [], Some(1)), []) == Polled(Tail(4, line, Some(1)), Values([]), []);
  }

  const MENDED: seq<Step> := [ReplaceStep(Some(File(1, TORN))), PollStep, AppendStep([0xA9]), PollStep]

  lemma TornRun<V>(codec: Codec<V>)
    requires codec.maxLine >= 2 && codec.parse([49, NEWLINE]).Some?
    ensures Run(codec, MENDED[..3]) ==
            World(Some(File(1, TORN + [0xA9])), Tail(2, [], Some(1)), [49, NEWLINE],
                  [Batch(Some(NotText), [codec.parse([49, NEWLINE]).value])], true)
  {
    hide Poll;
    assert MENDED[..3][..2] == MENDED[..2] && MENDED[..2][..1] == MENDED[..1] && MENDED[..1][..0] == [];
    assert Run<V>(codec, []) == Start();
    assert Run<V>(codec, MENDED[..1]) == World(Some(File(1, TORN)), Tail(0, [], None), [], [], true);
    TornPollFails(codec, Tail(0, [], None));
    assert [] + TORN[0..2] == [49, NEWLINE];
  }

  lemma MendedRun<V>(codec: Codec<V>)
    requires codec.maxLine >= 2 && codec.parse([49, NEWLINE]).Some?
    ensures var w := Run(codec, MENDED);
            && w.file == Some(File(1, TORN + [0xA9]))
            && w.polls == [Batch(Some(NotText), [codec.parse([49, NEWLINE]).value]), Batch(None, [])]
  {
    hide Poll;
    TornRun(codec);
    MendedPollSucceeds(codec);
    assert MENDED[..|MENDED| - 1] == MENDED[..3];
  }

  lemma MendedPolls<V>(v: V)
    ensures Met([Batch(Some(NotText), [v])]) == [v]
    ensures !Spoiled([Batch(Some(NotText), [v])])
    ensures Returned([Batch(Some(NotText), [v]), Batch(None, [])]) == []
  {
    var polls := [Batch(Some(NotText), [v]), Batch(None, [])];
    assert polls[..1] == [Batch(Some(NotText), [v])] && polls[..1][..0] == [];
    assert [Batch(Some(NotText), [v])][..0] == [];
    assert Returned(polls[..1]) == [];
  }

  /**
   * An append torn inside a character, then completed: the file is clean and the second poll
   * succeeds, but the line the first one had consumed when it failed is never returned.
   */
  lemma TornCharacterLosesALine<V>(codec: Codec<V>)
    requires codec.maxLine >= 2 && codec.parse([49, NEWLINE]).Some?
    ensures var w := Run(codec, MENDED);
            && w.file.Some? && Clean(codec, w.file.value.content)
            && |ParseAll(codec, Lines(w.file.value.content))| == 1
            && |w.polls| == 2 && w.polls[1].error.None?
            && Returned(w.polls) == []
  {
    TornRun(codec);
    MendedRun(codec);
    MendedPollSucceeds(codec);
    MendedPolls(codec.parse([49, NEWLINE]).value);
    PollCompletesTheRead(codec, MENDED[..3]);
    hide Run, Poll, Feed, Clean, Lines, ParseAll, Met, Returned, Spoiled;
  }

  lemma FirstLine<V>(codec: Codec<V>)
    requires codec.maxLine >= 2 && codec.parse([49, NEWLINE]).Some?
    ensures ReadPiece<V>(codec, Tail(0, [], Some(1)), [], [49, NEWLINE]) ==
            More(Tail(2, [], Some(1)), [codec.parse([49, NEWLINE]).value])
  {
    var line: seq<byte> := [49, NEWLINE];
    assert line[..1] == [49] && line[..1][..0] == [] && [] + line == line;
    assert Utf8From(Ready, line[..1]) == Ready;
  }

  // ---- The tail, updated in place ----

  class QwenJsonlTail<V> {
    const codec: Codec<V>
    var offset: nat
    var pending: seq<byte>
    var identity: Option<nat>

    constructor (codec: Codec<V>)
      ensures this.codec == codec && View() == Tail(0, [], None)
    {
      this.codec := codec;
      offset, pending, identity := 0, [], None;
    }

    function View(): Tail
      reads this
    {
      Tail(offset, pending, identity)
    }

    /** Takes one line, or the piece of it that is there. */
    method TakeLine(line: seq<byte>, values: seq<V>) returns (error: Option<Error>, left: seq<V>)
      requires line != []
      modifies this`offset, this`pending
      ensures match ReadPiece(codec, old(View()), values, line)
              case More(t, values') => error.None? && View() == t && left == values'
              case Stop(t, e) => error == Some(e) && View() == t
      ensures error.None? ==> offset == old(offset) + |line|
    {
      left := values;
      if !Utf8(line) {
        return Some(NotText), left;
      }
      offset := offset + |line|;
      pending := pending + line;
      if |pending| > codec.maxLine {
        return Some(TooLong), left;
      }
      if pending[|pending| - 1] == NEWLINE {
        var value := codec.parse(pending);
        if value.None? {
          return Some(BadJson), left;
        }
        left := left + [value.value];
        pending := [];
      }
      return None, left;
    }

    /** Polls the file; a missing one has nothing to say. */
    method PollFile(file: Option<File>) returns (r: Outcome<V>)
      modifies this
      ensures file.None? ==> r == Values([]) && View() == old(View())
      ensures file.Some? ==>
                var polled := Poll(codec, old(View()), file.value);
                r == polled.outcome && View() == polled.tail
    {
      hide ReadPiece, LineEnd, ReadLines;
      if file.None? {
        return Values([]);
      }
      var content := file.value.content;
      if |content| < offset || (identity.Some? && identity.value != file.value.identity) {
        offset, pending := 0, [];
      }
      identity := Some(file.value.identity);
      var values: seq<V> := [];
      ghost var all := ReadLines(codec, content, View(), []);
      while offset < |content|
        invariant ReadLines(codec, content, View(), values) == all
        decreases |content| - offset
      {
        ReadStep(codec, content, View(), values);
        var line := content[offset..LineEnd(content, offset)];
        var error, left := TakeLine(line, values);
        if error.Some? {
          return Failed(error.value);
        }
        values := left;
      }
      ReadAtEnd(codec, content, View(), values);
      return Values(values);
    }
  }
}
