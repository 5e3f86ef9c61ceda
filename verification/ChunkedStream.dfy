// Server-sent events forwarded as a chunked response.
module ChunkedStream {
  import opened Text
  import opened DegenerationGuard

  type Byte = b: int | 0 <= b < 256
  type Bytes = seq<Byte>

  const CR: Byte := 13
  const LF: Byte := 10
  const CRLF: Bytes := [CR, LF]
  const HEAD_WINDOW_LINES := 64

  // ---- Encoding -------------------------------------------------------------------------

  function HexDigit(d: nat): Byte
    requires d < 16
  {
    if d < 10 then 48 + d else 55 + d
  }

  // Upper-case, no leading zeros.
  function Hex(n: nat): Bytes {
    if n < 16 then [HexDigit(n)] else Hex(n / 16) + [HexDigit(n % 16)]
  }

  function Chunk(line: Bytes): Bytes {
    Hex(|line|) + CRLF + line + CRLF
  }

  const LAST: Bytes := [48, 13, 10, 13, 10]

  function Framed(lines: seq<Bytes>): Bytes {
    if lines == [] then [] else Chunk(lines[0]) + Framed(lines[1..])
  }

  function Concat(lines: seq<Bytes>): Bytes {
    if lines == [] then [] else lines[0] + Concat(lines[1..])
  }

  // ---- Decoding: section 7.1.3 of RFC 9112 ------------------------------------------------

  function DigitValue(b: Byte): Option<nat> {
    if 48 <= b <= 57 then Some(b - 48)
    else if 65 <= b <= 70 then Some(b - 55)
    else if 97 <= b <= 102 then Some(b - 87)
    else None
  }

  // Hexadecimal digits, then the end of the line or an extension, which is ignored.
  function SizeFrom(line: Bytes, acc: nat): Option<nat> {
    if line == [] || line[0] == 59 then Some(acc)
    else match DigitValue(line[0])
      case None => None
      case Some(d) => SizeFrom(line[1..], 16 * acc + d)
  }

  function ChunkSize(line: Bytes): Option<nat> {
    if line == [] || DigitValue(line[0]).None? then None else SizeFrom(line, 0)
  }

  // The bytes up to the first CRLF, and those after it.
  function SplitLine(b: Bytes): (r: Option<(Bytes, Bytes)>)
    ensures r.Some? ==> |r.value.0| + 2 + |r.value.1| == |b|
  {
    if |b| < 2 then None
    else if b[..2] == CRLF then Some(([], b[2..]))
    else match SplitLine(b[1..])
      case None => None
      case Some(p) => Some(([b[0]] + p.0, p.1))
  }

  // Trailer fields up to the empty line.
  function SkipTrailers(b: Bytes): Option<Bytes>
    decreases |b|
  {
    match SplitLine(b)
    case None => None
    case Some(p) => if p.0 == [] then Some(p.1) else SkipTrailers(p.1)
  }

  // The payload, and what follows the chunked body.
  function Decode(b: Bytes): Option<(Bytes, Bytes)>
    decreases |b|
  {
    match SplitLine(b)
    case None => None
    case Some(p) =>
      match ChunkSize(p.0)
      case None => None
      case Some(n) =>
        if n == 0 then
          match SkipTrailers(p.1)
          case None => None
          case Some(rest) => Some(([], rest))
        else if |p.1| < n + 2 || p.1[n..n + 2] != CRLF then None
        else Prefixed(p.1[..n], Decode(p.1[n + 2..]))
  }

  function Prefixed(data: Bytes, r: Option<(Bytes, Bytes)>): Option<(Bytes, Bytes)> {
    match r
    case None => None
    case Some(p) => Some((data + p.0, p.1))
  }

  // ---- The round trip ------------------------------------------------------------------------

  lemma {:induction false} HexReads(n: nat, t: Bytes)
    ensures SizeFrom(Hex(n) + t, 0) == SizeFrom(t, n)
  {
    if n < 16 {
      DigitReads(n, t, 0);
    } else {
      var d := [HexDigit(n % 16)];
      assert Hex(n) + t == Hex(n / 16) + (d + t);
      HexReads(n / 16, d + t);
      DigitReads(n % 16, t, n / 16);
    }
  }

  lemma {:induction false} DigitReads(d: nat, t: Bytes, acc: nat)
    requires d < 16
    ensures DigitValue(HexDigit(d)) == Some(d)
    ensures SizeFrom([HexDigit(d)] + t, acc) == SizeFrom(t, 16 * acc + d)
  {
    assert ([HexDigit(d)] + t)[1..] == t;
  }

  predicate HexText(s: Bytes) {
    s != [] && forall i :: 0 <= i < |s| ==> DigitValue(s[i]).Some?
  }

  lemma {:induction false} HexIsText(n: nat)
    ensures HexText(Hex(n))
  {
    if n < 16 {
      DigitReads(n, [], 0);
    } else {
      HexIsText(n / 16);
      DigitReads(n % 16, [], 0);
    }
  }

  // A size is written in digits and capital letters, without leading zeros.
  lemma {:induction false} HexIsUpper(n: nat)
    ensures forall i :: 0 <= i < |Hex(n)| ==> 48 <= Hex(n)[i] <= 57 || 65 <= Hex(n)[i] <= 70
    ensures Hex(n) != [] && (Hex(n)[0] == 48 <==> n == 0)
  {
    if n < 16 {
    } else {
      HexIsUpper(n / 16);
    }
  }

  // The upper-case size of every chunk reads back as its length.
  lemma {:induction false} SizeRoundTrip(n: nat)
    ensures ChunkSize(Hex(n)) == Some(n)
  {
    HexIsText(n);
    HexReads(n, []);
    assert Hex(n) + [] == Hex(n);
  }

  lemma {:induction false} LineRoundTrip(l: Bytes, rest: Bytes)
    requires CR !in l
    ensures SplitLine(l + CRLF + rest) == Some((l, rest))
  {
    var b := l + CRLF + rest;
    if l == [] {
      assert b == CRLF + rest;
    } else {
      LineRoundTrip(l[1..], rest);
      assert b[1..] == l[1..] + CRLF + rest;
      assert b[..2][0] == b[0] == l[0] && l[0] != CR;
      assert [l[0]] + l[1..] == l;
    }
  }

  lemma {:induction false} HexHasNoCr(n: nat)
    ensures CR !in Hex(n)
  {
    HexIsText(n);
  }

  lemma {:induction false} ChunkDecodes(line: Bytes, rest: Bytes)
    requires line != []
    ensures Decode(Chunk(line) + rest) == Prefixed(line, Decode(rest))
  {
    var n := |line|;
    var after := line + CRLF + rest;
    assert Chunk(line) + rest == Hex(n) + CRLF + after;
    HexHasNoCr(n);
    LineRoundTrip(Hex(n), after);
    SizeRoundTrip(n);
    assert after[..n] == line && after[n..n + 2] == CRLF && after[n + 2..] == rest;
  }

  lemma {:induction false} LastDecodes(rest: Bytes)
    ensures Decode(LAST + rest) == Some(([], rest))
  {
    assert LAST + rest == [48] + CRLF + (CRLF + rest);
    LineRoundTrip([48], CRLF + rest);
    assert SizeFrom([48], 0) == SizeFrom([48][1..], 0);
    assert CRLF + rest == [] + CRLF + rest;
    LineRoundTrip([], rest);
  }

  // A chunk of length zero is the end of the body.
  lemma {:induction false} EmptyChunkIsLast(line: Bytes)
    requires line == []
    ensures Chunk(line) == LAST
  {
    assert Hex(0) == [48];
  }

  lemma {:induction false} FramedDecodes(lines: seq<Bytes>, rest: Bytes)
    requires [] !in lines
    ensures Decode(Framed(lines) + rest) == Prefixed(Concat(lines), Decode(rest))
  {
    if lines == [] {
      assert Framed(lines) + rest == rest;
      assert Decode(rest).Some? ==> [] + Decode(rest).value.0 == Decode(rest).value.0;
    } else {
      assert Framed(lines) + rest == Chunk(lines[0]) + (Framed(lines[1..]) + rest);
      ChunkDecodes(lines[0], Framed(lines[1..]) + rest);
      FramedDecodes(lines[1..], rest);
      PrefixedTwice(lines[0], Concat(lines[1..]), Decode(rest));
    }
  }

  lemma {:induction false} PrefixedTwice(a: Bytes, b: Bytes, r: Option<(Bytes, Bytes)>)
    ensures Prefixed(a, Prefixed(b, r)) == Prefixed(a + b, r)
  {
    if r.Some? {
      assert a + (b + r.value.0) == a + b + r.value.0;
    }
  }

  function Body(lines: seq<Bytes>): Bytes {
    Framed(lines) + LAST
  }

  lemma {:induction false} BodyDecodes(lines: seq<Bytes>, tail: Bytes)
    requires [] !in lines
    ensures Decode(Body(lines) + tail) == Some((Concat(lines), tail))
  {
    assert Body(lines) + tail == Framed(lines) + (LAST + tail);
    FramedDecodes(lines, LAST + tail);
    LastDecodes(tail);
    assert Concat(lines) + [] == Concat(lines);
  }

  lemma {:induction false} FramedJoin(a: seq<Bytes>, b: seq<Bytes>)
    ensures Framed(a + b) == Framed(a) + Framed(b)
  {
    if a == [] {
      assert a + b == b;
    } else {
      assert (a + b)[1..] == a[1..] + b;
      FramedJoin(a[1..], b);
    }
  }

  // An empty line would end the body early and leave the rest behind.
  lemma {:induction false} EmptyLineTruncates(before: seq<Bytes>, after: seq<Bytes>, tail: Bytes)
    requires [] !in before
    ensures Decode(Body(before + [[]] + after) + tail) == Some((Concat(before), Body(after) + tail))
  {
    FramedJoin(before, [[]] + after);
    assert before + [[]] + after == before + ([[]] + after);
    assert ([[]] + after)[1..] == after;
    EmptyChunkIsLast([]);
    assert Body(before + [[]] + after) + tail == Body(before) + (Body(after) + tail);
    BodyDecodes(before, Body(after) + tail);
  }

  lemma {:induction false} FirstEmpty(lines: seq<Bytes>) returns (k: nat)
    requires [] in lines
    ensures k < |lines| && lines[k] == [] && [] !in lines[..k]
  {
    if lines[0] == [] {
      k := 0;
    } else {
      k := FirstEmpty(lines[1..]);
      assert lines[..k + 1] == [lines[0]] + lines[1..][..k];
      k := k + 1;
    }
  }

  // Exactly the responses without an empty line decode to what was forwarded.
  lemma {:induction false} RoundTripIff(lines: seq<Bytes>, tail: Bytes)
    ensures Decode(Body(lines) + tail) == Some((Concat(lines), tail)) <==> [] !in lines
  {
    if [] in lines {
      var k := FirstEmpty(lines);
      assert lines == lines[..k] + [[]] + lines[k + 1..];
      EmptyLineTruncates(lines[..k], lines[k + 1..], tail);
      assert |Body(lines[k + 1..]) + tail| > |tail|;
    } else {
      BodyDecodes(lines, tail);
    }
  }

  // ---- Forwarding -------------------------------------------------------------------------------

  // What reading upstream yields next; after the last one it is at its end.
  // `payload` marks a non-blank data line other than [DONE], `text` is its delta.
  datatype Read = Line(bytes: Bytes, payload: bool, text: string) | Interrupted

  // The lines that arrive before upstream ends or fails.
  function Arrived(feed: seq<Read>): (r: seq<Read>)
    ensures |r| <= |feed| && r == feed[..|r|]
    ensures forall x :: x in r ==> x.Line?
    ensures |r| < |feed| ==> feed[|r|].Interrupted?
  {
    if feed == [] || feed[0].Interrupted? then [] else [feed[0]] + Arrived(feed[1..])
  }

  function BytesOf(ls: seq<Read>): (r: seq<Bytes>)
    requires forall x :: x in ls ==> x.Line?
    ensures |r| == |ls| && forall i :: 0 <= i < |ls| ==> r[i] == ls[i].bytes
  {
    if ls == [] then [] else BytesOf(ls[..|ls| - 1]) + [ls[|ls| - 1].bytes]
  }

  // The guard's accumulated text, and its length at the last check.
  datatype Guard = Guard(text: string, checked: nat)

  function Fed(g: Guard, l: Read): string
    requires l.Line?
  {
    if l.payload then g.text + l.text else g.text
  }

  predicate Due(g: Guard, l: Read)
    requires l.Line?
  {
    l.payload && |Fed(g, l)| >= g.checked + CHECK_INTERVAL
  }

  function Advance(g: Guard, l: Read): Guard
    requires l.Line?
  {
    Guard(Fed(g, l), if Due(g, l) then |Fed(g, l)| else g.checked)
  }

  ghost predicate Aborts(g: Guard, l: Read)
    requires l.Line?
  {
    Due(g, l) && Degenerate(Fed(g, l))
  }

  // Lines after the head window: forwarded until the guard objects.
  ghost function Guarded(ls: seq<Read>, g: Guard, notice: Bytes): seq<Bytes>
    requires forall x :: x in ls ==> x.Line?
  {
    if ls == [] then []
    else if Aborts(g, ls[0]) then [notice]
    else [ls[0].bytes] + Guarded(ls[1..], Advance(g, ls[0]), notice)
  }

  const START := Guard("", 0)

  function WindowLen(feed: seq<Read>): (k: nat)
    ensures k <= |Arrived(feed)| && k < HEAD_WINDOW_LINES
  {
    var n := |Arrived(feed)|;
    if n < HEAD_WINDOW_LINES - 1 then n else HEAD_WINDOW_LINES - 1
  }

  // The head is the first line and at most 63 more, fewer only when no more arrive.
  lemma {:induction false} HeadIs(first: Bytes, feed: seq<Read>)
    ensures Head(first, feed) == [first] + BytesOf(if |Arrived(feed)| < 63 then Arrived(feed) else Arrived(feed)[..63])
    ensures HeadEof(feed) <==> |Arrived(feed)| < 63
  {
    assert |Arrived(feed)| < 63 ==> Arrived(feed)[..|Arrived(feed)|] == Arrived(feed);
  }

  function Head(first: Bytes, feed: seq<Read>): seq<Bytes> {
    [first] + BytesOf(Arrived(feed)[..WindowLen(feed)])
  }

  // Whether upstream ended, or failed, inside the window.
  predicate HeadEof(feed: seq<Read>) {
    |Arrived(feed)| < HEAD_WINDOW_LINES - 1
  }

  ghost function Forwarded(first: Bytes, feed: seq<Read>, notice: Bytes): seq<Bytes> {
    Head(first, feed) +
    if HeadEof(feed) then [] else Guarded(Arrived(feed)[WindowLen(feed)..], START, notice)
  }

  datatype Outcome = Sent(head: Bytes) | EmptyUpstream(head: Bytes)

  predicate AllLines(ls: seq<Read>) {
    forall x :: x in ls ==> x.Line?
  }

  // The lines written so far and those the guard will still let through.
  ghost predicate Pending(ls: seq<Read>, start: nat, i: nat, live: seq<Bytes>, g: Guard, notice: Bytes)
    requires AllLines(ls) && start <= |ls| && i <= |ls|
  {
    Guarded(ls[start..], START, notice) == live + Guarded(ls[i..], g, notice)
  }

  lemma {:induction false} GuardedStep(ls: seq<Read>, start: nat, i: nat, live: seq<Bytes>, g: Guard, notice: Bytes)
    requires AllLines(ls) && start <= i < |ls| && Pending(ls, start, i, live, g, notice)
    ensures ls[i].Line?
    ensures Aborts(g, ls[i]) ==> Guarded(ls[start..], START, notice) == live + [notice]
    ensures !Aborts(g, ls[i]) ==> Pending(ls, start, i + 1, live + [ls[i].bytes], Advance(g, ls[i]), notice)
  {
    assert ls[i..][0] == ls[i] && ls[i..][1..] == ls[i + 1..];
  }

  lemma {:induction false} PendingDone(ls: seq<Read>, start: nat, live: seq<Bytes>, g: Guard, notice: Bytes)
    requires AllLines(ls) && start <= |ls| && Pending(ls, start, |ls|, live, g, notice)
    ensures Guarded(ls[start..], START, notice) == live
  {
    assert ls[|ls|..] == [];
    assert live + [] == live;
  }

  lemma {:induction false} HeadLength(first: Bytes, feed: seq<Read>)
    ensures |Head(first, feed)| < HEAD_WINDOW_LINES <==> HeadEof(feed)
  {
  }

  class Response {
    var written: Bytes
    const notice: Bytes

    constructor (notice: Bytes)
      ensures written == [] && this.notice == notice
    {
      this.notice := notice;
      written := [];
    }

    method WriteChunk(line: Bytes)
      modifies this
      ensures written == old(written) + Chunk(line)
    {
      written := written + (Hex(|line|) + CRLF + line + CRLF);
    }

    // One more chunk after the lines already framed.
    method WriteNext(ghost base: Bytes, ghost lines: seq<Bytes>, line: Bytes)
      requires written == base + Framed(lines)
      modifies this
      ensures written == base + Framed(lines + [line])
    {
      FramedSnoc(lines, line);
      WriteChunk(line);
    }

    method WriteAll(lines: seq<Bytes>)
      modifies this
      ensures written == old(written) + Framed(lines)
    {
      for k := 0 to |lines|
        invariant written == old(written) + Framed(lines[..k])
      {
        WriteNext(old(written), lines[..k], lines[k]);
        assert lines[..k + 1] == lines[..k] + [lines[k]];
      }
      assert lines[..|lines|] == lines;
    }

    // Streams one chat response whose first line was a data line.  `budget` and
    // `empty` are the verdicts on a drained head.
    method Emit(first: Bytes, feed: seq<Read>, budget: Bytes -> bool, empty: Bytes -> bool) returns (r: Outcome)
      modifies this
      ensures r.head == Concat(Head(first, feed))
      ensures r.EmptyUpstream? <==> budget(r.head) || (HeadEof(feed) && empty(r.head))
      ensures r.EmptyUpstream? ==> written == old(written)
      ensures r.Sent? ==> written == old(written) + Body(Forwarded(first, feed, notice))
    {
      var sent, i := DrainHead(first, feed);
      HeadLength(first, feed);
      var headEof := |sent| < HEAD_WINDOW_LINES;
      var head := Concat(sent);
      if budget(head) || (headEof && empty(head)) {
        return EmptyUpstream(head);
      }
      EmitLines(first, feed, sent, i, headEof);
      return Sent(head);
    }

    method EmitLines(ghost first: Bytes, feed: seq<Read>, sent: seq<Bytes>, i: nat, headEof: bool)
      requires sent == Head(first, feed) && i == WindowLen(feed) && headEof == HeadEof(feed)
      modifies this
      ensures written == old(written) + Body(Forwarded(first, feed, notice))
    {
      WriteAll(sent);
      ghost var live := [];
      if !headEof {
        live := StreamLive(feed, i);
      }
      BodyJoin(old(written), sent, live);
      assert sent + live == Forwarded(first, feed, notice);
      written := written + LAST;
    }

    method DrainHead(first: Bytes, feed: seq<Read>) returns (sent: seq<Bytes>, i: nat)
      ensures sent == Head(first, feed) && i == WindowLen(feed)
    {
      sent, i := [first], 0;
      ghost var ls := Arrived(feed);
      while |sent| < HEAD_WINDOW_LINES
        invariant i <= |ls| && i < HEAD_WINDOW_LINES
        invariant |sent| == i + 1 && sent == [first] + BytesOf(ls[..i])
        decreases HEAD_WINDOW_LINES - |sent|
      {
        StillArriving(feed, i);
        if i == |feed| || feed[i].Interrupted? {
          break;
        }
        assert ls[..i + 1][..i] == ls[..i];
        sent := sent + [feed[i].bytes];
        i := i + 1;
      }
    }

    method StreamLive(feed: seq<Read>, start: nat) returns (ghost live: seq<Bytes>)
      requires start <= |Arrived(feed)|
      modifies this
      ensures live == Guarded(Arrived(feed)[start..], START, notice)
      ensures written == old(written) + Framed(live)
    {
      ghost var ls := Arrived(feed);
      live := [];
      var i, g := start, START;
      while i < |feed|
        invariant start <= i <= |ls|
        invariant AllLines(ls) && Pending(ls, start, i, live, g, notice)
        invariant written == old(written) + Framed(live)
      {
        StillArriving(feed, i);
        if feed[i].Interrupted? {
          break;
        }
        var line := feed[i];
        GuardedStep(ls, start, i, live, g, notice);
        if Due(g, line) {
          var hit := DetectDegeneration(Fed(g, line));
          if hit.Some? {
            WriteNext(old(written), live, notice);
            live := live + [notice];
            return;
          }
        }
        WriteNext(old(written), live, line.bytes);
        live, g, i := live + [line.bytes], Advance(g, line), i + 1;
      }
      PendingDone(ls, start, live, g, notice);
    }
  }

  lemma {:induction false} BodyJoin(base: Bytes, sent: seq<Bytes>, live: seq<Bytes>)
    ensures base + Framed(sent) + Framed(live) + LAST == base + Body(sent + live)
    ensures live == [] ==> base + Framed(sent) + LAST == base + Body(sent + live)
  {
    FramedJoin(sent, live);
    Assoc4Bytes(base, Framed(sent), Framed(live), LAST);
  }

  lemma {:induction false} Assoc4Bytes(a: Bytes, b: Bytes, c: Bytes, d: Bytes)
    ensures a + b + c + d == a + (b + c + d)
    ensures c == [] ==> a + b + d == a + (b + c + d)
  {
  }

  lemma {:induction false} StillArriving(feed: seq<Read>, i: nat)
    requires i <= |Arrived(feed)|
    ensures i == |Arrived(feed)| <==> i == |feed| || feed[i].Interrupted?
    ensures i < |Arrived(feed)| ==> Arrived(feed)[i] == feed[i]
  {
    var ls := Arrived(feed);
    if i < |ls| {
      assert ls[i] in ls;
      assert feed[..|ls|][i] == feed[i];
    }
  }

  lemma {:induction false} FramedSnoc(lines: seq<Bytes>, line: Bytes)
    ensures Framed(lines + [line]) == Framed(lines) + Chunk(line)
  {
    FramedJoin(lines, [line]);
    assert [line][1..] == [];
  }

  // ---- What the client receives --------------------------------------------------------------------

  // The text of the payload lines, one after the other.
  function TextOf(ls: seq<Read>): string
    requires AllLines(ls)
  {
    if ls == [] then ""
    else TextOf(ls[..|ls| - 1]) + (if ls[|ls| - 1].payload then ls[|ls| - 1].text else "")
  }

  // How long the text was when it was last checked: a payload line that brings it
  // 2000 characters or more past that gets it checked again.
  function CheckedLength(ls: seq<Read>): nat
    requires AllLines(ls)
  {
    if ls == [] then 0
    else
      var before := CheckedLength(ls[..|ls| - 1]);
      if ls[|ls| - 1].payload && |TextOf(ls)| >= before + 2000 then |TextOf(ls)| else before
  }

  // With the live text beginning at line `w`, the guard is to object to line `i`: it is a
  // payload line due for a check, and the text with it is degenerate.
  ghost predicate Objects(ls: seq<Read>, w: nat, i: nat)
    requires AllLines(ls) && w <= i < |ls|
  {
    && ls[i].payload && |TextOf(ls[w..i + 1])| >= CheckedLength(ls[w..i]) + 2000
    && Degenerate(TextOf(ls[w..i + 1]))
  }

  // `k` is the first line from `w` on that the guard is to object to, or their number.
  ghost predicate FirstObjection(ls: seq<Read>, w: nat, k: nat)
    requires AllLines(ls)
  {
    w <= k <= |ls| && FirstFrom(ls, w, w, k)
  }

  // `out` is every arrived line, or those before line `k` and the notice, after a
  // live text (head window `w` not counted) that the guard found degenerate.
  ghost predicate Delivers(ls: seq<Read>, w: nat, notice: Bytes, out: seq<Bytes>, k: nat)
    requires AllLines(ls)
  {
    && w <= k <= |ls|
    && if k == |ls| then out == BytesOf(ls)
       else out == BytesOf(ls[..k]) + [notice] && Degenerate(TextOf(ls[w..k + 1]))
  }

  lemma {:induction false} OneLineMore(ls: seq<Read>, w: nat, i: nat, g: Guard)
    requires AllLines(ls) && w <= i < |ls| && g.text == TextOf(ls[w..i])
    ensures TextOf(ls[w..i + 1]) == Fed(g, ls[i])
    ensures g.checked == CheckedLength(ls[w..i]) ==>
              && CheckedLength(ls[w..i + 1]) == Advance(g, ls[i]).checked
              && (Aborts(g, ls[i]) <==> Objects(ls, w, i))
    ensures BytesOf(ls[..i + 1]) == BytesOf(ls[..i]) + [ls[i].bytes]
  {
    var upTo := ls[w..i + 1];
    assert upTo[..|upTo| - 1] == ls[w..i] && upTo[|upTo| - 1] == ls[i];
    assert !ls[i].payload ==> g.text + "" == g.text;
    assert ls[..i + 1][..i] == ls[..i];
  }

  // The live text up to line `j` was checked not long ago, and passed.
  ghost predicate WatchedTo(ls: seq<Read>, w: nat, j: nat)
    requires AllLines(ls) && w <= j <= |ls|
  {
    Watched(TextOf(ls[w..j]))
  }

  lemma {:induction false} AdvanceWatched(g: Guard, l: Read)
    requires l.Line? && WatchedAt(g.text, g.checked) && !Aborts(g, l)
    ensures WatchedAt(Advance(g, l).text, Advance(g, l).checked)
  {
    assert Fed(g, l)[..|Fed(g, l)|] == Fed(g, l);
    assert Fed(g, l)[..g.checked] == g.text[..g.checked];
  }

  // A line the guard lets through.
  lemma {:induction false} PassedOn(ls: seq<Read>, w: nat, i: nat, g: Guard, notice: Bytes, k: nat)
    requires AllLines(ls) && w <= i < |ls| && !Aborts(g, ls[i])
    requires Delivers(ls, w, notice, BytesOf(ls[..i + 1]) + Guarded(ls[i + 1..], Advance(g, ls[i]), notice), k)
    ensures Delivers(ls, w, notice, BytesOf(ls[..i]) + Guarded(ls[i..], g, notice), k)
  {
    assert ls[i..][0] == ls[i] && ls[i..][1..] == ls[i + 1..];
    assert ls[..i + 1][..i] == ls[..i];
    Regroup(BytesOf(ls[..i]), ls[i].bytes, Guarded(ls[i + 1..], Advance(g, ls[i]), notice));
  }

  lemma {:induction false} CutOff(ls: seq<Read>, w: nat, i: nat, g: Guard, notice: Bytes)
    requires AllLines(ls) && w <= i < |ls| && g.text == TextOf(ls[w..i]) && Aborts(g, ls[i])
    ensures Delivers(ls, w, notice, BytesOf(ls[..i]) + Guarded(ls[i..], g, notice), i)
  {
    OneLineMore(ls, w, i, g);
    assert ls[i..][0] == ls[i];
  }

  // The line the guard stops at, from line `i` on.
  ghost function Stop(ls: seq<Read>, i: nat, g: Guard): (k: nat)
    requires AllLines(ls) && i <= |ls|
    ensures i <= k <= |ls|
    decreases |ls| - i
  {
    if i == |ls| || Aborts(g, ls[i]) then i else Stop(ls, i + 1, Advance(g, ls[i]))
  }

  lemma {:induction false} GuardDelivers(ls: seq<Read>, w: nat, i: nat, g: Guard, notice: Bytes)
    requires AllLines(ls) && w <= i <= |ls| && g.text == TextOf(ls[w..i])
    ensures Delivers(ls, w, notice, BytesOf(ls[..i]) + Guarded(ls[i..], g, notice), Stop(ls, i, g))
    decreases |ls| - i
  {
    if i == |ls| {
      assert ls[..i] == ls;
    } else if Aborts(g, ls[i]) {
      CutOff(ls, w, i, g, notice);
    } else {
      OneLineMore(ls, w, i, g);
      GuardDelivers(ls, w, i + 1, Advance(g, ls[i]), notice);
      PassedOn(ls, w, i, g, notice, Stop(ls, i, g));
    }
  }

  // The guard stops exactly where it is to object first.
  lemma {:induction false} StopsAtFirst(ls: seq<Read>, w: nat, i: nat, g: Guard)
    requires AllLines(ls) && w <= i <= |ls|
    requires g.text == TextOf(ls[w..i]) && g.checked == CheckedLength(ls[w..i])
    ensures FirstFrom(ls, w, i, Stop(ls, i, g))
    decreases |ls| - i
  {
    if i == |ls| {
    } else {
      OneLineMore(ls, w, i, g);
      if Aborts(g, ls[i]) {
      } else {
        StopsAtFirst(ls, w, i + 1, Advance(g, ls[i]));
        FirstLater(ls, w, i, Stop(ls, i, g));
      }
    }
  }

  ghost predicate FirstFrom(ls: seq<Read>, w: nat, i: nat, k: nat)
    requires AllLines(ls) && w <= i <= k <= |ls|
  {
    (k < |ls| ==> Objects(ls, w, k)) && forall j :: i <= j < k ==> !Objects(ls, w, j)
  }

  lemma {:induction false} FirstLater(ls: seq<Read>, w: nat, i: nat, k: nat)
    requires AllLines(ls) && w <= i < k <= |ls| && !Objects(ls, w, i) && FirstFrom(ls, w, i + 1, k)
    ensures FirstFrom(ls, w, i, k)
  {
  }

  lemma {:induction false} GuardWatches(ls: seq<Read>, w: nat, i: nat, g: Guard)
    requires AllLines(ls) && w <= i <= |ls| && g.text == TextOf(ls[w..i]) && WatchedAt(g.text, g.checked)
    ensures forall j :: i <= j <= Stop(ls, i, g) ==> WatchedTo(ls, w, j)
    decreases |ls| - i
  {
    assert WatchedTo(ls, w, i);
    if i == |ls| || Aborts(g, ls[i]) {
    } else {
      OneLineMore(ls, w, i, g);
      AdvanceWatched(g, ls[i]);
      GuardWatches(ls, w, i + 1, Advance(g, ls[i]));
    }
  }

  lemma {:induction false} Regroup(a: seq<Bytes>, line: Bytes, rest: seq<Bytes>)
    ensures a + ([line] + rest) == a + [line] + rest
  {
  }

  // Where the head window ends is invisible to the client: it gets the first line and
  // every line that arrived, up to the first one the guard is to object to, and there the
  // notice instead.
  lemma {:induction false} ClientLines(first: Bytes, feed: seq<Read>, notice: Bytes) returns (k: nat)
    ensures var out := Forwarded(first, feed, notice);
            out != [] && out[0] == first && Delivers(Arrived(feed), WindowLen(feed), notice, out[1..], k)
    ensures FirstObjection(Arrived(feed), WindowLen(feed), k)
    ensures forall j :: WindowLen(feed) <= j <= k ==> WatchedTo(Arrived(feed), WindowLen(feed), j)
  {
    var ls, w := Arrived(feed), WindowLen(feed);
    NothingIsFine();
    if HeadEof(feed) {
      assert ls[..w] == ls;
      k := |ls|;
      AfterFirst(first, BytesOf(ls), []);
    } else {
      k := Stop(ls, w, START);
      GuardDelivers(ls, w, w, START, notice);
      GuardWatches(ls, w, w, START);
      StopsAtFirst(ls, w, w, START);
      AfterFirst(first, BytesOf(ls[..w]), Guarded(ls[w..], START, notice));
    }
  }

  lemma {:induction false} NothingIsFine()
    ensures WatchedAt("", 0)
  {
    ShortIsFine("");
    assert ""[..0] == "";
  }

  lemma {:induction false} AfterFirst(first: Bytes, head: seq<Bytes>, live: seq<Bytes>)
    ensures var out := [first] + head + live; out[0] == first && out[1..] == head + live
    ensures live == [] ==> head + live == head
  {
  }

  // How much of a loop reaches the client: whatever the live text `a` before it, once
  // twelve clear copies of a sentence have been forwarded, fewer than 2000 more
  // characters are, as long as the loop fits the window.
  lemma {:induction false} LoopBarelyReachesClient(first: Bytes, feed: seq<Read>, notice: Bytes,
                                                   a: string, ps: seq<Piece>, s: string) returns (k: nat)
    requires |s| >= 5 && Loop(ps, s) && Copies(Clear(a, ps), s) >= 12
    ensures var ls, w := Arrived(feed), WindowLen(feed);
            && Delivers(ls, w, notice, Forwarded(first, feed, notice)[1..], k) && FirstObjection(ls, w, k)
            && forall j, b ::
                 w <= j <= k && Continues(ls, w, j, a + Spell(ps), b) && |Spell(ps)| + |b| <= 40_000 ==>
                   |b| < 2000
  {
    k := ClientLines(first, feed, notice);
    var ls, w := Arrived(feed), WindowLen(feed);
    forall j, b | w <= j <= k && Continues(ls, w, j, a + Spell(ps), b) && |Spell(ps)| + |b| <= 40_000
      ensures |b| < 2000
    {
      assert WatchedTo(ls, w, j);
      LoopStopsSoon(TextOf(ls[w..j]), a, ps, s, b);
    }
  }

  // The live text of the lines from `w` up to `j` is `start` and then `b`.
  ghost predicate Continues(ls: seq<Read>, w: nat, j: nat, start: string, b: string)
    requires AllLines(ls) && w <= j <= |ls|
  {
    TextOf(ls[w..j]) == start + b
  }

  predicate NonEmptyLines(ls: seq<Read>) {
    forall x :: x in ls && x.Line? ==> x.bytes != []
  }

  lemma {:induction false} BytesNonEmpty(ls: seq<Read>)
    requires AllLines(ls) && NonEmptyLines(ls)
    ensures [] !in BytesOf(ls)
  {
    if ls == [] {
    } else {
      BytesNonEmpty(ls[..|ls| - 1]);
    }
  }

  // Upstream never yields an empty line, so on the normal, the interrupted and the
  // aborted path the client decodes exactly the lines forwarded.
  lemma {:induction false} ClientDecodes(first: Bytes, feed: seq<Read>, notice: Bytes, tail: Bytes)
    requires first != [] && notice != [] && NonEmptyLines(feed)
    ensures Decode(Body(Forwarded(first, feed, notice)) + tail) == Some((Concat(Forwarded(first, feed, notice)), tail))
  {
    ForwardedNonEmpty(first, feed, notice);
    BodyDecodes(Forwarded(first, feed, notice), tail);
  }

  lemma {:induction false} ForwardedNonEmpty(first: Bytes, feed: seq<Read>, notice: Bytes)
    requires first != [] && notice != [] && NonEmptyLines(feed)
    ensures [] !in Forwarded(first, feed, notice)
  {
    var k := ClientLines(first, feed, notice);
    var out := Forwarded(first, feed, notice);
    DeliveredNonEmpty(Arrived(feed), WindowLen(feed), notice, out[1..], k);
    assert out == [first] + out[1..];
  }

  lemma {:induction false} DeliveredNonEmpty(ls: seq<Read>, w: nat, notice: Bytes, out: seq<Bytes>, k: nat)
    requires AllLines(ls) && NonEmptyLines(ls) && notice != [] && Delivers(ls, w, notice, out, k)
    ensures [] !in out
  {
    BytesNonEmpty(ls[..k]);
    assert k == |ls| ==> ls[..k] == ls;
  }
}
