/** Reading a request body (integrations/common/route_proxy.py,
    _read_request_body): chunked, section 7.1 of RFC 9112, or by length.
 */
module ChunkedBody {
  import opened Options
  import opened Octets

  const MAX_REQUEST_BYTES: nat := 32 * 1024 * 1024
  const SIZE_LINE: nat := 128
  const TRAILER_LINE: nat := 8192

  // ------------------------------------------------- int(text.strip(), 16)

  predicate IsSpace(b: Byte) {
    b == 32 || 9 <= b <= 13
  }

  function TrimLeft(s: Bytes): Bytes {
    if s != [] && IsSpace(s[0]) then TrimLeft(s[1..]) else s
  }

  function TrimRight(s: Bytes): Bytes {
    if s != [] && IsSpace(s[|s| - 1]) then TrimRight(s[..|s| - 1]) else s
  }

  function BeforeSemicolon(s: Bytes): Bytes {
    if s == [] || s[0] == SEMICOLON then [] else [s[0]] + BeforeSemicolon(s[1..])
  }

  function DigitValue(b: Byte): Option<nat> {
    if 48 <= b <= 57 then Some(b - 48)
    else if 97 <= b <= 102 then Some(b - 87)
    else if 65 <= b <= 70 then Some(b - 55)
    else None
  }

  const UNDERSCORE: Byte := 95

  // Hexadecimal digits, with single underscores between them.
  function Digits(s: Bytes): Option<nat> {
    if s == [] || DigitValue(s[|s| - 1]).None? then None
    else
      var last := DigitValue(s[|s| - 1]).value;
      var front := s[..|s| - 1];
      if front == [] then Some(last)
      else
        var more := if front[|front| - 1] == UNDERSCORE then Digits(front[..|front| - 1]) else Digits(front);
        if more.None? then None else Some(16 * more.value + last)
  }

  function Unsigned(s: Bytes): Option<nat> {
    if |s| >= 2 && s[0] == 48 && (s[1] == 120 || s[1] == 88) then
      Digits(if |s| > 2 && s[2] == UNDERSCORE then s[3..] else s[2..])
    else Digits(s)
  }

  function Signed(s: Bytes): Option<int> {
    if s != [] && (s[0] == 43 || s[0] == 45) then
      var magnitude := Unsigned(s[1..]);
      if magnitude.None? then None
      else
        var value: int := magnitude.value;
        Some(if s[0] == 45 then -value else value)
    else
      var magnitude := Unsigned(s);
      if magnitude.None? then None else Some(magnitude.value)
  }

  function SizeOf(line: Bytes): Option<int> {
    Signed(TrimRight(TrimLeft(BeforeSemicolon(line))))
  }

  // ------------------------------------------------------------------ streams

  function Min(a: nat, b: nat): nat { if a < b then a else b }

  function LineLength(s: Bytes, limit: nat): (n: nat)
    ensures n <= |s| && n <= limit
    ensures limit > 0 && s != [] ==> n > 0
  {
    if s == [] || limit == 0 then 0
    else if s[0] == LF then 1
    else 1 + LineLength(s[1..], limit - 1)
  }

  predicate IsBlank(line: Bytes) {
    line == [CR, LF] || line == [LF] || line == []
  }

  // The trailers end with an empty line, however it is ended, or with the stream.
  lemma BlankMeans(line: Bytes)
    ensures IsBlank(line) <==>
      line == [] || (line[|line| - 1] == 10 && (|line| == 1 || (|line| == 2 && line[0] == 13)))
  {
  }

  class Stream {
    var rest: Bytes

    constructor (bytes: Bytes)
      ensures rest == bytes
    {
      rest := bytes;
    }

    method ReadLine(limit: nat) returns (line: Bytes)
      modifies this
      ensures line == old(rest)[..LineLength(old(rest), limit)] && rest == old(rest)[|line|..]
    {
      var n := LineLength(rest, limit);
      line := rest[..n];
      rest := rest[n..];
    }

    method Read(n: nat) returns (block: Bytes)
      modifies this
      ensures block == old(rest)[..Min(n, |old(rest)|)] && rest == old(rest)[|block|..]
    {
      var k := Min(n, |rest|);
      block := rest[..k];
      rest := rest[k..];
    }
  }

  // ------------------------------------------------------------ specification

  datatype Outcome = Body(bytes: Bytes, rest: Bytes) | TooLarge | Invalid

  function AfterTrailers(s: Bytes): (r: Bytes)
    decreases |s|
  {
    var n := LineLength(s, TRAILER_LINE);
    if IsBlank(s[..n]) then s[n..] else AfterTrailers(s[n..])
  }

  // What follows a chunk of k bytes and its boundary.
  function AfterChunk(t: Bytes, k: nat): (r: Option<Bytes>)
    ensures r.Some? ==> k + 2 <= |t| && t[k] == CR && t[k + 1] == LF && r.value == t[k + 2..]
  {
    if k + 2 <= |t| && t[k] == CR && t[k + 1] == LF then Some(t[k + 2..]) else None
  }

  function Decode(s: Bytes, total: nat): Outcome
    decreases |s|
  {
    var n := LineLength(s, SIZE_LINE);
    DecodeSized(SizeOf(s[..n]), s[n..], total)
  }

  function DecodeSized(size: Option<int>, t: Bytes, total: nat): Outcome
    decreases |t|, 0
  {
    if size.None? then Invalid
    else if size.value == 0 then Body([], AfterTrailers(t))
    else if size.value < 0 || total + size.value > MAX_REQUEST_BYTES then TooLarge
    else
      var next := AfterChunk(t, size.value);
      if next.None? then Invalid
      else Resume(t[..size.value], Decode(next.value, total + size.value))
  }

  function Join(chunks: seq<Bytes>): Bytes {
    if chunks == [] then [] else Join(chunks[..|chunks| - 1]) + chunks[|chunks| - 1]
  }

  // The outcome of a stream, when a part of it has been decoded already.
  function Resume(done: Bytes, rest: Outcome): Outcome {
    if rest.Body? then Body(done + rest.bytes, rest.rest) else rest
  }

  method SkipTrailers(stream: Stream)
    modifies stream
    ensures stream.rest == AfterTrailers(old(stream.rest))
  {
    var line := stream.ReadLine(TRAILER_LINE);
    while !IsBlank(line)
      invariant AfterTrailers(old(stream.rest)) == if IsBlank(line) then stream.rest else AfterTrailers(stream.rest)
      decreases |stream.rest| + |line|
    {
      line := stream.ReadLine(TRAILER_LINE);
    }
  }

  datatype Step = Chunk(block: Bytes) | End | Error(outcome: Outcome)

  method ReadFramed(stream: Stream, k: nat) returns (block: Option<Bytes>)
    modifies stream
    ensures block.Some? <==> AfterChunk(old(stream.rest), k).Some?
    ensures block.Some? ==> block.value == old(stream.rest)[..k] && stream.rest == old(stream.rest)[k + 2..]
  {
    ghost var t := stream.rest;
    var data := stream.Read(k);
    if |data| != k {
      return None;
    }
    var boundary := stream.Read(2);
    assert |boundary| == 2 ==> boundary[0] == t[k] && boundary[1] == t[k + 1];
    assert |t| >= k + 2 ==> |boundary| == 2 && stream.rest == t[k + 2..];
    block := if boundary == [CR, LF] then Some(data) else None;
  }

  // One turn of the loop, against the specification of the whole stream.
  method NextChunk(stream: Stream, total: nat) returns (step: Step)
    modifies stream
    ensures step.Chunk? ==>
      && |stream.rest| < |old(stream.rest)| && total + |step.block| <= MAX_REQUEST_BYTES
      && Decode(old(stream.rest), total) == Resume(step.block, Decode(stream.rest, total + |step.block|))
    ensures step.End? ==> Decode(old(stream.rest), total) == Body([], stream.rest)
    ensures step.Error? ==> !step.outcome.Body? && Decode(old(stream.rest), total) == step.outcome
  {
    var line := stream.ReadLine(SIZE_LINE);
    var size := SizeOf(line);
    assert Decode(old(stream.rest), total) == DecodeSized(size, stream.rest, total);
    step := TakeChunk(stream, size, total);
  }

  method TakeChunk(stream: Stream, size: Option<int>, total: nat) returns (step: Step)
    modifies stream
    ensures step.Chunk? ==>
      && |stream.rest| < |old(stream.rest)| && total + |step.block| <= MAX_REQUEST_BYTES
      && DecodeSized(size, old(stream.rest), total) == Resume(step.block, Decode(stream.rest, total + |step.block|))
    ensures step.End? ==> DecodeSized(size, old(stream.rest), total) == Body([], stream.rest)
    ensures step.Error? ==> !step.outcome.Body? && DecodeSized(size, old(stream.rest), total) == step.outcome
  {
    if size.None? {
      return Error(Invalid);
    }
    if size.value == 0 {
      SkipTrailers(stream);
      return End;
    }
    if size.value < 0 || total + size.value > MAX_REQUEST_BYTES {
      return Error(TooLarge);
    }
    var block := ReadFramed(stream, size.value);
    step := if block.None? then Error(Invalid) else Chunk(block.value);
  }

  // What has been read and what is left make up the outcome.
  ghost predicate Progress(chunks: seq<Bytes>, total: nat, left: Bytes, outcome: Outcome) {
    total == |Join(chunks)| <= MAX_REQUEST_BYTES && Resume(Join(chunks), Decode(left, total)) == outcome
  }

  lemma Progresses(chunks: seq<Bytes>, total: nat, left: Bytes, block: Bytes, after: Bytes, outcome: Outcome)
    requires Progress(chunks, total, left, outcome) && total + |block| <= MAX_REQUEST_BYTES
    requires Decode(left, total) == Resume(block, Decode(after, total + |block|))
    ensures Progress(chunks + [block], total + |block|, after, outcome)
  {
    assert (chunks + [block])[..|chunks|] == chunks;
    ResumeTwice(Join(chunks), block, Decode(after, total + |block|));
  }

  lemma ResumeTwice(done: Bytes, block: Bytes, rest: Outcome)
    ensures Resume(done, Resume(block, rest)) == Resume(done + block, rest)
  {
    if rest.Body? {
      assert done + (block + rest.bytes) == done + block + rest.bytes;
    }
  }

  method ReadChunked(stream: Stream) returns (outcome: Outcome)
    modifies stream
    ensures outcome == Decode(old(stream.rest), 0)
    ensures outcome.Body? ==> stream.rest == outcome.rest && |outcome.bytes| <= MAX_REQUEST_BYTES
  {
    var chunks: seq<Bytes> := [];
    var total: nat := 0;
    while true
      invariant Progress(chunks, total, stream.rest, Decode(old(stream.rest), 0))
      decreases |stream.rest|
    {
      ghost var left := stream.rest;
      var step := NextChunk(stream, total);
      match step {
        case End =>
          return Body(Join(chunks), stream.rest);
        case Error(failure) =>
          return failure;
        case Chunk(block) =>
          Progresses(chunks, total, left, block, stream.rest, Decode(old(stream.rest), 0));
          chunks := chunks + [block];
          total := total + |block|;
      }
    }
  }

  // ------------------------------------------------------------------ encodings

  // A body as it may be laid out on the wire: size lines, trailers and the blank
  // line are kept as they are.
  datatype Encoding =
    | Last(line: Bytes, trailers: seq<Bytes>, blank: Bytes)
    | More(line: Bytes, data: Bytes, tail: Encoding)

  function TrailerBytes(trailers: seq<Bytes>, blank: Bytes, rest: Bytes): Bytes {
    if trailers == [] then blank + rest else trailers[0] + TrailerBytes(trailers[1..], blank, rest)
  }

  // The bytes of an encoding, followed by the rest of the stream.
  function Wire(e: Encoding, rest: Bytes): Bytes {
    match e
    case Last(line, trailers, blank) => line + TrailerBytes(trailers, blank, rest)
    case More(line, data, tail) => line + (data + ([CR, LF] + Wire(tail, rest)))
  }

  function Data(e: Encoding): Bytes {
    match e
    case Last(_, _, _) => []
    case More(_, data, tail) => data + Data(tail)
  }

  // A line, as a read of at most limit bytes finds it before the given rest.
  predicate IsLine(line: Bytes, limit: nat, rest: Bytes) {
    && |line| <= limit
    && (forall i :: 0 <= i < |line| - 1 ==> line[i] != LF)
    && ((line != [] && line[|line| - 1] == LF) || |line| == limit || rest == [])
  }

  ghost predicate TrailersWell(trailers: seq<Bytes>, blank: Bytes, rest: Bytes) {
    if trailers == [] then IsLine(blank, TRAILER_LINE, rest) && IsBlank(blank)
    else
      && IsLine(trailers[0], TRAILER_LINE, TrailerBytes(trailers[1..], blank, rest)) && !IsBlank(trailers[0])
      && TrailersWell(trailers[1..], blank, rest)
  }

  // Well formed before the given rest, after a number of bytes already decoded.
  ghost predicate Well(e: Encoding, rest: Bytes, total: nat) {
    match e
    case Last(line, trailers, blank) =>
      && IsLine(line, SIZE_LINE, TrailerBytes(trailers, blank, rest)) && SizeOf(line) == Some(0)
      && TrailersWell(trailers, blank, rest)
    case More(line, data, tail) =>
      && IsLine(line, SIZE_LINE, data + ([CR, LF] + Wire(tail, rest))) && SizeOf(line) == Some(|data|)
      && data != [] && total + |data| <= MAX_REQUEST_BYTES
      && Well(tail, rest, total + |data|)
  }

  lemma {:induction false} LineIsFound(line: Bytes, limit: nat, rest: Bytes)
    ensures LineLength(line + rest, limit) == |line| <==> IsLine(line, limit, rest)
  {
    var s := line + rest;
    if line == [] {
      assert s == rest;
    } else if limit == 0 {
    } else if s[0] == LF {
      if |line| > 1 {
        assert line[0] == LF;
      }
    } else {
      LineIsFound(line[1..], limit - 1, rest);
      assert s[1..] == line[1..] + rest;
      if IsLine(line[1..], limit - 1, rest) {
        forall i | 0 <= i < |line| - 1
          ensures line[i] != LF
        {
          assert i > 0 ==> line[1..][i - 1] == line[i];
        }
      }
    }
  }

  lemma LineLengthOfPrefix(line: Bytes, limit: nat, rest: Bytes)
    requires IsLine(line, limit, rest)
    ensures (line + rest)[..LineLength(line + rest, limit)] == line
    ensures (line + rest)[LineLength(line + rest, limit)..] == rest
  {
    LineIsFound(line, limit, rest);
  }

  lemma {:induction false} TrailersAreSkipped(trailers: seq<Bytes>, blank: Bytes, rest: Bytes)
    requires TrailersWell(trailers, blank, rest)
    ensures AfterTrailers(TrailerBytes(trailers, blank, rest)) == rest
  {
    if trailers == [] {
      LineLengthOfPrefix(blank, TRAILER_LINE, rest);
    } else {
      LineLengthOfPrefix(trailers[0], TRAILER_LINE, TrailerBytes(trailers[1..], blank, rest));
      TrailersAreSkipped(trailers[1..], blank, rest);
    }
  }

  lemma SizeLineIsTaken(line: Bytes, t: Bytes, total: nat)
    requires IsLine(line, SIZE_LINE, t)
    ensures Decode(line + t, total) == DecodeSized(SizeOf(line), t, total)
  {
    LineLengthOfPrefix(line, SIZE_LINE, t);
  }

  lemma ChunkDecodes(data: Bytes, after: Bytes, total: nat)
    requires data != [] && total + |data| <= MAX_REQUEST_BYTES
    ensures DecodeSized(Some(|data|), data + ([CR, LF] + after), total) == Resume(data, Decode(after, total + |data|))
  {
    var t := data + ([CR, LF] + after);
    assert t[|data|] == CR && t[|data| + 1] == LF && t[|data| + 2..] == after && t[..|data|] == data;
  }

  /** Decoding inverts every layout of a body, and stops exactly behind it. */
  lemma {:induction false} DecodeInvertsWire(e: Encoding, rest: Bytes, total: nat)
    requires Well(e, rest, total)
    ensures Decode(Wire(e, rest), total) == Body(Data(e), rest)
    decreases e
  {
    match e {
      case Last(line, trailers, blank) =>
        SizeLineIsTaken(line, TrailerBytes(trailers, blank, rest), total);
        TrailersAreSkipped(trailers, blank, rest);
      case More(line, data, tail) =>
        var next := Wire(tail, rest);
        var out := Body(Data(tail), rest);
        DecodeInvertsWire(tail, rest, total + |data|);
        MoreInverts(line, data, next, total, out);
    }
  }

  lemma MoreInverts(line: Bytes, data: Bytes, next: Bytes, total: nat, out: Outcome)
    requires IsLine(line, SIZE_LINE, data + ([CR, LF] + next)) && SizeOf(line) == Some(|data|)
    requires data != [] && total + |data| <= MAX_REQUEST_BYTES && Decode(next, total + |data|) == out
    ensures Decode(line + (data + ([CR, LF] + next)), total) == Resume(data, out)
  {
    SizeLineIsTaken(line, data + ([CR, LF] + next), total);
    ChunkDecodes(data, next, total);
  }

  lemma {:induction false} TrailersOf(s: Bytes) returns (trailers: seq<Bytes>, blank: Bytes)
    ensures TrailersWell(trailers, blank, AfterTrailers(s))
    ensures s == TrailerBytes(trailers, blank, AfterTrailers(s))
    decreases |s|
  {
    var n := LineLength(s, TRAILER_LINE);
    assert s == s[..n] + s[n..];
    LineIsFound(s[..n], TRAILER_LINE, s[n..]);
    if IsBlank(s[..n]) {
      trailers, blank := [], s[..n];
    } else {
      var more, last := TrailersOf(s[n..]);
      trailers, blank := [s[..n]] + more, last;
      assert trailers[1..] == more;
    }
  }

  // Decoding the bytes gave a body and a rest, and they were this layout of the body.
  ghost predicate LaidOut(e: Encoding, s: Bytes, total: nat, d: Outcome) {
    && d.Body? && Well(e, d.rest, total) && s == Wire(e, d.rest) && Data(e) == d.bytes
    && (total <= MAX_REQUEST_BYTES ==> total + |Data(e)| <= MAX_REQUEST_BYTES)
  }

  /** Conversely, whatever decodes was such a layout: nothing is dropped but the
      framing, and a decoded body never exceeds the limit. */
  lemma {:induction false} DecodedWasWire(s: Bytes, total: nat) returns (e: Encoding)
    requires Decode(s, total).Body?
    ensures Well(e, Decode(s, total).rest, total)
    ensures s == Wire(e, Decode(s, total).rest) && Data(e) == Decode(s, total).bytes
    ensures total <= MAX_REQUEST_BYTES ==> total + |Data(e)| <= MAX_REQUEST_BYTES
    decreases |s|, 1
  {
    var n := LineLength(s, SIZE_LINE);
    var line, t := s[..n], s[n..];
    assert s == line + t;
    LineIsFound(line, SIZE_LINE, t);
    e := SizedWasWire(line, SizeOf(line), t, total);
  }

  lemma {:induction false} SizedWasWire(line: Bytes, size: Option<int>, t: Bytes, total: nat) returns (e: Encoding)
    requires IsLine(line, SIZE_LINE, t) && SizeOf(line) == size && DecodeSized(size, t, total).Body?
    ensures LaidOut(e, line + t, total, DecodeSized(size, t, total))
    decreases |t|, 0
  {
    if size == Some(0) {
      e := LastLaidOut(line, t, total);
    } else {
      var k, next := ChunkFollows(size, t, total);
      var tail := DecodedWasWire(next, total + k);
      e := ChunkLaidOut(line, t, k, next, total, tail, Decode(next, total + k));
    }
  }

  lemma ChunkFollows(size: Option<int>, t: Bytes, total: nat) returns (k: nat, next: Bytes)
    requires size != Some(0) && DecodeSized(size, t, total).Body?
    ensures size == Some(k) && k > 0 && total + k <= MAX_REQUEST_BYTES && AfterChunk(t, k) == Some(next)
    ensures |next| < |t| && Decode(next, total + k).Body?
    ensures DecodeSized(size, t, total) == Resume(t[..k], Decode(next, total + k))
  {
    k := size.value;
    next := AfterChunk(t, k).value;
  }

  lemma LastLaidOut(line: Bytes, t: Bytes, total: nat) returns (e: Encoding)
    requires IsLine(line, SIZE_LINE, t) && SizeOf(line) == Some(0)
    ensures LaidOut(e, line + t, total, DecodeSized(Some(0), t, total))
  {
    var trailers, blank := TrailersOf(t);
    e := Last(line, trailers, blank);
  }

  lemma ChunkLaidOut(line: Bytes, t: Bytes, k: nat, next: Bytes, total: nat, tail: Encoding, d: Outcome)
    returns (e: Encoding)
    requires IsLine(line, SIZE_LINE, t) && SizeOf(line) == Some(k) && k > 0 && total + k <= MAX_REQUEST_BYTES
    requires AfterChunk(t, k) == Some(next) && LaidOut(tail, next, total + k, d)
    ensures LaidOut(e, line + t, total, Resume(t[..k], d))
  {
    ChunkIsFramed(t, k);
    MoreLaidOut(line, t[..k], next, total, tail, d);
    e := More(line, t[..k], tail);
  }

  lemma MoreLaidOut(line: Bytes, data: Bytes, next: Bytes, total: nat, tail: Encoding, d: Outcome)
    requires IsLine(line, SIZE_LINE, data + ([CR, LF] + next)) && SizeOf(line) == Some(|data|) && data != []
    requires total + |data| <= MAX_REQUEST_BYTES && LaidOut(tail, next, total + |data|, d)
    ensures LaidOut(More(line, data, tail), line + (data + ([CR, LF] + next)), total, Resume(data, d))
  {
    assert Data(More(line, data, tail)) == data + d.bytes;
  }

  lemma ChunkIsFramed(t: Bytes, k: nat)
    requires AfterChunk(t, k).Some?
    ensures t == t[..k] + ([CR, LF] + AfterChunk(t, k).value)
  {
    var after := [CR, LF] + AfterChunk(t, k).value;
    assert t[k..] == after;
  }

  // ------------------------------------------------------------------- refusals

  // Chunks as they should be, and then a size line and what follows it.
  datatype Broken =
    | Stop(line: Bytes, rest: Bytes)
    | After(line: Bytes, data: Bytes, tail: Broken)

  function BrokenWire(b: Broken): Bytes {
    match b
    case Stop(line, rest) => line + rest
    case After(line, data, tail) => line + (data + ([CR, LF] + BrokenWire(tail)))
  }

  // The bytes begin with so much data and its boundary.
  predicate Framed(t: Bytes, k: nat) {
    k + 2 <= |t| && t[k] == CR && t[k + 1] == LF
  }

  // What is wrong with the last size line, or with the chunk after it.
  ghost predicate Fails(b: Broken, total: nat, o: Outcome) {
    match b
    case Stop(line, rest) =>
      && IsLine(line, SIZE_LINE, rest) && SizeOf(line) != Some(0)
      && if SizeOf(line).None? then o.Invalid?
         else if SizeOf(line).value < 0 || total + SizeOf(line).value > MAX_REQUEST_BYTES then o.TooLarge?
         else !Framed(rest, SizeOf(line).value) && o.Invalid?
    case After(line, data, tail) =>
      && IsLine(line, SIZE_LINE, data + ([CR, LF] + BrokenWire(tail))) && SizeOf(line) == Some(|data|)
      && data != [] && total + |data| <= MAX_REQUEST_BYTES && Fails(tail, total + |data|, o)
  }

  // What becomes of a size that is no end.
  lemma SizedGoesOn(size: Option<int>, t: Bytes, total: nat)
    requires size != Some(0)
    ensures size.None? ==> DecodeSized(size, t, total) == Invalid
    ensures size.Some? && (size.value < 0 || total + size.value > MAX_REQUEST_BYTES) ==>
      DecodeSized(size, t, total) == TooLarge
    ensures size.Some? && 0 < size.value <= MAX_REQUEST_BYTES - total && !Framed(t, size.value) ==>
      DecodeSized(size, t, total) == Invalid
  {
  }

  // A refusal behind a chunk is one of the whole, and the other way round.
  lemma RefusedBehind(line: Bytes, data: Bytes, next: Bytes, t: Bytes, total: nat)
    requires t == data + ([CR, LF] + next) && data != []
    requires IsLine(line, SIZE_LINE, t) && SizeOf(line) == Some(|data|) && total + |data| <= MAX_REQUEST_BYTES
    ensures Decode(line + t, total).Body? <==> Decode(next, total + |data|).Body?
    ensures !Decode(line + t, total).Body? ==> Decode(line + t, total) == Decode(next, total + |data|)
  {
    SizeLineIsTaken(line, t, total);
    ChunkDecodes(data, next, total);
  }

  /** A stream with such a fault is refused for it. */
  lemma {:induction false} FaultIsRefused(b: Broken, total: nat, o: Outcome)
    requires Fails(b, total, o)
    ensures Decode(BrokenWire(b), total) == o && !o.Body?
    decreases b
  {
    match b {
      case Stop(line, rest) =>
        SizeLineIsTaken(line, rest, total);
        SizedGoesOn(SizeOf(line), rest, total);
      case After(line, data, tail) =>
        FaultIsRefused(tail, total + |data|, o);
        RefusedBehind(line, data, BrokenWire(tail), data + ([CR, LF] + BrokenWire(tail)), total);
    }
  }

  // The chunk of a size line and what follows it, or None if it is not framed.
  lemma ChunkOrFault(line: Bytes, t: Bytes, total: nat) returns (next: Option<Bytes>)
    requires IsLine(line, SIZE_LINE, t) && !Decode(line + t, total).Body?
    ensures next.None? ==> Fails(Stop(line, t), total, Decode(line + t, total))
    ensures next.Some? ==>
      && SizeOf(line).Some? && 0 < SizeOf(line).value <= |t| && total + SizeOf(line).value <= MAX_REQUEST_BYTES
      && t == t[..SizeOf(line).value] + ([CR, LF] + next.value) && |next.value| < |t|
  {
    var size := SizeOf(line);
    SizeLineIsTaken(line, t, total);
    if size == Some(0) {
      assert false;
    } else {
      SizedGoesOn(size, t, total);
      next := None;
      if size.Some? && 0 < size.value <= MAX_REQUEST_BYTES - total && Framed(t, size.value) {
        ChunkIsFramed(t, size.value);
        next := AfterChunk(t, size.value);
      }
    }
  }

  /** Conversely, whatever is refused has such a fault. */
  lemma {:induction false} RefusedHadFault(s: Bytes, total: nat) returns (b: Broken)
    requires !Decode(s, total).Body?
    ensures s == BrokenWire(b) && Fails(b, total, Decode(s, total))
    decreases |s|, 1
  {
    var n := LineLength(s, SIZE_LINE);
    var line, t := s[..n], s[n..];
    assert s == line + t;
    LineIsFound(line, SIZE_LINE, t);
    var next := ChunkOrFault(line, t, total);
    if next.None? {
      b := Stop(line, t);
    } else {
      b := RefusedChunk(line, t[..SizeOf(line).value], next.value, t, total);
    }
  }

  lemma {:induction false} RefusedChunk(line: Bytes, data: Bytes, next: Bytes, t: Bytes, total: nat)
    returns (b: Broken)
    requires t == data + ([CR, LF] + next) && data != []
    requires IsLine(line, SIZE_LINE, t) && SizeOf(line) == Some(|data|)
    requires total + |data| <= MAX_REQUEST_BYTES && !Decode(line + t, total).Body?
    ensures line + t == BrokenWire(b) && Fails(b, total, Decode(line + t, total))
    decreases |t|, 0
  {
    RefusedBehind(line, data, next, t, total);
    var tail := RefusedHadFault(next, total + |data|);
    b := After(line, data, tail);
  }

  // ------------------------------------------------------------ what a size line says

  /** Which bytes are digits, and what they are worth. */
  lemma DigitsAreWorth(b: Byte)
    ensures DigitValue(b) ==
      if b in [48, 49, 50, 51, 52, 53, 54, 55, 56, 57] then Some(b - 48)
      else if b == 97 || b == 65 then Some(10)
      else if b == 98 || b == 66 then Some(11)
      else if b == 99 || b == 67 then Some(12)
      else if b == 100 || b == 68 then Some(13)
      else if b == 101 || b == 69 then Some(14)
      else if b == 102 || b == 70 then Some(15)
      else None
  {
  }

  // Digits and underscores, no underscore first, last or next to another.
  ghost predicate WellSpelled(s: Bytes) {
    && s != [] && DigitValue(s[0]).Some? && DigitValue(s[|s| - 1]).Some?
    && (forall i :: 0 <= i < |s| ==> DigitValue(s[i]).Some? || s[i] == UNDERSCORE)
    && (forall i :: 0 < i < |s| ==> DigitValue(s[i]).Some? || DigitValue(s[i - 1]).Some?)
  }

  lemma {:induction false} DigitsWhen(s: Bytes)
    ensures Digits(s).Some? <==> WellSpelled(s)
    decreases |s|
  {
    if s != [] && DigitValue(s[|s| - 1]).Some? {
      var front := s[..|s| - 1];
      if front != [] {
        var more := if front[|front| - 1] == UNDERSCORE then front[..|front| - 1] else front;
        DigitsWhen(more);
        WellSpelledMore(more, front, s);
      }
    }
  }

  lemma WellSpelledMore(more: Bytes, front: Bytes, s: Bytes)
    requires s != [] && front == s[..|s| - 1] && front != [] && DigitValue(s[|s| - 1]).Some?
    requires more == if front[|front| - 1] == UNDERSCORE then front[..|front| - 1] else front
    ensures WellSpelled(more) <==> WellSpelled(s)
  {
    assert forall i :: 0 <= i < |more| ==> more[i] == s[i];
    if front[|front| - 1] == UNDERSCORE {
      assert s[|s| - 2] == UNDERSCORE;
      if WellSpelled(s) {
        assert more != [] by {
          assert DigitValue(s[0]).Some?;
        }
        assert DigitValue(s[|s| - 2]).Some? || DigitValue(s[|s| - 3]).Some?;
      }
    } else {
      assert s[|s| - 2] == front[|front| - 1];
    }
  }

  /** The value is read in base sixteen, and underscores do not matter. */
  lemma DigitsMean(front: Bytes, last: Byte)
    requires Digits(front).Some? && DigitValue(last).Some?
    ensures Digits([last]) == DigitValue(last)
    ensures Digits(front + [last]) == Some(16 * Digits(front).value + DigitValue(last).value)
    ensures Digits(front + [UNDERSCORE, last]) == Some(16 * Digits(front).value + DigitValue(last).value)
  {
    DigitBehind(front, front + [last], last);
    UnderscoreBehind(front, front + [UNDERSCORE, last], last);
  }

  lemma DigitBehind(front: Bytes, s: Bytes, last: Byte)
    requires Digits(front).Some? && DigitValue(last).Some? && s == front + [last]
    ensures Digits(s) == Some(16 * Digits(front).value + DigitValue(last).value)
  {
    assert s[..|s| - 1] == front;
  }

  lemma UnderscoreBehind(front: Bytes, s: Bytes, last: Byte)
    requires Digits(front).Some? && DigitValue(last).Some? && s == front + [UNDERSCORE, last]
    ensures Digits(s) == Some(16 * Digits(front).value + DigitValue(last).value)
  {
    var spaced := s[..|s| - 1];
    assert spaced == front + [UNDERSCORE] && spaced[..|spaced| - 1] == front;
  }

  // The prefix of hexadecimal numbers, with an underscore behind it or not.
  lemma PrefixIsDropped(digits: Bytes, n: nat)
    requires Digits(digits) == Some(n)
    ensures Unsigned([48, 120] + digits) == Unsigned([48, 88] + digits) == Some(n)
    ensures Unsigned([48, 120, UNDERSCORE] + digits) == Unsigned([48, 88, UNDERSCORE] + digits) == Some(n)
  {
    DigitsWhen(digits);
    assert ([48, 120] + digits)[2..] == digits && ([48, 88] + digits)[2..] == digits;
    assert ([48, 120, UNDERSCORE] + digits)[3..] == digits && ([48, 88, UNDERSCORE] + digits)[3..] == digits;
  }

  lemma SignIsRead(digits: Bytes, n: nat)
    requires Unsigned(digits) == Some(n)
    ensures Signed([43] + digits) == Some(n)
    ensures Signed([45] + digits).Some? && Signed([45] + digits).value + n == 0
  {
    assert ([43] + digits)[1..] == digits && ([45] + digits)[1..] == digits;
  }

  // A number behind 0x or 0X, and perhaps one underscore.
  ghost predicate Prefixed(s: Bytes) {
    && |s| > 2 && s[0] == 48 && s[1] in {88, 120}
    && (WellSpelled(s[2..]) || (s[2] == UNDERSCORE && WellSpelled(s[3..])))
  }

  /** Exactly what is read as a number: digits, with 0x in front or not, and with a sign
      in front or not. */
  lemma NumbersAre(s: Bytes)
    ensures Unsigned(s).Some? <==> WellSpelled(s) || Prefixed(s)
    ensures Signed(s).Some? <==> Unsigned(s).Some? || (s != [] && s[0] in {43, 45} && Unsigned(s[1..]).Some?)
    ensures forall b :: IsSpace(b) <==> b in {9, 10, 11, 12, 13, 32}
  {
    DigitsWhen(s);
    if |s| >= 2 {
      DigitsWhen(s[2..]);
      if |s| > 2 {
        DigitsWhen(s[3..]);
      }
    }
  }

  // White space around the number, and an extension behind it, do not matter.
  lemma {:induction false} SpaceBefore(left: Bytes, core: Bytes)
    requires forall i :: 0 <= i < |left| ==> IsSpace(left[i])
    requires core != [] && !IsSpace(core[0])
    ensures TrimLeft(left + core) == core
  {
    if left == [] {
      assert left + core == core;
    } else {
      assert (left + core)[1..] == left[1..] + core;
      SpaceBefore(left[1..], core);
    }
  }

  lemma {:induction false} SpaceBehind(core: Bytes, right: Bytes)
    requires forall i :: 0 <= i < |right| ==> IsSpace(right[i])
    requires core != [] && !IsSpace(core[|core| - 1])
    ensures TrimRight(core + right) == core
  {
    if right == [] {
      assert core + right == core;
    } else {
      var n := |right| - 1;
      assert (core + right)[..|core + right| - 1] == core + right[..n];
      SpaceBehind(core, right[..n]);
    }
  }

  lemma {:induction false} ExtensionIsDropped(s: Bytes, extension: Bytes)
    requires forall i :: 0 <= i < |s| ==> s[i] != SEMICOLON
    ensures BeforeSemicolon(s + [SEMICOLON] + extension) == s
  {
    var all := s + [SEMICOLON] + extension;
    if s != [] {
      assert all[1..] == s[1..] + [SEMICOLON] + extension;
      ExtensionIsDropped(s[1..], extension);
    }
  }

  /** A size line says what its number says: white space around it and an extension
      behind it do not matter. */
  lemma SizeLineMeans(left: Bytes, core: Bytes, right: Bytes, extension: Bytes)
    requires forall i :: 0 <= i < |left| ==> IsSpace(left[i])
    requires forall i :: 0 <= i < |right| ==> IsSpace(right[i])
    requires core != [] && !IsSpace(core[0]) && !IsSpace(core[|core| - 1])
    requires forall i :: 0 <= i < |core| ==> core[i] != SEMICOLON
    ensures SizeOf(left + core + right) == Signed(core)
    ensures SizeOf(left + core + right + [SEMICOLON] + extension) == Signed(core)
  {
    var s := left + core + right;
    NothingBeforeSemicolon(s);
    ExtensionIsDropped(s, extension);
    SpacesAround(left, core, right);
  }

  lemma SpacesAround(left: Bytes, core: Bytes, right: Bytes)
    requires forall i :: 0 <= i < |left| ==> IsSpace(left[i])
    requires forall i :: 0 <= i < |right| ==> IsSpace(right[i])
    requires core != [] && !IsSpace(core[0]) && !IsSpace(core[|core| - 1])
    ensures TrimRight(TrimLeft(left + core + right)) == core
  {
    assert left + core + right == left + (core + right);
    SpaceBefore(left, core + right);
    SpaceBehind(core, right);
  }

  // -------------------------------------------------------- the usual encoding

  function HexDigit(d: nat): Byte
    requires d < 16
  {
    if d < 10 then 48 + d else 87 + d
  }

  function Hex(n: nat): (r: Bytes)
    ensures r != []
  {
    if n < 16 then [HexDigit(n)] else Hex(n / 16) + [HexDigit(n % 16)]
  }

  function Power16(k: nat): nat {
    if k == 0 then 1 else 16 * Power16(k - 1)
  }

  lemma {:induction false} HexReads(n: nat, k: nat)
    requires n < Power16(k) && k > 0
    ensures Digits(Hex(n)) == Some(n) && |Hex(n)| <= k
    ensures forall i :: 0 <= i < |Hex(n)| ==> DigitValue(Hex(n)[i]).Some?
  {
    if n >= 16 {
      HexReads(n / 16, k - 1);
      var front := Hex(n / 16);
      assert Hex(n)[..|Hex(n)| - 1] == front;
    }
  }

  lemma {:induction false} NothingBeforeSemicolon(s: Bytes)
    requires forall i :: 0 <= i < |s| ==> s[i] != SEMICOLON
    ensures BeforeSemicolon(s) == s
  {
    if s != [] {
      NothingBeforeSemicolon(s[1..]);
    }
  }

  lemma TrimmedLine(digits: Bytes)
    requires digits != [] && !IsSpace(digits[0]) && !IsSpace(digits[|digits| - 1])
    ensures TrimRight(TrimLeft(digits + [CR, LF])) == digits
  {
    var s := digits + [CR, LF];
    assert TrimLeft(s) == s;
    assert s[..|s| - 1] == digits + [CR];
    assert (digits + [CR])[..|digits|] == digits;
    assert TrimRight(s) == TrimRight(digits + [CR]);
    assert TrimRight(digits + [CR]) == TrimRight(digits);
  }

  lemma SevenDigitsSuffice()
    ensures MAX_REQUEST_BYTES < Power16(7)
  {
    assert Power16(3) == 0x1000;
    assert Power16(5) == 0x10_0000;
  }

  lemma DigitsHoldNoSemicolon(digits: Bytes)
    requires forall i :: 0 <= i < |digits| ==> DigitValue(digits[i]).Some?
    ensures BeforeSemicolon(digits + [CR, LF]) == digits + [CR, LF]
  {
    var line := digits + [CR, LF];
    forall i | 0 <= i < |line|
      ensures line[i] != SEMICOLON
    {
      assert i < |digits| ==> DigitValue(digits[i]).Some?;
    }
    NothingBeforeSemicolon(line);
  }

  lemma DigitsAreRead(digits: Bytes, n: nat)
    requires digits != [] && Digits(digits) == Some(n)
    requires forall i :: 0 <= i < |digits| ==> DigitValue(digits[i]).Some?
    ensures SizeOf(digits + [CR, LF]) == Some(n)
  {
    DigitsHoldNoSemicolon(digits);
    assert DigitValue(digits[0]).Some? && DigitValue(digits[|digits| - 1]).Some?;
    TrimmedLine(digits);
    HexIsUnsigned(digits, n);
  }

  lemma DigitsMakeALine(digits: Bytes, rest: Bytes)
    requires |digits| + 2 <= SIZE_LINE
    requires forall i :: 0 <= i < |digits| ==> DigitValue(digits[i]).Some?
    ensures IsLine(digits + [CR, LF], SIZE_LINE, rest)
  {
    var line := digits + [CR, LF];
    forall i | 0 <= i < |line| - 1
      ensures line[i] != LF
    {
      assert i < |digits| ==> DigitValue(digits[i]).Some?;
    }
  }

  lemma HexLineIsRead(n: nat)
    requires n <= MAX_REQUEST_BYTES
    ensures SizeOf(Hex(n) + [CR, LF]) == Some(n)
    ensures forall rest: Bytes :: IsLine(Hex(n) + [CR, LF], SIZE_LINE, rest)
  {
    SevenDigitsSuffice();
    HexReads(n, 7);
    DigitsAreRead(Hex(n), n);
    forall rest: Bytes
      ensures IsLine(Hex(n) + [CR, LF], SIZE_LINE, rest)
    {
      DigitsMakeALine(Hex(n), rest);
    }
  }

  lemma HexIsUnsigned(digits: Bytes, n: nat)
    requires digits != [] && Digits(digits) == Some(n)
    requires forall i :: 0 <= i < |digits| ==> DigitValue(digits[i]).Some?
    ensures Signed(digits) == Some(n)
  {
    assert DigitValue(digits[0]).Some?;
    if |digits| >= 2 {
      assert DigitValue(digits[1]).Some?;
    }
  }

  function Encode(chunks: seq<Bytes>): Encoding {
    if chunks == [] then Last(Hex(0) + [CR, LF], [], [CR, LF])
    else More(Hex(|chunks[0]|) + [CR, LF], chunks[0], Encode(chunks[1..]))
  }

  lemma NoChunksAreWell(rest: Bytes, total: nat)
    ensures Well(Encode([]), rest, total)
  {
    HexLineIsRead(0);
    assert IsLine([CR, LF], TRAILER_LINE, rest);
  }

  lemma OneMoreIsWell(data: Bytes, tail: Encoding, rest: Bytes, total: nat)
    requires data != [] && total + |data| <= MAX_REQUEST_BYTES && Well(tail, rest, total + |data|)
    ensures Well(More(Hex(|data|) + [CR, LF], data, tail), rest, total)
  {
    HexLineIsRead(|data|);
    HexLineIsLine(|data|, data + ([CR, LF] + Wire(tail, rest)));
  }

  lemma HexLineIsLine(n: nat, rest: Bytes)
    requires n <= MAX_REQUEST_BYTES
    ensures IsLine(Hex(n) + [CR, LF], SIZE_LINE, rest)
  {
    HexLineIsRead(n);
  }

  lemma {:induction false} EncodeIsWell(chunks: seq<Bytes>, rest: Bytes, total: nat)
    requires forall i :: 0 <= i < |chunks| ==> chunks[i] != []
    requires total + |Data(Encode(chunks))| <= MAX_REQUEST_BYTES
    ensures Well(Encode(chunks), rest, total)
  {
    if chunks == [] {
      NoChunksAreWell(rest, total);
    } else {
      EncodeIsWell(chunks[1..], rest, total + |chunks[0]|);
      OneMoreIsWell(chunks[0], Encode(chunks[1..]), rest, total);
    }
  }

  lemma {:induction false} JoinFirst(first: Bytes, chunks: seq<Bytes>)
    ensures Join([first] + chunks) == first + Join(chunks)
  {
    var all := [first] + chunks;
    if chunks == [] {
      assert all[..0] == [];
    } else {
      var n := |chunks| - 1;
      assert all[..|all| - 1] == [first] + chunks[..n];
      JoinFirst(first, chunks[..n]);
    }
  }

  lemma {:induction false} DataIsJoin(chunks: seq<Bytes>)
    ensures Data(Encode(chunks)) == Join(chunks)
  {
    if chunks != [] {
      DataIsJoin(chunks[1..]);
      JoinFirst(chunks[0], chunks[1..]);
      assert [chunks[0]] + chunks[1..] == chunks;
    }
  }

  /** Decoding inverts encoding: the bytes of any non-empty chunks come back
      joined, and what follows the body is left unread. */
  lemma RoundTrip(chunks: seq<Bytes>, rest: Bytes)
    requires forall i :: 0 <= i < |chunks| ==> chunks[i] != []
    requires |Join(chunks)| <= MAX_REQUEST_BYTES
    ensures Decode(Wire(Encode(chunks), rest), 0) == Body(Join(chunks), rest)
  {
    DataIsJoin(chunks);
    EncodeIsWell(chunks, rest, 0);
    DecodeInvertsWire(Encode(chunks), rest, 0);
  }

  // ------------------------------------------------------------- request bodies

  // The Content-Length header, if there is one, and the number it parses to.
  datatype Length = Absent | Unparsable | Number(value: int)

  function DecodeRequest(length: Length, chunked: bool, s: Bytes): Outcome {
    match length
    case Absent => if chunked then Decode(s, 0) else Body([], s)
    case Unparsable => Invalid
    case Number(n) =>
      if n < 0 then Invalid
      else if n > MAX_REQUEST_BYTES then TooLarge
      else if n > |s| then Invalid
      else Body(s[..n], s[n..])
  }

  /** A body by length comes back whole, whatever else is announced, and what follows it
      is left unread. */
  lemma LengthReads(body: Bytes, rest: Bytes, chunked: bool)
    requires |body| <= MAX_REQUEST_BYTES
    ensures DecodeRequest(Number(|body|), chunked, body + rest) == Body(body, rest)
  {
  }

  /** Conversely, what is read by length has that length and was what the stream began
      with; and every refusal has its reason. */
  lemma LengthTells(length: Length, chunked: bool, s: Bytes)
    requires !(length.Absent? && chunked)
    ensures var o := DecodeRequest(length, chunked, s);
            && (o.Body? ==> s == o.bytes + o.rest && |o.bytes| == if length.Number? then length.value else 0)
            && (o.Body? <==>
                  length.Absent? ||
                  (length.Number? && 0 <= length.value <= MAX_REQUEST_BYTES && length.value <= |s|))
            && (o.TooLarge? <==> length.Number? && length.value > MAX_REQUEST_BYTES)
            && (o.Invalid? <==>
                  length.Unparsable? ||
                  (length.Number? && (length.value < 0 || |s| < length.value <= MAX_REQUEST_BYTES)))
  {
  }

  method ReadRequestBody(length: Length, chunked: bool, stream: Stream) returns (outcome: Outcome)
    modifies stream
    ensures outcome == DecodeRequest(length, chunked, old(stream.rest))
    ensures outcome.Body? ==> stream.rest == outcome.rest && |outcome.bytes| <= MAX_REQUEST_BYTES
  {
    if length.Absent? {
      if chunked {
        outcome := ReadChunked(stream);
        return;
      }
      return Body([], stream.rest);
    }
    if length.Unparsable? || length.value < 0 {
      return Invalid;
    }
    if length.value > MAX_REQUEST_BYTES {
      return TooLarge;
    }
    ghost var s := stream.rest;
    var body := stream.Read(length.value);
    if |body| != length.value {
      return Invalid;
    }
    outcome := Body(body, stream.rest);
  }
}
