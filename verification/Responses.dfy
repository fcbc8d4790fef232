/** An upstream response and the part of it read before anything is sent to the
    client (integrations/common/route_proxy.py, _prepare_response).
 */
module Responses {
  import opened Options
  import opened Octets
  import Sse

  const MAX_RESPONSE_PRELUDE_BYTES: nat := 1024 * 1024
  const RESPONSE_READ_BYTES: nat := 64 * 1024

  function Min(a: nat, b: nat): nat { if a < b then a else b }

  // What an upstream will still deliver: the bytes that arrive, whether the
  // connection then breaks or ends, and how many bytes it still owes.
  datatype Source = Source(incoming: Bytes, broken: bool, length: Option<nat>)

  datatype Answer = Answer(status: nat, sse: bool, contentLength: Option<int>, source: Source, cuts: seq<nat>)

  function Limit(s: Source, n: nat): nat {
    if s.length.Some? then Min(n, s.length.value) else n
  }

  // The bytes of the body that can be read.
  function Body(s: Source): Bytes {
    s.incoming[..Limit(s, |s.incoming|)]
  }

  // The body can be read to its end without an error and without owing bytes.
  predicate Whole(s: Source) {
    if s.length.Some? then s.length.value <= |s.incoming| else !s.broken
  }

  function Rest(s: Source, k: nat): Source
    requires k <= |Body(s)|
  {
    Source(s.incoming[k..], s.broken, if s.length.Some? then Some(s.length.value - k) else None)
  }

  lemma ReadingConserves(s: Source, k: nat)
    requires k <= |Body(s)|
    ensures s.incoming[..k] == Body(s)[..k]
    ensures Body(s) == s.incoming[..k] + Body(Rest(s, k))
    ensures Whole(Rest(s, k)) == Whole(s)
  {
  }

  // An empty read that raises, and an empty read that leaves bytes owed.
  predicate Raises(s: Source) {
    s.broken && s.length != Some(0)
  }

  predicate Owes(s: Source) {
    s.length.Some? && s.length.value > 0
  }

  /** When nothing more can be read, the body is whole exactly if the next read
      neither raises nor leaves bytes owed. */
  lemma EmptyReadTells(s: Source)
    requires Body(s) == []
    ensures Whole(s) <==> !Raises(s) && !Owes(s)
  {
  }

  // The start of a server-sent stream that fits into the prelude.
  function Window(s: Source): Bytes {
    Body(s)[..Min(|Body(s)|, MAX_RESPONSE_PRELUDE_BYTES)]
  }

  predicate ReadsFully(contentLength: Option<int>) {
    contentLength.Some? && 0 <= contentLength.value <= MAX_RESPONSE_PRELUDE_BYTES
  }

  // What decides whether a response may be sent, however its bytes are cut up.
  predicate Presentable(a: Answer) {
    if a.sse then Sse.Detected(Window(a.source))
    else if ReadsFully(a.contentLength) then a.contentLength.value <= |Body(a.source)|
    else Body(a.source) != [] || (!Raises(a.source) && !(a.contentLength.Some? && a.contentLength.value > 0))
  }

  // A detection in the start of the body is one in its window.
  lemma InWindow(s: Source, buffered: Bytes)
    requires buffered <= Body(s) && |buffered| <= MAX_RESPONSE_PRELUDE_BYTES && Sse.Detected(buffered)
    ensures Sse.Detected(Window(s))
  {
    var rest := Window(s)[|buffered|..];
    assert Window(s) == buffered + rest;
    Sse.DetectionIsMonotone(buffered, rest);
  }

  class Response {
    const answer: Answer
    var source: Source
    var cuts: seq<nat>

    constructor (answer: Answer)
      ensures this.answer == answer && source == answer.source
    {
      this.answer := answer;
      this.source := answer.source;
      this.cuts := answer.cuts;
    }

    // One read of what is ready: at least a byte, unless there is none.
    method Read1(n: nat) returns (raised: bool, block: Bytes)
      requires n > 0
      modifies this`source, this`cuts
      ensures |block| <= n && block <= Body(old(source))
      ensures Body(old(source)) == block + Body(source) && Whole(source) == Whole(old(source))
      ensures block == [] ==> source == old(source) && Body(source) == [] && (raised <==> Raises(source))
      ensures raised ==> block == []
    {
      var limit := Limit(source, n);
      if limit == 0 {
        return false, [];
      }
      if source.incoming == [] {
        return source.broken, [];
      }
      var ready := if cuts == [] || cuts[0] == 0 then 1 else cuts[0];
      cuts := if cuts == [] then [] else cuts[1..];
      var k := Min(Min(limit, |source.incoming|), ready);
      ReadingConserves(source, k);
      raised, block := false, source.incoming[..k];
      source := Rest(source, k);
    }

    // Reads until n bytes or the end.
    method Read(n: nat) returns (raised: bool, block: Bytes)
      modifies this`source
      ensures !raised && |block| == n <==> n <= |Body(old(source))|
      ensures !raised && |block| == n ==>
        Body(old(source)) == block + Body(source) && Whole(source) == Whole(old(source))
    {
      var limit := Limit(source, n);
      if limit <= |source.incoming| {
        ReadingConserves(source, limit);
        raised, block := false, source.incoming[..limit];
        source := Rest(source, limit);
      } else {
        raised, block := source.broken, source.incoming;
      }
    }

    // What has been buffered and what is left make up the body, and the window of the
    // body is not known to hold an event yet.
    ghost predicate Buffering(buffered: Bytes)
      reads this
    {
      && |buffered| <= MAX_RESPONSE_PRELUDE_BYTES
      && Body(answer.source) == buffered + Body(source) && Whole(source) == Whole(answer.source)
    }

    // One more block, or nothing if there is none.
    method Buffer(buffered: Bytes) returns (more: Bytes)
      requires Buffering(buffered) && |buffered| < MAX_RESPONSE_PRELUDE_BYTES
      modifies this`source, this`cuts
      ensures Buffering(more) && buffered <= more
      ensures more == buffered ==> Window(answer.source) == buffered
    {
      var raised, block := Read1(Min(RESPONSE_READ_BYTES, MAX_RESPONSE_PRELUDE_BYTES - |buffered|));
      more := buffered + block;
      assert block == [] ==> more == buffered;
    }

    method PrepareSse() returns (prelude: Option<Bytes>)
      requires source == answer.source
      modifies this`source, this`cuts
      ensures prelude.Some? <==> Sse.Detected(Window(answer.source))
      ensures prelude.Some? ==> Buffering(prelude.value) && Sse.Detected(prelude.value)
    {
      var buffered: Bytes := [];
      while |buffered| < MAX_RESPONSE_PRELUDE_BYTES
        invariant Buffering(buffered) && !Sse.Detected(buffered)
        decreases MAX_RESPONSE_PRELUDE_BYTES - |buffered|
      {
        var more := Buffer(buffered);
        if more == buffered {
          return None;
        }
        buffered := more;
        var found := Sse.HasSseDataEvent(buffered);
        if found {
          InWindow(answer.source, buffered);
          return Some(buffered);
        }
      }
      assert Window(answer.source) == buffered;
      prelude := None;
    }

    /** Success depends on the bytes alone and not on how they arrive; the prelude
        and what is left make up the body, with nothing lost or repeated. */
    method Prepare() returns (prelude: Option<Bytes>)
      requires source == answer.source
      modifies this`source, this`cuts
      ensures prelude.Some? <==> Presentable(answer)
      ensures prelude.Some? ==>
        && Body(answer.source) == prelude.value + Body(source) && Whole(source) == Whole(answer.source)
        && |prelude.value| <= MAX_RESPONSE_PRELUDE_BYTES
        && (answer.sse ==> Sse.Detected(prelude.value))
    {
      if answer.sse {
        prelude := PrepareSse();
        return;
      }
      var length := answer.contentLength;
      if length.Some? && 0 <= length.value <= MAX_RESPONSE_PRELUDE_BYTES {
        var raised, block := Read(length.value);
        return if raised || |block| != length.value then None else Some(block);
      }
      var raised, block := Read1(RESPONSE_READ_BYTES);
      if raised || (block == [] && length.Some? && length.value > 0) {
        return None;
      }
      prelude := Some(block);
    }
  }
}
