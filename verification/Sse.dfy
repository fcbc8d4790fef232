/** Detection of the first server-sent event that carries data
    (integrations/common/route_proxy.py, _has_sse_data_event), against the
    line-based rule of section 9.2.6 of the WHATWG HTML Standard.
 */
module Sse {
  import opened Octets

  const DATA: Bytes := [100, 97, 116, 97]

  predicate IsDataLine(line: Bytes) {
    line == DATA || DATA + [COLON] <= line
  }

  // A data line is the word and then nothing, or a colon.
  lemma DataLineMeans(line: Bytes)
    ensures IsDataLine(line) <==>
      && |line| >= 4 && line[0] == 100 && line[1] == 97 && line[2] == 116 && line[3] == 97
      && (|line| == 4 || line[4] == 58)
  {
  }

  // ------------------------------------------------- what the proxy computes

  function ReplaceCrLf(p: Bytes): Bytes {
    if p == [] then []
    else if |p| > 1 && p[0] == CR && p[1] == LF then [LF] + ReplaceCrLf(p[2..])
    else [p[0]] + ReplaceCrLf(p[1..])
  }

  function ReplaceCr(p: Bytes): Bytes {
    if p == [] then [] else [if p[0] == CR then LF else p[0]] + ReplaceCr(p[1..])
  }

  // Splits at every leftmost, non-overlapping pair of line feeds.
  function SplitEvents(q: Bytes): (events: seq<Bytes>)
    ensures |events| > 0
  {
    if q == [] then [[]]
    else if |q| > 1 && q[0] == LF && q[1] == LF then [[]] + SplitEvents(q[2..])
    else var rest := SplitEvents(q[1..]); [[q[0]] + rest[0]] + rest[1..]
  }

  function SplitLines(q: Bytes): (lines: seq<Bytes>)
    ensures |lines| > 0
  {
    if q == [] then [[]]
    else if q[0] == LF then [[]] + SplitLines(q[1..])
    else var rest := SplitLines(q[1..]); [[q[0]] + rest[0]] + rest[1..]
  }

  predicate HasDataLine(lines: seq<Bytes>) {
    exists i :: 0 <= i < |lines| && IsDataLine(lines[i])
  }

  predicate SomeEventHasData(events: seq<Bytes>) {
    exists i :: 0 <= i < |events| && HasDataLine(SplitLines(events[i]))
  }

  function AllButLast(events: seq<Bytes>): seq<Bytes>
    requires |events| > 0
  {
    events[..|events| - 1]
  }

  lemma NoDataInOneMore(events: seq<Bytes>, i: nat)
    requires i < |events| && !SomeEventHasData(events[..i]) && !HasDataLine(SplitLines(events[i]))
    ensures !SomeEventHasData(events[..i + 1])
  {
    var more := events[..i + 1];
    forall k | 0 <= k < |more|
      ensures !HasDataLine(SplitLines(more[k]))
    {
      assert k < i ==> events[..i][k] == more[k];
    }
  }

  predicate Detected(payload: Bytes) {
    SomeEventHasData(AllButLast(SplitEvents(ReplaceCr(ReplaceCrLf(payload)))))
  }

  // ------------------------------------------------------- the line-based rule

  function Extend(c: Byte, lines: seq<Bytes>): seq<Bytes> {
    if lines == [] then [] else [[c] + lines[0]] + lines[1..]
  }

  // The lines that have ended, each by CR LF, by CR alone or by LF alone.
  function EndedLines(p: Bytes): seq<Bytes> {
    if p == [] then []
    else if |p| > 1 && p[0] == CR && p[1] == LF then [[]] + EndedLines(p[2..])
    else if p[0] == CR || p[0] == LF then [[]] + EndedLines(p[1..])
    else Extend(p[0], EndedLines(p[1..]))
  }

  // A data field line followed later by an empty line, which dispatches it.
  predicate DataThenBlank(lines: seq<Bytes>) {
    exists i, j :: 0 <= i < j < |lines| && IsDataLine(lines[i]) && lines[j] == []
  }

  // --------------------------------------------------------------------- proof

  function LfLines(q: Bytes): seq<Bytes> {
    if q == [] then []
    else if q[0] == LF then [[]] + LfLines(q[1..])
    else Extend(q[0], LfLines(q[1..]))
  }

  lemma {:induction false} NormalizingKeepsLines(p: Bytes)
    ensures LfLines(ReplaceCr(ReplaceCrLf(p))) == EndedLines(p)
  {
    if p != [] {
      var q := ReplaceCr(ReplaceCrLf(p));
      if |p| > 1 && p[0] == CR && p[1] == LF {
        NormalizingKeepsLines(p[2..]);
        assert q[1..] == ReplaceCr(ReplaceCrLf(p[2..]));
      } else {
        NormalizingKeepsLines(p[1..]);
        assert q[1..] == ReplaceCr(ReplaceCrLf(p[1..]));
      }
    }
  }

  lemma {:induction false} LinesOfParts(a: Bytes, b: Bytes)
    ensures LfLines(a + [LF] + b) == SplitLines(a) + LfLines(b)
  {
    var q := a + [LF] + b;
    if a == [] {
      assert q[1..] == b;
    } else {
      assert q[1..] == a[1..] + [LF] + b;
      LinesOfParts(a[1..], b);
    }
  }

  predicate HasBlankPair(q: Bytes) {
    exists i :: 0 <= i < |q| - 1 && q[i] == LF && q[i + 1] == LF
  }

  // Without two line feeds in a row only the first line can be empty.
  lemma {:induction false} OnlyFirstLineBlank(q: Bytes)
    requires !HasBlankPair(q)
    ensures forall j :: 1 <= j < |LfLines(q)| ==> LfLines(q)[j] != []
    ensures q != [] && q[0] != LF && LfLines(q) != [] ==> LfLines(q)[0] != []
  {
    if q != [] {
      var s := q[1..];
      NoBlankPairInTail(q);
      OnlyFirstLineBlank(s);
      if q[0] == LF && s != [] {
        assert q[1] != LF;
      }
    }
  }

  // Either there is no blank pair, or the first event ends at the first one.
  lemma {:induction false} FirstEvent(q: Bytes) returns (e: Bytes, r: Bytes)
    ensures !HasBlankPair(q) ==> SplitEvents(q) == [q]
    ensures HasBlankPair(q) ==> q == e + [LF] + ([LF] + r) && SplitEvents(q) == [e] + SplitEvents(r) && |r| < |q|
  {
    e, r := [], [];
    if q == [] {
    } else if |q| > 1 && q[0] == LF && q[1] == LF {
      assert q[0 + 1] == LF;
      assert HasBlankPair(q);
      r := q[2..];
    } else {
      var s := q[1..];
      e, r := FirstEvent(s);
      if HasBlankPair(q) {
        var i :| 0 <= i < |q| - 1 && q[i] == LF && q[i + 1] == LF;
        assert s[i - 1] == LF && s[i] == LF;
        e := [q[0]] + e;
      } else {
        NoBlankPairInTail(q);
        assert SplitEvents(q) == [[q[0]] + s] && [q[0]] + s == q;
      }
    }
  }

  lemma NoBlankPairInTail(q: Bytes)
    requires q != [] && !HasBlankPair(q)
    ensures !HasBlankPair(q[1..])
  {
    var s := q[1..];
    forall i | 0 <= i < |s| - 1
      ensures !(s[i] == LF && s[i + 1] == LF)
    {
      assert s[i] == q[i + 1] && s[i + 1] == q[i + 2];
    }
  }

  lemma DataThenBlankOfParts(a: seq<Bytes>, b: seq<Bytes>)
    ensures DataThenBlank(a + [[]] + b) <==> HasDataLine(a) || DataThenBlank(a) || DataThenBlank(b)
  {
    var all := a + [[]] + b;
    if HasDataLine(a) {
      var i :| 0 <= i < |a| && IsDataLine(a[i]);
      assert IsDataLine(all[i]) && all[|a|] == [];
    }
    if DataThenBlank(b) {
      var i, j :| 0 <= i < j < |b| && IsDataLine(b[i]) && b[j] == [];
      assert IsDataLine(all[|a| + 1 + i]) && all[|a| + 1 + j] == [];
    }
    if DataThenBlank(all) {
      var i, j :| 0 <= i < j < |all| && IsDataLine(all[i]) && all[j] == [];
      if i < |a| {
        assert IsDataLine(a[i]);
      } else {
        assert IsDataLine(b[i - |a| - 1]) && b[j - |a| - 1] == [];
      }
    }
  }

  lemma {:induction false} EventsAreLines(q: Bytes)
    ensures SomeEventHasData(AllButLast(SplitEvents(q))) <==> DataThenBlank(LfLines(q))
    decreases |q|
  {
    var e, r := FirstEvent(q);
    var events := SplitEvents(q);
    if !HasBlankPair(q) {
      OnlyFirstLineBlank(q);
      assert AllButLast(events) == [];
    } else {
      EventsAreLines(r);
      var later := AllButLast(SplitEvents(r));
      assert AllButLast(events) == [e] + later;
      EventsCons(e, later);
      LinesOfParts(e, [LF] + r);
      assert LfLines([LF] + r) == [[]] + LfLines(r);
      assert SplitLines(e) + ([[]] + LfLines(r)) == SplitLines(e) + [[]] + LfLines(r);
      DataThenBlankOfParts(SplitLines(e), LfLines(r));
    }
  }

  // Data in an event of a list, found by its place.
  lemma DataAt(events: seq<Bytes>, i: nat)
    requires i < |events| && HasDataLine(SplitLines(events[i]))
    ensures SomeEventHasData(events)
  {
  }

  lemma DataInLater(e: Bytes, later: seq<Bytes>)
    requires SomeEventHasData(later)
    ensures SomeEventHasData([e] + later)
  {
    var i :| 0 <= i < |later| && HasDataLine(SplitLines(later[i]));
    assert ([e] + later)[i + 1] == later[i];
    DataAt([e] + later, i + 1);
  }

  lemma DataInFirstOrLater(e: Bytes, later: seq<Bytes>)
    requires SomeEventHasData([e] + later)
    ensures HasDataLine(SplitLines(e)) || SomeEventHasData(later)
  {
    var i :| 0 <= i < |[e] + later| && HasDataLine(SplitLines(([e] + later)[i]));
    if i > 0 {
      assert ([e] + later)[i] == later[i - 1];
      DataAt(later, i - 1);
    }
  }

  lemma EventsCons(e: Bytes, later: seq<Bytes>)
    ensures SomeEventHasData([e] + later) <==> HasDataLine(SplitLines(e)) || SomeEventHasData(later)
  {
    if SomeEventHasData([e] + later) {
      DataInFirstOrLater(e, later);
    }
    if HasDataLine(SplitLines(e)) {
      DataAt([e] + later, 0);
    }
    if SomeEventHasData(later) {
      DataInLater(e, later);
    }
  }

  /** The proxy's detection is the line-based rule. */
  lemma DetectionIsTheLineRule(payload: Bytes)
    ensures Detected(payload) <==> DataThenBlank(EndedLines(payload))
  {
    EventsAreLines(ReplaceCr(ReplaceCrLf(payload)));
    NormalizingKeepsLines(payload);
  }

  lemma {:induction false} EndedLinesGrow(p: Bytes, q: Bytes)
    ensures EndedLines(p) <= EndedLines(p + q)
  {
    if p != [] {
      var all := p + q;
      if |p| > 1 && p[0] == CR && p[1] == LF {
        assert all[2..] == p[2..] + q;
        EndedLinesGrow(p[2..], q);
      } else if |p| == 1 && p[0] == CR {
      } else {
        assert all[1..] == p[1..] + q;
        EndedLinesGrow(p[1..], q);
      }
    }
  }

  /** Bytes that arrive later never undo a detection, even in the middle of a CR LF. */
  lemma DetectionIsMonotone(p: Bytes, q: Bytes)
    requires Detected(p)
    ensures Detected(p + q)
  {
    DetectionIsTheLineRule(p);
    DetectionIsTheLineRule(p + q);
    EndedLinesGrow(p, q);
    var i, j :| 0 <= i < j < |EndedLines(p)| && IsDataLine(EndedLines(p)[i]) && EndedLines(p)[j] == [];
    assert IsDataLine(EndedLines(p + q)[i]) && EndedLines(p + q)[j] == [];
  }

  method HasSseDataEvent(payload: Bytes) returns (found: bool)
    ensures found <==> Detected(payload)
    ensures found <==> DataThenBlank(EndedLines(payload))
  {
    DetectionIsTheLineRule(payload);
    var events := SplitEvents(ReplaceCr(ReplaceCrLf(payload)));
    for i := 0 to |events| - 1
      invariant !SomeEventHasData(events[..i])
    {
      var lines := SplitLines(events[i]);
      assert AllButLast(events)[i] == events[i] && events[..i + 1][i] == events[i];
      for j := 0 to |lines|
        invariant !HasDataLine(lines[..j])
      {
        if IsDataLine(lines[j]) {
          assert HasDataLine(SplitLines(events[i]));
          return true;
        }
      }
      assert lines[..|lines|] == lines;
      NoDataInOneMore(events, i);
    }
    found := false;
  }
}
