/** The bounded store of route telemetry
    (integrations/common/route_status.py), against an unbounded log.
 */
module RouteStatus {
  import opened Options

  type Id = string

  datatype Route = Route(account: string, provider: string, family: string, logicalModel: string)

  datatype RouteState = Primary | Fallback
  datatype Reason = ByPrimary | ByRetry | ByCooldown
  datatype Response = Pending | Streaming | Complete | Failed
  datatype Party = Upstream | Client

  datatype Status = Status(
    session: Id, request: Id, route: Route, state: RouteState, reason: Reason, response: Response,
    lastHttpStatus: Option<int>, bytesForwarded: nat, failureKind: Option<Party>, updatedAt: nat)

  datatype Change =
    | ToStreaming(http: int)
    | ToComplete(http: int, bytes: nat)
    | ToFailed(lastHttp: Option<int>, bytes: nat, kind: Party)

  function Changed(s: Status, change: Change, now: nat): Status {
    match change
    case ToStreaming(http) => s.(response := Streaming, lastHttpStatus := Some(http), updatedAt := now)
    case ToComplete(http, bytes) =>
      s.(response := Complete, lastHttpStatus := Some(http), bytesForwarded := bytes, failureKind := None,
         updatedAt := now)
    case ToFailed(http, bytes, kind) =>
      s.(response := Response.Failed, lastHttpStatus := http, bytesForwarded := bytes,
         failureKind := Some(kind), updatedAt := now)
  }

  /** A report changes how far a request has come, and when it was heard of, and nothing
      else of its entry; only a failure has a party, and only an end counts the bytes. */
  lemma ChangeMeans(s: Status, change: Change, now: nat)
    ensures var after := Changed(s, change, now);
            && after.session == s.session && after.request == s.request && after.route == s.route
            && after.state == s.state && after.reason == s.reason && after.updatedAt == now
            && match change
               case ToStreaming(http) =>
                 && after.response.Streaming? && after.lastHttpStatus == Some(http)
                 && after.bytesForwarded == s.bytesForwarded && after.failureKind == s.failureKind
               case ToComplete(http, bytes) =>
                 && after.response.Complete? && after.lastHttpStatus == Some(http)
                 && after.bytesForwarded == bytes && after.failureKind.None?
               case ToFailed(http, bytes, kind) =>
                 && after.response.Failed? && after.lastHttpStatus == http
                 && after.bytesForwarded == bytes && after.failureKind == Some(kind)
  {
  }

  // ------------------------------------------------------------- the unbounded log

  datatype Op =
    | Selected(status: Status)
    | Updated(session: Id, request: Id, change: Change, now: nat)

  function Put(entries: map<Id, Status>, op: Op): map<Id, Status> {
    match op
    case Selected(s) => entries[s.session := s]
    case Updated(session, request, change, now) =>
      if session in entries && entries[session].request == request then
        entries[session := Changed(entries[session], change, now)]
      else entries
  }

  // Every session ever selected, with its current status.
  function Unbounded(log: seq<Op>): map<Id, Status> {
    if log == [] then map[] else Put(Unbounded(log[..|log| - 1]), log[|log| - 1])
  }

  function Without(order: seq<Id>, session: Id): (r: seq<Id>)
    ensures session !in r
    ensures forall k :: k in r <==> k in order && k != session
  {
    if order == [] then []
    else
      var n := |order| - 1;
      if order[n] == session then Without(order[..n], session) else Without(order[..n], session) + [order[n]]
  }

  function MoveToEnd(order: seq<Id>, op: Op): seq<Id> {
    if op.Selected? then Without(order, op.status.session) + [op.status.session] else order
  }

  // The sessions in the order in which they were last selected.
  function Recency(log: seq<Op>): seq<Id> {
    if log == [] then [] else MoveToEnd(Recency(log[..|log| - 1]), log[|log| - 1])
  }

  function Latest(order: seq<Id>, n: nat): seq<Id> {
    if |order| <= n then order else order[|order| - n..]
  }

  ghost predicate Distinct(order: seq<Id>) {
    forall i, j :: 0 <= i < j < |order| ==> order[i] != order[j]
  }

  lemma {:induction false} WithoutKeepsDistinct(order: seq<Id>, session: Id)
    requires Distinct(order)
    ensures Distinct(Without(order, session))
    ensures |Without(order, session)| == |order| - if session in order then 1 else 0
  {
    if order != [] {
      var n := |order| - 1;
      var front := order[..n];
      var kept := Without(front, session);
      WithoutKeepsDistinct(front, session);
      assert order == front + [order[n]];
      assert order[n] !in front;
      forall i | 0 <= i < |kept|
        ensures kept[i] != order[n]
      {
        assert kept[i] in kept;
      }
    }
  }

  lemma {:induction false} WithoutParts(a: seq<Id>, b: seq<Id>, session: Id)
    ensures Without(a + b, session) == Without(a, session) + Without(b, session)
  {
    if b == [] {
      assert a + b == a;
    } else {
      var n := |b| - 1;
      assert (a + b)[..|a + b| - 1] == a + b[..n];
      WithoutParts(a, b[..n], session);
    }
  }

  lemma WithoutSuffix(order: seq<Id>, session: Id, k: nat)
    requires Distinct(order) && k <= |order|
    ensures session in order[k..] ==> Without(order, session) == order[..k] + Without(order[k..], session)
    ensures session !in order[k..] ==> Without(order, session) == Without(order[..k], session) + order[k..]
  {
    assert order == order[..k] + order[k..];
    WithoutParts(order[..k], order[k..], session);
    if session in order[k..] {
      NothingToRemove(order[..k], session);
    } else {
      NothingToRemove(order[k..], session);
    }
  }

  lemma {:induction false} NothingToRemove(order: seq<Id>, session: Id)
    requires session !in order
    ensures Without(order, session) == order
  {
    if order != [] {
      NothingToRemove(order[..|order| - 1], session);
    }
  }

  lemma LatestOfTail(all: seq<Id>, a: seq<Id>, b: seq<Id>, n: nat)
    requires all == a + b && |b| >= n
    ensures Latest(all, n) == Latest(b, n)
  {
  }

  lemma MovingKept(order: seq<Id>, session: Id, k: nat)
    requires Distinct(order) && k <= |order| && session in order[k..]
    ensures Without(order, session) + [session] == order[..k] + (Without(order[k..], session) + [session])
    ensures |Without(order[k..], session) + [session]| == |order| - k
  {
    WithoutSuffix(order, session, k);
    WithoutKeepsDistinct(order[k..], session);
  }

  lemma MovingDropped(order: seq<Id>, session: Id, k: nat)
    requires Distinct(order) && k <= |order| && session !in order[k..]
    ensures Without(order, session) + [session] ==
      Without(order[..k], session) + (Without(order[k..], session) + [session])
    ensures |Without(order[k..], session) + [session]| == |order| - k + 1
  {
    WithoutSuffix(order, session, k);
    NothingToRemove(order[k..], session);
  }

  // Selecting a session in the full order and in its latest n ends alike.
  lemma MovingEither(order: seq<Id>, session: Id, n: nat, k: nat)
    requires Distinct(order) && k + n == |order|
    ensures Latest(Without(order, session) + [session], n) == Latest(Without(order[k..], session) + [session], n)
  {
    var all, moved := Without(order, session) + [session], Without(order[k..], session) + [session];
    if session in order[k..] {
      MovingKept(order, session, k);
      LatestOfTail(all, order[..k], moved, n);
    } else {
      MovingDropped(order, session, k);
      LatestOfTail(all, Without(order[..k], session), moved, n);
    }
  }

  /** Keeping only the latest sessions commutes with selecting one. */
  lemma LatestOfSelected(order: seq<Id>, session: Id, n: nat)
    requires Distinct(order) && n > 0
    ensures Latest(Without(order, session) + [session], n)
         == Latest(Without(Latest(order, n), session) + [session], n)
  {
    if |order| > n {
      MovingEither(order, session, n, |order| - n);
    }
  }

  lemma {:induction false} RecencyIsDistinct(log: seq<Op>)
    ensures Distinct(Recency(log))
    ensures forall k :: k in Recency(log) <==> k in Unbounded(log)
  {
    if log != [] {
      var before := log[..|log| - 1];
      RecencyIsDistinct(before);
      if log[|log| - 1].Selected? {
        WithoutKeepsDistinct(Recency(before), log[|log| - 1].status.session);
      }
    }
  }

  // ----------------------------------------------------------------------- the store

  predicate IsHex(c: char) {
    'a' <= c <= 'f' || '0' <= c <= '9'
  }

  predicate ValidSession(id: Id) {
    |id| == 21 && id[..5] == "oc-s-" && forall i :: 5 <= i < 21 ==> IsHex(id[i])
  }

  predicate ValidRequest(id: Id) {
    |id| == 22 && id[..6] == "oc-rq-" && forall i :: 6 <= i < 22 ==> IsHex(id[i])
  }

  // The letters a to f and the digits, by their codes.
  ghost predicate Hexadecimal(tail: string) {
    forall c :: c in tail ==> 97 <= c as int <= 102 || 48 <= c as int <= 57
  }

  /** The ids that the store takes: a prefix and sixteen hexadecimal digits. */
  lemma IdsAre(id: Id)
    ensures ValidSession(id) <==> exists tail :: id == "oc-s-" + tail && |tail| == 16 && Hexadecimal(tail)
    ensures ValidRequest(id) <==> exists tail :: id == "oc-rq-" + tail && |tail| == 16 && Hexadecimal(tail)
  {
    if |id| == 21 && id[..5] == "oc-s-" {
      IdIs(id, "oc-s-", id[5..]);
    }
    if |id| == 22 && id[..6] == "oc-rq-" {
      IdIs(id, "oc-rq-", id[6..]);
    }
  }

  lemma IdIs(id: Id, prefix: string, tail: string)
    requires id == prefix + tail
    ensures Hexadecimal(tail) <==> forall i :: |prefix| <= i < |id| ==> IsHex(id[i])
  {
    forall i | |prefix| <= i < |id|
      ensures id[i] in tail
    {
      assert id[i] == tail[i - |prefix|];
    }
    forall c | c in tail
      ensures exists i :: |prefix| <= i < |id| && id[i] == c
    {
      var k :| 0 <= k < |tail| && tail[k] == c;
      assert id[|prefix| + k] == c;
    }
  }

  class Store {
    const maxEntries: nat
    var order: seq<Id>
    var entries: map<Id, Status>
    ghost var log: seq<Op>

    // The keys are the sessions selected last, and each has the status the
    // unbounded log gives it.
    ghost predicate Valid()
      reads this
    {
      && maxEntries >= 1
      && order == Latest(Recency(log), maxEntries)
      && (forall k :: k in entries <==> k in order)
      && (forall k :: k in entries ==> k in Unbounded(log) && entries[k] == Unbounded(log)[k])
    }

    constructor (maxEntries: nat)
      requires maxEntries >= 1
      ensures Valid() && this.maxEntries == maxEntries && log == []
    {
      this.maxEntries := maxEntries;
      this.order := [];
      this.entries := map[];
      this.log := [];
    }

    // Drops the sessions selected longest ago until the bound holds.
    method Evict()
      requires maxEntries >= 1 && Distinct(order) && (forall k :: k in entries <==> k in order)
      modifies this`order, this`entries
      ensures order == Latest(old(order), maxEntries)
      ensures forall k :: k in entries <==> k in order
      ensures forall k :: k in entries ==> k in old(entries) && entries[k] == old(entries)[k]
    {
      while |order| > maxEntries
        invariant Latest(order, maxEntries) == Latest(old(order), maxEntries)
        invariant Distinct(order) && forall k :: k in entries <==> k in order
        invariant forall k :: k in entries ==> k in old(entries) && entries[k] == old(entries)[k]
      {
        DropFirst(order);
        entries := entries - {order[0]};
        order := order[1..];
      }
    }

    method Select(session: Id, request: Id, route: Route, state: RouteState, reason: Reason, now: nat)
      returns (ok: bool)
      requires Valid()
      modifies this
      ensures Valid() && ok == (ValidSession(session) && ValidRequest(request))
      ensures log == if ok then
                old(log) + [Selected(Status(session, request, route, state, reason, Pending, None, 0, None, now))]
              else old(log)
    {
      if !ValidSession(session) || !ValidRequest(request) {
        return false;
      }
      var status := Status(session, request, route, state, reason, Pending, None, 0, None, now);
      RecencyIsDistinct(log);
      LatestOfSelected(Recency(log), session, maxEntries);
      WithoutKeepsDistinct(order, session);
      ghost var before := log;
      log := log + [Selected(status)];
      assert log[..|log| - 1] == before;
      entries := entries[session := status];
      order := Without(order, session) + [session];
      SelectedIsDistinct(Without(old(order), session), session);
      Evict();
      ok := true;
    }

    /** A later report of the request that was selected last; any other is ignored. */
    method Update(session: Id, request: Id, change: Change, now: nat) returns (ok: bool)
      requires Valid()
      modifies this`entries, this`log
      ensures Valid() && ok == (ValidSession(session) && ValidRequest(request))
      ensures log == if ok then old(log) + [Updated(session, request, change, now)] else old(log)
    {
      if !ValidSession(session) || !ValidRequest(request) {
        return false;
      }
      if session in entries && entries[session].request == request {
        entries := entries[session := Changed(entries[session], change, now)];
      }
      log := log + [Updated(session, request, change, now)];
      assert log[..|log| - 1] == old(log);
      ok := true;
    }

    method MarkStreaming(session: Id, request: Id, http: int, now: nat) returns (ok: bool)
      requires Valid()
      modifies this`entries, this`log
      ensures Valid() && ok == (ValidSession(session) && ValidRequest(request))
      ensures log == if ok then old(log) + [Updated(session, request, ToStreaming(http), now)] else old(log)
    {
      ok := Update(session, request, ToStreaming(http), now);
    }

    method MarkComplete(session: Id, request: Id, http: int, bytes: nat, now: nat) returns (ok: bool)
      requires Valid()
      modifies this`entries, this`log
      ensures Valid() && ok == (ValidSession(session) && ValidRequest(request))
      ensures log == if ok then old(log) + [Updated(session, request, ToComplete(http, bytes), now)] else old(log)
    {
      ok := Update(session, request, ToComplete(http, bytes), now);
    }

    method MarkFailed(session: Id, request: Id, http: Option<int>, bytes: nat, kind: Party, now: nat) returns (ok: bool)
      requires Valid()
      modifies this`entries, this`log
      ensures Valid() && ok == (ValidSession(session) && ValidRequest(request))
      ensures log == if ok then old(log) + [Updated(session, request, ToFailed(http, bytes, kind), now)] else old(log)
    {
      ok := Update(session, request, ToFailed(http, bytes, kind), now);
    }

    /** The answer of the unbounded log, for the sessions that are still kept. */
    method Get(session: Id) returns (status: Option<Status>, ok: bool)
      requires Valid()
      ensures ok == ValidSession(session)
      ensures status == if ok && session in Latest(Recency(log), maxEntries) then Some(Unbounded(log)[session])
        else None
    {
      if !ValidSession(session) {
        return None, false;
      }
      status, ok := if session in entries then Some(entries[session]) else None, true;
    }
  }

  lemma DropFirst(order: seq<Id>)
    requires Distinct(order) && order != []
    ensures Distinct(order[1..])
    ensures forall k :: k in order[1..] <==> k in order && k != order[0]
    ensures forall n | 0 < n < |order| :: Latest(order[1..], n) == Latest(order, n)
  {
    assert order == [order[0]] + order[1..];
    forall k | k in order[1..]
      ensures k != order[0]
    {
      var i :| 0 <= i < |order[1..]| && order[1..][i] == k;
      assert order[i + 1] == k;
    }
  }

  lemma SelectedIsDistinct(order: seq<Id>, session: Id)
    requires Distinct(order) && session !in order
    ensures Distinct(order + [session])
  {
  }

  // ------------------------------------------------------------------ the log itself

  // When a session was selected last; 0 if never.
  function LastSelected(log: seq<Op>, session: Id): (n: nat)
    ensures n <= |log|
    ensures n > 0 ==> log[n - 1].Selected? && log[n - 1].status.session == session
  {
    if log == [] then 0
    else
      var last := log[|log| - 1];
      if last.Selected? && last.status.session == session then |log| else LastSelected(log[..|log| - 1], session)
  }

  /** The store's order is the order of the last selections, and its keys are
      exactly the sessions that were ever selected. */
  lemma {:induction false} RecencyIsLastSelected(log: seq<Op>)
    ensures forall i, j :: 0 <= i < j < |Recency(log)| ==>
              LastSelected(log, Recency(log)[i]) < LastSelected(log, Recency(log)[j])
    ensures forall k :: k in Recency(log) <==> LastSelected(log, k) > 0
  {
    if log != [] {
      var n := |log| - 1;
      var before, op := log[..n], log[n];
      RecencyIsLastSelected(before);
      if op.Selected? {
        WithoutKeepsOrder(before, Recency(before), op.status.session);
      }
    }
  }

  ghost predicate Ordered(log: seq<Op>, order: seq<Id>) {
    forall i, j :: 0 <= i < j < |order| ==> LastSelected(log, order[i]) < LastSelected(log, order[j])
  }

  lemma {:induction false} WithoutKeepsOrder(log: seq<Op>, order: seq<Id>, session: Id)
    requires Ordered(log, order)
    ensures Ordered(log, Without(order, session))
  {
    if order != [] {
      var n := |order| - 1;
      var front := order[..n];
      var kept := Without(front, session);
      WithoutKeepsOrder(log, front, session);
      forall i | 0 <= i < |kept|
        ensures LastSelected(log, kept[i]) < LastSelected(log, order[n])
      {
        assert kept[i] in front;
      }
    }
  }

  /** The status of a session names the request of its last selection. */
  lemma {:induction false} EntryIsOfLastSelection(log: seq<Op>, session: Id)
    requires session in Unbounded(log)
    ensures LastSelected(log, session) > 0
    ensures Unbounded(log)[session].request == log[LastSelected(log, session) - 1].status.request
    ensures Unbounded(log)[session].session == session
  {
    var n := |log| - 1;
    var op := log[n];
    if !(op.Selected? && op.status.session == session) {
      EntryIsOfLastSelection(log[..n], session);
    }
  }

  lemma NextState(front: seq<Op>, op: Op)
    ensures Unbounded(front + [op]) == Put(Unbounded(front), op)
    ensures Recency(front + [op]) == MoveToEnd(Recency(front), op)
  {
    assert (front + [op])[..|front|] == front;
  }

  /** A late report of a request that is no longer the session's last leaves no
      trace: with or without it, every later state is the same. */
  lemma {:induction false} StaleReportIsInvisible(log: seq<Op>, stale: Op, later: seq<Op>)
    requires stale.Updated?
    requires var n := LastSelected(log, stale.session);
             n == 0 || log[n - 1].status.request != stale.request
    ensures Unbounded(log + [stale] + later) == Unbounded(log + later)
    ensures Recency(log + [stale] + later) == Recency(log + later)
  {
    if later == [] {
      assert log + [stale] + later == log + [stale] && log + later == log;
      NextState(log, stale);
      if stale.session in Unbounded(log) {
        EntryIsOfLastSelection(log, stale.session);
      }
    } else {
      var n := |later| - 1;
      var front, op := later[..n], later[n];
      StaleReportIsInvisible(log, stale, front);
      NextState(log + [stale] + front, op);
      NextState(log + front, op);
      assert later == front + [op];
      assert log + [stale] + later == log + [stale] + front + [op] && log + later == log + front + [op];
    }
  }
}
