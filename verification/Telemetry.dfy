/** What the status store shows of a request (integrations/common/route_proxy.py,
    RouteRequestTrace): the reports of one handler, among those of all others.
 */
module Telemetry {
  import opened Options
  import P = RouteProxy
  import S = RouteStatus

  // The names a request reports under, the routes of its session, and the clock.
  datatype Trace = Trace(session: S.Id, request: S.Id, primary: S.Route, fallback: S.Route, clock: nat -> nat)

  function RouteOf(t: Trace, role: P.Role): S.Route {
    if role.Primary? then t.primary else t.fallback
  }

  function StateOf(role: P.Role): S.RouteState {
    if role.Primary? then S.Primary else S.Fallback
  }

  function ReasonFor(s: P.Summary, role: P.Role): S.Reason {
    if role.Primary? then S.ByPrimary else if s.primary > 0 then S.ByRetry else S.ByCooldown
  }

  function LastStatus(s: P.Summary): Option<int> {
    if s.last.Some? then Some(s.last.value.status) else None
  }

  // What an event reports, if a route has been selected.
  function Report(t: Trace, s: P.Summary, e: P.Event, now: nat): (ops: seq<S.Op>)
    ensures |ops| <= 1
  {
    match e
    case Selected(role) =>
      [S.Selected(S.Status(t.session, t.request, RouteOf(t, role), StateOf(role), ReasonFor(s, role),
                           S.Pending, None, 0, None, now))]
    case Head(status) =>
      if s.shown.Some? then [S.Updated(t.session, t.request, S.ToStreaming(status), now)] else []
    case Completed(status, bytes) =>
      if s.shown.Some? then [S.Updated(t.session, t.request, S.ToComplete(status, bytes), now)] else []
    case GaveUp(upstream, bytes) =>
      var party := if upstream then S.Upstream else S.Client;
      if s.shown.Some? then [S.Updated(t.session, t.request, S.ToFailed(LastStatus(s), bytes, party), now)] else []
    case _ => []
  }

  function Reports(t: Trace, log: seq<P.Event>, states: seq<P.Summary>): seq<S.Op>
    requires |states| > |log|
  {
    if log == [] then []
    else
      var n := |log| - 1;
      Reports(t, log[..n], states[..|log|]) + Report(t, states[n], log[n], t.clock(n))
  }

  // ------------------------------------------------ the entry of a request alone

  // The entry names the request, its last route and how far it has come.
  ghost predicate Shown(t: Trace, s: P.Summary, entry: S.Status) {
    && s.shown.Some? && entry.session == t.session && entry.request == t.request
    && entry.route == (if s.shown == Some(P.Primary) then t.primary else t.fallback)
    && entry.state == (if s.shown == Some(P.Primary) then S.Primary else S.Fallback)
    && entry.reason == (if s.shown == Some(P.Primary) then S.ByPrimary
                        else if s.primary > 0 then S.ByRetry
                        else S.ByCooldown)
    && (s.completed == 1 ==>
          entry.response == S.Complete && entry.lastHttpStatus == LastStatus(s) && entry.bytesForwarded == |s.sent|
          && entry.failureKind == None)
    && (s.failed == 1 ==>
          entry.response == S.Response.Failed && entry.lastHttpStatus == LastStatus(s)
          && entry.bytesForwarded <= |s.sent| && (!s.deserted ==> entry.bytesForwarded == |s.sent|)
          && entry.failureKind == Some(if s.deserted then S.Client else S.Upstream))
    && (s.completed + s.failed == 0 ==>
          && entry.failureKind == None && entry.bytesForwarded == 0
          && if s.heads > 0 && !s.error then entry.response == S.Streaming && entry.lastHttpStatus == LastStatus(s)
             else entry.response == S.Pending && entry.lastHttpStatus == None)
  }

  // The entry is there once a route was selected, and shows the request.
  ghost predicate Tells(q: P.Request, t: Trace, s: P.Summary, entries: map<S.Id, S.Status>) {
    && (s.shown.Some? ==> !P.IsCatalog(q) && !s.shown.value.CatalogRole?)
    && (t.session in entries <==> s.shown.Some?)
    && (t.session in entries ==> Shown(t, s, entries[t.session]))
    && s.completed + s.failed <= 1 && s.heads <= 1
    && (s.error ==> s.heads == 1) && (s.heads == 0 ==> s.sent == [])
  }

  function PutOne(entries: map<S.Id, S.Status>, ops: seq<S.Op>): map<S.Id, S.Status> {
    if ops == [] then entries else S.Put(entries, ops[0])
  }

  lemma OneMoreReport(ops: seq<S.Op>, more: seq<S.Op>, all: seq<S.Op>)
    requires |more| <= 1 && all == ops + more
    ensures S.Unbounded(all) == PutOne(S.Unbounded(ops), more)
  {
    if more != [] {
      assert all[..|all| - 1] == ops;
    } else {
      assert all == ops;
    }
  }

  lemma EndTells(q: P.Request, t: Trace, s: P.Summary, e: P.Event, entries: map<S.Id, S.Status>, now: nat)
    requires e.Completed? || e.GaveUp?
    requires Tells(q, t, s, entries) && P.After(q, s, e).ok
    ensures Tells(q, t, P.After(q, s, e), PutOne(entries, Report(t, s, e, now)))
  {
  }

  lemma StepTells(q: P.Request, t: Trace, s: P.Summary, e: P.Event, entries: map<S.Id, S.Status>, now: nat)
    requires e.Selected? || e.Head? || e.ErrorHead? || e.Wrote?
    requires Tells(q, t, s, entries) && P.After(q, s, e).ok
    ensures Tells(q, t, P.After(q, s, e), PutOne(entries, Report(t, s, e, now)))
  {
  }

  lemma ReportTells(q: P.Request, t: Trace, s: P.Summary, e: P.Event, entries: map<S.Id, S.Status>, now: nat)
    requires Tells(q, t, s, entries) && P.After(q, s, e).ok
    ensures Tells(q, t, P.After(q, s, e), PutOne(entries, Report(t, s, e, now)))
  {
    if e.Completed? || e.GaveUp? {
      EndTells(q, t, s, e, entries, now);
    } else if e.Selected? || e.Head? || e.ErrorHead? || e.Wrote? {
      StepTells(q, t, s, e, entries, now);
    }
  }

  lemma ReportsNext(t: Trace, log: seq<P.Event>, states: seq<P.Summary>)
    requires |states| > |log| && log != []
    ensures var n := |log| - 1;
            var front := Reports(t, log[..n], states[..|log|]);
            S.Unbounded(Reports(t, log, states))
            == PutOne(S.Unbounded(front), Report(t, states[n], log[n], t.clock(n)))
  {
    var n := |log| - 1;
    var front, ops := Reports(t, log[..n], states[..|log|]), Report(t, states[n], log[n], t.clock(n));
    OneMoreReport(front, ops, Reports(t, log, states));
  }

  // What the store would show if nobody else reported to it.
  lemma {:induction false} ReportsTell(q: P.Request, t: Trace, log: seq<P.Event>, states: seq<P.Summary>)
    requires P.Reads(q, log, states) && states[|log|].ok
    ensures Tells(q, t, states[|log|], S.Unbounded(Reports(t, log, states)))
  {
    if log != [] {
      var n := |log| - 1;
      var s, e := states[n], log[n];
      P.ReadsOfFront(q, log, states);
      P.StepGrows(q, s, e);
      ReportsTell(q, t, log[..n], states[..|log|]);
      ReportTells(q, t, s, e, S.Unbounded(Reports(t, log[..n], states[..|log|])), t.clock(n));
      ReportsNext(t, log, states);
    }
  }

  // -------------------------------------------------------- among other requests

  // An operation on the shared store, and whether the request made it.
  datatype Entry = Entry(op: S.Op, own: bool)

  function Ops(shared: seq<Entry>): seq<S.Op> {
    if shared == [] then [] else Ops(shared[..|shared| - 1]) + [shared[|shared| - 1].op]
  }

  function OwnOps(shared: seq<Entry>): seq<S.Op> {
    if shared == [] then []
    else
      var last := shared[|shared| - 1];
      OwnOps(shared[..|shared| - 1]) + if last.own then [last.op] else []
  }

  // The last to select the session was the request.
  predicate SelectedLast(shared: seq<Entry>, session: S.Id) {
    shared != [] &&
    var last := shared[|shared| - 1];
    if last.op.Selected? && last.op.status.session == session then last.own
    else SelectedLast(shared[..|shared| - 1], session)
  }

  // Request ids are not reused.
  predicate SignedBy(op: S.Op, request: S.Id) {
    if op.Selected? then op.status.request == request else op.request == request
  }

  ghost predicate Signed(shared: seq<Entry>, request: S.Id) {
    forall i :: 0 <= i < |shared| ==> (SignedBy(shared[i].op, request) <==> shared[i].own)
  }

  // The entry of the session is the request's own, or another's.
  ghost predicate Agree(all: map<S.Id, S.Status>, own: map<S.Id, S.Status>, last: bool, session: S.Id, request: S.Id) {
    if last then
      session in all && session in own && all[session] == own[session] && all[session].request == request
    else session in all ==> all[session].request != request
  }

  lemma AgreeNext(all: map<S.Id, S.Status>, own: map<S.Id, S.Status>, last: bool, e: Entry,
                  session: S.Id, request: S.Id)
    requires Agree(all, own, last, session, request) && (SignedBy(e.op, request) <==> e.own)
    ensures var selects := e.op.Selected? && e.op.status.session == session;
            Agree(S.Put(all, e.op), if e.own then S.Put(own, e.op) else own, if selects then e.own else last,
                  session, request)
  {
  }

  lemma {:induction false} OthersAreInvisible(shared: seq<Entry>, session: S.Id, request: S.Id)
    requires Signed(shared, request)
    ensures Agree(S.Unbounded(Ops(shared)), S.Unbounded(OwnOps(shared)), SelectedLast(shared, session),
                  session, request)
  {
    if shared != [] {
      var n := |shared| - 1;
      var front, last := shared[..n], shared[n];
      OthersAreInvisible(front, session, request);
      OneMoreReport(Ops(front), [last.op], Ops(shared));
      OneMoreReport(OwnOps(front), if last.own then [last.op] else [], OwnOps(shared));
      AgreeNext(S.Unbounded(Ops(front)), S.Unbounded(OwnOps(front)), SelectedLast(front, session), last,
                session, request);
    }
  }

  /** Whatever other requests report in between, the entry of a session shows the
      request that selected it last: its last route, and its answer's status and
      length once it has ended.
   */
  lemma ShownAmongOthers(q: P.Request, t: Trace, log: seq<P.Event>, states: seq<P.Summary>, shared: seq<Entry>)
    requires P.Reads(q, log, states) && states[|log|].ok
    requires OwnOps(shared) == Reports(t, log, states) && Signed(shared, t.request)
    ensures var entries := S.Unbounded(Ops(shared));
            if SelectedLast(shared, t.session) then
              t.session in entries && Shown(t, states[|log|], entries[t.session])
            else t.session in entries ==> entries[t.session].request != t.request
  {
    ReportsTell(q, t, log, states);
    OthersAreInvisible(shared, t.session, t.request);
  }
}
