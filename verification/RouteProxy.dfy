/** One request through the recovery proxy
    (integrations/common/route_proxy.py, RouteProxyHandler._handle).

    A handler keeps a log of everything it does.  What is allowed is stated once,
    by After, which reads the log event by event; every method is proved to keep
    the log allowed, whatever the upstreams answer and whenever the client leaves.
 */
module RouteProxy {
  import opened Options
  import opened Octets
  import opened Responses
  import D = ToolDeferral
  import Cooldowns

  type Model = string

  // Escape is whatever no handler catches.
  datatype Failure = TooLarge | UpstreamStream(bytes: nat) | Proxy | Session | Connection | Escape

  datatype Result<T> = Returned(value: T) | Raised(failure: Failure)

  datatype Route = Route(account: string, upstreamModel: Model)

  datatype Policy = Policy(primary: Option<Route>, fallback: Option<Route>, residents: D.Names)

  // What splitting the path gives, which only a GET does, and what sending it on does:
  // control characters raise an error that is caught; what goes beyond ASCII, or is
  // absolute and cannot be split, raises one that is not.
  datatype Split = Catalog | Elsewhere | Unsplittable

  datatype Sending = Sendable | WithControls | Unsendable

  datatype Path = UnownedPath | OwnedPath(split: Split, sending: Sending)

  // A request, the outcome of reading its body, whether the parsed body can be written
  // out again (it may be nested too deeply), and the outcome of looking up the routes
  // of its session (asked only if the body names a model).
  datatype Request = Request(get: bool, path: Path, body: Result<D.Body>, writable: bool, policy: Result<Policy>)

  // What an upstream does to one exchange: there is no connection, its owner is not
  // verified, the verifier's output cannot be read, or it takes the request and
  // answers or breaks off.
  datatype Exchange = NoSocket | Unverified | Garbled | Opened(reply: Option<Answer>)

  datatype Role = CatalogRole | Primary | Fallback

  // Whether a body went out as it was asked for or with its tools deferred.
  datatype Form = Plain | WithDeferral

  datatype Event =
    | Selected(role: Role)
    | Call(to: Role, form: Form, payload: D.Body, exchange: Exchange)
    | Unwritten(to: Role)
    | Invalidated
    | Changed(change: Cooldowns.Change)
    | Head(status: nat)
    | ErrorHead(code: nat)
    | Wrote(block: Bytes)
    | Left
    | Completed(last: nat, bytes: nat)
    | GaveUp(upstream: bool, count: nat)

  // ------------------------------------------------------------ request bodies

  const RETENTION: D.Key := D.Other("prompt_cache_retention")
  const STRIPPED_MODEL: Model := "gpt-5.6-sol"

  predicate Retryable(status: nat) {
    status in {401, 403, 408, 429, 500, 502, 503, 504}
  }

  function RequestModel(body: D.Body): Option<Model> {
    if body.Parsed? && D.HasText(body.document, D.Model) then Some(body.document.fields[D.Model].text) else None
  }

  predicate Strips(body: D.Body) {
    && RequestModel(body).Some? && D.AfterLastSlash(RequestModel(body).value) == STRIPPED_MODEL
    && RETENTION in body.document.fields
  }

  // Two bodies are objects that agree in every field but these.
  ghost predicate AgreesBut(a: D.Body, b: D.Body, keys: set<D.Key>) {
    && a.Parsed? && a.document.Object? && b.Parsed? && b.document.Object?
    && (forall k :: k !in keys ==> (k in a.document.fields <==> k in b.document.fields))
    && (forall k :: k !in keys && k in a.document.fields ==> a.document.fields[k] == b.document.fields[k])
  }

  // Strips nothing, or the one field.
  function Stripped(body: D.Body): (r: D.Body)
    ensures r != body ==> AgreesBut(body, r, {RETENTION}) && RETENTION !in r.document.fields
    ensures r != body <==>
      && body.Parsed? && D.HasText(body.document, D.Model) && RETENTION in body.document.fields
      && D.AfterLastSlash(body.document.fields[D.Model].text) == "gpt-5.6-sol"
  {
    if Strips(body) then
      D.Parsed(D.Object(body.document.fields - {RETENTION}))
    else body
  }

  /** The answers after which the fallback is tried: unauthorised, forbidden, timed out,
      too many requests, and the errors of a server or a gateway.  And a body is written
      anew for its own account exactly if something is taken out of it.
   */
  lemma RetryableMeans(status: nat, body: D.Body)
    ensures Retryable(status) <==>
      status == 401 || status == 403 || status == 408 || status == 429 ||
      (500 <= status <= 504 && status != 501)
    ensures Strips(body) <==> Stripped(body) != body
  {
  }

  function ReplaceModel(body: D.Body, expected: Model, replacement: Model): (r: Result<D.Body>)
    ensures r.Returned? <==> RequestModel(body) == Some(expected)
    ensures r.Returned? ==> RequestModel(r.value) == Some(replacement)
    ensures r.Returned? ==> AgreesBut(body, r.value, {D.Model})
  {
    if RequestModel(body) != Some(expected) then Raised(Proxy)
    else Returned(D.Parsed(D.Object(body.document.fields[D.Model := D.Text(replacement)])))
  }

  // ------------------------------------------------------- what a log may hold

  function ModelOf(q: Request): Option<Model> {
    if q.body.Returned? then RequestModel(q.body.value) else None
  }

  function PolicyOf(q: Request): Option<Policy> {
    if ModelOf(q).Some? && q.policy.Returned? then Some(q.policy.value) else None
  }

  function PrimaryOf(q: Request): Option<Route> {
    if PolicyOf(q).Some? then PolicyOf(q).value.primary else None
  }

  function FallbackOf(q: Request): Option<Route> {
    if PolicyOf(q).Some? then PolicyOf(q).value.fallback else None
  }

  function ResidentsOf(q: Request): D.Names {
    if PolicyOf(q).Some? then PolicyOf(q).value.residents else D.FULL_RESIDENT_NAMES
  }

  predicate IsCatalog(q: Request) {
    q.get && q.path.OwnedPath? && q.path.split.Catalog?
  }

  // The request goes to an account, as far as its path decides.
  predicate IsRouted(q: Request) {
    q.get ==> q.path.OwnedPath? && q.path.split.Elsewhere?
  }

  // An error that nothing catches, before anything is asked: the path cannot be split,
  // the body or what is stored of the session cannot be parsed.
  predicate RaisesEarly(q: Request) {
    && q.body.Returned?
    && ((q.get && q.path.OwnedPath? && q.path.split.Unsplittable?) ||
        (IsRouted(q) && (q.body.value.Excessive? || (ModelOf(q).Some? && q.policy == Raised(Escape)))))
  }

  // The request never gets as far as an upstream.
  predicate Rejected(q: Request) {
    q.body.Raised? || (q.get && q.path.UnownedPath?) || (IsRouted(q) && ModelOf(q).Some? && q.policy.Raised?)
  }

  predicate Switchable(q: Request) {
    ModelOf(q).Some? && FallbackOf(q).Some?
  }

  // The body an account is asked with, before anything is stripped or deferred.
  function Asked(q: Request, role: Role): Result<D.Body> {
    if q.body.Raised? || !role.Fallback? then q.body
    else if ModelOf(q).None? || FallbackOf(q).None? then Raised(Proxy)
    else ReplaceModel(q.body.value, ModelOf(q).value, FallbackOf(q).value.upstreamModel)
  }

  // The exact body of a call.
  function Payload(q: Request, role: Role, form: Form): D.Body
    requires Asked(q, role).Returned?
  {
    var asked := Asked(q, role).value;
    if role.CatalogRole? then asked
    else if form.Plain? then Stripped(asked)
    else D.Transform(Stripped(asked), ResidentsOf(q)).body
  }

  // A logged call carries the body it should.
  predicate Truthful(q: Request, e: Event) {
    e.Call? ==> Asked(q, e.to).Returned? && e.payload == Payload(q, e.to, e.form)
  }

  // The tools of the request would be deferred for this account.
  predicate Defers(q: Request, role: Role) {
    Asked(q, role).Returned? && D.Transform(Stripped(Asked(q, role).value), ResidentsOf(q)).transformed
  }

  // Asking this account takes a body written anew.
  predicate Rewrites(q: Request, role: Role) {
    !role.CatalogRole? && Asked(q, role).Returned? &&
    (role.Fallback? || Strips(Asked(q, role).value) || Defers(q, role))
  }

  // Reading the body and looking up the routes fail in ways of their own.
  predicate Sane(q: Request) {
    && (q.body.Raised? ==> !q.body.failure.UpstreamStream? && !q.body.failure.Escape?)
    && (q.policy.Raised? ==> !q.policy.failure.UpstreamStream? && !q.policy.failure.TooLarge?)
  }

  // --------------------------------------------------- what a request comes to

  // What one exchange gives.
  function Outcome(q: Request, x: Exchange): Result<Answer> {
    match x
    case NoSocket => Raised(Connection)
    case Unverified => Raised(Proxy)
    case Garbled => Raised(Escape)
    case Opened(reply) =>
      if q.path.UnownedPath? then Raised(Proxy)
      else if q.path.sending.Unsendable? then Raised(Escape)
      else if q.path.sending.WithControls? || reply.None? then Raised(Connection)
      else Returned(reply.value)
  }

  /** An exchange gives an answer exactly if the upstream takes the request, the path is
      its own and can be sent, and a reply comes; and what is raised if not.
   */
  lemma OutcomeMeans(q: Request, x: Exchange)
    ensures var sent := x.Opened? && q.path.OwnedPath?;
            && (Outcome(q, x).Returned? <==> sent && q.path.sending.Sendable? && x.reply.Some?)
            && (Outcome(q, x).Returned? ==> Outcome(q, x).value == x.reply.value)
            && (Outcome(q, x) == Raised(Escape) <==> x.Garbled? || (sent && q.path.sending.Unsendable?))
            && (Outcome(q, x) == Raised(Proxy) <==> x.Unverified? || (x.Opened? && q.path.UnownedPath?))
            && (Outcome(q, x) == Raised(Connection) <==>
                  || x.NoSocket?
                  || (sent && (q.path.sending.WithControls? || (q.path.sending.Sendable? && x.reply.None?))))
  {
  }

  function Next(xs: seq<Exchange>): Exchange {
    if xs == [] then NoSocket else xs[0]
  }

  function Remaining(xs: seq<Exchange>): seq<Exchange> {
    if xs == [] then [] else xs[1..]
  }

  datatype Trial = Trial(result: Result<Answer>, left: seq<Exchange>)

  // One account, asked once, or twice if it rejects the deferred tools.
  function Tried(q: Request, role: Role, xs: seq<Exchange>): Trial {
    if Rewrites(q, role) && !q.writable then Trial(Raised(Escape), xs)
    else
      var first := Outcome(q, Next(xs));
      if first.Returned? && Defers(q, role) && first.value.status in {400, 422} then
        Trial(Outcome(q, Next(Remaining(xs))), Remaining(Remaining(xs)))
      else Trial(first, Remaining(xs))
  }

  // The primary's answer, or the fallback's in its place.
  function Switched(q: Request, first: Result<Answer>, xs: seq<Exchange>): Result<Answer> {
    if first.Returned? && Switchable(q) && (Retryable(first.value.status) || !Presentable(first.value)) then
      Tried(q, Fallback, xs).result
    else first
  }

  function RoutedEnd(q: Request, rests: bool, xs: seq<Exchange>): Result<Answer> {
    if rests then Tried(q, Fallback, xs).result
    else Switched(q, Tried(q, Primary, xs).result, Tried(q, Primary, xs).left)
  }

  // What a request comes to, given whether its primary rests: the answer that is
  // delivered if it can be, or what the last attempt raised.
  function End(q: Request, rests: bool, xs: seq<Exchange>): Result<Answer> {
    if RaisesEarly(q) then Raised(Escape)
    else if q.body.Raised? then Raised(q.body.failure)
    else if q.get && q.path.UnownedPath? then Raised(Proxy)
    else if Rejected(q) then Raised(q.policy.failure)
    else if IsCatalog(q) then Outcome(q, Next(xs))
    else RoutedEnd(q, rests, xs)
  }

  datatype Summary = Summary(
    catalog: nat, primary: nat, fallback: nat, refused: nat, invalidated: nat, shown: Option<Role>,
    changes: seq<Cooldowns.Change>, last: Option<Answer>, escaped: bool, heads: nat, error: bool,
    sent: Bytes, gone: bool, completed: nat, failed: nat, deserted: bool, ok: bool)

  function Calls(s: Summary): nat {
    s.catalog + s.primary + s.fallback
  }

  function Asks(s: Summary, role: Role): nat {
    match role
    case CatalogRole => s.catalog
    case Primary => s.primary
    case Fallback => s.fallback
  }

  // Nothing has happened.
  predicate Blank(s: Summary) {
    && Calls(s) == 0 && s.refused == 0 && s.invalidated == 0 && s.shown == None && s.changes == [] && s.last == None
    && !s.escaped && s.heads == 0 && !s.error && s.sent == [] && !s.gone && s.completed == 0 && s.failed == 0
    && !s.deserted && s.ok
  }

  function LastBody(s: Summary): Bytes {
    if s.last.Some? then Body(s.last.value.source) else []
  }

  predicate DeliveredWhole(s: Summary) {
    s.last.Some? && s.heads == 1 && !s.error && s.sent == LastBody(s) && Whole(s.last.value.source)
  }

  // An account is asked a second time only if it rejected the deferred tools.
  predicate FormAllowed(s: Summary, asked: nat, form: Form) {
    if form.Plain? then asked == 1 && s.last.Some? && s.last.value.status in {400, 422}
    else asked == 0
  }

  // No end has been traced.
  predicate Unended(s: Summary) {
    s.completed + s.failed == 0
  }

  // The last answer, or that there is none.
  predicate Shows(s: Summary, r: Result<Answer>) {
    s.last == (if r.Returned? then Some(r.value) else None) && s.escaped == (r == Raised(Escape))
  }

  // Never after output, never back from the fallback to the primary, and never an
  // account other than the one the status store shows.
  predicate TurnAllowed(q: Request, s: Summary, role: Role, form: Form) {
    && s.heads == 0 && !s.escaped && Unended(s) && q.body.Returned?
    && match role
       case CatalogRole => IsCatalog(q) && Calls(s) == 0
       case Primary =>
         && !IsCatalog(q) && s.fallback == 0 && s.shown != Some(Fallback) && FormAllowed(s, s.primary, form)
         && (PrimaryOf(q).Some? ==> s.shown == Some(Primary))
       case Fallback =>
         !IsCatalog(q) && FallbackOf(q).Some? && FormAllowed(s, s.fallback, form) && s.shown == Some(Fallback)
  }

  predicate CallAllowed(q: Request, s: Summary, role: Role, form: Form) {
    TurnAllowed(q, s, role, form) && (Rewrites(q, role) ==> q.writable)
  }

  predicate ChangeAllowed(q: Request, s: Summary, change: Cooldowns.Change) {
    && s.changes == [] && Unended(s) && Some(change.model) == ModelOf(q)
    && s.primary > 0 && s.fallback == 0 && s.last.Some?
    && match change
       case Tripped(_, _, _) =>
         && FallbackOf(q).Some?
         && (s.heads == 0 ==> Retryable(s.last.value.status) || !Presentable(s.last.value))
         && (s.heads > 0 ==> s.sent == LastBody(s) && !Whole(s.last.value.source))
       case Cleared(_, _) => DeliveredWhole(s) && s.last.value.status < 400
  }

  predicate HeadAllowed(s: Summary, status: nat) {
    s.heads == 0 && Unended(s) && s.last.Some? && status == s.last.value.status && Presentable(s.last.value)
  }

  // An error page is sent only for a request that cannot be answered.
  predicate ErrorAllowed(q: Request, s: Summary, code: nat) {
    && s.heads == 0 && !s.escaped && !RaisesEarly(q)
    && code == (if q.body == Raised(TooLarge) then 413 else 502)
    && (Calls(s) == 0 ==> Rejected(q))
    && (s.last.Some? ==> !Presentable(s.last.value))
  }

  function Called(q: Request, s: Summary, role: Role, exchange: Exchange): Summary {
    var answer := Outcome(q, exchange);
    s.(catalog := s.catalog + if role.CatalogRole? then 1 else 0,
       primary := s.primary + if role.Primary? then 1 else 0,
       fallback := s.fallback + if role.Fallback? then 1 else 0,
       refused := s.refused + if answer.Raised? then 1 else 0,
       last := if answer.Returned? then Some(answer.value) else None,
       escaped := answer == Raised(Escape))
  }

  function After(q: Request, s: Summary, e: Event): Summary {
    match e
    case Selected(role) =>
      s.(shown := Some(role), ok := s.ok && !IsCatalog(q) && !role.CatalogRole? && s.heads == 0 && Unended(s))
    case Left => s.(gone := true)
    case Call(role, form, _, exchange) => Called(q, s, role, exchange).(ok := s.ok && CallAllowed(q, s, role, form))
    case Unwritten(role) =>
      s.(last := None, escaped := true,
         ok := s.ok && TurnAllowed(q, s, role, WithDeferral) && Rewrites(q, role) && !q.writable)
    case Invalidated => s.(invalidated := s.invalidated + 1)
    case Changed(change) => s.(changes := s.changes + [change], ok := s.ok && ChangeAllowed(q, s, change))
    case Head(status) => s.(heads := s.heads + 1, ok := s.ok && HeadAllowed(s, status))
    case ErrorHead(code) => s.(heads := s.heads + 1, error := true, ok := s.ok && ErrorAllowed(q, s, code))
    case Wrote(block) =>
      s.(sent := s.sent + block, ok := s.ok && s.heads == 1 && !s.error && Unended(s) && s.sent + block <= LastBody(s))
    case Completed(status, bytes) =>
      s.(completed := s.completed + 1,
         ok := s.ok && Unended(s) && DeliveredWhole(s) && bytes == |s.sent| &&
           status == s.last.value.status)
    case GaveUp(upstream, bytes) =>
      s.(failed := s.failed + 1, deserted := s.gone,
         ok := s.ok && !s.escaped && Unended(s) && bytes <= |s.sent|
               && (!IsCatalog(q) ==> upstream == !s.gone) && (!s.gone && s.heads > 0 ==> bytes == |s.sent|))
  }

  // The summaries of the prefixes of a log.
  ghost predicate Reads(q: Request, log: seq<Event>, states: seq<Summary>) {
    && |states| == |log| + 1 && Blank(states[0])
    && forall i {:trigger log[i]} :: 0 <= i < |log| ==>
         states[i + 1] == After(q, states[i], log[i]) && Truthful(q, log[i])
  }

  // ------------------------------------------------------------------ handler

  datatype WriteFate = Accepted | Cut(taken: nat)

  // Whether the next write is cut off, and the fates of those behind it.
  predicate CutNext(writes: seq<WriteFate>) {
    writes != [] && writes[0].Cut?
  }

  function RestOf(writes: seq<WriteFate>): seq<WriteFate> {
    if writes == [] then [] else writes[1..]
  }

  datatype Delivery = Sent(bytes: nat) | UpstreamBroke(bytes: nat) | ClientGone(bytes: nat)

  class Handler {
    const request: Request
    const attested: bool
    const cooldowns: Cooldowns.Table
    var exchanges: seq<Exchange>
    var writes: seq<WriteFate>
    var started: bool
    var log: seq<Event>
    ghost var states: seq<Summary>
    ghost var now: Summary
    ghost var base: seq<Cooldowns.Change>
    ghost var seen: seq<Cooldowns.Change>
    ghost var asked: nat

    constructor (request: Request, attested: bool, cooldowns: Cooldowns.Table,
                 exchanges: seq<Exchange>, writes: seq<WriteFate>)
      ensures this.request == request && this.attested == attested && this.cooldowns == cooldowns
      ensures this.exchanges == exchanges && this.writes == writes && log == [] && !started
      ensures Blank(now) && Recorded() && base == cooldowns.history && (cooldowns.Valid() ==> AtStart())
    {
      this.request := request;
      this.attested := attested;
      this.cooldowns := cooldowns;
      this.exchanges := exchanges;
      this.writes := writes;
      this.started := false;
      this.log := [];
      this.now := Summary(0, 0, 0, 0, 0, None, [], None, false, 0, false, [], false, 0, 0, false, true);
      this.states := [now];
      this.base := cooldowns.history;
      this.seen := cooldowns.history;
      this.asked := cooldowns.now;
      new;
      assert Cooldowns.Own(base) + now.changes == Cooldowns.Own(base);
    }

    ghost predicate Recorded()
      reads this`log, this`states, this`now
    {
      Reads(request, log, states) && now == states[|log|]
    }

    // Every refused call invalidates the attestation of the upstream, if there is one.
    ghost predicate Balanced(s: Summary) {
      s.invalidated == if attested then s.refused else 0
    }

    // Nothing has reached the client yet.
    ghost predicate Open(s: Summary) {
      && s.ok && (s.escaped ==> s.last.None?) && Balanced(s)
      && s.heads == 0 && s.sent == [] && !s.error && !s.gone && s.completed == 0 && s.failed == 0
    }

    // The cooldowns changed as the log says, and otherwise only by other requests.
    ghost predicate Ledger()
      reads this`now, this`base, cooldowns
    {
      && cooldowns.Valid() && base <= cooldowns.history
      && Cooldowns.Own(cooldowns.history) == Cooldowns.Own(base) + now.changes
    }

    // Time has passed at most, and other requests have changed the table.
    ghost predicate Later(time: nat, history: seq<Cooldowns.Change>)
      reads cooldowns
    {
      time <= cooldowns.now && history <= cooldowns.history
    }

    // Nothing has happened yet.
    ghost predicate AtStart()
      reads this`log, this`states, this`now, this`base, this`seen, this`asked, this`started, cooldowns
    {
      && Recorded() && Blank(now) && Ledger() && !started
      && base <= seen <= cooldowns.history && asked <= cooldowns.now
    }

    method Emit(e: Event)
      requires Recorded() && Truthful(request, e)
      modifies this`log, this`states, this`now
      ensures Recorded() && log == old(log) + [e] && now == After(request, old(now), e)
    {
      now := After(request, now, e);
      states := states + [now];
      log := log + [e];
      assert forall i :: 0 <= i < |old(log)| ==> log[i] == old(log)[i];
    }

    // A call that no upstream answers; it also ends the attestation of the upstream.
    method Refuse(role: Role, form: Form, payload: D.Body, exchange: Exchange)
      requires Recorded() && Open(now) && CallAllowed(request, now, role, form)
      requires Truthful(request, Call(role, form, payload, exchange)) && Outcome(request, exchange).Raised?
      modifies this`log, this`states, this`now
      ensures Recorded() && Open(now)
      ensures now == Called(request, old(now), role, exchange).(invalidated := now.invalidated)
    {
      Emit(Call(role, form, payload, exchange));
      if attested {
        Emit(Invalidated);
      }
    }

    // Writing the body for this account raises, and nothing catches that.
    method FailToWrite(role: Role)
      requires Recorded() && Open(now) && TurnAllowed(request, now, role, WithDeferral)
      requires Rewrites(request, role) && !request.writable
      modifies this`log, this`states, this`now
      ensures Recorded() && Open(now) && now == old(now).(last := None, escaped := true)
    {
      Emit(Unwritten(role));
    }

    // The answer of a response, or what was raised instead.
    function AnswerOf(r: Result<Response>): Result<Answer> {
      if r.Returned? then Returned(r.value.answer) else Raised(r.failure)
    }

    // The last call raised this.
    ghost predicate FailedCall(s: Summary, failure: Failure) {
      s.last == None && (failure.Proxy? || failure.Connection? || failure.Escape?) && s.escaped == failure.Escape?
    }

    // One exchange with an upstream, up to the head of its answer.
    method Upstream(role: Role, form: Form, payload: D.Body) returns (r: Result<Response>)
      requires Recorded() && Open(now) && CallAllowed(request, now, role, form)
      requires Truthful(request, Call(role, form, payload, NoSocket))
      modifies this`log, this`states, this`now, this`exchanges
      ensures Recorded() && Open(now) && exchanges == Remaining(old(exchanges))
      ensures AnswerOf(r) == Outcome(request, Next(old(exchanges)))
      ensures now == Called(request, old(now), role, Next(old(exchanges))).(invalidated := now.invalidated)
      ensures r.Returned? ==> fresh(r.value) && Unread(r.value)
      ensures r.Raised? ==> FailedCall(now, r.failure)
    {
      var exchange := Next(exchanges);
      exchanges := Remaining(exchanges);
      var outcome := Outcome(request, exchange);
      if outcome.Raised? {
        Refuse(role, form, payload, exchange);
        return Raised(outcome.failure);
      }
      Emit(Call(role, form, payload, exchange));
      var response := new Response(outcome.value);
      r := Returned(response);
    }

    /** Asks one account, and once more without deferred tools if it rejects them. */
    method CandidateUpstream(role: Role, body: D.Body) returns (r: Result<Response>)
      requires Recorded() && Open(now) && TurnAllowed(request, now, role, WithDeferral)
      requires !role.CatalogRole? && Asked(request, role) == Returned(body) && !body.Excessive?
      requires role.Fallback? ==> request.writable
      modifies this`log, this`states, this`now, this`exchanges
      ensures Recorded() && Open(now) && now.changes == old(now).changes && now.catalog == old(now).catalog
      ensures now.shown == old(now).shown
      ensures Trial(AnswerOf(r), exchanges) == Tried(request, role, old(exchanges)) && Shows(now, AnswerOf(r))
      ensures Asks(now, role) == 2 ==> Defers(request, role)
      ensures r.Returned? && Defers(request, role) && Asks(now, role) == 1 ==> r.value.answer.status !in {400, 422}
      ensures if role.Primary? then Turned(now, now.primary) else now.primary == old(now).primary
      ensures if role.Fallback? then Turned(now, now.fallback) else now.fallback == old(now).fallback
      ensures r.Returned? ==> fresh(r.value) && Unread(r.value)
      ensures r.Raised? ==> FailedCall(now, r.failure)
    {
      if Strips(body) && !request.writable {
        FailToWrite(role);
        return Raised(Escape);
      }
      var original := Stripped(body);
      var result := D.TransformRequest(original, ResidentsOf(request));
      var candidate := result.value;
      if candidate.transformed && !request.writable {
        FailToWrite(role);
        return Raised(Escape);
      }
      r := AskTwice(role, original, candidate);
    }

    method AskTwice(role: Role, original: D.Body, candidate: D.TransformResult) returns (r: Result<Response>)
      requires Recorded() && Open(now) && CallAllowed(request, now, role, WithDeferral) && !role.CatalogRole?
      requires Asked(request, role).Returned? && original == Stripped(Asked(request, role).value)
      requires candidate == D.Transform(original, ResidentsOf(request))
      modifies this`log, this`states, this`now, this`exchanges
      ensures Recorded() && Open(now) && now.changes == old(now).changes && now.catalog == old(now).catalog
      ensures now.shown == old(now).shown
      ensures Trial(AnswerOf(r), exchanges) == Tried(request, role, old(exchanges)) && Shows(now, AnswerOf(r))
      ensures 1 <= Asks(now, role) <= 2 && (Asks(now, role) == 2 ==> Defers(request, role))
      ensures r.Returned? && Defers(request, role) && Asks(now, role) == 1 ==> r.value.answer.status !in {400, 422}
      ensures role.Primary? ==> now.fallback == old(now).fallback
      ensures role.Fallback? ==> now.primary == old(now).primary
      ensures r.Returned? ==> fresh(r.value) && Unread(r.value)
      ensures r.Raised? ==> FailedCall(now, r.failure)
    {
      r := Upstream(role, WithDeferral, candidate.body);
      if r.Returned? && candidate.transformed && r.value.answer.status in {400, 422} {
        r := Upstream(role, Plain, original);
      }
    }

    // An account has had its turn: it was asked, or the body for it could not be written.
    ghost predicate Turned(s: Summary, asks: nat) {
      asks <= 2 && (asks == 0 ==> s.escaped)
    }

    method TripPrimary(model: Model)
      requires Recorded() && now.ok && Ledger() && ModelOf(request) == Some(model)
      requires forall time :: ChangeAllowed(request, now, Cooldowns.Tripped(model, time, true))
      modifies this`log, this`states, this`now, cooldowns
      ensures Recorded() && Ledger() && now.ok
      ensures now == old(now).(changes := now.changes) && |now.changes| == 1
      ensures now.changes[0].Tripped? && now.changes[0].model == model &&
        Later(old(cooldowns.now), old(cooldowns.history))
    {
      var time := cooldowns.Trip(model);
      Emit(Changed(Cooldowns.Tripped(model, time, true)));
      assert Cooldowns.Own(base) + old(now).changes + [Cooldowns.Tripped(model, time, true)] ==
        Cooldowns.Own(base) + now.changes;
    }

    method ClearPrimary(model: Model)
      requires Recorded() && now.ok && Ledger() && ChangeAllowed(request, now, Cooldowns.Cleared(model, true))
      modifies this`log, this`states, this`now, cooldowns
      ensures Recorded() && Ledger() && now.ok
      ensures now == old(now).(changes := [Cooldowns.Cleared(model, true)]) &&
        Later(old(cooldowns.now), old(cooldowns.history))
    {
      cooldowns.Clear(model);
      Emit(Changed(Cooldowns.Cleared(model, true)));
      assert Cooldowns.Own(base) + old(now).changes + [Cooldowns.Cleared(model, true)] ==
        Cooldowns.Own(base) + now.changes;
    }

    /** Turns to the fallback, on a retry or while the primary rests. The model of the body is the one the routes were
        looked up with, so replacing it cannot fail. */
    method FallbackUpstream(body: D.Body, primary: Model, route: Route) returns (r: Result<Response>)
      requires Recorded() && Open(now) && !now.escaped && now.fallback == 0 && !IsCatalog(request)
      requires request.body == Returned(body) && ModelOf(request) == Some(primary)
      requires FallbackOf(request) == Some(route)
      modifies this`log, this`states, this`now, this`exchanges
      ensures Recorded() && Open(now) && now.changes == old(now).changes && now.catalog == old(now).catalog
      ensures Trial(AnswerOf(r), exchanges) == Tried(request, Fallback, old(exchanges)) && Shows(now, AnswerOf(r))
      ensures now.primary == old(now).primary && Turned(now, now.fallback)
      ensures r.Returned? ==> fresh(r.value) && Unread(r.value)
      ensures r.Raised? ==> FailedCall(now, r.failure)
    {
      Emit(Selected(Fallback));
      var replaced := ReplaceModel(body, primary, route.upstreamModel);
      if !request.writable {
        FailToWrite(Fallback);
        return Raised(Escape);
      }
      r := CandidateUpstream(Fallback, replaced.value);
    }

    method NoteDeparture()
      requires Recorded()
      modifies this`log, this`states, this`now
      ensures Recorded() && now == old(now).(gone := true)
    {
      Emit(Left);
    }

    // What one write of a block did.
    method Write(block: Bytes) returns (gone: bool)
      requires Recorded() && now.ok && now.heads == 1 && !now.error && !now.gone && Unended(now)
      requires now.sent + block <= LastBody(now)
      modifies this`log, this`states, this`now, this`writes
      ensures Recorded() && now.ok && now == old(now).(sent := now.sent, gone := gone)
      ensures old(now).sent <= now.sent <= old(now).sent + block
      ensures !gone ==> now.sent == old(now).sent + block
      ensures gone == CutNext(old(writes)) && writes == RestOf(old(writes))
    {
      gone := writes != [] && writes[0].Cut?;
      var taken := if gone then block[..Min(writes[0].taken, |block|)] else block;
      writes := if writes == [] then [] else writes[1..];
      assert taken == block[..|taken|];
      Emit(Wrote(taken));
      if gone {
        NoteDeparture();
      }
    }

    // The client has seen the head and some of the body, and the rest is coming.
    ghost predicate Streaming(response: Response)
      reads this`now, response
    {
      && now.ok && now.heads == 1 && !now.error && !now.gone && !now.escaped && Unended(now)
      && now.last == Some(response.answer)
      && LastBody(now) == now.sent + Body(response.source)
      && Whole(response.source) == Whole(response.answer.source)
    }

    // How a response ended, against what the client has got.
    ghost predicate Ended(s: Summary, d: Delivery) {
      && s.ok && !s.escaped && s.last.Some? && s.sent <= LastBody(s) && d.bytes <= |s.sent|
      && (d.ClientGone? <==> s.gone) && (!s.gone ==> d.bytes == |s.sent|)
      && (d.Sent? ==> DeliveredWhole(s))
      && (d.UpstreamBroke? ==> s.sent == LastBody(s) && !Whole(s.last.value.source))
    }

    method Forward(response: Response, bytes: nat) returns (end: Option<Delivery>, total: nat)
      requires Recorded() && Streaming(response) && bytes == |now.sent|
      modifies this`log, this`states, this`now, this`writes, response`source, response`cuts
      ensures Recorded() && now == old(now).(sent := now.sent, gone := now.gone)
      ensures end.None? ==>
        Streaming(response) && total == |now.sent| && |Body(response.source)| < |Body(old(response.source))|
      ensures end.Some? ==> Ended(now, end.value)
      ensures old(writes) == [] ==> writes == [] && (end.Some? ==> !end.value.ClientGone?)
    {
      total := bytes;
      var raised, block := response.Read1(RESPONSE_READ_BYTES);
      if raised {
        EmptyReadTells(response.source);
        return Some(UpstreamBroke(bytes)), total;
      }
      if block == [] {
        EmptyReadTells(response.source);
        var remaining := response.source.length;
        end := Some(if remaining.Some? && remaining.value > 0 then UpstreamBroke(bytes) else Sent(bytes));
        return;
      }
      var gone := Write(block);
      if gone {
        return Some(ClientGone(bytes)), total;
      }
      end, total := None, bytes + |block|;
    }

    // The status line and the headers.
    method StartResponse(response: Response) returns (gone: bool)
      requires Recorded() && Open(now) && now.last == Some(response.answer) && Presentable(response.answer)
      modifies this`started, this`log, this`states, this`now, this`writes
      ensures started && Recorded() && now == old(now).(heads := 1, gone := gone)
      ensures gone == CutNext(old(writes)) && writes == RestOf(old(writes))
    {
      started := true;
      Emit(Head(response.answer.status));
      gone := writes != [] && writes[0].Cut?;
      writes := if writes == [] then [] else writes[1..];
      if gone {
        NoteDeparture();
      }
    }

    method SendHead(response: Response, prelude: Bytes) returns (end: Option<Delivery>)
      requires Recorded() && Open(now) && now.last == Some(response.answer) && Presentable(response.answer)
      requires LastBody(now) == prelude + Body(response.source)
      requires Whole(response.source) == Whole(response.answer.source)
      modifies this`started, this`log, this`states, this`now, this`writes
      ensures started
      ensures Recorded() && now == old(now).(heads := 1, sent := now.sent, gone := now.gone)
      ensures end.None? ==> Streaming(response) && |now.sent| == |prelude|
      ensures end.Some? ==> Ended(now, end.value) && end.value.ClientGone?
      ensures old(writes) == [] ==> writes == [] && end.None?
    {
      var gone := StartResponse(response);
      if gone {
        return Some(ClientGone(0));
      }
      if prelude != [] {
        gone := Write(prelude);
        if gone {
          return Some(ClientGone(0));
        }
      }
      end := None;
    }

    /** Sends the head, the prelude and every block that follows: what the client
        gets is the body from its start, all of it unless one side breaks off. */
    method SendResponse(response: Response, prelude: Bytes) returns (d: Delivery)
      requires Recorded() && Open(now) && now.last == Some(response.answer) && Presentable(response.answer)
      requires LastBody(now) == prelude + Body(response.source)
      requires Whole(response.source) == Whole(response.answer.source)
      modifies this`started, this`log, this`states, this`now, this`writes, response`source, response`cuts
      ensures started
      ensures Recorded() && now == old(now).(heads := 1, sent := now.sent, gone := now.gone) && Ended(now, d)
      ensures old(writes) == [] ==> !d.ClientGone?
    {
      var end := SendHead(response, prelude);
      var bytes := |prelude|;
      while end.None?
        invariant started
        invariant Recorded() && now == old(now).(heads := 1, sent := now.sent, gone := now.gone)
        invariant end.None? ==> Streaming(response) && bytes == |now.sent|
        invariant end.Some? ==> Ended(now, end.value)
        invariant old(writes) == [] ==> writes == [] && (end.Some? ==> !end.value.ClientGone?)
        decreases end.None?, |Body(response.source)|
      {
        end, bytes := Forward(response, bytes);
      }
      d := end.value;
    }

    // Where a routed request stands, by whether its current answer is the primary's.
    ghost predicate Routed(s: Summary, usedPrimary: bool) {
      && !IsCatalog(request) && request.body.Returned? && s.catalog == 0 && s.primary <= 2 && s.fallback <= 2
      && (usedPrimary ==> s.changes == [] && s.fallback == 0 && Turned(s, s.primary))
      && (!usedPrimary ==> Turned(s, s.fallback) && CanSwitch())
      && (!usedPrimary ==> if s.primary > 0 then TrippedOnce(s) else s.changes == [])
    }

    ghost predicate TrippedOnce(s: Summary) {
      |s.changes| == 1 && s.changes[0].Tripped? && Some(s.changes[0].model) == ModelOf(request)
    }

    ghost predicate CanSwitch() {
      Switchable(request)
    }

    // A response nothing of which has been read, the answer to the last call.
    ghost predicate Unread(response: Response)
      reads this`now, response
    {
      now.last == Some(response.answer) && response.source == response.answer.source
    }

    /** Trips the primary and asks the fallback instead. */
    method Switch(body: D.Body, primary: Model, route: Route) returns (r: Result<Response>)
      requires Recorded() && Open(now) && Ledger() && Routed(now, true)
      requires request.body == Returned(body) && ModelOf(request) == Some(primary)
      requires FallbackOf(request) == Some(route)
      requires now.last.Some? && (Retryable(now.last.value.status) || !Presentable(now.last.value))
      modifies this`log, this`states, this`now, this`exchanges, cooldowns
      ensures Recorded() && Open(now) && Ledger() && Routed(now, false) && now.primary == old(now).primary &&
        Later(old(cooldowns.now), old(cooldowns.history))
      ensures AnswerOf(r) == Tried(request, Fallback, old(exchanges)).result && Shows(now, AnswerOf(r))
      ensures r.Returned? ==> fresh(r.value) && Unread(r.value)
      ensures r.Raised? ==> FailedCall(now, r.failure)
    {
      TripPrimary(primary);
      r := FallbackUpstream(body, primary, route);
    }

    // What becomes of an answer that is not left for its status.
    ghost function Kept(answer: Answer, usedPrimary: bool, xs: seq<Exchange>): Result<Answer> {
      if usedPrimary then Switched(request, Returned(answer), xs) else Returned(answer)
    }

    method PrepareWithFallback(response: Response, body: D.Body, primary: Option<Model>, fallback: Option<Route>,
                               usedPrimary: bool)
      returns (failure: Option<Failure>, prepared: Response, prelude: Bytes, stillPrimary: bool)
      requires Recorded() && Open(now) && Ledger() && Routed(now, usedPrimary) && Unread(response)
      requires request.body == Returned(body) && ModelOf(request) == primary && FallbackOf(request) == fallback
      requires usedPrimary && CanSwitch() ==> !Retryable(response.answer.status)
      modifies this`log, this`states, this`now, this`exchanges, cooldowns, response`source, response`cuts
      ensures Shows(now, Kept(response.answer, usedPrimary, old(exchanges)))
      ensures Recorded() && Open(now) && Ledger() && Routed(now, stillPrimary)
      ensures prepared == response || fresh(prepared)
      ensures failure.None? ==>
        && now.last == Some(prepared.answer) && Presentable(prepared.answer)
        && LastBody(now) == prelude + Body(prepared.source)
        && Whole(prepared.source) == Whole(prepared.answer.source)
      ensures failure.Some? ==> (failure.value == UpstreamStream(0) && !now.escaped) || FailedCall(now, failure.value)
      ensures failure.Some? ==> now.last.Some? ==> !Presentable(now.last.value)
      ensures stillPrimary ==> usedPrimary && now == old(now)
      ensures now.primary == old(now).primary && Later(old(cooldowns.now), old(cooldowns.history))
      ensures stillPrimary && failure.Some? ==> !CanSwitch() && now.last.Some?
    {
      prepared, stillPrimary := response, usedPrimary;
      var first := response.Prepare();
      if first.Some? {
        return None, response, first.value, usedPrimary;
      }
      if !usedPrimary || primary.None? || fallback.None? {
        return Some(UpstreamStream(0)), response, [], usedPrimary;
      }
      stillPrimary := false;
      var next := Switch(body, primary.value, fallback.value);
      if next.Raised? {
        return Some(next.failure), response, [], false;
      }
      prepared := next.value;
      var second := prepared.Prepare();
      failure := if second.Some? then None else Some(UpstreamStream(0));
      prelude := if second.Some? then second.value else [];
    }

    // What a delivery means for the primary and for the trace.
    ghost predicate Concluded(before: Summary, after: Summary, usedPrimary: bool) {
      && after.ok && after.completed + after.failed == 1 && after.last.Some?
      && after == before.(completed := after.completed, failed := after.failed, deserted := after.deserted,
                          changes := after.changes)
      && (after.completed == 1 ==> DeliveredWhole(after))
      && if usedPrimary && ModelOf(request).Some? && after.completed == 1 && after.last.value.status < 400 then
           after.changes == [Cooldowns.Cleared(ModelOf(request).value, true)]
         else
           || after.changes == before.changes
           || (usedPrimary && CanSwitch() && after.completed == 0 && TrippedOnce(after) &&
               !Whole(after.last.value.source))
    }

    // The upstream broke off: its primary rests.
    method RestPrimary(bytes: nat, usedPrimary: bool, primary: Option<Model>, hasFallback: bool)
      requires Recorded() && Ledger() && Ended(now, UpstreamBroke(bytes)) && Routed(now, usedPrimary)
      requires now.heads == 1 && !now.error && now.completed == 0 && now.failed == 0
      requires ModelOf(request) == primary && FallbackOf(request).Some? == hasFallback
      modifies this`log, this`states, this`now, cooldowns
      ensures Recorded() && Ledger() && Concluded(old(now), now, usedPrimary) && now.completed == 0
      ensures usedPrimary && CanSwitch() ==> TrippedOnce(now)
      ensures Later(old(cooldowns.now), old(cooldowns.history))
    {
      if usedPrimary && primary.Some? && hasFallback {
        TripPrimary(primary.value);
      }
      Emit(GaveUp(true, bytes));
    }

    // Everything was delivered: a primary that answered well is readmitted.
    method Readmit(bytes: nat, status: nat, usedPrimary: bool, primary: Option<Model>)
      requires Recorded() && Ledger() && Ended(now, Sent(bytes)) && Routed(now, usedPrimary)
      requires now.heads == 1 && !now.error && now.completed == 0 && now.failed == 0 && status == now.last.value.status
      requires ModelOf(request) == primary
      modifies this`log, this`states, this`now, cooldowns
      ensures Recorded() && Ledger() && Concluded(old(now), now, usedPrimary) && now.completed == 1
      ensures Later(old(cooldowns.now), old(cooldowns.history))
    {
      if usedPrimary && primary.Some? && status < 400 {
        ClearPrimary(primary.value);
      }
      Emit(Completed(status, bytes));
    }

    method Conclude(d: Delivery, status: nat, usedPrimary: bool, primary: Option<Model>, hasFallback: bool)
      requires Recorded() && Ledger() && Ended(now, d) && Routed(now, usedPrimary)
      requires now.heads == 1 && !now.error && now.completed == 0 && now.failed == 0 && status == now.last.value.status
      requires ModelOf(request) == primary && FallbackOf(request).Some? == hasFallback
      modifies this`log, this`states, this`now, cooldowns
      ensures Recorded() && Ledger() && Concluded(old(now), now, usedPrimary)
      ensures now.completed == 1 <==> d.Sent?
      ensures d.UpstreamBroke? && usedPrimary && CanSwitch() ==> TrippedOnce(now)
      ensures Later(old(cooldowns.now), old(cooldowns.history))
    {
      match d {
        case UpstreamBroke(bytes) => RestPrimary(bytes, usedPrimary, primary, hasFallback);
        case ClientGone(bytes) => Emit(GaveUp(false, bytes));
        case Sent(bytes) => Readmit(bytes, status, usedPrimary, primary);
      }
    }

    // The client got some of the body, all of it if it stayed, and the end was recorded.
    ghost predicate Delivered(before: Summary, after: Summary, usedPrimary: bool, calm: bool) {
      && Concluded(before.(heads := 1, sent := after.sent, gone := after.gone), after, usedPrimary)
      && after.sent <= LastBody(after)
      && (calm ==> after.sent == LastBody(after) && (after.completed == 1 <==> Whole(after.last.value.source)))
      && (calm && after.completed == 0 && usedPrimary && CanSwitch() ==> TrippedOnce(after))
    }

    /** Sends a prepared response, rests a primary that broke off and readmits one
        that delivered. */
    method Deliver(prepared: Response, prelude: Bytes, usedPrimary: bool, primary: Option<Model>, hasFallback: bool)
      requires Recorded() && Open(now) && Ledger() && Routed(now, usedPrimary)
      requires now.last == Some(prepared.answer) && Presentable(prepared.answer)
      requires LastBody(now) == prelude + Body(prepared.source)
      requires Whole(prepared.source) == Whole(prepared.answer.source)
      requires ModelOf(request) == primary && FallbackOf(request).Some? == hasFallback
      modifies this`started, this`log, this`states, this`now, this`writes, cooldowns, prepared`source, prepared`cuts
      ensures started && Recorded() && Ledger() && Delivered(old(now), now, usedPrimary, old(writes) == [])
      ensures Later(old(cooldowns.now), old(cooldowns.history))
    {
      var d := SendResponse(prepared, prelude);
      Conclude(d, prepared.answer.status, usedPrimary, primary, hasFallback);
    }

    // What is known of a request once its routes have been tried.
    ghost predicate Settled(s: Summary) {
      && s.ok && Balanced(s) && s.heads <= 1 && s.completed + s.failed <= 1
      && Calls(s) <= 4 && |s.changes| <= 1
      && (s.primary > 0 && s.fallback > 0 ==> TrippedOnce(s))
      && (s.primary == 0 ==> s.changes == [])
    }

    method Catalog(body: D.Body) returns (failure: Option<Failure>)
      requires AtStart() && IsCatalog(request) && request.body == Returned(body)
      modifies this`started, this`log, this`states, this`now, this`exchanges, this`writes
      ensures Recorded() && Ledger() && started == (now.heads == 1) && Attempted(now, old(writes) == [], failure)
      ensures Shows(now, Outcome(request, Next(old(exchanges))))
    {
      var r := Upstream(CatalogRole, Plain, body);
      if r.Raised? {
        return Some(r.failure);
      }
      var prelude := r.value.Prepare();
      if prelude.None? {
        return Some(UpstreamStream(0));
      }
      failure := SendCatalog(r.value, prelude.value);
    }

    method SendCatalog(response: Response, prelude: Bytes) returns (failure: Option<Failure>)
      requires Recorded() && Open(now) && Ledger() && now.last == Some(response.answer) && Presentable(response.answer)
      requires LastBody(now) == prelude + Body(response.source)
      requires Whole(response.source) == Whole(response.answer.source)
      requires IsCatalog(request) && request.body.Returned? && Calls(now) == 1 && now.catalog == 1 && now.changes == []
      modifies this`started, this`log, this`states, this`now, this`writes, response`source, response`cuts
      ensures Recorded() && Ledger() && started && now.heads == 1 && Attempted(now, old(writes) == [], failure)
      ensures now.last == old(now).last && now.escaped == old(now).escaped
    {
      var d := SendResponse(response, prelude);
      failure := match d {
        case Sent(_) => None
        case UpstreamBroke(bytes) => Some(UpstreamStream(bytes))
        case ClientGone(_) => Some(Proxy)
      };
    }

    // When the primary rests, when it is readmitted, and when the fallback is asked.
    ghost predicate Fair(s: Summary, calm: bool) {
      var broke := s.heads == 1 && s.last.Some? && !Whole(s.last.value.source);
      && (s.fallback > 0 ==> CanSwitch())
      && (s.heads == 1 ==> s.last.Some? && s.completed + s.failed == 1 && s.sent <= LastBody(s))
      && (s.completed == 1 ==> DeliveredWhole(s))
      && (calm && s.heads == 1 ==> s.sent == LastBody(s) && (s.completed == 1 <==> !broke))
      && (TrippedOnce(s) ==> CanSwitch() && s.primary > 0 && (s.fallback > 0 || broke || s.escaped))
      && (calm && CanSwitch() && s.primary > 0 && (s.fallback > 0 || broke) ==> TrippedOnce(s))
      && ((s.changes != [] && s.changes[0].Cleared?) <==>
            s.completed == 1 && s.fallback == 0 && ModelOf(request).Some? && s.last.value.status < 400)
      && (CanSwitch() && s.primary > 0 && s.fallback == 0 ==>
            (s.last.Some? <==> s.heads == 1) && (s.last.Some? ==> !Retryable(s.last.value.status)))
    }

    // The request starts with the fallback exactly if the primary rested when it
    // looked, after every change that had been made by then, by whomever.
    ghost predicate StartsRight(s: Summary)
      reads this`base, this`seen, this`asked, cooldowns
    {
      && base <= seen <= cooldowns.history && asked <= cooldowns.now
      && (CanSwitch() && Calls(s) > 0 ==> (s.primary == 0 <==> Resting()))
    }

    // The primary rested when the request looked.
    ghost predicate Resting()
      reads this`seen, this`asked
    {
      CanSwitch() && asked < Cooldowns.RestsUntil(seen, ModelOf(request).value, cooldowns.seconds)
    }

    method Look(primary: Option<Model>, hasFallback: bool) returns (resting: bool)
      requires AtStart() && ModelOf(request) == primary && FallbackOf(request).Some? == hasFallback
      modifies this`seen, this`asked, cooldowns
      ensures AtStart() && (resting <==> Resting())
    {
      if primary.None? || !hasFallback {
        return false;
      }
      resting := cooldowns.Active(primary.value);
      seen, asked := cooldowns.history, cooldowns.now;
    }

    method PrimaryUpstream(body: D.Body, route: Option<Route>) returns (r: Result<Response>)
      requires Recorded() && Blank(now) && !IsCatalog(request)
      requires request.body == Returned(body) && !body.Excessive? && PrimaryOf(request) == route
      modifies this`log, this`states, this`now, this`exchanges
      ensures Recorded() && Open(now) && now.changes == [] && Routed(now, true)
      ensures now.shown == if route.Some? then Some(Primary) else None
      ensures Trial(AnswerOf(r), exchanges) == Tried(request, Primary, old(exchanges)) && Shows(now, AnswerOf(r))
      ensures r.Returned? ==> fresh(r.value) && Unread(r.value)
      ensures r.Raised? ==> FailedCall(now, r.failure)
    {
      if route.Some? {
        Emit(Selected(Primary));
      }
      r := CandidateUpstream(Primary, body);
    }

    method Begin(body: D.Body, primary: Option<Model>, route: Option<Route>, fallback: Option<Route>)
      returns (r: Result<Response>, usedPrimary: bool)
      requires AtStart() && !IsCatalog(request) && request.body == Returned(body) && !body.Excessive?
      requires ModelOf(request) == primary && PrimaryOf(request) == route && FallbackOf(request) == fallback
      modifies this`log, this`states, this`now, this`exchanges, this`seen, this`asked, cooldowns
      ensures Recorded() && Open(now) && Ledger() && Routed(now, usedPrimary) && StartsRight(now)
      ensures usedPrimary == !Resting() && Shows(now, AnswerOf(r))
      ensures Trial(AnswerOf(r), exchanges)
           == Tried(request, if usedPrimary then Primary else Fallback, old(exchanges))
      ensures r.Returned? ==> fresh(r.value) && Unread(r.value)
      ensures r.Raised? ==> FailedCall(now, r.failure)
    {
      var resting := Look(primary, fallback.Some?);
      usedPrimary := !resting;
      if usedPrimary {
        r := PrimaryUpstream(body, route);
      } else {
        r := FallbackUpstream(body, primary.value, fallback.value);
      }
    }

    /** The first answer worth preparing: a primary that answers with a retryable
        status is rested and left for the fallback. */
    method Obtain(body: D.Body, primary: Option<Model>, route: Option<Route>, fallback: Option<Route>)
      returns (r: Result<Response>, usedPrimary: bool)
      requires AtStart() && !IsCatalog(request) && request.body == Returned(body) && !body.Excessive?
      requires ModelOf(request) == primary && PrimaryOf(request) == route && FallbackOf(request) == fallback
      modifies this`log, this`states, this`now, this`exchanges, this`seen, this`asked, cooldowns
      ensures Recorded() && Open(now) && Ledger() && Routed(now, usedPrimary)
      ensures r.Returned? ==> fresh(r.value) && Unread(r.value)
      ensures r.Returned? && usedPrimary && CanSwitch() ==> !Retryable(r.value.answer.status)
      ensures r.Raised? ==> FailedCall(now, r.failure)
      ensures StartsRight(now) && Shows(now, AnswerOf(r))
      ensures usedPrimary ==>
        !Resting() && Trial(AnswerOf(r), exchanges) == Tried(request, Primary, old(exchanges))
      ensures !usedPrimary ==> AnswerOf(r) == RoutedEnd(request, Resting(), old(exchanges))
    {
      r, usedPrimary := Begin(body, primary, route, fallback);
      if r.Returned? && usedPrimary && primary.Some? && fallback.Some? && Retryable(r.value.answer.status) {
        r := Switch(body, primary.value, fallback.value);
        usedPrimary := false;
      }
    }

    // How a routed request ends; a failure is still to be reported.
    ghost predicate RoutedTo(s: Summary, calm: bool, failure: Option<Failure>) {
      && Settled(s) && Fair(s, calm) && !s.error && (failure.None? <==> s.heads == 1)
      && (failure.None? ==> !s.escaped && !RaisesEarly(request))
      && (RaisesEarly(request) ==> Calls(s) == 0 && !s.escaped)
      && (failure.Some? ==>
            && Open(s) && !failure.value.TooLarge?
            && (failure.value.Escape? <==> s.escaped || RaisesEarly(request))
            && (Calls(s) == 0 && !failure.value.Escape? ==> Rejected(request))
            && (failure.value.UpstreamStream? ==> failure.value.bytes == 0)
            && (s.last.Some? ==> !Presentable(s.last.value)))
    }

    lemma UndeliveredIsRoutedTo(s: Summary, usedPrimary: bool, calm: bool, failure: Failure)
      requires Open(s) && Routed(s, usedPrimary) && (s.last.Some? ==> !Presentable(s.last.value))
      requires usedPrimary && CanSwitch() ==> s.last.None?
      requires (failure == UpstreamStream(0) && !s.escaped) || FailedCall(s, failure)
      requires !RaisesEarly(request) && (Calls(s) == 0 ==> s.escaped)
      ensures RoutedTo(s, calm, Some(failure))
    {
    }

    lemma DeliveredIsRoutedTo(before: Summary, s: Summary, usedPrimary: bool, calm: bool)
      requires Open(before) && Routed(before, usedPrimary) && Delivered(before, s, usedPrimary, calm)
      requires !RaisesEarly(request) && (usedPrimary && CanSwitch() ==> !Retryable(s.last.value.status))
      ensures RoutedTo(s, calm, None) && s.last == before.last && s.escaped == before.escaped
    {
    }

    method Present(response: Response, body: D.Body, primary: Option<Model>, fallback: Option<Route>, usedPrimary: bool)
      returns (failure: Option<Failure>)
      requires Recorded() && Open(now) && Ledger() && Routed(now, usedPrimary) && Unread(response) && !started
      requires request.body == Returned(body) && ModelOf(request) == primary && FallbackOf(request) == fallback
      requires !RaisesEarly(request) && (usedPrimary && CanSwitch() ==> !Retryable(response.answer.status))
      modifies this`started, this`log, this`states, this`now, this`exchanges, this`writes, cooldowns
      modifies response`source, response`cuts
      ensures Recorded() && Ledger() && started == (now.heads == 1) && RoutedTo(now, old(writes) == [], failure)
      ensures Shows(now, Kept(response.answer, usedPrimary, old(exchanges)))
      ensures now.primary == old(now).primary && Calls(now) > 0 && Later(old(cooldowns.now), old(cooldowns.history))
    {
      var prepared, prelude, stillPrimary;
      failure, prepared, prelude, stillPrimary := PrepareWithFallback(response, body, primary, fallback, usedPrimary);
      ghost var before, calm := now, writes == [];
      if failure.Some? {
        UndeliveredIsRoutedTo(now, stillPrimary, calm, failure.value);
      } else {
        Deliver(prepared, prelude, stillPrimary, primary, fallback.Some?);
        DeliveredIsRoutedTo(before, now, stillPrimary, calm);
      }
    }

    lemma UnaskedIsRoutedTo(s: Summary, calm: bool, failure: Failure)
      requires Blank(s) && (Rejected(request) || RaisesEarly(request))
      requires !failure.TooLarge? && !failure.UpstreamStream? && (failure.Escape? <==> RaisesEarly(request))
      ensures RoutedTo(s, calm, Some(failure))
    {
    }

    method RouteRequest(body: D.Body) returns (failure: Option<Failure>)
      requires AtStart() && !IsCatalog(request) && request.body == Returned(body)
      requires IsRouted(request) && Sane(request)
      modifies this`started, this`log, this`states, this`now, this`exchanges, this`writes, this`seen, this`asked,
        cooldowns
      ensures Recorded() && Ledger() && started == (now.heads == 1) && StartsRight(now)
      ensures RoutedTo(now, old(writes) == [], failure)
      ensures if RaisesEarly(request) || Rejected(request) then Blank(now)
              else Shows(now, RoutedEnd(request, Resting(), old(exchanges)))
    {
      if body.Excessive? {
        UnaskedIsRoutedTo(now, writes == [], Escape);
        return Some(Escape);
      }
      var primary := RequestModel(body);
      if primary.Some? && request.policy.Raised? {
        UnaskedIsRoutedTo(now, writes == [], request.policy.failure);
        return Some(request.policy.failure);
      }
      failure := FollowRoutes(body, primary, PrimaryOf(request), FallbackOf(request));
    }

    method FollowRoutes(body: D.Body, primary: Option<Model>, route: Option<Route>, fallback: Option<Route>)
      returns (failure: Option<Failure>)
      requires AtStart() && !IsCatalog(request) && request.body == Returned(body) && !RaisesEarly(request)
      requires ModelOf(request) == primary && PrimaryOf(request) == route && FallbackOf(request) == fallback
      requires !body.Excessive?
      modifies this`started, this`log, this`states, this`now, this`exchanges, this`writes, this`seen, this`asked,
        cooldowns
      ensures Recorded() && Ledger() && started == (now.heads == 1) && StartsRight(now)
      ensures RoutedTo(now, old(writes) == [], failure)
      ensures Shows(now, RoutedEnd(request, Resting(), old(exchanges)))
    {
      var r, usedPrimary := Obtain(body, primary, route, fallback);
      if r.Raised? {
        UndeliveredIsRoutedTo(now, usedPrimary, writes == [], r.failure);
        return Some(r.failure);
      }
      failure := Present(r.value, body, primary, fallback, usedPrimary);
    }

    // A page of the proxy's own, unless the upstream's answer has begun.
    method SafeError(code: nat)
      requires Recorded() && now.ok && started == (now.heads == 1) && now.heads <= 1
      requires now.heads == 0 ==> ErrorAllowed(request, now, code)
      modifies this`log, this`states, this`now
      ensures Recorded() && now.ok
      ensures now == if started then old(now) else old(now).(heads := 1, error := true)
    {
      if started {
        return;
      }
      Emit(ErrorHead(code));
    }

    // A failure that the handler has to report to the trace and the client.
    ghost predicate Reportable(s: Summary, failure: Failure) {
      && s.completed == 0 && s.failed == 0 && s.heads <= 1
      && (failure.UpstreamStream? ==> failure.bytes <= |s.sent|)
      && (!IsCatalog(request) ==> !s.gone)
      && (!s.gone && s.heads > 0 ==> failure.UpstreamStream? && failure.bytes == |s.sent|)
      && (failure.TooLarge? <==> request.body == Raised(TooLarge))
      && (failure.Escape? <==> s.escaped || RaisesEarly(request)) && (failure.Escape? ==> s.heads == 0)
      && (RaisesEarly(request) ==> Calls(s) == 0)
      && (s.heads == 0 && Calls(s) == 0 && !failure.Escape? ==> Rejected(request))
      && (s.heads == 0 && s.last.Some? ==> !Presentable(s.last.value))
    }

    method Report(failure: Failure)
      requires Recorded() && now.ok && started == (now.heads == 1) && Reportable(now, failure)
      modifies this`log, this`states, this`now
      ensures Recorded() && now.ok && now.completed == 0 && now.failed <= 1
      ensures failure.Escape? ==> now == old(now)
      ensures !failure.Escape? ==>
        now == old(now).(heads := 1, error := old(now).error || !started, deserted := now.deserted,
                         failed := if failure.TooLarge? then 0 else 1)
    {
      if failure.Escape? {
        return;
      }
      if failure.TooLarge? {
        SafeError(413);
      } else {
        Emit(GaveUp(true, if failure.UpstreamStream? then failure.bytes else 0));
        SafeError(502);
      }
    }

    // The client has got all that can be read, which is all there is unless it failed.
    ghost predicate WholeUnless(s: Summary, failure: Option<Failure>) {
      s.sent == LastBody(s) && s.last.Some? && (failure.None? <==> Whole(s.last.value.source))
    }

    // How a request has gone before a failure is reported.
    ghost predicate Attempted(s: Summary, calm: bool, failure: Option<Failure>) {
      && Settled(s) && !s.error && (failure.None? ==> s.heads == 1 && !s.escaped && !RaisesEarly(request))
      && (failure.Some? ==> Reportable(s, failure.value))
      && (!IsCatalog(request) ==> Fair(s, calm) && (failure.Some? ==> s.heads == 0))
      && (IsCatalog(request) && failure.None? ==> Unended(s))
      && (IsCatalog(request) && s.heads == 1 && calm ==> WholeUnless(s, failure))
    }

    lemma RejectedIsAttempted(s: Summary, calm: bool, failure: Failure)
      requires Blank(s) && (Rejected(request) || RaisesEarly(request))
      requires !failure.UpstreamStream? && (failure.TooLarge? <==> request.body == Raised(TooLarge))
      requires failure.Escape? <==> RaisesEarly(request)
      ensures Attempted(s, calm, Some(failure))
    {
    }

    lemma RoutedIsAttempted(s: Summary, calm: bool, failure: Option<Failure>)
      requires RoutedTo(s, calm, failure) && request.body.Returned? && !IsCatalog(request)
      ensures Attempted(s, calm, failure)
    {
    }

    method Attempt() returns (failure: Option<Failure>)
      requires AtStart()
      requires Sane(request)
      modifies this`started, this`log, this`states, this`now, this`exchanges, this`writes, this`seen, this`asked,
        cooldowns
      ensures Recorded() && Ledger() && started == (now.heads == 1) && Attempted(now, old(writes) == [], failure)
      ensures !IsCatalog(request) ==> StartsRight(now)
      ensures if RaisesEarly(request) || Rejected(request) then Blank(now)
              else Shows(now, End(request, Resting(), old(exchanges)))
    {
      if request.body.Raised? {
        RejectedIsAttempted(now, writes == [], request.body.failure);
        return Some(request.body.failure);
      }
      if request.get && request.path.UnownedPath? {
        RejectedIsAttempted(now, writes == [], Proxy);
        return Some(Proxy);
      }
      if request.get && request.path.split.Unsplittable? {
        RejectedIsAttempted(now, writes == [], Escape);
        return Some(Escape);
      }
      if request.get && request.path.split.Catalog? {
        failure := Catalog(request.body.value);
      } else {
        ghost var calm := writes == [];
        failure := RouteRequest(request.body.value);
        RoutedIsAttempted(now, calm, failure);
      }
    }

    /** One request. Whatever the upstreams answer and whenever the client leaves,
        the log stays allowed, the cooldowns change exactly as logged, at most once, and
        the client is sent exactly one head, unless an error escapes that nothing
        catches: then none is sent and no end is traced. */
    method Handle() returns (escaped: bool)
      requires AtStart()
      requires Sane(request)
      modifies this`started, this`log, this`states, this`now, this`exchanges, this`writes, this`seen, this`asked,
        cooldowns
      ensures Recorded() && Ledger() && Settled(now) && now.heads == (if escaped then 0 else 1)
      ensures escaped <==> End(request, Resting(), old(exchanges)) == Raised(Escape)
      ensures var end := End(request, Resting(), old(exchanges));
              now.last == if end.Returned? then Some(end.value) else None
      ensures escaped || request.body == Raised(TooLarge) ==> now.completed + now.failed == 0
      ensures escaped ==> !now.error
      ensures !escaped && request.body != Raised(TooLarge) && (now.error || !IsCatalog(request)) ==>
        now.completed + now.failed == 1
      ensures IsCatalog(request) && !escaped && !now.error && old(writes) == [] ==>
        now.last.Some? && now.completed == 0 && (now.failed == 0 <==> Whole(now.last.value.source))
      ensures RaisesEarly(request) ==> Calls(now) == 0
      ensures !IsCatalog(request) && !now.error ==> Fair(now, old(writes) == [])
      ensures !IsCatalog(request) && now.error ==>
        Fair(now.(heads := 0, error := false, failed := 0), old(writes) == [])
      ensures !IsCatalog(request) ==> StartsRight(now)
      ensures IsCatalog(request) && !now.error && !escaped && old(writes) == [] ==> now.sent == LastBody(now)
    {
      var failure := Attempt();
      escaped := failure == Some(Escape);
      if failure.Some? {
        Report(failure.value);
      }
    }
  }

  // A handler from start to end, and an error that escapes it unanswered.
  method HandleUnanswered(q: Request, attested: bool, cooldowns: Cooldowns.Table,
                          exchanges: seq<Exchange>, writes: seq<WriteFate>)
    returns (handler: Handler, escaped: bool)
    requires Sane(q) && cooldowns.Valid() && forall rests :: End(q, rests, exchanges) == Raised(Escape)
    modifies cooldowns
    ensures escaped && fresh(handler) && handler.Recorded() && handler.request == q
    ensures handler.now.heads == 0 && Unended(handler.now) && (RaisesEarly(q) ==> Calls(handler.now) == 0)
  {
    handler := new Handler(q, attested, cooldowns, exchanges, writes);
    escaped := handler.Handle();
  }

  /** A GET whose path cannot be split is never answered, whoever listens: no call, no
      head and no end.
   */
  method UnsplittableIsUnanswered(q: Request, attested: bool, cooldowns: Cooldowns.Table,
                                  exchanges: seq<Exchange>, writes: seq<WriteFate>)
    returns (handler: Handler, escaped: bool)
    requires Sane(q) && cooldowns.Valid() && q.body.Returned?
    requires q.get && q.path.OwnedPath? && q.path.split.Unsplittable?
    modifies cooldowns
    ensures escaped && fresh(handler) && handler.Recorded() && handler.request == q
    ensures handler.now.heads == 0 && Unended(handler.now) && Calls(handler.now) == 0
  {
    handler, escaped := HandleUnanswered(q, attested, cooldowns, exchanges, writes);
  }

  /** Nor is a request for an account whose body holds an integer that is too long. */
  method ExcessiveIsUnanswered(q: Request, attested: bool, cooldowns: Cooldowns.Table,
                               exchanges: seq<Exchange>, writes: seq<WriteFate>)
    returns (handler: Handler, escaped: bool)
    requires Sane(q) && cooldowns.Valid() && q.body.Returned?
    requires IsRouted(q) && q.body.value.Excessive?
    modifies cooldowns
    ensures escaped && fresh(handler) && handler.Recorded() && handler.request == q
    ensures handler.now.heads == 0 && Unended(handler.now) && Calls(handler.now) == 0
  {
    handler, escaped := HandleUnanswered(q, attested, cooldowns, exchanges, writes);
  }

  /** Nor, once an upstream is there to take it, one whose path cannot be sent. */
  method UnsendableIsUnanswered(q: Request, attested: bool, cooldowns: Cooldowns.Table,
                                exchanges: seq<Exchange>, writes: seq<WriteFate>)
    returns (handler: Handler, escaped: bool)
    requires Sane(q) && cooldowns.Valid() && !RaisesEarly(q) && !Rejected(q) && q.writable
    requires NoneGarbled(exchanges) && MeetsPath(q, Next(exchanges))
    modifies cooldowns
    ensures escaped && fresh(handler) && handler.Recorded() && handler.request == q
    ensures handler.now.heads == 0 && Unended(handler.now)
  {
    EscapesWhen(q, true, exchanges);
    EscapesWhen(q, false, exchanges);
    handler, escaped := HandleUnanswered(q, attested, cooldowns, exchanges, writes);
  }

  // No verifier's output is unreadable.
  predicate NoneGarbled(xs: seq<Exchange>) {
    forall i :: 0 <= i < |xs| ==> !xs[i].Garbled?
  }

  // The exchange gets as far as sending a path that cannot be sent.
  predicate MeetsPath(q: Request, x: Exchange) {
    x.Opened? && q.path.OwnedPath? && q.path.sending.Unsendable?
  }

  lemma OutcomeEscapes(q: Request, x: Exchange)
    requires !x.Garbled?
    ensures Outcome(q, x) == Raised(Escape) <==> MeetsPath(q, x)
    ensures Outcome(q, x).Returned? ==> forall y :: !MeetsPath(q, y)
  {
  }

  lemma NoneGarbledLater(xs: seq<Exchange>)
    requires NoneGarbled(xs)
    ensures !Next(xs).Garbled? && NoneGarbled(Remaining(xs))
  {
  }

  lemma TrialEscapes(q: Request, role: Role, xs: seq<Exchange>)
    requires q.writable && NoneGarbled(xs)
    ensures Tried(q, role, xs).result == Raised(Escape) <==> MeetsPath(q, Next(xs))
    ensures Tried(q, role, xs).result.Returned? ==> !MeetsPath(q, Next(Tried(q, role, xs).left))
    ensures NoneGarbled(Tried(q, role, xs).left)
  {
    NoneGarbledLater(xs);
    NoneGarbledLater(Remaining(xs));
    OutcomeEscapes(q, Next(xs));
    OutcomeEscapes(q, Next(Remaining(xs)));
  }

  lemma RoutedEscapes(q: Request, rests: bool, xs: seq<Exchange>)
    requires q.writable && NoneGarbled(xs)
    ensures RoutedEnd(q, rests, xs) == Raised(Escape) <==> MeetsPath(q, Next(xs))
  {
    if rests {
      TrialEscapes(q, Fallback, xs);
    } else {
      TrialEscapes(q, Primary, xs);
      TrialEscapes(q, Fallback, Tried(q, Primary, xs).left);
    }
  }

  /** Where bodies can be written and verifiers understood, it can be told from the
      request and its first exchange whether an error escapes.
   */
  lemma EscapesWhen(q: Request, rests: bool, xs: seq<Exchange>)
    requires Sane(q) && q.writable && NoneGarbled(xs)
    ensures End(q, rests, xs) == Raised(Escape) <==> RaisesEarly(q) || (!Rejected(q) && MeetsPath(q, Next(xs)))
  {
    RoutedEscapes(q, rests, xs);
  }

  // ------------------------------------------------------- what the upstreams get

  // The model an account is asked for.
  function ModelFor(q: Request, role: Role): Option<Model> {
    if role.Fallback? && FallbackOf(q).Some? then Some(FallbackOf(q).value.upstreamModel) else ModelOf(q)
  }

  // The catalog gets the body as it came.  An account gets it with its own model and
  // without the one field that it does not support; a body that is no object comes as
  // it is.  With deferral, nothing but the tools differs from that.
  ghost predicate Carries(q: Request, role: Role, form: Form, payload: D.Body)
    requires q.body.Returned?
  {
    if role.CatalogRole? then payload == q.body.value
    else if form.Plain? then Addressed(q, role, payload)
    else exists plain :: Addressed(q, role, plain) && Defer(plain, payload, ResidentsOf(q))
  }

  ghost predicate Addressed(q: Request, role: Role, payload: D.Body)
    requires q.body.Returned?
  {
    && RequestModel(payload) == ModelFor(q, role)
    && if ModelOf(q).Some? then AgreesBut(q.body.value, payload, {D.Model, RETENTION}) else payload == q.body.value
  }

  // The tools have been transformed, or nothing has.
  ghost predicate Defer(plain: D.Body, payload: D.Body, residents: D.Names) {
    payload == plain ||
    (&& AgreesBut(plain, payload, {D.Tools})
     && D.HasItems(plain.document, D.Tools) && D.HasItems(payload.document, D.Tools)
     && D.ToolsTransformed(plain.document.fields[D.Tools].items, payload.document.fields[D.Tools].items, residents))
  }

  lemma PlainCarries(q: Request, role: Role)
    requires !role.CatalogRole? && q.body.Returned? && Asked(q, role).Returned?
    ensures Carries(q, role, Plain, Payload(q, role, Plain))
  {
    assert RETENTION != D.Model;
  }

  lemma DeferralCarries(q: Request, role: Role)
    requires !role.CatalogRole? && q.body.Returned? && Asked(q, role).Returned?
    ensures Carries(q, role, WithDeferral, Payload(q, role, WithDeferral))
  {
    var plain, residents := Payload(q, role, Plain), ResidentsOf(q);
    PlainCarries(q, role);
    if D.Transform(plain, residents).transformed {
      D.TransformKeepsTheRequest(plain, residents);
      KeptAgrees(plain, D.Transform(plain, residents).body);
    }
    assert Defer(plain, Payload(q, role, WithDeferral), residents);
  }

  lemma KeptAgrees(a: D.Body, b: D.Body)
    requires a.Parsed? && a.document.Object? && b.Parsed? && b.document.Object?
    requires b.document.fields - {D.Tools} == a.document.fields - {D.Tools}
    ensures AgreesBut(a, b, {D.Tools})
  {
    var x, y := a.document.fields - {D.Tools}, b.document.fields - {D.Tools};
    assert forall k :: k != D.Tools && k in a.document.fields ==> k in x && x[k] == a.document.fields[k];
    assert forall k :: k != D.Tools && k in b.document.fields ==> k in y && y[k] == b.document.fields[k];
  }

  /** Every call in a log carries the request: nothing of it is lost but the one field
      that is stripped, and nothing changed but the model and the deferred tools. */
  lemma CallsCarryTheRequest(q: Request, log: seq<Event>, states: seq<Summary>, i: nat)
    requires Reads(q, log, states) && i < |log| && log[i].Call?
    ensures q.body.Returned? && Carries(q, log[i].to, log[i].form, log[i].payload)
  {
    var e := log[i];
    assert Truthful(q, e);
    if !e.to.CatalogRole? {
      if e.form.Plain? {
        PlainCarries(q, e.to);
      } else {
        DeferralCarries(q, e.to);
      }
    }
  }

  // ------------------------------------------------- what an allowed log shows

  predicate ReachesClient(e: Event) {
    e.Head? || e.ErrorHead? || e.Wrote?
  }

  predicate IsHead(e: Event) {
    e.Head? || e.ErrorHead?
  }

  predicate IsEnd(e: Event) {
    e.Completed? || e.GaveUp?
  }

  function CallsIn(log: seq<Event>): nat {
    if log == [] then 0
    else CallsIn(log[..|log| - 1]) + if log[|log| - 1].Call? then 1 else 0
  }

  // What only grows, while allowed stays as it is or is lost.
  predicate Grows(s: Summary, t: Summary) {
    && (t.ok ==> s.ok) && s.heads <= t.heads && s.fallback <= t.fallback
    && |s.changes| <= |t.changes| && s.completed + s.failed <= t.completed + t.failed
  }

  lemma StepGrows(q: Request, s: Summary, e: Event)
    ensures Grows(s, After(q, s, e))
  {
  }

  lemma NextGrows(q: Request, log: seq<Event>, states: seq<Summary>, i: nat)
    requires Reads(q, log, states) && i < |log|
    ensures Grows(states[i], states[i + 1])
  {
    assert Truthful(q, log[i]);
    StepGrows(q, states[i], log[i]);
  }

  lemma {:induction false} CountsGrow(q: Request, log: seq<Event>, states: seq<Summary>, i: nat, j: nat)
    requires Reads(q, log, states) && i <= j <= |log|
    ensures Grows(states[i], states[j])
    decreases j - i
  {
    if i < j {
      CountsGrow(q, log, states, i, j - 1);
      NextGrows(q, log, states, j - 1);
    }
  }

  lemma OneStepAfterAnother(q: Request, s: Summary, e: Event, t: Summary, f: Event)
    requires After(q, s, e).heads <= t.heads && After(q, s, e).fallback <= t.fallback
    requires |After(q, s, e).changes| <= |t.changes|
    requires After(q, s, e).completed + After(q, s, e).failed <= t.completed + t.failed
    requires After(q, t, f).ok && After(q, s, e).ok
    ensures f.Call? ==> !ReachesClient(e)
    ensures f.Call? && f.to.Primary? ==> !(e.Call? && e.to.Fallback?)
    ensures IsHead(f) ==> !IsHead(e)
    ensures f.Wrote? ==> t.heads == 1
    ensures f.Changed? ==> !e.Changed?
    ensures IsEnd(f) ==> !IsEnd(e)
  {
  }

  /** In an allowed log no account is asked once a byte has gone to the client, the
      primary is never asked after the fallback, and there is one head, one change
      of the cooldowns and one end at most. */
  lemma AllowedOrder(q: Request, log: seq<Event>, states: seq<Summary>, i: nat, j: nat)
    requires Reads(q, log, states) && states[|log|].ok && i < j < |log|
    ensures log[j].Call? ==> !ReachesClient(log[i])
    ensures log[j].Call? && log[j].to.Primary? ==> !(log[i].Call? && log[i].to.Fallback?)
    ensures IsHead(log[j]) ==> !IsHead(log[i])
    ensures log[j].Wrote? ==> states[j].heads == 1
    ensures log[j].Changed? ==> !log[i].Changed?
    ensures IsEnd(log[j]) ==> !IsEnd(log[i])
  {
    CountsGrow(q, log, states, i + 1, j);
    CountsGrow(q, log, states, j + 1, |log|);
    assert states[i + 1] == After(q, states[i], log[i]);
    assert states[j + 1] == After(q, states[j], log[j]);
    StepGrows(q, states[j], log[j]);
    OneStepAfterAnother(q, states[i], log[i], states[j], log[j]);
  }

  lemma StepCounts(q: Request, s: Summary, e: Event)
    ensures Calls(After(q, s, e)) == Calls(s) + if e.Call? then 1 else 0
  {
  }

  lemma ReadsOfFront(q: Request, log: seq<Event>, states: seq<Summary>)
    requires Reads(q, log, states) && log != []
    ensures Reads(q, log[..|log| - 1], states[..|log|])
    ensures states[|log|] == After(q, states[|log| - 1], log[|log| - 1])
  {
    var front := log[..|log| - 1];
    assert forall i :: 0 <= i < |front| ==> front[i] == log[i];
    var last := log[|log| - 1];
    assert states[|log|] == After(q, states[|log| - 1], last);
  }

  lemma {:induction false} CallsAreCounted(q: Request, log: seq<Event>, states: seq<Summary>)
    requires Reads(q, log, states)
    ensures CallsIn(log) == Calls(states[|log|])
  {
    if log != [] {
      var n := |log| - 1;
      ReadsOfFront(q, log, states);
      CallsAreCounted(q, log[..n], states[..|log|]);
      StepCounts(q, states[n], log[n]);
    }
  }
}
