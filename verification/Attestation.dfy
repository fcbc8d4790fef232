/** The attestation gate of the recovery proxy (integrations/common/route_proxy.py):
    a cached proof that the upstream process is the expected one, refreshed by at
    most one thread at a time and dropped by any thread at any time.

    Each critical section is a function on the gate's fields; the class performs
    them on its own fields, and the machine below interleaves them for any number
    of threads.
 */
module Attestation {
  import opened Options

  datatype Gate = Gate(verifiedUntil: int, servicePid: Option<int>, refreshing: bool, generation: nat)

  const CLOSED := Gate(0, None, false, 0)

  // What a thread holding the lock decides: block, give up, pass, or prove.
  datatype Entry = Block | Reject | Pass | Prove(generation: nat)

  function Decide(g: Gate, observed: nat, now: int): Entry {
    if g.refreshing then Block
    else if g.generation != observed && g.servicePid.None? then Reject
    else if g.servicePid.Some? && g.verifiedUntil > now then Pass
    else Prove(g.generation)
  }

  function Enter(g: Gate, observed: nat, now: int): Gate {
    if Decide(g, observed, now).Prove? then g.(refreshing := true) else g
  }

  function FailRefresh(g: Gate): Gate {
    Gate(0, None, false, g.generation + 1)
  }

  function CompleteRefresh(g: Gate, generation: nat, pid: int, until: int): Gate {
    if g.generation != generation then g.(refreshing := false)
    else Gate(until, Some(pid), false, g.generation + 1)
  }

  function Drop(g: Gate): Gate {
    Gate(0, None, g.refreshing, g.generation + 1)
  }

  class AttestationGate {
    const ttlSeconds: int
    var verifiedUntil: int
    var servicePid: Option<int>
    var refreshing: bool
    var generation: nat

    ghost function Fields(): Gate
      reads this
    {
      Gate(verifiedUntil, servicePid, refreshing, generation)
    }

    constructor (ttlSeconds: int)
      ensures Fields() == CLOSED && this.ttlSeconds == ttlSeconds
    {
      this.ttlSeconds := ttlSeconds;
      verifiedUntil, servicePid, refreshing, generation := 0, None, false, 0;
    }

    // The locked part of verify, up to a wait, a return, a raise or a refresh.
    method TryEnter(observed: nat, now: int) returns (e: Entry)
      modifies this
      ensures e == Decide(old(Fields()), observed, now)
      ensures Fields() == Enter(old(Fields()), observed, now)
    {
      if refreshing {
        return Block;
      }
      if generation != observed && servicePid.None? {
        return Reject;
      }
      if servicePid.Some? && verifiedUntil > now {
        return Pass;
      }
      refreshing := true;
      e := Prove(generation);
    }

    method Refused()
      modifies this
      ensures Fields() == FailRefresh(old(Fields()))
    {
      servicePid := None;
      verifiedUntil := 0;
      refreshing := false;
      generation := generation + 1;
    }

    method Proved(refreshGeneration: nat, pid: int, now: int) returns (installed: bool)
      modifies this
      ensures installed == (old(generation) == refreshGeneration)
      ensures Fields() == CompleteRefresh(old(Fields()), refreshGeneration, pid, now + ttlSeconds)
    {
      if generation != refreshGeneration {
        refreshing := false;
        return false;
      }
      servicePid := Some(pid);
      verifiedUntil := now + ttlSeconds;
      refreshing := false;
      generation := generation + 1;
      installed := true;
    }

    method Invalidate()
      modifies this
      ensures Fields() == Drop(old(Fields()))
    {
      servicePid := None;
      verifiedUntil := 0;
      generation := generation + 1;
    }
  }

  // -------------------------------------------------------------------- threads

  // What one verify call has seen so far: verifier runs it made, invalidations.
  datatype Call = Call(runs: nat, drops: nat)

  datatype Thread =
    | Outside
    | AtTop(call: Call)
    | Waiting(observed: nat, since: nat, notified: bool, call: Call)
    | Proving(generation: nat, began: nat, dropsBefore: nat, call: Call)
    | Returned(call: Call)
    | Raised(call: Call)

  function Notify(t: Thread): Thread {
    if t.Waiting? then t.(notified := true) else t
  }

  function SeeDrop(t: Thread): Thread {
    if t.Outside? || t.Returned? || t.Raised? then t
    else Notify(t.(call := t.call.(drops := t.call.drops + 1)))
  }

  function NotifyAll(ts: map<nat, Thread>): (r: map<nat, Thread>)
    ensures r.Keys == ts.Keys && forall t :: t in ts ==> r[t] == Notify(ts[t])
  {
    map t | t in ts :: Notify(ts[t])
  }

  function SeeDropAll(ts: map<nat, Thread>): (r: map<nat, Thread>)
    ensures r.Keys == ts.Keys && forall t :: t in ts ==> r[t] == SeeDrop(ts[t])
  {
    map t | t in ts :: SeeDrop(ts[t])
  }

  // The verifier call behind the cached identity.
  datatype Proof = Proof(began: nat, pid: int, installedAt: int)

  /** The gate, the threads, the clock, and what happened so far.  moment counts
      the steps; holder is the thread that owns the current refresh.
   */
  datatype State = State(gate: Gate, threads: map<nat, Thread>, now: int,
                         moment: nat, holder: Option<nat>, proof: Option<Proof>,
                         lastDrop: nat, lastFailure: nat)

  datatype Action =
    | CallVerify(t: nat)
    | Look(t: nat)              // take the lock at the top of the loop
    | Wake(t: nat)              // return from the condition variable's wait
    | VerifierReturns(t: nat, pid: int)
    | VerifierRaises(t: nat)
    | Invalidate
    | Tick(seconds: nat)

  predicate Enabled(s: State, a: Action) {
    match a
    case CallVerify(t) => t in s.threads && (s.threads[t].Outside? || s.threads[t].Returned? || s.threads[t].Raised?)
    case Look(t) => t in s.threads && s.threads[t].AtTop?
    case Wake(t) => t in s.threads && s.threads[t].Waiting? && s.threads[t].notified
    case VerifierReturns(t, _) => t in s.threads && s.threads[t].Proving?
    case VerifierRaises(t) => t in s.threads && s.threads[t].Proving?
    case Invalidate => true
    case Tick(_) => true
  }

  // Thread t holds the lock, having observed a generation at moment since.
  function LockedPart(s: State, t: nat, observed: nat, since: nat, call: Call): State {
    var next := match Decide(s.gate, observed, s.now)
      case Block => Waiting(observed, since, false, call)
      case Reject => Raised(call)
      case Pass => Returned(call)
      case Prove(g) => Proving(g, s.moment, call.drops, call.(runs := call.runs + 1));
    s.(gate := Enter(s.gate, observed, s.now), threads := s.threads[t := next],
       holder := if next.Proving? then Some(t) else s.holder)
  }

  function RefreshFailed(s: State, t: nat, call: Call): State {
    s.(gate := FailRefresh(s.gate), threads := NotifyAll(s.threads[t := Raised(call)]),
       holder := None, proof := None, lastFailure := s.moment)
  }

  function RefreshCompleted(s: State, t: nat, pid: int, ttl: int): State
    requires t in s.threads && s.threads[t].Proving?
  {
    var p := s.threads[t];
    var installed := s.gate.generation == p.generation;
    var next := if installed then Returned(p.call) else AtTop(p.call);
    s.(gate := CompleteRefresh(s.gate, p.generation, pid, s.now + ttl),
       threads := NotifyAll(s.threads[t := next]), holder := None,
       proof := if installed then Some(Proof(p.began, pid, s.now)) else s.proof)
  }

  function Step(s: State, a: Action, ttl: int): State
    requires Enabled(s, a)
  {
    var r := match a
      case CallVerify(t) => s.(threads := s.threads[t := AtTop(Call(0, 0))])
      case Look(t) => LockedPart(s, t, s.gate.generation, s.moment, s.threads[t].call)
      case Wake(t) => LockedPart(s, t, s.threads[t].observed, s.threads[t].since, s.threads[t].call)
      case VerifierReturns(t, pid) =>
        if pid <= 0 then RefreshFailed(s, t, s.threads[t].call) else RefreshCompleted(s, t, pid, ttl)
      case VerifierRaises(t) => RefreshFailed(s, t, s.threads[t].call)
      case Invalidate => s.(gate := Drop(s.gate), threads := SeeDropAll(s.threads), proof := None, lastDrop := s.moment)
      case Tick(d) => s.(now := s.now + d);
    r.(moment := s.moment + 1)
  }

  // ------------------------------------------------------------------ invariant

  ghost predicate ThreadInv(s: State, t: nat)
    requires t in s.threads
  {
    match s.threads[t]
    case Outside => true
    case AtTop(c) => c.runs <= c.drops
    case Waiting(observed, since, notified, c) =>
      && c.runs <= c.drops
      && (notified || s.gate.refreshing)
      && (s.gate.generation == observed || s.gate.servicePid.Some? || since <= s.lastDrop || since <= s.lastFailure)
      && since < s.moment
    case Proving(g, began, before, c) =>
      && s.holder == Some(t)
      && c.runs <= before + 1
      && s.gate.generation - g == c.drops - before >= 0
      && began < s.moment && s.lastFailure < began
      && (s.gate.generation == g <==> s.lastDrop < began)
    case Returned(c) => c.runs <= c.drops + 1
    case Raised(c) => c.runs <= c.drops + 1
  }

  ghost predicate CacheInv(s: State, ttl: int) {
    match s.gate.servicePid
    case None => s.proof == None
    case Some(pid) =>
      s.proof.Some? && var p := s.proof.value;
      && p.pid == pid > 0
      && s.lastDrop < p.began && s.lastFailure < p.began
      && s.gate.verifiedUntil == p.installedAt + ttl
  }

  ghost predicate Inv(s: State, ttl: int) {
    && 0 < s.moment && s.lastDrop < s.moment && s.lastFailure < s.moment
    && s.gate.refreshing == s.holder.Some?
    && (s.holder.Some? ==> s.holder.value in s.threads && s.threads[s.holder.value].Proving?)
    && CacheInv(s, ttl)
    && forall t :: t in s.threads ==> ThreadInv(s, t)
  }

  function Initial(ids: set<nat>, now: int): State {
    State(CLOSED, map t | t in ids :: Outside, now, 1, None, None, 0, 0)
  }

  lemma {:induction false} LockedPartKeepsInv(s: State, t: nat, observed: nat, since: nat, call: Call, ttl: int)
    requires Inv(s, ttl) && t in s.threads && !s.threads[t].Proving?
    requires call.runs <= call.drops && since <= s.moment
    requires s.gate.generation == observed || s.gate.servicePid.Some? || since <= s.lastDrop || since <= s.lastFailure
    ensures var r := LockedPart(s, t, observed, since, call); Inv(r.(moment := s.moment + 1), ttl)
  {
    var r := LockedPart(s, t, observed, since, call).(moment := s.moment + 1);
    forall u | u in r.threads
      ensures ThreadInv(r, u)
    {
      if u != t {
        assert ThreadInv(s, u);
      }
    }
  }

  lemma {:induction false} RefreshKeepsInv(s: State, t: nat, a: Action, ttl: int)
    requires Inv(s, ttl) && Enabled(s, a)
    requires a == VerifierRaises(t) || (a.VerifierReturns? && a.t == t)
    ensures Inv(Step(s, a, ttl), ttl)
  {
    var r := Step(s, a, ttl);
    assert ThreadInv(s, t);
    forall u | u in r.threads
      ensures ThreadInv(r, u)
    {
      if u != t {
        assert ThreadInv(s, u);
      }
    }
  }

  lemma {:induction false} DropKeepsInv(s: State, ttl: int)
    requires Inv(s, ttl)
    ensures Inv(Step(s, Invalidate, ttl), ttl)
  {
    var r := Step(s, Invalidate, ttl);
    forall u | u in r.threads
      ensures ThreadInv(r, u)
    {
      assert ThreadInv(s, u);
    }
  }

  lemma {:induction false} QuietStepKeepsInv(s: State, a: Action, ttl: int)
    requires Inv(s, ttl) && Enabled(s, a) && (a.CallVerify? || a.Tick?)
    ensures Inv(Step(s, a, ttl), ttl)
  {
    var r := Step(s, a, ttl);
    forall u | u in r.threads
      ensures ThreadInv(r, u)
    {
      assert ThreadInv(s, u);
    }
  }

  lemma LookKeepsInv(s: State, t: nat, ttl: int)
    requires Inv(s, ttl) && Enabled(s, Look(t))
    ensures Inv(Step(s, Look(t), ttl), ttl)
  {
    assert ThreadInv(s, t) && t in s.threads;
    LockedPartKeepsInv(s, t, s.gate.generation, s.moment, s.threads[t].call, ttl);
  }

  lemma WakeKeepsInv(s: State, t: nat, ttl: int)
    requires Inv(s, ttl) && Enabled(s, Wake(t))
    ensures Inv(Step(s, Wake(t), ttl), ttl)
  {
    assert ThreadInv(s, t) && t in s.threads;
    LockedPartKeepsInv(s, t, s.threads[t].observed, s.threads[t].since, s.threads[t].call, ttl);
  }

  lemma {:induction false} StepKeepsInv(s: State, a: Action, ttl: int)
    requires Inv(s, ttl) && Enabled(s, a)
    ensures Inv(Step(s, a, ttl), ttl)
  {
    match a {
      case Look(t) => LookKeepsInv(s, t, ttl);
      case Wake(t) => WakeKeepsInv(s, t, ttl);
      case VerifierReturns(t, _) => RefreshKeepsInv(s, t, a, ttl);
      case VerifierRaises(t) => RefreshKeepsInv(s, t, a, ttl);
      case Invalidate => DropKeepsInv(s, ttl);
      case _ => QuietStepKeepsInv(s, a, ttl);
    }
  }

  // ----------------------------------------------------------------------- runs

  // Performs the enabled actions of a schedule in order and skips the others.
  function Run(s: State, actions: seq<Action>, ttl: int): State
    decreases |actions|
  {
    if actions == [] then s
    else Run(if Enabled(s, actions[0]) then Step(s, actions[0], ttl) else s, actions[1..], ttl)
  }

  lemma {:induction false} RunKeepsInv(s: State, actions: seq<Action>, ttl: int)
    requires Inv(s, ttl)
    ensures Inv(Run(s, actions, ttl), ttl)
    decreases |actions|
  {
    if actions != [] {
      if Enabled(s, actions[0]) {
        StepKeepsInv(s, actions[0], ttl);
        RunKeepsInv(Step(s, actions[0], ttl), actions[1..], ttl);
      } else {
        RunKeepsInv(s, actions[1..], ttl);
      }
    }
  }

  /** In every interleaving: the verifier is single flight and refreshing says
      exactly whether it runs; a waiter whose refresh has ended has been notified;
      a cached identity was proved by a call that began after the latest
      invalidation and the latest failed refresh; and a verify call runs the
      verifier at most once plus the invalidations during it.
   */
  lemma {:induction false} GateIsSafe(ids: set<nat>, start: int, actions: seq<Action>, ttl: int, t: nat, u: nat)
    requires t in ids && u in ids
    ensures var s := Run(Initial(ids, start), actions, ttl);
            && s.threads.Keys == ids
            && (s.threads[t].Proving? && s.threads[u].Proving? ==> t == u)
            && (s.threads[t].Proving? ==> s.gate.refreshing)
            && (s.gate.refreshing ==> exists v :: v in s.threads && s.threads[v].Proving?)
            && (s.threads[t].Waiting? && !s.gate.refreshing ==> s.threads[t].notified)
            && (s.gate.servicePid.Some? ==>
                  s.proof.Some? && s.proof.value.pid == s.gate.servicePid.value &&
                  s.lastDrop < s.proof.value.began && s.lastFailure < s.proof.value.began)
            && (!s.threads[t].Outside? ==> s.threads[t].call.runs <= s.threads[t].call.drops + 1)
  {
    var s0 := Initial(ids, start);
    RunKeepsInv(s0, actions, ttl);
    RunKeepsThreads(s0, actions, ttl);
    var s := Run(s0, actions, ttl);
    assert ThreadInv(s, t) && ThreadInv(s, u);
  }

  lemma {:induction false} RunKeepsThreads(s: State, actions: seq<Action>, ttl: int)
    ensures Run(s, actions, ttl).threads.Keys == s.threads.Keys
    decreases |actions|
  {
    if actions != [] {
      var next := if Enabled(s, actions[0]) then Step(s, actions[0], ttl) else s;
      RunKeepsThreads(next, actions[1..], ttl);
    }
  }

  // A step of thread t that ends its call without running the verifier.
  predicate PassedWithoutProof(s: State, a: Action, ttl: int)
    requires Enabled(s, a)
  {
    (a.Look? || a.Wake?) && Step(s, a, ttl).threads[a.t].Returned?
  }

  predicate RejectedWithoutProof(s: State, a: Action, ttl: int)
    requires Enabled(s, a)
  {
    (a.Look? || a.Wake?) && Step(s, a, ttl).threads[a.t].Raised?
  }

  /** A return from the cache happens before the proof's installation time plus
      ttl, on a proof that no invalidation and no failed refresh has overtaken.
   */
  lemma CacheReturnIsFresh(s: State, a: Action, ttl: int)
    requires Inv(s, ttl) && Enabled(s, a) && PassedWithoutProof(s, a, ttl)
    ensures s.proof.Some? && s.now < s.proof.value.installedAt + ttl
    ensures s.lastDrop < s.proof.value.began && s.lastFailure < s.proof.value.began
    ensures s.gate.servicePid == Some(s.proof.value.pid) && !s.gate.refreshing
  {
    assert ThreadInv(s, a.t);
  }

  /** A thread that raises without its own verifier call failing has waited, and
      a refresh failed or the gate was invalidated while it did.
   */
  lemma RejectionHasACause(s: State, a: Action, ttl: int)
    requires Inv(s, ttl) && Enabled(s, a) && RejectedWithoutProof(s, a, ttl)
    ensures a.Wake? && (s.threads[a.t].since <= s.lastFailure || s.threads[a.t].since <= s.lastDrop)
    ensures s.proof == None
  {
    assert ThreadInv(s, a.t);
  }

  // A proof that no drop and no failed refresh has ended, and whose time has not run out.
  predicate Current(s: State, ttl: int) {
    s.proof.Some? && s.now < s.proof.value.installedAt + ttl
  }

  /** Exactly what a thread does that gets the lock.  It waits while somebody proves;
      else it raises if it has waited and nothing is proved since; else it returns, with
      no run of the verifier, exactly on a current proof; and else it runs the verifier.
      Nobody else is moved.
   */
  lemma LockedThreadDoes(s: State, a: Action, ttl: int)
    requires Inv(s, ttl) && Enabled(s, a) && (a.Look? || a.Wake?)
    ensures var call, before := s.threads[a.t].call, s.threads[a.t];
            var after := Step(s, a, ttl);
            && (forall u :: u in s.threads && u != a.t ==> after.threads[u] == s.threads[u])
            && after.proof == s.proof
            && if s.gate.refreshing then
                 && after.threads[a.t].Waiting? && !after.threads[a.t].notified && after.threads[a.t].call == call
                 && after.gate == s.gate
               else if a.Wake? && before.observed != s.gate.generation && s.proof.None? then
                 after.threads[a.t] == Raised(call) && after.gate == s.gate
               else if Current(s, ttl) then
                 after.threads[a.t] == Returned(call) && after.gate == s.gate
               else
                 && after.threads[a.t].Proving? && after.threads[a.t].generation == s.gate.generation
                 && after.threads[a.t].call == Call(call.runs + 1, call.drops)
                 && after.gate == s.gate.(refreshing := true)
  {
    assert ThreadInv(s, a.t);
  }

  /** What may happen besides, and what it does: a call begins in a thread that is in
      none; a drop empties the cache, is seen by every call and wakes every waiter; and
      only a waiter that was notified wakes.
   */
  lemma OtherActionsDo(s: State, t: nat, ttl: int)
    requires t in s.threads
    ensures Enabled(s, CallVerify(t)) <==> !s.threads[t].AtTop? && !s.threads[t].Waiting? && !s.threads[t].Proving?
    ensures Enabled(s, CallVerify(t)) ==>
      Step(s, CallVerify(t), ttl) == s.(threads := s.threads[t := AtTop(Call(0, 0))], moment := s.moment + 1)
    ensures Enabled(s, Wake(t)) <==> s.threads[t].Waiting? && s.threads[t].notified
    ensures Enabled(s, VerifierRaises(t)) <==> s.threads[t].Proving?
    ensures Enabled(s, Invalidate)
    ensures var after, thread := Step(s, Invalidate, ttl), s.threads[t];
            && after.gate.servicePid.None? && after.proof.None? && after.lastDrop == s.moment
            && after.gate.refreshing == s.gate.refreshing && after.now == s.now
            && match thread
               case AtTop(call) => after.threads[t] == AtTop(Call(call.runs, call.drops + 1))
               case Waiting(observed, since, _, call) =>
                 after.threads[t] == Waiting(observed, since, true, Call(call.runs, call.drops + 1))
               case Proving(g, began, before, call) =>
                 after.threads[t] == Proving(g, began, before, Call(call.runs, call.drops + 1))
               case _ => after.threads[t] == thread
    ensures forall d: nat :: Enabled(s, Tick(d)) && Step(s, Tick(d), ttl).gate == s.gate
  {
  }

  /** A verifier that finds the process installs its proof, for every thread to pass on,
      exactly if nothing was dropped while it ran; if not, its thread tries again.
   */
  lemma ProofIsInstalledWhen(s: State, t: nat, pid: int, ttl: int)
    requires Inv(s, ttl) && Enabled(s, VerifierReturns(t, pid)) && pid > 0
    ensures var after, call := Step(s, VerifierReturns(t, pid), ttl), s.threads[t].call;
            && !after.gate.refreshing
            && if s.lastDrop < s.threads[t].began then
                 && after.threads[t] == Returned(call)
                 && after.proof == Some(Proof(s.threads[t].began, pid, s.now))
                 && (Current(after, ttl) <==> ttl > 0)
               else
                 after.threads[t] == AtTop(call) && after.proof == s.proof
  {
    assert ThreadInv(s, t);
  }

  /** Nobody is stuck: a thread inside verify can move unless it waits for a
      verifier that is running right now.
   */
  lemma NoLostWakeup(s: State, t: nat, ttl: int)
    requires Inv(s, ttl) && t in s.threads
    requires s.threads[t].AtTop? || s.threads[t].Waiting?
    ensures Enabled(s, Look(t)) || Enabled(s, Wake(t)) || (s.holder.Some? && Enabled(s, VerifierRaises(s.holder.value)))
  {
    assert ThreadInv(s, t);
  }
}
