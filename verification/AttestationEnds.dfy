/** Every verify call of the attestation gate ends: whatever the schedule, the work
    inside verify is bounded by the calls and the invalidations there are, and as
    long as a call has not ended there is work that can be done.
 */
module AttestationEnds {
  import opened Attestation

  // A step of a thread inside verify; the others are the world's.
  predicate IsWork(a: Action) {
    a.Look? || a.Wake? || a.VerifierReturns? || a.VerifierRaises?
  }

  predicate Ended(t: Thread) {
    t.Outside? || t.Returned? || t.Raised?
  }

  // The refreshes that a thread may still end, if there are as many invalidations to
  // come: its current one, and one more for each that spoils it.
  function RefreshesLeft(g: Gate, t: Thread, drops: nat): nat {
    match t
    case AtTop(_) => 1 + drops
    case Waiting(_, _, _, _) => 1 + drops
    case Proving(generation, _, _, _) => 1 + drops + if generation == g.generation then 0 else 1
    case _ => 0
  }

  // So many times the cost.
  function Times(k: nat, cost: nat): nat {
    if k == 0 then 0 else Times(k - 1, cost) + cost
  }

  lemma {:induction false} TimesLess(j: nat, k: nat, cost: nat)
    requires j <= k
    ensures Times(j, cost) <= Times(k, cost)
    ensures j < k ==> Times(j, cost) + cost <= Times(k, cost)
  {
    if j < k {
      TimesLess(j, k - 1, cost);
    }
  }

  lemma {:induction false} TimesCheaper(k: nat, low: nat, high: nat)
    requires low <= high
    ensures Times(k, low) <= Times(k, high)
  {
    if k > 0 {
      TimesCheaper(k - 1, low, high);
    }
  }

  // Each end of a refresh is a step and wakes every thread at most.
  function Weight(g: Gate, t: Thread, drops: nat, n: nat): nat {
    Times(RefreshesLeft(g, t, drops), n + 2) + if t.AtTop? || (t.Waiting? && t.notified) then 1 else 0
  }

  ghost predicate Lists(ids: seq<nat>, s: State) {
    && (forall i, j :: 0 <= i < j < |ids| ==> ids[i] != ids[j])
    && (forall t :: t in ids <==> t in s.threads)
  }

  function Weights(s: State, ids: seq<nat>, drops: nat): (w: seq<nat>)
    requires forall t :: t in ids ==> t in s.threads
    ensures |w| == |ids|
    ensures forall i :: 0 <= i < |ids| ==> w[i] == Weight(s.gate, s.threads[ids[i]], drops, |ids|)
  {
    seq(|ids|, i requires 0 <= i < |ids| => Weight(s.gate, s.threads[ids[i]], drops, |ids|))
  }

  function Sum(w: seq<nat>): nat {
    if w == [] then 0 else Sum(w[..|w| - 1]) + w[|w| - 1]
  }

  // The steps that one more call brings.
  function CallCost(n: nat, drops: nat): nat {
    Times(1 + drops, n + 2) + 1
  }

  // The steps that may still be taken inside verify, with so many calls and
  // invalidations to come.
  function StepsLeft(s: State, ids: seq<nat>, calls: nat, drops: nat): nat
    requires forall t :: t in ids ==> t in s.threads
  {
    Sum(Weights(s, ids, drops)) + Times(calls, CallCost(|ids|, drops)) + Times(drops, |ids|)
  }

  // ------------------------------------------------------------------------ sums

  lemma {:induction false} SumGrows(v: seq<nat>, w: seq<nat>, c: nat)
    requires |v| == |w| && c <= 1 && forall i :: 0 <= i < |v| ==> w[i] <= v[i] + c
    ensures Sum(w) <= Sum(v) + if c == 1 then |v| else 0
  {
    if v != [] {
      SumGrows(v[..|v| - 1], w[..|v| - 1], c);
    }
  }

  // One summand falls by m, and no other grows by more than c.
  lemma {:induction false} SumFalls(v: seq<nat>, w: seq<nat>, k: nat, m: nat, c: nat)
    requires |v| == |w| && c <= 1 && k < |v| && w[k] + m <= v[k]
    requires forall i :: 0 <= i < |v| && i != k ==> w[i] <= v[i] + c
    ensures Sum(w) + m <= Sum(v) + if c == 1 then |v| - 1 else 0
  {
    var n := |v| - 1;
    if k == n {
      SumGrows(v[..n], w[..n], c);
    } else {
      SumFalls(v[..n], w[..n], k, m, c);
    }
  }

  lemma {:induction false} SumRises(v: seq<nat>, w: seq<nat>, k: nat, m: nat)
    requires |v| == |w| && k < |v| && w[k] <= v[k] + m
    requires forall i :: 0 <= i < |v| && i != k ==> w[i] <= v[i]
    ensures Sum(w) <= Sum(v) + m
  {
    var n := |v| - 1;
    if k == n {
      SumGrows(v[..n], w[..n], 0);
    } else {
      SumRises(v[..n], w[..n], k, m);
    }
  }

  // ----------------------------------------------------------------------- steps

  // Taking the lock uses up the reason to: the first look, or the notification.
  lemma LookWeighs(s: State, a: Action, u: nat, drops: nat, n: nat, ttl: int)
    requires Enabled(s, a) && (a.Look? || a.Wake?) && u in s.threads
    requires u != a.t && s.threads[u].Proving? ==> s.gate.refreshing
    ensures var r := Step(s, a, ttl);
            var v, w := Weight(s.gate, s.threads[u], drops, n), Weight(r.gate, r.threads[u], drops, n);
            if u == a.t then w + 1 <= v else w == v
  {
  }

  lemma LookOrWakeCounts(s: State, a: Action, ids: seq<nat>, calls: nat, drops: nat, ttl: int)
    requires Inv(s, ttl) && Enabled(s, a) && Lists(ids, s) && (a.Look? || a.Wake?)
    ensures Lists(ids, Step(s, a, ttl))
    ensures StepsLeft(Step(s, a, ttl), ids, calls, drops) < StepsLeft(s, ids, calls, drops)
  {
    var k :| 0 <= k < |ids| && ids[k] == a.t;
    var v, w := Weights(s, ids, drops), Weights(Step(s, a, ttl), ids, drops);
    forall i | 0 <= i < |ids|
      ensures if i == k then w[i] + 1 <= v[i] else w[i] <= v[i]
    {
      assert ThreadInv(s, ids[i]);
      LookWeighs(s, a, ids[i], drops, |ids|, ttl);
    }
    SumFalls(v, w, k, 1, 0);
  }

  // A refresh that ends is one less to end, for its thread; the others wake at most.
  lemma RefreshWeighs(s: State, a: Action, u: nat, drops: nat, n: nat, ttl: int)
    requires Inv(s, ttl) && Enabled(s, a) && (a.VerifierReturns? || a.VerifierRaises?) && u in s.threads
    ensures var r := Step(s, a, ttl);
            var v, w := Weight(s.gate, s.threads[u], drops, n), Weight(r.gate, r.threads[u], drops, n);
            if u == a.t then w + n + 1 <= v else w <= v + 1
  {
    var r := Step(s, a, ttl);
    assert ThreadInv(s, u) && ThreadInv(s, a.t);
    if u == a.t {
      TimesLess(RefreshesLeft(r.gate, r.threads[u], drops), RefreshesLeft(s.gate, s.threads[u], drops), n + 2);
    }
  }

  lemma RefreshCounts(s: State, a: Action, ids: seq<nat>, calls: nat, drops: nat, ttl: int)
    requires Inv(s, ttl) && Enabled(s, a) && Lists(ids, s) && (a.VerifierReturns? || a.VerifierRaises?)
    ensures Lists(ids, Step(s, a, ttl))
    ensures StepsLeft(Step(s, a, ttl), ids, calls, drops) < StepsLeft(s, ids, calls, drops)
  {
    var r := Step(s, a, ttl);
    var k :| 0 <= k < |ids| && ids[k] == a.t;
    var v, w := Weights(s, ids, drops), Weights(r, ids, drops);
    forall i | 0 <= i < |ids|
      ensures if i == k then w[i] + |ids| + 1 <= v[i] else w[i] <= v[i] + 1
    {
      RefreshWeighs(s, a, ids[i], drops, |ids|, ttl);
    }
    SumFalls(v, w, k, |ids| + 1, 1);
  }

  lemma CallCounts(s: State, t: nat, ids: seq<nat>, calls: nat, drops: nat, ttl: int)
    requires Inv(s, ttl) && Enabled(s, CallVerify(t)) && Lists(ids, s) && calls > 0
    ensures Lists(ids, Step(s, CallVerify(t), ttl))
    ensures StepsLeft(Step(s, CallVerify(t), ttl), ids, calls - 1, drops) <= StepsLeft(s, ids, calls, drops)
  {
    var r := Step(s, CallVerify(t), ttl);
    var k :| 0 <= k < |ids| && ids[k] == t;
    SumRises(Weights(s, ids, drops), Weights(r, ids, drops), k, CallCost(|ids|, drops));
  }

  // An invalidation spoils the current refresh, but is one less to come.
  lemma DropWeighs(s: State, u: nat, drops: nat, n: nat, ttl: int)
    requires Inv(s, ttl) && u in s.threads && drops > 0
    ensures var r := Step(s, Invalidate, ttl);
            Weight(r.gate, r.threads[u], drops - 1, n) <= Weight(s.gate, s.threads[u], drops, n) + 1
  {
    var r := Step(s, Invalidate, ttl);
    assert ThreadInv(s, u);
    TimesLess(RefreshesLeft(r.gate, r.threads[u], drops - 1), RefreshesLeft(s.gate, s.threads[u], drops), n + 2);
  }

  lemma DropCounts(s: State, ids: seq<nat>, calls: nat, drops: nat, ttl: int)
    requires Inv(s, ttl) && Lists(ids, s) && drops > 0
    ensures Lists(ids, Step(s, Invalidate, ttl))
    ensures StepsLeft(Step(s, Invalidate, ttl), ids, calls, drops - 1) <= StepsLeft(s, ids, calls, drops)
  {
    var n := |ids|;
    var v, w := Weights(s, ids, drops), Weights(Step(s, Invalidate, ttl), ids, drops - 1);
    forall i | 0 <= i < n
      ensures w[i] <= v[i] + 1
    {
      DropWeighs(s, ids[i], drops, n, ttl);
    }
    SumGrows(v, w, 1);
    TimesLess(drops, 1 + drops, n + 2);
    TimesCheaper(calls, CallCost(n, drops - 1), CallCost(n, drops));
  }

  // ----------------------------------------------------------------------- runs

  // The calls of a schedule, or its invalidations.
  function Count(actions: seq<Action>, calls: bool): nat {
    if actions == [] then 0
    else
      var counts := if calls then actions[0].CallVerify? else actions[0].Invalidate?;
      Count(actions[1..], calls) + if counts then 1 else 0
  }

  // The steps inside verify that a schedule takes.
  function Work(s: State, actions: seq<Action>, ttl: int): nat
    decreases |actions|
  {
    if actions == [] then 0
    else if !Enabled(s, actions[0]) then Work(s, actions[1..], ttl)
    else Work(Step(s, actions[0], ttl), actions[1..], ttl) + if IsWork(actions[0]) then 1 else 0
  }

  lemma StepCounts(s: State, a: Action, ids: seq<nat>, calls: nat, drops: nat, ttl: int)
    requires Inv(s, ttl) && Enabled(s, a) && Lists(ids, s)
    requires (a.CallVerify? ==> calls > 0) && (a.Invalidate? ==> drops > 0)
    ensures Lists(ids, Step(s, a, ttl))
    ensures var left := StepsLeft(Step(s, a, ttl), ids, if a.CallVerify? then calls - 1 else calls,
                                  if a.Invalidate? then drops - 1 else drops);
            left + (if IsWork(a) then 1 else 0) <= StepsLeft(s, ids, calls, drops)
  {
    match a {
      case CallVerify(t) => CallCounts(s, t, ids, calls, drops, ttl);
      case Look(_) => LookOrWakeCounts(s, a, ids, calls, drops, ttl);
      case Wake(_) => LookOrWakeCounts(s, a, ids, calls, drops, ttl);
      case Invalidate => DropCounts(s, ids, calls, drops, ttl);
      case Tick(_) => assert Weights(Step(s, a, ttl), ids, drops) == Weights(s, ids, drops);
      case _ => RefreshCounts(s, a, ids, calls, drops, ttl);
    }
  }

  lemma {:induction false} WorkIsBounded(s: State, ids: seq<nat>, actions: seq<Action>, calls: nat, drops: nat,
                                        ttl: int)
    requires Inv(s, ttl) && Lists(ids, s) && Count(actions, true) <= calls && Count(actions, false) <= drops
    ensures Work(s, actions, ttl) <= StepsLeft(s, ids, calls, drops)
    decreases |actions|
  {
    if actions != [] {
      var a, rest := actions[0], actions[1..];
      if Enabled(s, a) {
        var c, d := if a.CallVerify? then calls - 1 else calls, if a.Invalidate? then drops - 1 else drops;
        StepCounts(s, a, ids, calls, drops, ttl);
        StepKeepsInv(s, a, ttl);
        WorkIsBounded(Step(s, a, ttl), ids, rest, c, d, ttl);
      } else {
        WorkIsBounded(s, ids, rest, calls, drops, ttl);
      }
    }
  }

  lemma NothingWeighsAtFirst(ids: set<nat>, start: int, list: seq<nat>, drops: nat, w: seq<nat>)
    requires forall t :: t in list ==> t in ids
    requires w == Weights(Initial(ids, start), list, drops)
    ensures Sum(w) == 0
  {
    AllZero(w);
  }

  lemma {:induction false} AllZero(w: seq<nat>)
    requires forall i :: 0 <= i < |w| ==> w[i] == 0
    ensures Sum(w) == 0
  {
    if w != [] {
      AllZero(w[..|w| - 1]);
    }
  }

  /** From the start, whatever the schedule, the threads take no more steps inside
      verify than the calls and the invalidations in it pay for.
   */
  lemma VerifyEnds(ids: set<nat>, list: seq<nat>, start: int, actions: seq<Action>, ttl: int)
    requires Lists(list, Initial(ids, start))
    ensures var calls, drops := Count(actions, true), Count(actions, false);
            Work(Initial(ids, start), actions, ttl)
            <= Times(calls, CallCost(|list|, drops)) + Times(drops, |list|)
  {
    var s := Initial(ids, start);
    var calls, drops := Count(actions, true), Count(actions, false);
    WorkIsBounded(s, list, actions, calls, drops, ttl);
    NothingWeighsAtFirst(ids, start, list, drops, Weights(s, list, drops));
  }

  /** And as long as a call has not ended, some thread can take such a step: a
      schedule that never leaves them all waiting ends every call.
   */
  lemma UnendedCanMove(s: State, t: nat, ttl: int) returns (a: Action)
    requires Inv(s, ttl) && t in s.threads && !Ended(s.threads[t])
    ensures Enabled(s, a) && IsWork(a)
  {
    assert ThreadInv(s, t);
    if s.threads[t].AtTop? {
      a := Look(t);
    } else if s.threads[t].Proving? {
      a := VerifierRaises(t);
    } else if s.threads[t].notified {
      a := Wake(t);
    } else {
      a := VerifierRaises(s.holder.value);
    }
  }

  /** So a schedule after which no such step is left has ended every call. */
  lemma QuietIsEnded(ids: set<nat>, start: int, actions: seq<Action>, ttl: int)
    requires forall a :: Enabled(Run(Initial(ids, start), actions, ttl), a) ==> !IsWork(a)
    ensures var s := Run(Initial(ids, start), actions, ttl);
            forall t :: t in s.threads ==> Ended(s.threads[t])
  {
    var s := Run(Initial(ids, start), actions, ttl);
    RunKeepsInv(Initial(ids, start), actions, ttl);
    forall t | t in s.threads
      ensures Ended(s.threads[t])
    {
      if !Ended(s.threads[t]) {
        var a := UnendedCanMove(s, t, ttl);
      }
    }
  }
}
