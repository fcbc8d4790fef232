/** Clearing and removing logical sessions
    (integrations/common/orichum_sessions.py), whose parents form a forest unless
    the stored bindings are damaged.
 */
module Sessions {
  import opened Options

  type Id = string

  type Parents = map<Id, Option<Id>>

  // The k-th ancestor of a session, as far as its ancestors are present.
  function Up(p: Parents, id: Id, k: nat): Option<Id>
    decreases k
  {
    if id !in p then None
    else if k == 0 then Some(id)
    else if p[id].None? then None
    else Up(p, p[id].value, k - 1)
  }

  lemma {:induction false} UpAgain(p: Parents, id: Id, j: nat, k: nat)
    requires Up(p, id, j).Some?
    ensures Up(p, id, j + k) == Up(p, Up(p, id, j).value, k)
    decreases j
  {
    if j > 0 {
      UpAgain(p, p[id].value, j - 1, k);
    }
  }

  lemma {:induction false} UpIsPresent(p: Parents, id: Id, k: nat)
    ensures Up(p, id, k).Some? ==> Up(p, id, k).value in p
    decreases k
  {
    if k > 0 && id in p && p[id].Some? {
      UpIsPresent(p, p[id].value, k - 1);
    }
  }

  lemma {:induction false} UpStops(p: Parents, id: Id, j: nat, k: nat)
    requires j <= k && Up(p, id, j).None?
    ensures Up(p, id, k).None?
    decreases j
  {
    if j > 0 && id in p && p[id].Some? {
      UpStops(p, p[id].value, j - 1, k - 1);
    }
  }

  ghost predicate IsAncestor(p: Parents, a: Id, id: Id) {
    exists k: nat :: Up(p, id, k) == Some(a)
  }

  // Following parents never ends, which is what a cyclic ancestry means.
  ghost predicate Endless(p: Parents, id: Id) {
    forall k: nat :: Up(p, id, k).Some?
  }

  ghost predicate HasDepth(p: Parents, id: Id, d: nat) {
    Up(p, id, d).Some? && Up(p, id, d + 1).None?
  }

  lemma OneDepth(p: Parents, id: Id, d: nat, e: nat)
    requires HasDepth(p, id, d) && HasDepth(p, id, e)
    ensures d == e
  {
    if d < e {
      UpStops(p, id, d + 1, e);
    } else if e < d {
      UpStops(p, id, e + 1, d);
    }
  }

  lemma DepthOfParent(p: Parents, id: Id, d: nat, e: nat)
    requires id in p && p[id].Some? && p[id].value in p
    requires HasDepth(p, id, d) && HasDepth(p, p[id].value, e)
    ensures d == e + 1
  {
    assert Up(p, id, e + 1) == Up(p, p[id].value, e);
    assert Up(p, id, e + 2) == Up(p, p[id].value, e + 1);
    OneDepth(p, id, d, e + 1);
  }

  lemma {:induction false} ReturningIsEndless(p: Parents, id: Id, j: nat, m: nat, k: nat)
    requires j < m && Up(p, id, j).Some? && Up(p, id, m) == Up(p, id, j)
    ensures Up(p, id, k).Some?
    decreases k
  {
    if k <= m {
      if Up(p, id, k).None? {
        UpStops(p, id, k, m);
      }
    } else {
      UpAgain(p, id, m, k - m);
      UpAgain(p, id, j, k - m);
      ReturningIsEndless(p, id, j, m, k - m + j);
    }
  }

  // --------------------------------------------------------------- retained sessions

  ghost predicate IsRetained(p: Parents, active: set<Id>, a: Id) {
    exists id :: id in active && id in p && IsAncestor(p, a, id)
  }

  ghost predicate ParentRetained(p: Parents, retained: set<Id>, a: Id) {
    a in p && p[a].Some? && p[a].value in p ==> p[a].value in retained
  }

  lemma {:induction false} ClosedHoldsAncestors(p: Parents, retained: set<Id>, id: Id, k: nat)
    requires forall a :: a in retained ==> ParentRetained(p, retained, a)
    requires id in retained && Up(p, id, k).Some?
    ensures Up(p, id, k).value in retained
    decreases k
  {
    if k > 0 {
      assert ParentRetained(p, retained, id);
      assert p[id].value in p;
      ClosedHoldsAncestors(p, retained, p[id].value, k - 1);
    }
  }

  lemma ParentIsRetained(p: Parents, active: set<Id>, a: Id)
    requires IsRetained(p, active, a) && a in p && p[a].Some? && p[a].value in p
    ensures IsRetained(p, active, p[a].value)
  {
    var id :| id in active && id in p && IsAncestor(p, a, id);
    var k: nat :| Up(p, id, k) == Some(a);
    UpAgain(p, id, k, 1);
    assert Up(p, a, 1) == Some(p[a].value) by {
      assert Up(p, p[a].value, 0) == Some(p[a].value);
    }
    assert Up(p, id, k + 1) == Some(p[a].value);
    assert IsAncestor(p, p[a].value, id);
  }

  function SetOf(ids: seq<Id>): set<Id> {
    set id | id in ids
  }

  ghost predicate OnlyRetained(p: Parents, roots: set<Id>, retained: set<Id>) {
    forall a :: a in retained ==> IsRetained(p, roots, a)
  }

  // What is retained and not waiting to be looked at has its parent retained.
  ghost predicate Explored(p: Parents, retained: set<Id>, pending: seq<Id>) {
    && (forall id :: id in pending ==> id in retained)
    && (forall a :: a in retained && a !in pending ==> ParentRetained(p, retained, a))
  }

  lemma RootsAreRetained(p: Parents, roots: set<Id>)
    requires roots <= p.Keys
    ensures OnlyRetained(p, roots, roots)
  {
    forall id | id in roots
      ensures IsRetained(p, roots, id)
    {
      assert Up(p, id, 0) == Some(id);
      assert IsAncestor(p, id, id);
    }
  }

  lemma RetainingParent(p: Parents, roots: set<Id>, retained: set<Id>, id: Id)
    requires OnlyRetained(p, roots, retained) && id in retained && id in p && p[id].Some? && p[id].value in p
    ensures OnlyRetained(p, roots, retained + {p[id].value})
  {
    ParentIsRetained(p, roots, id);
  }

  lemma ExploringOne(p: Parents, retained: set<Id>, rest: seq<Id>, id: Id)
    requires Explored(p, retained, rest + [id]) && id in p
    ensures id in retained
    ensures ParentRetained(p, retained, id) ==> Explored(p, retained, rest)
    ensures p[id].Some? ==> Explored(p, retained + {p[id].value}, rest + [p[id].value])
  {
    assert id in rest + [id];
    forall a | a in retained && a !in rest && a != id
      ensures ParentRetained(p, retained, a)
    {
      assert a !in rest + [id];
    }
    if p[id].Some? {
      var more, next := retained + {p[id].value}, rest + [p[id].value];
      forall a | a in next
        ensures a in more
      {
        if a != p[id].value {
          assert a in rest;
          assert a in rest + [id];
        }
      }
      forall a | a in more && a !in next
        ensures ParentRetained(p, more, a)
      {
        assert p[id].value in next;
        assert a !in rest;
      }
    }
  }

  lemma ExploredIsEverything(p: Parents, roots: set<Id>, retained: set<Id>)
    requires roots <= retained && Explored(p, retained, [])
    ensures forall a :: IsRetained(p, roots, a) ==> a in retained
  {
    forall a | IsRetained(p, roots, a)
      ensures a in retained
    {
      var id :| id in roots && id in p && IsAncestor(p, a, id);
      var k: nat :| Up(p, id, k) == Some(a);
      ClosedHoldsAncestors(p, retained, id, k);
    }
  }

  // One turn of the worklist.
  method Look(p: Parents, ghost roots: set<Id>, retained: set<Id>, pending: seq<Id>)
    returns (more: set<Id>, rest: seq<Id>)
    requires pending != [] && retained <= p.Keys
    requires OnlyRetained(p, roots, retained) && Explored(p, retained, pending)
    ensures retained <= more <= p.Keys
    ensures OnlyRetained(p, roots, more) && Explored(p, more, rest)
    ensures (retained == more && |rest| < |pending|) || p.Keys - more < p.Keys - retained
  {
    var id := pending[|pending| - 1];
    more, rest := retained, pending[..|pending| - 1];
    assert pending == rest + [id];
    ExploringOne(p, retained, rest, id);
    var parent := p[id];
    if parent.Some? && parent.value in p && parent.value !in retained {
      RetainingParent(p, roots, retained, id);
      assert parent.value in p.Keys - retained;
      more, rest := retained + {parent.value}, rest + [parent.value];
    }
  }

  /** The worklist: the active sessions and exactly their ancestors are retained. */
  method Retained(p: Parents, active: seq<Id>) returns (retained: set<Id>)
    requires forall id :: id in active ==> id in p
    ensures retained <= p.Keys
    ensures forall a :: a in retained <==> IsRetained(p, SetOf(active), a)
  {
    ghost var roots := SetOf(active);
    retained := SetOf(active);
    var pending := active;
    RootsAreRetained(p, roots);
    while pending != []
      invariant roots <= retained <= p.Keys
      invariant OnlyRetained(p, roots, retained) && Explored(p, retained, pending)
      decreases p.Keys - retained, |pending|
    {
      retained, pending := Look(p, roots, retained, pending);
    }
    ExploredIsEverything(p, roots, retained);
  }

  // -------------------------------------------------------------------------- depth

  /** The depth of a session, or None if its ancestry is cyclic. */
  method SessionDepth(p: Parents, id: Id) returns (depth: Option<nat>)
    requires id in p
    ensures depth.Some? ==> HasDepth(p, id, depth.value)
    ensures depth.None? <==> Endless(p, id)
  {
    var seen := {id};
    var value: nat := 0;
    var current := id;
    while p[current].Some? && p[current].value in p
      invariant current in p && Up(p, id, value) == Some(current)
      invariant seen <= p.Keys
      invariant forall a :: a in seen ==> exists j: nat :: j <= value && Up(p, id, j) == Some(a)
      decreases p.Keys - seen
    {
      var parent := p[current].value;
      UpAgain(p, id, value, 1);
      assert Up(p, current, 1) == Some(parent) by {
        assert Up(p, parent, 0) == Some(parent);
      }
      if parent in seen {
        var j: nat :| j <= value && Up(p, id, j) == Some(parent);
        forall k: nat
          ensures Up(p, id, k).Some?
        {
          ReturningIsEndless(p, id, j, value + 1, k);
        }
        return None;
      }
      seen := seen + {parent};
      value := value + 1;
      current := parent;
    }
    UpAgain(p, id, value, 1);
    assert Up(p, current, 1).None?;
    depth := Some(value);
  }

  // ------------------------------------------------------------------------ deletion

  type Depths = map<Id, nat>

  ghost predicate Distinct(ids: seq<Id>) {
    forall i, j :: 0 <= i < j < |ids| ==> ids[i] != ids[j]
  }

  ghost predicate Sorted(ids: seq<Id>, depth: Depths) {
    && (forall i :: 0 <= i < |ids| ==> ids[i] in depth)
    && forall i, j :: 0 <= i < j < |ids| ==> depth[ids[i]] >= depth[ids[j]]
  }

  // Behind every session at least as deep, as a stable sort in reverse does.
  function Place(id: Id, order: seq<Id>, depth: Depths): (r: seq<Id>)
    requires id in depth && forall i :: 0 <= i < |order| ==> order[i] in depth
    ensures forall k :: k in r <==> k == id || k in order
  {
    if order == [] then [id]
    else
      var n := |order| - 1;
      if depth[order[n]] >= depth[id] then order + [id]
      else
        assert order == order[..n] + [order[n]];
        Place(id, order[..n], depth) + [order[n]]
  }

  lemma {:induction false} PlaceSorts(id: Id, order: seq<Id>, depth: Depths)
    requires id in depth && Sorted(order, depth) && Distinct(order) && id !in order
    ensures Sorted(Place(id, order, depth), depth) && Distinct(Place(id, order, depth))
  {
    if order != [] {
      var n := |order| - 1;
      var front, last := order[..n], order[n];
      assert order == front + [last];
      if depth[last] >= depth[id] {
        assert Place(id, order, depth) == order + [id];
      } else {
        PlaceSorts(id, front, depth);
        var placed := Place(id, front, depth);
        forall i | 0 <= i < |placed|
          ensures depth[placed[i]] >= depth[last] && placed[i] != last
        {
          assert placed[i] in placed;
          if placed[i] != id {
            assert placed[i] in front;
          }
        }
        SortedOneMore(placed, last, depth);
      }
    }
  }

  lemma SortedOneMore(order: seq<Id>, last: Id, depth: Depths)
    requires Sorted(order, depth) && Distinct(order) && last in depth
    requires forall i :: 0 <= i < |order| ==> depth[order[i]] >= depth[last] && order[i] != last
    ensures Sorted(order + [last], depth) && Distinct(order + [last])
  {
  }

  method SortByDepth(ids: seq<Id>, depth: Depths) returns (order: seq<Id>)
    requires Distinct(ids) && forall i :: 0 <= i < |ids| ==> ids[i] in depth
    ensures Sorted(order, depth) && Distinct(order)
    ensures forall k :: k in order <==> k in ids
  {
    order := [];
    for i := 0 to |ids|
      invariant Sorted(order, depth) && Distinct(order)
      invariant forall k :: k in order <==> k in ids[..i]
    {
      assert ids[..i + 1] == ids[..i] + [ids[i]];
      assert ids[i] !in ids[..i];
      PlaceSorts(ids[i], order, depth);
      order := Place(ids[i], order, depth);
    }
    assert ids[..|ids|] == ids;
  }

  // Every session that is left and had a parent at the start still has it.
  ghost predicate KeepsParents(before: Parents, after: Parents) {
    && (forall c :: c in after ==> c in before && after[c] == before[c])
    && (forall c :: c in after && before[c].Some? && before[c].value in before ==> before[c].value in after)
  }

  // What the deletions work from: the removable sessions, deepest first.
  ghost predicate Planned(p: Parents, active: set<Id>, order: seq<Id>, depth: Depths) {
    && Sorted(order, depth) && Distinct(order)
    && (forall k :: k in order <==> k in p && !IsRetained(p, active, k))
    && (forall k :: k in order ==> HasDepth(p, k, depth[k]))
  }

  lemma ChildGoesFirst(p: Parents, active: set<Id>, order: seq<Id>, depth: Depths, m: nat, j: nat)
    requires Planned(p, active, order, depth) && m < |order| && j < |order|
    requires order[m] in p && p[order[m]] == Some(order[j]) && order[j] in p
    ensures m < j
  {
    assert order[m] in order && order[j] in order;
    assert j < m ==> depth[order[j]] >= depth[order[m]];
    DepthOfParent(p, order[m], depth[order[m]], depth[order[j]]);
  }

  // The sessions after some of the planned deletions, and perhaps one more.
  ghost predicate Swept(before: Parents, after: Parents, order: seq<Id>, i: nat)
    requires i <= |order|
  {
    && (forall c :: c in after <==> c in before && c !in order[..i])
    && (forall c :: c in after ==> after[c] == before[c])
  }

  lemma InPrefix(order: seq<Id>, i: nat, m: nat)
    requires m < |order| && i <= |order|
    ensures m < i ==> order[m] in order[..i]
  {
    if m < i {
      assert order[..i][m] == order[m];
    }
  }

  lemma PrefixKeepsParents(p: Parents, active: set<Id>, order: seq<Id>, depth: Depths, i: nat, after: Parents)
    requires Planned(p, active, order, depth) && i <= |order| && Swept(p, after, order, i)
    ensures KeepsParents(p, after)
  {
    forall c | c in after && p[c].Some? && p[c].value in p
      ensures p[c].value in after
    {
      if p[c].value in order {
        if IsRetained(p, active, c) {
          ParentIsRetained(p, active, c);
        }
        assert c in order;
        var m :| 0 <= m < |order| && order[m] == c;
        var j :| 0 <= j < |order| && order[j] == p[c].value;
        InPrefix(order, i, m);
        ChildGoesFirst(p, active, order, depth, m, j);
      }
    }
  }

  lemma SweepingOne(before: Parents, after: Parents, order: seq<Id>, i: nat)
    requires i < |order| && Distinct(order) && Swept(before, after, order, i) && order[i] in before
    ensures order[i] in after
    ensures Swept(before, after - {order[i]}, order, i + 1)
  {
    assert order[..i + 1] == order[..i] + [order[i]];
  }

  datatype DeleteFate = Deleted | Refused | Stranded

  // What becomes of the i-th deletion from now on.
  function FateOf(fates: seq<DeleteFate>, i: nat): DeleteFate {
    if i < |fates| then fates[i] else Deleted
  }

  function FatesAfter(fates: seq<DeleteFate>, i: nat): seq<DeleteFate> {
    if i < |fates| then fates[i..] else []
  }

  ghost predicate AllDeleted(fates: seq<DeleteFate>, n: nat) {
    forall k :: 0 <= k < n ==> FateOf(fates, k).Deleted?
  }

  lemma FateAfter(fates: seq<DeleteFate>, i: nat)
    ensures FateOf(FatesAfter(fates, i), 0) == FateOf(fates, i)
    ensures FatesAfter(FatesAfter(fates, i), 1) == FatesAfter(fates, i + 1)
  {
  }

  // Deletion i is the first that fails, and gone are those before it and perhaps it.
  ghost predicate StoppedAt(before: Parents, after: Parents, order: seq<Id>, fates: seq<DeleteFate>, i: nat) {
    && i < |order| && !FateOf(fates, i).Deleted?
    && AllDeleted(fates, i)
    && Swept(before, after, order, if FateOf(fates, i).Refused? then i else i + 1)
  }

  datatype Label = ActivePreserved | ParentPreserved | Removed | Eligible

  datatype Report = Report(id: Id, what: Label)

  datatype Clearing = Cleared(reports: seq<Report>) | Cyclic | Interrupted

  function WithoutId(ids: seq<Id>, id: Id): (r: seq<Id>)
    ensures forall k :: k in r <==> k in ids && k != id
  {
    if ids == [] then []
    else
      var n := |ids| - 1;
      assert ids == ids[..n] + [ids[n]];
      WithoutId(ids[..n], id) + if ids[n] == id then [] else [ids[n]]
  }

  lemma {:induction false} WithoutIdKeepsDistinct(ids: seq<Id>, id: Id)
    requires Distinct(ids)
    ensures Distinct(WithoutId(ids, id))
  {
    if ids != [] {
      var n := |ids| - 1;
      var kept := WithoutId(ids[..n], id);
      WithoutIdKeepsDistinct(ids[..n], id);
      assert ids == ids[..n] + [ids[n]];
      forall i | 0 <= i < |kept|
        ensures kept[i] != ids[n]
      {
        assert kept[i] in kept;
        assert kept[i] in ids[..n];
      }
    }
  }

  // The running sessions that are stored.
  function Present(p: Parents, running: seq<Id>): (r: seq<Id>)
    ensures forall k :: k in r <==> k in running && k in p
  {
    if running == [] then []
    else
      var n := |running| - 1;
      assert running == running[..n] + [running[n]];
      Present(p, running[..n]) + if running[n] in p then [running[n]] else []
  }

  function Outside(ids: seq<Id>, retained: set<Id>): (r: seq<Id>)
    ensures forall k :: k in r <==> k in ids && k !in retained
  {
    if ids == [] then []
    else
      var n := |ids| - 1;
      assert ids == ids[..n] + [ids[n]];
      Outside(ids[..n], retained) + if ids[n] in retained then [] else [ids[n]]
  }

  lemma {:induction false} OutsideKeepsDistinct(ids: seq<Id>, retained: set<Id>)
    requires Distinct(ids)
    ensures Distinct(Outside(ids, retained))
  {
    if ids != [] {
      var n := |ids| - 1;
      var kept := Outside(ids[..n], retained);
      OutsideKeepsDistinct(ids[..n], retained);
      assert ids == ids[..n] + [ids[n]];
      forall i | 0 <= i < |kept|
        ensures kept[i] != ids[n]
      {
        assert kept[i] in kept;
        assert kept[i] in ids[..n];
      }
    }
  }

  lemma OnlyPresentMatter(p: Parents, running: seq<Id>)
    ensures forall a :: IsRetained(p, SetOf(Present(p, running)), a) <==> IsRetained(p, SetOf(running), a)
  {
  }

  datatype Removal = Unknown | IsActive | HasChild | CouldRemove | WasRemoved | RemovalFailed

  class SessionStore {
    var ids: seq<Id>
    var parents: Parents
    var fates: seq<DeleteFate>

    ghost predicate Valid()
      reads this
    {
      Distinct(ids) && forall k :: k in parents <==> k in ids
    }

    // A deletion may fail and leave the session, or fail after it has gone.
    method Delete(id: Id) returns (ok: bool)
      requires Valid() && id in parents
      modifies this
      ensures Valid()
      ensures ok <==> FateOf(old(fates), 0).Deleted?
      ensures parents == if FateOf(old(fates), 0).Refused? then old(parents) else old(parents) - {id}
      ensures ids == if FateOf(old(fates), 0).Refused? then old(ids) else WithoutId(old(ids), id)
      ensures fates == FatesAfter(old(fates), 1)
    {
      var fate := if fates == [] then Deleted else fates[0];
      fates := if fates == [] then [] else fates[1..];
      if !fate.Refused? {
        WithoutIdKeepsDistinct(ids, id);
        ids := WithoutId(ids, id);
        parents := parents - {id};
      }
      ok := fate.Deleted?;
    }

    // Deletion i, with those before it done.
    method DeleteNext(order: seq<Id>, i: nat, ghost before: Parents, ghost script: seq<DeleteFate>) returns (ok: bool)
      requires Valid() && i < |order| && Distinct(order) && order[i] in before && Deleting(before, order, script, i)
      modifies this
      ensures Valid()
      ensures if ok then Deleting(before, order, script, i + 1) else StoppedAt(before, parents, order, script, i)
    {
      SweepingOne(before, parents, order, i);
      FateAfter(script, i);
      ok := Delete(order[i]);
    }

    // All deletions before i are done.
    ghost predicate Deleting(before: Parents, order: seq<Id>, script: seq<DeleteFate>, i: nat)
      requires i <= |order|
      reads this
    {
      Swept(before, parents, order, i) && fates == FatesAfter(script, i) && AllDeleted(script, i)
    }

    // Deletes in order until one fails.
    method DeleteInOrder(order: seq<Id>) returns (ok: bool, ghost done: nat)
      requires Valid() && Distinct(order) && forall id :: id in order ==> id in parents
      modifies this
      ensures Valid() && done <= |order| && Swept(old(parents), parents, order, done)
      ensures ok ==> done == |order| && AllDeleted(old(fates), |order|)
      ensures !ok ==> exists i :: StoppedAt(old(parents), parents, order, old(fates), i)
    {
      ghost var before, script := parents, fates;
      for i := 0 to |order|
        invariant Valid() && Deleting(before, order, script, i)
      {
        assert order[i] in order;
        ok := DeleteNext(order, i, before, script);
        if !ok {
          done := if FateOf(script, i).Refused? then i else i + 1;
          return;
        }
      }
      ok, done := true, |order|;
    }

    /** Deletes in order until one fails; wherever that is, no session that is left
        has lost its parent. */
    method DeleteAll(order: seq<Id>, ghost active: set<Id>, ghost depth: Depths) returns (ok: bool)
      requires Valid() && Planned(parents, active, order, depth)
      modifies this
      ensures Valid() && KeepsParents(old(parents), parents)
      ensures forall a :: a in old(parents) && IsRetained(old(parents), active, a) ==> a in parents
      ensures ok ==> forall a :: a in parents <==> a in old(parents) && IsRetained(old(parents), active, a)
      ensures ok <==> AllDeleted(old(fates), |order|)
      ensures !ok ==> exists i :: StoppedAt(old(parents), parents, order, old(fates), i)
    {
      ghost var before := parents;
      ghost var done;
      ok, done := DeleteInOrder(order);
      PrefixKeepsParents(before, active, order, depth, done, parents);
      assert order[..|order|] == order;
    }

    // The depth of every removable session, or None if the ancestry of one is cyclic.
    method Measure(removable: seq<Id>) returns (depth: Option<Depths>)
      requires forall i :: 0 <= i < |removable| ==> removable[i] in parents
      ensures depth.Some? ==> forall k :: k in removable ==> k in depth.value && HasDepth(parents, k, depth.value[k])
      ensures depth.None? <==> exists k :: k in removable && Endless(parents, k)
    {
      var measured: Depths := map[];
      for i := 0 to |removable|
        invariant forall k :: k in removable[..i] ==> k in measured && HasDepth(parents, k, measured[k])
      {
        assert removable[..i + 1] == removable[..i] + [removable[i]];
        var d := SessionDepth(parents, removable[i]);
        if d.None? {
          assert removable[i] in removable;
          return None;
        }
        measured := measured[removable[i] := d.value];
      }
      assert removable[..|removable|] == removable;
      forall k | k in removable
        ensures !Endless(parents, k)
      {
        assert Up(parents, k, measured[k] + 1).None?;
      }
      depth := Some(measured);
    }

    // What becomes of one session, by whether it runs and whether it is retained.
    ghost predicate Fits(report: Report, id: Id, p: Parents, running: seq<Id>, apply: bool) {
      && report.id == id
      && report.what ==
           if id in running then ActivePreserved
           else if IsRetained(p, SetOf(running), id) then ParentPreserved
           else if apply then Removed else Eligible
    }

    method MakeReports(listed: seq<Id>, ghost p: Parents, running: seq<Id>, active: seq<Id>, retained: set<Id>,
      apply: bool)
      returns (reports: seq<Report>)
      requires forall a :: a in retained <==> IsRetained(p, SetOf(running), a)
      requires forall i :: 0 <= i < |listed| ==> (listed[i] in active <==> listed[i] in running)
      ensures |reports| == |listed|
      ensures forall i :: 0 <= i < |listed| ==> Fits(reports[i], listed[i], p, running, apply)
    {
      reports := [];
      for i := 0 to |listed|
        invariant |reports| == i
        invariant forall k :: 0 <= k < i ==> Fits(reports[k], listed[k], p, running, apply)
      {
        var id := listed[i];
        var what :=
          if id in active then ActivePreserved
          else if id in retained then ParentPreserved
          else if apply then Removed else Eligible;
        reports := reports + [Report(id, what)];
      }
    }

    // What is active, what is retained with it, and what may be removed.
    method Divide(running: seq<Id>) returns (active: seq<Id>, retained: set<Id>, removable: seq<Id>)
      requires Valid()
      ensures forall i :: 0 <= i < |ids| ==> (ids[i] in active <==> ids[i] in running)
      ensures forall a :: a in retained <==> IsRetained(parents, SetOf(running), a)
      ensures forall k :: k in removable <==> k in parents && !IsRetained(parents, SetOf(running), k)
      ensures Distinct(removable)
    {
      active := Present(parents, running);
      retained := Retained(parents, active);
      OnlyPresentMatter(parents, running);
      removable := Outside(ids, retained);
      OutsideKeepsDistinct(ids, retained);
      assert forall i :: 0 <= i < |ids| ==> ids[i] in ids;
    }

    // Measures, sorts and deletes what is not retained; the result says why it stopped.
    method Sweep(removable: seq<Id>, ghost active: set<Id>) returns (stopped: Option<Clearing>)
      requires Valid() && Distinct(removable)
      requires forall k :: k in removable <==> k in parents && !IsRetained(parents, active, k)
      modifies this
      ensures Valid() && KeepsParents(old(parents), parents)
      ensures forall a :: a in old(parents) && IsRetained(old(parents), active, a) ==> a in parents
      ensures stopped.None? ==> forall a :: a in parents <==> a in old(parents) && IsRetained(old(parents), active, a)
      ensures stopped.Some? ==> !stopped.value.Cleared?
      ensures stopped == Some(Cyclic) <==>
        exists k :: k in old(parents) && !IsRetained(old(parents), active, k) && Endless(old(parents), k)
      ensures stopped == Some(Cyclic) ==> parents == old(parents)
      ensures old(fates) == [] ==> stopped != Some(Interrupted)
    {
      assert forall i :: 0 <= i < |removable| ==> removable[i] in removable;
      var depth := Measure(removable);
      if depth.None? {
        return Some(Cyclic);
      }
      var order := SortByDepth(removable, depth.value);
      var ok := DeleteAll(order, active, depth.value);
      stopped := if ok then None else Some(Interrupted);
    }

    /** Removes every inactive session that is no ancestor of an active one. A
        cyclic ancestry among them is reported before anything is deleted, and
        wherever the work stops no session that is left has lost its parent. */
    method Clear(running: seq<Id>, apply: bool) returns (outcome: Clearing)
      requires Valid()
      modifies this
      ensures Valid() && KeepsParents(old(parents), parents)
      ensures forall a :: a in old(parents) && IsRetained(old(parents), SetOf(running), a) ==> a in parents
      ensures !apply ==> parents == old(parents) && outcome.Cleared?
      ensures outcome.Cyclic? <==>
        apply && exists k ::
          k in old(parents) && !IsRetained(old(parents), SetOf(running), k) && Endless(old(parents), k)
      ensures outcome.Cyclic? ==> parents == old(parents)
      ensures outcome.Cleared? && apply ==>
        forall a :: a in parents <==> a in old(parents) && IsRetained(old(parents), SetOf(running), a)
      ensures outcome.Cleared? ==>
        && |outcome.reports| == |old(ids)|
        && forall i :: 0 <= i < |old(ids)| ==> Fits(outcome.reports[i], old(ids)[i], old(parents), running, apply)
      ensures old(fates) == [] ==> !outcome.Interrupted?
    {
      var listed := ids;
      var active, retained, removable := Divide(running);
      ghost var before := parents;
      if apply {
        var stopped := Sweep(removable, SetOf(running));
        if stopped.Some? {
          return stopped.value;
        }
      }
      var reports := MakeReports(listed, before, running, active, retained, apply);
      outcome := Cleared(reports);
    }

    /** Removes one inactive session without children. */
    method Remove(id: Id, running: seq<Id>, apply: bool) returns (r: Removal)
      requires Valid()
      modifies this
      ensures Valid() && KeepsParents(old(parents), parents)
      ensures parents == old(parents) || (apply && parents == old(parents) - {id})
      ensures r.Unknown? <==> id !in old(parents)
      ensures r.IsActive? <==> id in old(parents) && id in running
      ensures r.HasChild? <==>
        id in old(parents) && id !in running && exists c :: c in old(parents) && old(parents)[c] == Some(id)
      ensures apply && !r.Unknown? && !r.IsActive? && !r.HasChild? ==>
        && (r.WasRemoved? <==> FateOf(old(fates), 0).Deleted?)
        && (r.RemovalFailed? <==> !FateOf(old(fates), 0).Deleted?)
        && parents == if FateOf(old(fates), 0).Refused? then old(parents) else old(parents) - {id}
      ensures !apply || r.Unknown? || r.IsActive? || r.HasChild? ==> parents == old(parents)
      ensures !apply ==> !r.WasRemoved? && !r.RemovalFailed?
      ensures r.CouldRemove? ==> !apply
      ensures old(fates) == [] ==> !r.RemovalFailed?
    {
      if id !in parents {
        return Unknown;
      }
      if id in running {
        return IsActive;
      }
      if exists i :: 0 <= i < |ids| && parents[ids[i]] == Some(id) {
        return HasChild;
      }
      assert forall c :: c in parents ==> parents[c] != Some(id) by {
        forall c | c in parents
          ensures parents[c] != Some(id)
        {
          assert c in ids;
        }
      }
      if !apply {
        return CouldRemove;
      }
      var ok := Delete(id);
      r := if ok then WasRemoved else RemovalFailed;
    }
  }
}
