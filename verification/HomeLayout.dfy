/** The journalled migration of the legacy data, config and cache trees into one
    home directory (integrations/common/home_layout.py).

    The three legacy roots are pairwise disjoint places; the three targets nest:
    data becomes the home directory itself, config and cache become its children
    of those names.  Modes, owners and journal file names are abstracted away.
 */
module HomeLayout {
  import opened Faults
  import opened Options

  // ---------------------------------------------------------------- file system

  // A child of a directory: one of the two names the layout gives, or another one.
  datatype Name = Config | Cache | Other(text: string)

  datatype Node =
    | File(bytes: string)
    | Link(dest: Place)
    | Dir(entries: map<Name, Node>)

  // Where a symbolic link points: at one of the three targets, or anywhere else.
  datatype Place = Target(slot: nat) | Elsewhere(path: string)

  const SLOTS: nat := 3

  function ChildName(i: nat): Name {
    if i == 1 then Config else Cache
  }

  function Entries(home: Option<Node>): map<Name, Node> {
    if home.Some? && home.value.Dir? then home.value.entries else map[]
  }

  function At(home: Option<Node>, i: nat): Option<Node> {
    if i == 0 then home
    else if ChildName(i) in Entries(home) then Some(Entries(home)[ChildName(i)])
    else None
  }

  function Put(home: Option<Node>, i: nat, tree: Node): Option<Node> {
    if i == 0 then Some(tree) else Some(Dir(Entries(home)[ChildName(i) := tree]))
  }

  function Take(home: Option<Node>, i: nat): Option<Node> {
    if i == 0 then None else Some(Dir(Entries(home) - {ChildName(i)}))
  }

  // A directory can be renamed over nothing or over an empty directory.
  predicate CanReplace(target: Option<Node>) {
    target.None? || target.value == Dir(map[])
  }

  predicate MissingOrDir(n: Option<Node>) {
    n.None? || n.value.Dir?
  }

  // -------------------------------------------------------------------- journal

  datatype Move = Move(slot: nat, moved: bool)

  datatype Phase = Prepared | Committing

  datatype Journal = Journal(phase: Phase, createdHome: bool, moves: seq<Move>)

  datatype World = World(source: seq<Option<Node>>, home: Option<Node>, journal: Option<Journal>)

  function Slots(moves: seq<Move>): (r: seq<nat>)
    ensures |r| == |moves| && forall j :: 0 <= j < |r| ==> r[j] == moves[j].slot
  {
    seq(|moves|, j requires 0 <= j < |moves| => moves[j].slot)
  }

  function NewMoves(plan: seq<nat>): (r: seq<Move>)
    ensures Slots(r) == plan && forall j :: 0 <= j < |r| ==> !r[j].moved
  {
    seq(|plan|, j requires 0 <= j < |plan| => Move(plan[j], false))
  }

  function SetMoved(j: Journal, index: nat, moved: bool): (r: Journal)
    requires index < |j.moves|
    ensures Slots(r.moves) == Slots(j.moves)
  {
    j.(moves := j.moves[index := j.moves[index].(moved := moved)])
  }

  // ----------------------------------------------------------------------- plan

  // The layout before the migration.  same[i]: legacy root i already is target i;
  // foreign[i]: it is on another file system than the parent of target i.
  datatype Base = Base(source: seq<Option<Node>>, home: Option<Node>, same: seq<bool>, foreign: seq<bool>)

  predicate Shaped(b: Base) {
    |b.source| == SLOTS && |b.same| == SLOTS && |b.foreign| == SLOTS
  }

  // Slot i raises: a root that is no directory, both roots exist, or the move would
  // cross file systems.
  predicate Refused(b: Base, i: nat)
    requires Shaped(b) && i < SLOTS
  {
    !b.same[i] &&
    (!MissingOrDir(b.source[i]) || !MissingOrDir(At(b.home, i)) ||
     (b.source[i].Some? && (At(b.home, i).Some? || b.foreign[i])))
  }

  ghost predicate Accepted(b: Base) {
    Shaped(b) && MissingOrDir(b.home) && forall i :: 0 <= i < SLOTS ==> !Refused(b, i)
  }

  // A legacy root is a directory that can be moved to a place where nothing is, on its
  // own file system; or it is missing, and its target is missing or a directory.
  ghost predicate Movable(root: Option<Node>, target: Option<Node>, foreign: bool) {
    if root.Some? then root.value.Dir? && target.None? && !foreign
    else target.Some? ==> target.value.Dir?
  }

  /** The layouts that are accepted: every root that is not its target already can be
      moved to the home, or to the child of its name there. */
  lemma AcceptedWhen(b: Base)
    requires Shaped(b)
    ensures var home := b.home;
            Accepted(b) <==>
              && (home.Some? ==> home.value.Dir?)
              && (b.same[0] || Movable(b.source[0], home, b.foreign[0]))
              && (b.same[1] || Movable(b.source[1], Child(home, Config), b.foreign[1]))
              && (b.same[2] || Movable(b.source[2], Child(home, Cache), b.foreign[2]))
  {
    if Accepted(b) {
      assert !Refused(b, 0) && !Refused(b, 1) && !Refused(b, 2);
    }
  }

  ghost function Child(home: Option<Node>, name: Name): Option<Node> {
    if home.Some? && home.value.Dir? && name in home.value.entries then Some(home.value.entries[name]) else None
  }

  predicate Planned(b: Base, i: nat)
    requires Shaped(b)
  {
    i < SLOTS && !b.same[i] && b.source[i].Some?
  }

  function PlanUpTo(b: Base, n: nat): (p: seq<nat>)
    requires Shaped(b) && n <= SLOTS
    ensures forall j :: 0 <= j < |p| ==> p[j] < n && Planned(b, p[j])
  {
    if n == 0 then []
    else if Planned(b, n - 1) then PlanUpTo(b, n - 1) + [n - 1]
    else PlanUpTo(b, n - 1)
  }

  function Plan(b: Base): seq<nat>
    requires Shaped(b)
  {
    PlanUpTo(b, SLOTS)
  }

  lemma {:induction false} PlanListsAll(b: Base, n: nat, i: nat)
    requires Shaped(b) && i < n <= SLOTS && Planned(b, i)
    ensures i in PlanUpTo(b, n)
  {
    if i < n - 1 {
      PlanListsAll(b, n - 1, i);
    }
  }

  lemma PlanCovers(b: Base)
    requires Shaped(b)
    ensures forall i: nat :: Planned(b, i) ==> i in Plan(b)
  {
    forall i: nat | Planned(b, i)
      ensures i in Plan(b)
    {
      PlanListsAll(b, SLOTS, i);
    }
  }

  lemma {:induction false} PlanIncreases(b: Base, n: nat, j: nat, k: nat)
    requires Shaped(b) && n <= SLOTS && j < k < |PlanUpTo(b, n)|
    ensures PlanUpTo(b, n)[j] < PlanUpTo(b, n)[k]
  {
    if k < |PlanUpTo(b, n - 1)| {
      PlanIncreases(b, n - 1, j, k);
    }
  }

  // The plan lists the planned slots upwards: none lies between two neighbours.
  lemma PlanHasNoGaps(b: Base, n: nat, j: nat, i: nat)
    requires Shaped(b) && n <= SLOTS && j < |PlanUpTo(b, n)| && Planned(b, i) && i < n
    ensures j + 1 < |PlanUpTo(b, n)| ==> PlanUpTo(b, n)[j] < PlanUpTo(b, n)[j + 1]
    ensures PlanUpTo(b, n)[j] < i ==> j + 1 < |PlanUpTo(b, n)| && PlanUpTo(b, n)[j + 1] <= i
    ensures i < PlanUpTo(b, n)[j] ==> j > 0 && i <= PlanUpTo(b, n)[j - 1]
  {
    PlanListsAll(b, n, i);
    var k :| 0 <= k < |PlanUpTo(b, n)| && PlanUpTo(b, n)[k] == i;
    if j + 1 < |PlanUpTo(b, n)| {
      PlanIncreases(b, n, j, j + 1);
    }
    if j + 1 < k {
      PlanIncreases(b, n, j + 1, k);
    }
    if k < j {
      PlanIncreases(b, n, k, j);
      if k < j - 1 {
        PlanIncreases(b, n, k, j - 1);
      }
    }
  }

  // A cut that reaches no later entry of the plan is at most one past entry j.
  lemma NothingBetween(b: Base, j: nat, cut: nat)
    requires Shaped(b) && j < |Plan(b)|
    requires j + 1 < |Plan(b)| ==> cut <= Plan(b)[j + 1]
    ensures forall i: nat :: Planned(b, i) && i < cut ==> i <= Plan(b)[j]
  {
    forall i: nat | Planned(b, i) && i < cut
      ensures i <= Plan(b)[j]
    {
      PlanHasNoGaps(b, SLOTS, j, i);
    }
  }

  lemma NothingBefore(b: Base, cut: nat)
    requires Shaped(b) && Plan(b) != [] && cut <= Plan(b)[0]
    ensures forall i: nat :: i < cut ==> !Planned(b, i)
  {
    forall i: nat | Planned(b, i) && i < cut
      ensures false
    {
      PlanHasNoGaps(b, SLOTS, 0, i);
    }
  }

  lemma OnlyTheFirstIsData(b: Base, j: nat)
    requires Shaped(b) && j < |Plan(b)| && Plan(b)[j] == 0
    ensures j == 0
  {
    if j > 0 {
      PlanHasNoGaps(b, SLOTS, j - 1, 0);
    }
  }

  ghost predicate CreatesHome(b: Base)
    requires Shaped(b)
  {
    b.home.None? && !Planned(b, 0)
  }

  // The home directory once the planned trees of the slots below cut have moved.
  ghost function HomeAfter(b: Base, cut: nat): Option<Node>
    requires Shaped(b) && cut <= SLOTS
  {
    if cut == 0 then b.home
    else if Planned(b, cut - 1) then Put(HomeAfter(b, cut - 1), cut - 1, b.source[cut - 1].value)
    else HomeAfter(b, cut - 1)
  }

  // Moving slot i does not land on a child that the data tree brought along.
  ghost predicate Free(b: Base, i: nat)
    requires Shaped(b)
  {
    i == 0 || !Planned(b, 0) || ChildName(i) !in Entries(b.source[0])
  }

  ghost predicate NoClash(b: Base)
    requires Shaped(b)
  {
    forall i: nat :: Planned(b, i) ==> Free(b, i)
  }

  ghost predicate FreeFrom(b: Base, index: nat)
    requires Shaped(b)
  {
    forall j :: index <= j < |Plan(b)| ==> Free(b, Plan(b)[j])
  }

  lemma FreeFromStart(b: Base)
    requires Shaped(b)
    ensures FreeFrom(b, 0) <==> NoClash(b)
  {
    PlanCovers(b);
    forall i: nat | FreeFrom(b, 0) && Planned(b, i)
      ensures Free(b, i)
    {
      var j :| 0 <= j < |Plan(b)| && Plan(b)[j] == i;
    }
  }

  // The data tree brings along an empty directory under the name of slot i. A rename
  // onto it succeeds and replaces it.
  ghost predicate EmptyChild(b: Base, i: nat)
    requires Shaped(b)
  {
    !Free(b, i) && Entries(b.source[0])[ChildName(i)] == Dir(map[])
  }

  // What the data tree brings along stops the tree of slot i from moving.
  ghost predicate Blocked(b: Base, i: nat)
    requires Shaped(b)
  {
    !Free(b, i) && !EmptyChild(b, i)
  }

  ghost predicate NoBlock(b: Base)
    requires Shaped(b)
  {
    forall i: nat :: Planned(b, i) ==> !Blocked(b, i)
  }

  ghost predicate UnblockedBelow(b: Base, n: nat)
    requires Shaped(b)
  {
    n <= |Plan(b)| && forall j :: 0 <= j < n ==> !Blocked(b, Plan(b)[j])
  }

  lemma OneMoreUnblocked(b: Base, n: nat)
    requires Shaped(b) && UnblockedBelow(b, n) && n < |Plan(b)|
    ensures UnblockedBelow(b, n + 1) <==> !Blocked(b, Plan(b)[n])
    ensures Blocked(b, Plan(b)[n]) ==> !NoBlock(b)
  {
    assert Planned(b, Plan(b)[n]);
  }

  lemma NoneBlocked(b: Base)
    requires Shaped(b) && UnblockedBelow(b, |Plan(b)|)
    ensures NoBlock(b)
  {
    PlanCovers(b);
  }

  // The layout as if the data tree had never had the empty child named like slot i.
  ghost function Pruned(b: Base, i: nat): Base
    requires Shaped(b)
  {
    if Planned(b, i) && EmptyChild(b, i) then
      b.(source := b.source[0 := Some(Dir(Entries(b.source[0]) - {ChildName(i)}))])
    else b
  }

  // The name of a planned slot under which the data tree has an empty directory.
  ghost predicate Replaceable(b: Base, name: Name)
    requires Shaped(b)
  {
    exists i: nat :: 0 < i < SLOTS && Planned(b, i) && EmptyChild(b, i) && name == ChildName(i)
  }

  // Layout c is layout b without some replaceable children of the data tree.
  ghost predicate Prunes(b: Base, c: Base) {
    && Shaped(b) && Shaped(c) && c.same == b.same && c.foreign == b.foreign
    && c.source[1] == b.source[1] && c.source[2] == b.source[2]
    && if c.source[0] == b.source[0] then true
       else
         && Planned(b, 0) && b.source[0].value.Dir? && c.source[0].Some? && c.source[0].value.Dir?
         && (forall name :: name in Entries(c.source[0]) ==>
               name in Entries(b.source[0]) && Entries(c.source[0])[name] == Entries(b.source[0])[name])
         && (forall name :: name in Entries(b.source[0]) && name !in Entries(c.source[0]) ==> Replaceable(b, name))
  }

  // Without a clash there is nothing to prune.
  lemma NothingToPrune(b: Base, c: Base)
    requires Prunes(b, c) && c.home == b.home
    ensures NoClash(b) ==> c == b
  {
    assert c.source[0] == b.source[0] || Entries(c.source[0]) != Entries(b.source[0]);
    assert c.source == [c.source[0], b.source[1], b.source[2]];
  }

  lemma NotBlocked(b: Base, c: Base, j: nat)
    requires Prunes(b, c) && c.home == b.home && Plan(c) == Plan(b) && j < |Plan(b)|
    ensures NoClash(b) ==> !Blocked(c, Plan(b)[j])
  {
    NothingToPrune(b, c);
    assert Planned(b, Plan(b)[j]);
  }

  // ------------------------------------------------------------------ invariant

  ghost predicate Linked(roots: seq<Option<Node>>, i: nat) {
    i < |roots| && roots[i] == Some(Link(Target(i)))
  }

  ghost predicate RootPlaced(b: Base, roots: seq<Option<Node>>, cut: nat, i: nat)
    requires Shaped(b) && |roots| == SLOTS && i < SLOTS
  {
    if i < cut && Planned(b, i) then (roots[i] == None || Linked(roots, i)) && Free(b, i)
    else roots[i] == b.source[i]
  }

  // The planned trees of the slots below cut are at their targets, each root
  // empty or a link; every other root is as it was.
  ghost predicate Placed(b: Base, w: World, cut: nat)
    requires Shaped(b)
  {
    && cut <= SLOTS && |w.source| == SLOTS
    && (forall i: nat :: i < SLOTS ==> RootPlaced(b, w.source, cut, i))
    && (w.home == HomeAfter(b, cut) || (HomeAfter(b, cut) == None && CreatesHome(b) && w.home == Some(Dir(map[]))))
  }

  ghost predicate AllLinked(b: Base, w: World)
    requires Shaped(b)
  {
    Placed(b, w, SLOTS) && forall i: nat :: Planned(b, i) ==> Linked(w.source, i)
  }

  // Every planned tree is at its target and no link is left.
  ghost predicate Consolidated(b: Base, w: World)
    requires Shaped(b)
  {
    Placed(b, w, SLOTS) && forall i: nat :: Planned(b, i) ==> w.source[i] == None
  }

  ghost predicate JournalFits(b: Base, j: Journal)
    requires Shaped(b)
  {
    Slots(j.moves) == Plan(b) && |j.moves| > 0 && j.createdHome == CreatesHome(b)
  }

  /** What holds before and after every operation of every run. */
  ghost predicate Inv(b: Base, committed: bool, cut: nat, w: World) {
    && Shaped(b)
    && |w.source| == SLOTS
    && match w.journal {
         case None =>
           if committed then Accepted(b) && Plan(b) != [] && Consolidated(b, w)
           else cut == 0 && w.source == b.source && w.home == b.home
         case Some(j) =>
           && Accepted(b)
           && JournalFits(b, j)
           && committed == j.phase.Committing?
           && Placed(b, w, if committed then SLOTS else cut)
       }
  }

  // ----------------------------------------------------------- lemmas on layouts

  lemma {:induction false} HomeAfterIsDir(b: Base, cut: nat)
    requires Accepted(b) && cut <= SLOTS
    ensures MissingOrDir(HomeAfter(b, cut))
    ensures HomeAfter(b, cut).None? ==> b.home.None?
    ensures (exists i :: 0 <= i < cut && Planned(b, i)) ==> HomeAfter(b, cut).Some?
  {
    if cut > 0 {
      HomeAfterIsDir(b, cut - 1);
      assert !Refused(b, cut - 1);
    }
  }

  // What the home directory holds under the name of slot i.
  lemma {:induction false} HomeAfterAt(b: Base, cut: nat, i: nat)
    requires Accepted(b) && cut <= SLOTS && 0 < i && Planned(b, i)
    ensures At(HomeAfter(b, cut), i) ==
            if i < cut then b.source[i]
            else if cut > 0 && Planned(b, 0) then At(b.source[0], i)
            else None
  {
    if cut == 0 {
      assert !Refused(b, i);
    } else {
      HomeAfterAt(b, cut - 1, i);
    }
  }

  // A child of the data tree that no migrated root replaces is still there, and
  // nothing else but the migrated roots has joined it.
  lemma {:induction false} DataTreeKept(b: Base, cut: nat, name: Name)
    requires Accepted(b) && 0 < cut <= SLOTS && Planned(b, 0)
    requires forall i :: 0 <= i < cut && Planned(b, i) ==> Free(b, i)
    ensures HomeAfter(b, cut).Some? && HomeAfter(b, cut).value.Dir?
    ensures name in Entries(b.source[0]) ==>
              name in Entries(HomeAfter(b, cut)) && Entries(HomeAfter(b, cut))[name] == Entries(b.source[0])[name]
    ensures name in Entries(HomeAfter(b, cut)) && name !in Entries(b.source[0]) ==>
              exists i :: 1 <= i < cut && Planned(b, i) && name == ChildName(i)
  {
    if cut > 1 {
      DataTreeKept(b, cut - 1, name);
    } else {
      assert !Refused(b, 0);
    }
  }

  // In a placed layout the target of a tree still to be moved is occupied
  // exactly when the data tree is in place and brought that name along.
  lemma TargetOccupied(b: Base, w: World, cut: nat, i: nat)
    requires Accepted(b) && Placed(b, w, cut) && cut <= i && Planned(b, i)
    ensures At(w.home, i) == if cut > 0 && !Free(b, i) then At(b.source[0], i) else None
  {
    assert !Refused(b, i);
    if i > 0 {
      HomeAfterAt(b, cut, i);
    }
  }

  ghost predicate AtSource(b: Base, w: World, i: nat)
    requires Shaped(b) && |w.source| == SLOTS && i < SLOTS
  {
    w.source[i] == b.source[i]
  }

  // The tree of slot i is whole at its target; the home directory holds nothing
  // besides the data tree, if that was planned, and the roots moved into it.
  ghost predicate AtTarget(b: Base, w: World, i: nat)
    requires Shaped(b) && |w.source| == SLOTS && i < SLOTS
  {
    if i == 0 then
      && w.home.Some? && w.home.value.Dir?
      && (forall name :: name in Entries(b.source[0]) ==>
                           name in Entries(w.home) && Entries(w.home)[name] == Entries(b.source[0])[name])
      && (forall name :: name in Entries(w.home) ==> name in Entries(b.source[0]) || name.Config? || name.Cache?)
    else At(w.home, i) == b.source[i]
  }

  lemma {:induction false} MovedTreeIsAtTarget(b: Base, w: World, cut: nat, i: nat)
    requires Accepted(b) && Placed(b, w, cut) && i < cut && Planned(b, i)
    ensures AtTarget(b, w, i) && !AtSource(b, w, i)
  {
    assert !Refused(b, i) && RootPlaced(b, w.source, cut, i);
    HomeAfterIsDir(b, cut);
    if i > 0 {
      HomeAfterAt(b, cut, i);
    } else {
      forall j | 0 <= j < cut && Planned(b, j)
        ensures Free(b, j)
      {
        assert RootPlaced(b, w.source, cut, j);
      }
      forall name: Name {
        DataTreeKept(b, cut, name);
      }
    }
  }

  /** Each planned tree is whole at one of its two places, and at its target once
      committed.  It is found at both exactly if it has yet to move and the data
      tree, which has moved, brought an equal tree along under its name.
   */
  lemma {:induction false} EachTreeAtExactlyOnePlace(b: Base, committed: bool, cut: nat, w: World, i: nat)
    requires Inv(b, committed, cut, w) && Accepted(b) && Planned(b, i)
    ensures committed ==> AtTarget(b, w, i) && !AtSource(b, w, i)
    ensures AtTarget(b, w, i) || AtSource(b, w, i)
    ensures AtTarget(b, w, i) && AtSource(b, w, i) <==>
              !committed && 0 < cut <= i && !Free(b, i) && At(b.source[0], i) == b.source[i]
  {
    var n := if committed then SLOTS else cut;
    if i < n {
      MovedTreeIsAtTarget(b, w, n, i);
    } else {
      assert !Refused(b, i);
      TargetOccupied(b, w, n, i);
      assert RootPlaced(b, w.source, n, i);
    }
  }

  // -------------------------------------------------------------- single renames

  function MoveOver(w: World, i: nat): World
    requires i < |w.source| && w.source[i].Some?
  {
    w.(home := Put(w.home, i, w.source[i].value), source := w.source[i := None])
  }

  function MoveBack(w: World, i: nat): World
    requires i < |w.source|
  {
    w.(source := w.source[i := At(w.home, i)], home := Take(w.home, i))
  }

  lemma MoveOverPlaces(b: Base, w: World, i: nat)
    requires Accepted(b) && Placed(b, w, i) && Planned(b, i) && Free(b, i)
    requires w.home.Some? || i == 0
    ensures w.source[i] == b.source[i]
    ensures Placed(b, MoveOver(w, i), i + 1)
  {
    assert RootPlaced(b, w.source, i, i);
    var v, next := MoveOver(w, i), i + 1;
    forall j: nat | j < SLOTS
      ensures RootPlaced(b, v.source, next, j)
    {
      assert RootPlaced(b, w.source, i, j);
    }
  }

  lemma PrunedKeepsPlan(b: Base, i: nat)
    requires Shaped(b) && i < SLOTS
    ensures Shaped(Pruned(b, i)) && Plan(Pruned(b, i)) == Plan(b)
    ensures forall j: nat :: Planned(Pruned(b, i), j) == Planned(b, j)
    ensures Accepted(b) ==> Accepted(Pruned(b, i))
    ensures CreatesHome(Pruned(b, i)) == CreatesHome(b)
  {
    var c := Pruned(b, i);
    SamePlanUpTo(b, c, SLOTS);
    if Accepted(b) {
      assert !Refused(b, 0);
      forall j | 0 <= j < SLOTS
        ensures !Refused(c, j)
      {
        assert !Refused(b, j);
      }
    }
  }

  lemma PrunedFrees(b: Base, i: nat, j: nat)
    requires Shaped(b) && i < SLOTS && j < SLOTS
    ensures Free(b, j) ==> Free(Pruned(b, i), j)
    ensures i == j && Planned(b, i) && !Blocked(b, i) ==> Free(Pruned(b, i), i)
    ensures i != j && i > 0 ==> Free(Pruned(b, i), j) == Free(b, j) && Blocked(Pruned(b, i), j) == Blocked(b, j)
  {
  }

  lemma PrunedPrunes(b: Base, i: nat)
    requires Shaped(b) && i < SLOTS && Accepted(b)
    ensures Prunes(b, Pruned(b, i)) && Pruned(b, i).home == b.home
  {
    var c := Pruned(b, i);
    if c != b {
      assert !Refused(b, 0);
      forall name | name in Entries(b.source[0]) && name !in Entries(c.source[0])
        ensures Replaceable(b, name)
      {
        assert name == ChildName(i);
      }
    }
  }

  lemma PruningMore(b: Base, c: Base, d: Base)
    requires Prunes(b, c) && Prunes(c, d)
    ensures Prunes(b, d)
  {
    forall name | name in Entries(b.source[0]) && name !in Entries(d.source[0])
      ensures d.source[0] != b.source[0] ==> Replaceable(b, name)
    {
      if d.source[0] != b.source[0] && name in Entries(c.source[0]) {
        var i: nat :| 0 < i < SLOTS && Planned(c, i) && EmptyChild(c, i) && name == ChildName(i);
        assert Planned(b, i) && EmptyChild(b, i);
      }
    }
  }

  // The home directory of a pruned layout, before the replacing tree moves in.
  lemma {:induction false} HomeAfterPruned(b: Base, i: nat, cut: nat)
    requires Accepted(b) && 0 < cut <= i < SLOTS && Planned(b, i) && EmptyChild(b, i)
    ensures HomeAfter(b, cut).Some? && HomeAfter(b, cut).value.Dir?
    ensures HomeAfter(Pruned(b, i), cut) == Take(HomeAfter(b, cut), i)
  {
    var c := Pruned(b, i);
    if cut == 1 {
      assert !Refused(b, 0);
    } else {
      HomeAfterPruned(b, i, cut - 1);
      var e := Entries(HomeAfter(b, cut - 1));
      if Planned(b, cut - 1) {
        var tree := b.source[cut - 1].value;
        assert e[ChildName(cut - 1) := tree] - {ChildName(i)} == (e - {ChildName(i)})[ChildName(cut - 1) := tree];
      }
    }
  }

  // Moving onto an empty child of the data tree is moving in a pruned layout.
  lemma MoveOverReplaces(b: Base, w: World, i: nat)
    requires Accepted(b) && Placed(b, w, i) && Planned(b, i) && EmptyChild(b, i)
    ensures w.source[i] == b.source[i]
    ensures Placed(Pruned(b, i), MoveOver(w, i), i + 1)
  {
    assert RootPlaced(b, w.source, i, i);
    var c, v, next := Pruned(b, i), MoveOver(w, i), i + 1;
    HomeAfterPruned(b, i, i);
    PrunedKeepsPlan(b, i);
    var e := Entries(HomeAfter(b, i));
    assert (e - {ChildName(i)})[ChildName(i) := b.source[i].value] == e[ChildName(i) := b.source[i].value];
    forall j: nat | j < SLOTS
      ensures RootPlaced(c, v.source, next, j)
    {
      assert RootPlaced(b, w.source, i, j);
      PrunedFrees(b, i, j);
    }
  }

  // A rename back undoes the latest move.
  lemma MoveBackUnplaces(b: Base, w: World, i: nat)
    requires Accepted(b) && Placed(b, w, i + 1) && Planned(b, i) && w.source[i] == None
    ensures At(w.home, i) == b.source[i]
    ensures Placed(b, MoveBack(w, i), i)
  {
    assert RootPlaced(b, w.source, i + 1, i);
    assert !Refused(b, i);
    var v := MoveBack(w, i);
    HomeAfterIsDir(b, i);
    if i > 0 {
      HomeAfterAt(b, i, i);
      assert Planned(b, 0) ==> HomeAfter(b, i).Some?;
      var e := Entries(HomeAfter(b, i));
      assert ChildName(i) !in e;
      assert e[ChildName(i) := b.source[i].value] - {ChildName(i)} == e;
    }
    forall j: nat | j < SLOTS
      ensures RootPlaced(b, v.source, i, j)
    {
      assert RootPlaced(b, w.source, i + 1, j);
    }
  }

  // Setting a moved root to empty or to its link keeps the placement.
  lemma RelinkKeepsPlaced(b: Base, w: World, cut: nat, i: nat, n: Option<Node>)
    requires Shaped(b) && Placed(b, w, cut) && i < cut && Planned(b, i)
    requires n == None || n == Some(Link(Target(i)))
    ensures Placed(b, w.(source := w.source[i := n]), cut)
  {
    var v := w.(source := w.source[i := n]);
    forall j: nat | j < SLOTS
      ensures RootPlaced(b, v.source, cut, j)
    {
      assert RootPlaced(b, w.source, cut, j);
    }
  }

  // The cut may skip slots that are not planned.
  lemma {:induction false} SkipUnplanned(b: Base, w: World, low: nat, high: nat)
    requires Shaped(b) && low <= high <= SLOTS
    requires forall i :: low <= i < high ==> !Planned(b, i)
    ensures HomeAfter(b, low) == HomeAfter(b, high)
    ensures Placed(b, w, low) <==> Placed(b, w, high)
  {
    if low < high {
      var mid := high - 1;
      SkipUnplanned(b, w, low, mid);
      if |w.source| == SLOTS {
        assert forall i: nat :: i < SLOTS ==> RootPlaced(b, w.source, mid, i) == RootPlaced(b, w.source, high, i);
      }
    }
  }

  lemma NothingMoved(b: Base, w: World)
    requires Shaped(b) && Placed(b, w, 0)
    ensures w.source == b.source
  {
    forall i: nat | i < SLOTS
      ensures w.source[i] == b.source[i]
    {
      assert RootPlaced(b, w.source, 0, i);
    }
  }

  // The plan does not depend on the home directory.
  lemma {:induction false} SamePlanUpTo(b: Base, c: Base, n: nat)
    requires Shaped(b) && Shaped(c) && n <= SLOTS
    requires forall i: nat :: i < n ==> Planned(b, i) == Planned(c, i)
    ensures PlanUpTo(b, n) == PlanUpTo(c, n)
  {
    if n > 0 {
      SamePlanUpTo(b, c, n - 1);
    }
  }

  lemma SamePlan(b: Base, c: Base)
    requires Shaped(b) && Shaped(c) && b.source == c.source && b.same == c.same
    ensures Plan(b) == Plan(c)
  {
    SamePlanUpTo(b, c, SLOTS);
  }

  lemma {:induction false} NonePlanned(b: Base, n: nat)
    requires Shaped(b) && n <= SLOTS
    requires forall i: nat :: i < n ==> !Planned(b, i)
    ensures PlanUpTo(b, n) == []
  {
    if n > 0 {
      NonePlanned(b, n - 1);
    }
  }

  // After a commit no legacy root is left that a later prepare would move.
  lemma NothingLeftToPlan(b: Base, w: World)
    requires Accepted(b) && Consolidated(b, w) && Plan(b) != []
    ensures Plan(Base(w.source, w.home, b.same, b.foreign)) == []
    ensures w.home.Some? && w.home.value.Dir?
  {
    var c := Base(w.source, w.home, b.same, b.foreign);
    forall i: nat | i < SLOTS
      ensures !Planned(c, i)
    {
      assert RootPlaced(b, w.source, SLOTS, i);
    }
    NonePlanned(c, SLOTS);
    assert Planned(b, Plan(b)[0]);
    HomeAfterIsDir(b, SLOTS);
  }

  lemma FirstPlanned(b: Base)
    requires Shaped(b) && Plan(b) != []
    ensures Plan(b)[0] == 0 <==> Planned(b, 0)
  {
    if Planned(b, 0) {
      PlanHasNoGaps(b, SLOTS, 0, 0);
    }
  }

  // From entry index of the plan on, the same trees are blocked.
  ghost predicate BlocksAlike(b: Base, c: Base, index: nat)
    requires Shaped(b) && Shaped(c)
  {
    Plan(b) == Plan(c) &&
    forall j :: index <= j < |Plan(b)| ==> (Blocked(c, Plan(b)[j]) <==> Blocked(b, Plan(b)[j]))
  }

  lemma BlocksAlikeNext(b: Base, c: Base, d: Base, index: nat)
    requires Shaped(b) && Shaped(c) && index < |Plan(b)| && BlocksAlike(b, c, index)
    requires d == c || d == Pruned(c, Plan(c)[index])
    ensures Shaped(d) && BlocksAlike(b, d, index + 1)
  {
    PrunedKeepsPlan(c, Plan(c)[index]);
    forall j | index + 1 <= j < |Plan(b)|
      ensures Blocked(d, Plan(b)[j]) <==> Blocked(b, Plan(b)[j])
    {
      PlanIncreases(b, SLOTS, index, j);
      if Plan(b)[index] > 0 {
        PrunedFrees(c, Plan(c)[index], Plan(b)[j]);
      }
    }
  }

  // One turn of the loop over the plan, as far as the layout goes.
  lemma MovedOne(b: Base, c: Base, d: Base, index: nat)
    requires Prunes(b, c) && Accepted(c) && index < |Plan(b)| && BlocksAlike(b, c, index)
    requires d == c || d == Pruned(c, Plan(c)[index])
    ensures Prunes(b, d) && d.home == c.home && BlocksAlike(b, d, index + 1)
    ensures Blocked(c, Plan(c)[index]) ==> index > 0 && !NoBlock(c) && !NoBlock(b)
  {
    PrunedPrunes(c, Plan(c)[index]);
    PruningMore(b, c, d);
    BlocksAlikeNext(b, c, d, index);
    FirstIsNeverBlocked(c);
  }

  lemma FirstIsNeverBlocked(b: Base)
    requires Shaped(b) && Plan(b) != []
    ensures !Blocked(b, Plan(b)[0])
  {
    FirstPlanned(b);
  }

  lemma PlacedIsFree(b: Base, w: World)
    requires Shaped(b) && Placed(b, w, SLOTS)
    ensures NoClash(b)
  {
    forall i: nat | Planned(b, i)
      ensures Free(b, i)
    {
      assert RootPlaced(b, w.source, SLOTS, i);
    }
  }

  // -------------------------------------------------------------------- machine

  /** The file system together with the process that migrates it.

      The ghost fields record the layout before the migration, whether the point
      of no return has been journalled, and the slots below which trees have moved.
   */
  class Migration {
    const same: seq<bool>
    const foreign: seq<bool>
    var world: World
    var fates: seq<Fate>
    ghost var base: Base
    ghost var committed: bool
    ghost var cut: nat

    ghost predicate Valid()
      reads this
    {
      Inv(base, committed, cut, world) && base.same == same && base.foreign == foreign
    }

    // The environment stops interfering: nothing raises and nothing dies.
    ghost predicate Calm()
      reads this
    {
      fates == []
    }

    ghost predicate Rollable()
      reads this
    {
      Valid() && world.journal.Some? && world.journal.value.phase.Prepared?
    }

    constructor (source: seq<Option<Node>>, home: Option<Node>, same: seq<bool>, foreign: seq<bool>,
                 fates: seq<Fate>)
      requires Shaped(Base(source, home, same, foreign))
      ensures Valid() && base == Base(source, home, same, foreign) && !committed
      ensures world == World(source, home, None) && this.fates == fates
    {
      this.same := same;
      this.foreign := foreign;
      this.world := World(source, home, None);
      this.fates := fates;
      this.base := Base(source, home, same, foreign);
      this.committed := false;
      this.cut := 0;
    }

    // What the script may still hold after an operation that was to succeed: an error
    // that has happened was the only one.
    ghost predicate OnceOnly(start: seq<Fate>, o: Outcome)
      reads this
    {
      AtMostOneError(start) ==> if o.Ok? then AtMostOneError(fates) else o.Failed? && fates == []
    }

    // One file-system operation.
    method Apply(next: World) returns (o: Outcome)
      modifies this`world, this`fates
      ensures o == Head(old(fates)) && fates == Tail(old(fates)) && OnceOnly(old(fates), o)
      ensures world == if o.Ok? then next else old(world)
    {
      o := Head(fates);
      fates := Tail(fates);
      if o.Ok? {
        world := next;
      }
    }

    // The source root is gone: bring the tree of journal entry index back.
    method RestoreTree(index: nat, slot: nat) returns (o: Outcome)
      requires Rollable() && index < |Plan(base)| && slot == Plan(base)[index]
      requires cut == slot + 1 && world.source[slot] == None
      modifies this`world, this`fates, this`cut
      ensures Rollable() && cut <= old(cut)
      ensures o.Ok? ==> cut == slot
      ensures world.journal ==
        if o.Ok? then Some(SetMoved(old(world.journal).value, index, false)) else old(world.journal)
      ensures old(Calm()) ==> Calm() && o.Ok?
    {
      var journal := world.journal.value;
      var wasMoved := journal.moves[index].moved;
      assert !Refused(base, slot);
      MoveBackUnplaces(base, world, slot);
      if At(world.home, slot).Some? {
        if !At(world.home, slot).value.Dir? {
          return Failed;
        }
        o := Apply(MoveBack(world, slot));
        if !o.Ok? {
          return;
        }
        cut := slot;
        o := Apply(world.(journal := Some(SetMoved(journal, index, false))));
      } else if wasMoved {
        return Failed;
      }
    }

    method RollbackMove(index: nat) returns (o: Outcome)
      requires Rollable() && index < |Plan(base)| && cut <= Plan(base)[index] + 1
      modifies this`world, this`fates, this`cut
      ensures Rollable() && cut <= old(cut)
      ensures o.Ok? ==> cut == if old(cut) <= Plan(base)[index] then old(cut) else Plan(base)[index]
      ensures old(Calm()) ==> Calm() && !o.Crashed?
      ensures old(Calm()) ==> (o.Ok? <==>
        old(cut) == 0 || old(cut) > Plan(base)[index] || Free(base, Plan(base)[index]))
      ensures old(Calm()) && o.Failed? ==> world == old(world) && cut == old(cut)
      ensures world.journal ==
        if o.Ok? then Some(SetMoved(old(world.journal).value, index, false)) else old(world.journal)
    {
      var journal := world.journal.value;
      var slot := journal.moves[index].slot;
      assert slot == Plan(base)[index];
      assert !Refused(base, slot) && RootPlaced(base, world.source, cut, slot);
      if cut <= slot {
        TargetOccupied(base, world, cut, slot);
      }
      if world.source[slot].Some? && world.source[slot].value.Link? {
        if world.source[slot].value.dest != Target(slot) {
          return Failed;
        }
        RelinkKeepsPlaced(base, world, cut, slot, None);
        o := Apply(world.(source := world.source[slot := None]));
        if !o.Ok? {
          return;
        }
      } else if world.source[slot].Some? {
        if !world.source[slot].value.Dir? || At(world.home, slot).Some? {
          return Failed;
        }
        o := Apply(world.(journal := Some(SetMoved(journal, index, false))));
        return;
      }
      o := RestoreTree(index, slot);
    }

    // rollback: bring back what has moved, unless the point of no return is past.
    method Rollback() returns (o: Outcome)
      requires Valid()
      modifies this
      ensures Valid() && base == old(base) && committed == old(committed)
      ensures o.Ok? ==> world.journal == None
      ensures o.Ok? && !committed ==> world.source == base.source && world.home == base.home
      ensures old(world.journal).None? ==> o.Failed? && world == old(world)
      ensures old(Calm()) ==> Calm() && !o.Crashed?
      ensures old(Calm()) && old(world.journal).Some? ==> (o.Ok? <==> committed || old(cut) == 0 || NoClash(base))
      ensures old(Calm()) && o.Failed? && old(world.journal).Some? ==> world.journal.Some? && cut > 0
    {
      if world.journal.None? {
        return Failed;
      }
      if world.journal.value.phase.Committing? {
        o := Commit();
        return;
      }
      FreeFromStart(base);
      o := RollbackMoves();
      if !o.Ok? {
        return;
      }
      NothingMoved(base, world);
      if world.journal.value.createdHome && world.home == Some(Dir(map[])) {
        o := Apply(world.(home := None));
        if !o.Ok? {
          return;
        }
      }
      o := Apply(world.(journal := None));
    }

    method RollbackNext(index: nat) returns (o: Outcome)
      requires Rollable() && index < |Plan(base)|
      requires index + 1 < |Plan(base)| ==> cut <= Plan(base)[index + 1]
      modifies this`world, this`fates, this`cut
      ensures Rollable() && cut <= old(cut)
      ensures o.Ok? ==> cut <= Plan(base)[index] && (cut == 0 ==> old(cut) == 0 || index == 0)
      ensures old(Calm()) ==> Calm() && !o.Crashed?
      ensures old(Calm()) ==> (o.Ok? <==> old(cut) == 0 || Free(base, Plan(base)[index]))
      ensures old(Calm()) && o.Failed? ==> cut > 0
    {
      ghost var slot := Plan(base)[index];
      NothingBetween(base, index, cut);
      LowerCut(slot + 1);
      assert cut > slot ==> RootPlaced(base, world.source, cut, slot);
      if slot == 0 {
        OnlyTheFirstIsData(base, index);
      }
      o := RollbackMove(index);
    }

    method RollbackMoves() returns (o: Outcome)
      requires Rollable()
      modifies this`world, this`fates, this`cut
      ensures Rollable() && cut <= old(cut)
      ensures o.Ok? ==> cut == 0
      ensures old(Calm()) ==> Calm() && !o.Crashed?
      ensures old(Calm()) ==> (o.Ok? <==> old(cut) == 0 || FreeFrom(base, 0))
      ensures old(Calm()) && o.Failed? ==> cut > 0
    {
      var length := |world.journal.value.moves|;
      o := Ok;
      for index := length downto 0
        invariant Rollable() && cut <= old(cut) && o.Ok?
        invariant index < length ==> cut <= Plan(base)[index]
        invariant cut == 0 && old(cut) > 0 ==> index == 0
        invariant old(Calm()) ==> Calm() && (old(cut) == 0 || FreeFrom(base, index))
      {
        o := RollbackNext(index);
        if !o.Ok? {
          return;
        }
      }
      NothingBefore(base, cut);
      LowerCut(0);
    }

    // The cut never needs to be above a slot with nothing planned from there on.
    ghost method LowerCut(low: nat)
      requires Rollable()
      requires forall i: nat :: Planned(base, i) && i < cut ==> i < low
      modifies this`cut
      ensures Rollable() && cut == if low < old(cut) then low else old(cut)
    {
      if low < cut {
        SkipUnplanned(base, world, low, cut);
        cut := low;
      }
    }

    // Every target holds its tree; before the point of no return every link is there.
    ghost predicate Committable()
      reads this
      requires Valid() && world.journal.Some?
    {
      committed || AllLinked(base, world)
    }

    method CheckCommittable() returns (ok: bool)
      requires Valid() && world.journal.Some?
      ensures ok <==> Committable()
    {
      var journal := world.journal.value;
      ghost var p := Plan(base);
      ghost var n := if committed then SLOTS else cut;
      for index := 0 to |journal.moves|
        invariant committed || forall j :: 0 <= j < index ==> Linked(world.source, p[j]) && p[j] < cut
      {
        var slot := journal.moves[index].slot;
        assert slot == p[index];
        assert !Refused(base, slot) && RootPlaced(base, world.source, n, slot);
        if slot < n {
          MovedTreeIsAtTarget(base, world, n, slot);
        } else {
          assert !Linked(world.source, slot);
        }
        if At(world.home, slot).None? || !At(world.home, slot).value.Dir? {
          return false;
        }
        if world.source[slot].Some? && !world.source[slot].value.Link? {
          return false;
        }
        if world.source[slot].Some? && world.source[slot].value.dest != Target(slot) {
          return false;
        }
        if world.source[slot].None? && journal.phase.Prepared? {
          return false;
        }
      }
      PlanCovers(base);
      if !committed {
        SkipUnplanned(base, world, cut, SLOTS);
      }
      ok := true;
    }

    // commit: once "committing" is journalled, only removing links is left to do.
    method Commit() returns (o: Outcome)
      requires Valid()
      modifies this
      ensures Valid() && base == old(base)
      ensures old(committed) ==> committed
      ensures o.Ok? ==> committed && world.journal == None
      ensures old(world.journal.None? || !Committable()) ==>
        o.Failed? && world == old(world) && committed == old(committed)
      ensures old(Calm()) ==> Calm() && !o.Crashed?
      ensures old(Calm() && world.journal.Some? && Committable()) ==> o.Ok?
    {
      if world.journal.None? {
        return Failed;
      }
      var ok := CheckCommittable();
      if !ok {
        return Failed;
      }
      if world.journal.value.phase.Prepared? {
        o := Apply(world.(journal := Some(world.journal.value.(phase := Committing))));
        if !o.Ok? {
          return;
        }
        committed := true;
      }
      o := RemoveLinks();
      if !o.Ok? {
        return;
      }
      o := Apply(world.(journal := None));
    }

    method RemoveLinks() returns (o: Outcome)
      requires Valid() && committed && world.journal.Some?
      modifies this`world, this`fates
      ensures Valid() && world.journal == old(world.journal)
      ensures o.Ok? ==> Consolidated(base, world)
      ensures old(Calm()) ==> Calm() && o.Ok?
    {
      var journal := world.journal.value;
      ghost var p := Plan(base);
      o := Ok;
      for index := 0 to |journal.moves|
        invariant Valid() && world.journal == Some(journal) && o.Ok?
        invariant forall j :: 0 <= j < index ==> world.source[p[j]] == None
        invariant old(Calm()) ==> Calm()
      {
        var slot := journal.moves[index].slot;
        assert slot == p[index];
        assert RootPlaced(base, world.source, SLOTS, slot);
        if world.source[slot].Some? && world.source[slot].value.Link? {
          RelinkKeepsPlaced(base, world, SLOTS, slot, None);
          o := Apply(world.(source := world.source[slot := None]));
          if !o.Ok? {
            return;
          }
        }
      }
      PlanCovers(base);
    }

    // Which roots are to be moved, or that the layout cannot be migrated.
    method BuildPlan(current: Base) returns (plan: Option<seq<nat>>)
      requires Shaped(current) && MissingOrDir(current.home)
      ensures plan == if Accepted(current) then Some(Plan(current)) else None
    {
      var chosen: seq<nat> := [];
      for i := 0 to SLOTS
        invariant chosen == PlanUpTo(current, i)
        invariant forall j: nat :: j < i ==> !Refused(current, j)
      {
        if !current.same[i] {
          var source, target := current.source[i], At(current.home, i);
          if !MissingOrDir(source) || !MissingOrDir(target) || (source.Some? && (target.Some? || current.foreign[i])) {
            assert Refused(current, i);
            return None;
          }
          if source.Some? {
            chosen := chosen + [i];
          }
        }
      }
      plan := Some(chosen);
    }

    // The tree is at its target: record that and leave the compatibility link.
    method LinkTree(index: nat, slot: nat) returns (o: Outcome)
      requires Rollable() && index < |Plan(base)| && slot == Plan(base)[index]
      requires cut == slot + 1 && world.source[slot] == None
      modifies this`world, this`fates
      ensures Rollable()
      ensures world.source == if o.Ok? then old(world.source)[slot := Some(Link(Target(slot)))] else old(world.source)
      ensures o.Ok? ==> world.journal == Some(SetMoved(old(world.journal).value, index, true))
      ensures old(Calm()) ==> Calm() && o.Ok?
      ensures OnceOnly(old(fates), o)
    {
      o := Apply(world.(journal := Some(SetMoved(world.journal.value, index, true))));
      if !o.Ok? {
        return;
      }
      if world.source[slot].Some? {
        return Failed;
      }
      RelinkKeepsPlaced(base, world, cut, slot, Some(Link(Target(slot))));
      o := Apply(world.(source := world.source[slot := Some(Link(Target(slot)))]));
    }

    // Renames the tree of a slot to its target, in a home that exists.
    method RenameTree(slot: nat) returns (o: Outcome)
      requires Rollable() && cut == slot && Planned(base, slot) && (world.home.Some? || slot == 0)
      modifies this`world, this`fates, this`cut, this`base
      ensures Rollable() && world.journal == old(world.journal)
      ensures if o.Ok? then cut == slot + 1 && base == Pruned(old(base), slot) && Free(base, slot)
              else cut == slot && base == old(base) && world == old(world)
      ensures o.Ok? ==> world.source == old(world.source)[slot := None]
      ensures old(Calm()) ==> Calm() && !o.Crashed? && (o.Ok? <==> !Blocked(old(base), slot))
      ensures !Blocked(old(base), slot) ==> OnceOnly(old(fates), o)
    {
      assert !Refused(base, slot) && RootPlaced(base, world.source, cut, slot);
      TargetOccupied(base, world, cut, slot);
      if !CanReplace(At(world.home, slot)) {
        return Failed;
      }
      PrunedKeepsPlan(base, slot);
      PrunedFrees(base, slot, slot);
      if Free(base, slot) {
        MoveOverPlaces(base, world, slot);
      } else {
        MoveOverReplaces(base, world, slot);
      }
      o := Apply(MoveOver(world, slot));
      if o.Ok? {
        base := Pruned(base, slot);
        cut := slot + 1;
      }
    }

    method MoveTree(index: nat, slot: nat) returns (o: Outcome)
      requires Rollable() && index < |Plan(base)| && slot == Plan(base)[index] && cut == slot
      modifies this`world, this`fates, this`cut, this`base
      ensures Rollable() && (base == old(base) || base == Pruned(old(base), slot)) && Plan(base) == Plan(old(base))
      ensures o.Ok? ==> base == Pruned(old(base), slot) && cut == slot + 1 && Linked(world.source, slot)
      ensures o.Ok? ==> forall i: nat :: i < SLOTS && i != slot ==> world.source[i] == old(world.source)[i]
      ensures o.Ok? ==> world.journal == Some(SetMoved(old(world.journal).value, index, true))
      ensures old(Calm()) ==> Calm() && !o.Crashed? && (o.Ok? <==> !Blocked(old(base), slot))
      ensures old(Calm()) && o.Failed? ==> cut == old(cut) && base == old(base)
      ensures !Blocked(old(base), slot) ==> OnceOnly(old(fates), o)
    {
      HomeAfterIsDir(base, cut);
      PrunedKeepsPlan(base, slot);
      if slot != 0 && world.home.None? {
        o := Apply(world.(home := Some(Dir(map[]))));
        if !o.Ok? {
          return;
        }
      }
      o := RenameTree(slot);
      if !o.Ok? {
        return;
      }
      o := LinkTree(index, slot);
    }

    // Every planned slot below the cut has its link.
    ghost predicate LinkedBelow()
      reads this
      requires Shaped(base)
    {
      forall i: nat :: Planned(base, i) && i < cut ==> Linked(world.source, i)
    }

    method MoveNext(index: nat) returns (o: Outcome)
      requires Rollable() && index < |Plan(base)| && LinkedBelow()
      requires cut == if index == 0 then 0 else Plan(base)[index - 1] + 1
      modifies this`world, this`fates, this`cut, this`base
      ensures Rollable() && Plan(base) == Plan(old(base))
      ensures base == old(base) || base == Pruned(old(base), Plan(old(base))[index])
      ensures o.Ok? ==> cut == Plan(base)[index] + 1 && LinkedBelow()
      ensures o.Ok? ==> world.journal == Some(SetMoved(old(world.journal).value, index, true))
      ensures old(Calm()) ==> Calm() && !o.Crashed? && (o.Ok? <==> !Blocked(old(base), Plan(old(base))[index]))
      ensures old(Calm()) && o.Failed? ==> base == old(base) && (index > 0 ==> cut > 0)
      ensures !Blocked(old(base), Plan(old(base))[index]) ==> OnceOnly(old(fates), o)
    {
      var slot := world.journal.value.moves[index].slot;
      assert slot == Plan(base)[index];
      if index == 0 {
        NothingBefore(base, slot);
      } else {
        NothingBetween(base, index - 1, slot);
        PlanHasNoGaps(base, SLOTS, index - 1, slot);
      }
      SkipUnplanned(base, world, cut, slot);
      cut := slot;
      PrunedKeepsPlan(base, slot);
      o := MoveTree(index, slot);
    }

    // The first trees of the plan have moved, are linked and are recorded.
    ghost predicate Advanced(start: Base, index: nat)
      reads this
    {
      && Rollable() && LinkedBelow() && Prunes(start, base) && base.home == start.home
      && Plan(base) == Plan(start) && index <= |Plan(base)| && BlocksAlike(start, base, index)
      && cut == (if index == 0 then 0 else Plan(base)[index - 1] + 1)
      && forall j :: 0 <= j < index ==> world.journal.value.moves[j].moved
    }

    method MoveOne(index: nat, ghost start: Base) returns (o: Outcome)
      requires Advanced(start, index) && index < |Plan(base)|
      modifies this`world, this`fates, this`cut, this`base
      ensures Rollable() && Plan(base) == Plan(start) && Prunes(start, base) && base.home == start.home
      ensures o.Ok? ==> Advanced(start, index + 1)
      ensures old(Calm()) ==> Calm() && !o.Crashed? && (o.Ok? <==> !Blocked(start, Plan(start)[index]))
      ensures old(Calm()) && o.Failed? ==> cut > 0 && !NoBlock(base) && !NoBlock(start)
      ensures NoClash(start) ==> OnceOnly(old(fates), o)
    {
      ghost var before := base;
      NotBlocked(start, base, index);
      o := MoveNext(index);
      MovedOne(start, before, base, index);
    }

    lemma NoneMoved()
      requires Rollable() && cut == 0
      ensures Advanced(base, 0) && |world.journal.value.moves| == |Plan(base)|
    {
    }

    lemma AllMoved(start: Base)
      requires Shaped(base) && Advanced(start, |Plan(base)|)
      ensures AllLinked(base, world) && NoClash(base) && forall m :: m in world.journal.value.moves ==> m.moved
    {
      NothingBetween(base, |Plan(base)| - 1, SLOTS);
      SkipUnplanned(base, world, cut, SLOTS);
      PlacedIsFree(base, world);
      assert |world.journal.value.moves| == |Plan(base)|;
    }

    method MoveTrees() returns (o: Outcome)
      requires Rollable() && cut == 0
      modifies this`world, this`fates, this`cut, this`base
      ensures Rollable() && Plan(base) == Plan(old(base))
      ensures Prunes(old(base), base) && base.home == old(base).home
      ensures o.Ok? ==>
        AllLinked(base, world) && NoClash(base) && forall m :: m in world.journal.value.moves ==> m.moved
      ensures old(Calm()) ==> Calm() && !o.Crashed? && (o.Ok? <==> NoBlock(old(base)))
      ensures old(Calm()) && o.Failed? ==> cut > 0 && !NoBlock(base)
      ensures NoClash(old(base)) ==> OnceOnly(old(fates), o)
    {
      ghost var start := base;
      var length := |world.journal.value.moves|;
      NoneMoved();
      o := Ok;
      for index := 0 to length
        invariant Advanced(start, index) && o.Ok?
        invariant NoClash(start) ==> OnceOnly(old(fates), o)
        invariant old(Calm()) ==> Calm() && UnblockedBelow(start, index)
      {
        if old(Calm()) {
          OneMoreUnblocked(start, index);
        }
        o := MoveOne(index, start);
        if !o.Ok? {
          return;
        }
      }
      AllMoved(start);
      if old(Calm()) {
        NoneBlocked(start);
      }
    }

    method PrepareEmpty() returns (o: Outcome)
      requires Valid() && world.journal.None? && MissingOrDir(world.home)
      requires committed || Plan(base) == []
      modifies this
      ensures Valid() && committed == old(committed)
      ensures base == old(base) ||
        (base == old(base).(home := Some(Dir(map[]))) && old(base).home.None? && Plan(base) == [])
      ensures o.Ok? ==> Migrated()
      ensures OnceOnly(old(fates), o) && (!o.Ok? ==> world == old(world))
      ensures old(Calm()) ==> Calm() && o.Ok?
    {
      if committed {
        NothingLeftToPlan(base, world);
      }
      o := Ok;
      if world.home.None? {
        o := Apply(world.(home := Some(Dir(map[]))));
        if o.Ok? {
          base := base.(home := world.home);
          SamePlan(base, old(base));
        }
      }
    }

    // Moving and linking all trees of a new plan; a failure takes them back.
    method PreparePlan(plan: seq<nat>) returns (o: Outcome)
      requires Valid() && world.journal.None? && !committed
      requires Accepted(base) && plan == Plan(base) && plan != []
      modifies this
      ensures Valid() && !committed && Prunes(old(base), base) && base.home == old(base).home && Plan(base) != []
      ensures o.Ok? ==> Migrated() && NoClash(base)
      ensures old(Calm()) ==> Calm() && !o.Crashed? && (o.Ok? <==> NoBlock(old(base)))
      ensures old(Calm()) && o.Failed? ==> world.journal.Some? && cut > 0 && !NoClash(base)
      ensures AtMostOneError(old(fates)) && NoClash(old(base)) && !o.Ok? ==>
        o.Failed? && world == old(world) && base == old(base)
    {
      FirstPlanned(base);
      o := Apply(world.(journal := Some(Journal(Prepared, world.home.None? && plan[0] != 0, NewMoves(plan)))));
      if !o.Ok? {
        return;
      }
      o := MoveTrees();
      NothingToPrune(old(base), base);
      if o.Failed? {
        o := Rollback();
        if o.Ok? {
          o := Failed;
        }
      }
    }

    // Nothing is in progress any more: plan, journal the plan, move, link.
    method PrepareFresh() returns (o: Outcome)
      requires Valid() && world.journal.None? && MissingOrDir(world.home)
      modifies this
      ensures Valid() && committed == old(committed)
      ensures Rebased(old(base), base)
      ensures o.Ok? ==> Migrated()
      ensures o.Ok? && !committed ==> NoClash(base)
      ensures old(!committed && !Accepted(base)) ==> o.Failed? && world == old(world)
      ensures old(Calm()) ==> Calm() && !o.Crashed?
      ensures old(Calm() && !committed) ==> (o.Ok? <==> Accepted(old(base)) && NoBlock(old(base)))
      ensures old(Calm() && !committed && Accepted(base)) && o.Failed? ==>
        world.journal.Some? && cut > 0 && !NoClash(base)
      ensures AtMostOneError(old(fates)) && old(!committed && Accepted(base) && NoClash(base)) && !o.Ok? ==>
        o.Failed? && world == old(world)
      ensures old(Calm() && committed) ==> (o.Ok? <==> Accepted(old(Base(world.source, world.home, same, foreign))))
    {
      if committed {
        NothingLeftToPlan(base, world);
      }
      var plan := BuildPlan(Base(world.source, world.home, same, foreign));
      if plan.None? {
        return Failed;
      }
      if plan.value == [] {
        if !committed {
          PlanCovers(base);
        }
        o := PrepareEmpty();
        PlanCovers(base);
        return;
      }
      o := PreparePlan(plan.value);
    }

    /** prepare: finish whatever an earlier run left behind, then migrate. */
    method Prepare() returns (o: Outcome)
      requires Valid()
      modifies this
      ensures Valid() && committed == old(committed) && Rebased(old(base), base)
      ensures o.Ok? ==> Migrated()
      ensures o.Ok? && !committed ==> NoClash(base)
      ensures old(world.journal.None? && !committed && !Accepted(base)) ==> o.Failed? && world == old(world)
      ensures old(Calm()) ==> Calm() && !o.Crashed?
      ensures old(Calm()) && !committed ==>
        (o.Ok? <==>
          Accepted(old(base)) && if old(world.journal.Some? && cut > 0) then NoClash(old(base)) else NoBlock(old(base)))
      ensures old(Calm() && !committed && Accepted(base)) && o.Failed? ==>
        world.journal.Some? && cut > 0 && !NoClash(base)
      ensures AtMostOneError(old(fates)) &&
              old(world.journal.None? && !committed && Accepted(base) && NoClash(base)) && !o.Ok? ==>
        o.Failed? && world == old(world)
    {
      if world.journal.Some? {
        HomeAfterIsDir(base, if committed then SLOTS else cut);
      }
      if !MissingOrDir(world.home) {
        return Failed;
      }
      if world.journal.Some? {
        if world.journal.value.phase.Committing? {
          o := Commit();
        } else {
          o := Rollback();
        }
        if !o.Ok? {
          return;
        }
      }
      o := PrepareFresh();
    }

    // A prepare may create the home directory when there is nothing to move, and
    // may replace empty children of the data tree.
    ghost predicate Rebased(b: Base, c: Base) {
      || (Shaped(b) && c == b.(home := Some(Dir(map[]))) && b.home.None? && Plan(c) == [])
      || (Prunes(b, c) && c.home == b.home)
    }

    // What a successful prepare leaves: all trees moved and linked under an open
    // journal, or nothing to do and a home directory.
    ghost predicate Migrated()
      reads this
      requires Valid()
    {
      if world.journal.None? then (committed || Plan(base) == []) && world.home.Some? && world.home.value.Dir?
      else !committed && AllLinked(base, world) && forall m :: m in world.journal.value.moves ==> m.moved
    }

    /** Any sequence of commands, each under its own script of errors and
        crashes: the layout stays recoverable, and past the point of no return
        every tree is at its target for good.  Nothing is ever lost but empty
        children of the data tree that a moving tree replaced.
     */
    method Run(commands: seq<Command>)
      requires Valid()
      modifies this
      ensures Valid() && Prunes(old(base), base)
      ensures old(committed) ==> committed
    {
      for i := 0 to |commands|
        invariant Valid() && Prunes(old(base), base)
        invariant old(committed) ==> committed
      {
        ghost var before := base;
        fates := commands[i].fates;
        match commands[i] {
          case RunPrepare(_) => var _ := Prepare();
          case RunRollback(_) => var _ := Rollback();
          case RunCommit(_) => var _ := Commit();
        }
        PruningMore(old(base), before, base);
      }
    }

    /** A prepare and a rollback in peace end with the old roots and the old home
        exactly if no tree moves to a name the data tree brings along; with an empty
        directory of such a name both report success and the directory is gone.
     */
    method PrepareThenRollback() returns (prepared: Outcome, undone: Outcome)
      requires Valid() && Calm() && world.journal.None? && !committed && Accepted(base) && Plan(base) != []
      modifies this
      ensures Valid() && Calm() && !committed
      ensures world.source == old(world.source) && world.home == old(world.home) <==> NoClash(old(base))
      ensures prepared.Ok? <==> NoBlock(old(base))
      ensures prepared.Ok? <==> undone.Ok?
      ensures prepared.Ok? ==>
        && world == World(base.source, base.home, None)
        && Prunes(old(base), base) && NoClash(base)
    {
      prepared := Prepare();
      PrunesKeepsPlan(old(base), base);
      undone := Rollback();
      KeptExactly(old(base), base);
      if prepared.Failed? {
        TreeLeftBehind(base, world, cut);
      }
    }
  }

  // A pruned layout without a clash is the old one exactly if that had no clash.
  lemma KeptExactly(b: Base, c: Base)
    requires Prunes(b, c)
    ensures NoClash(b) ==> c.source == b.source && NoBlock(b)
    ensures NoClash(c) && NoBlock(b) && c.source == b.source ==> NoClash(b)
    ensures c.source != b.source ==> c.source[0] != b.source[0]
  {
    assert c.source[0] == b.source[0] ==> c.source == b.source;
    if NoClash(b) {
      forall name | name in Entries(b.source[0])
        ensures c.source[0] != b.source[0] ==> name in Entries(c.source[0])
      {
        assert !Replaceable(b, name);
      }
      assert c.source[0] != b.source[0] ==> Entries(c.source[0]) == Entries(b.source[0]);
    }
    if c.source == b.source && NoClash(c) {
      forall i: nat | Planned(b, i)
        ensures Free(b, i)
      {
        assert Planned(c, i);
      }
    }
  }

  lemma PrunesKeepsPlan(b: Base, c: Base)
    requires Prunes(b, c)
    ensures Plan(c) == Plan(b)
  {
    SamePlanUpTo(b, c, SLOTS);
  }

  // With a clash in the way the data tree, which moved first, is not back.
  lemma TreeLeftBehind(b: Base, w: World, cut: nat)
    requires Accepted(b) && Placed(b, w, cut) && cut > 0 && !NoClash(b)
    ensures b.source[0].Some? && b.source[0].value.Dir? && !(w.source[0].Some? && w.source[0].value.Dir?)
  {
    var i: nat :| Planned(b, i) && !Free(b, i);
    assert !Refused(b, 0);
    assert RootPlaced(b, w.source, cut, 0);
  }

  // A home without anything in it yet, a data tree that has an empty directory
  // under the name of slot i, and a tree of slot i that moves there.
  function EmptyChildLayout(i: nat): Base
    requires 0 < i < SLOTS
  {
    var data := Some(Dir(map[ChildName(i) := Dir(map[]), Other("kept") := File("data")]));
    var tree := Some(Dir(map[Other("file") := File("tree")]));
    Base([data, if i == 1 then tree else None, if i == 2 then tree else None], None, [false, false, false],
         [false, false, false])
  }

  lemma WithoutEmptyChild(i: nat, c: Base)
    requires 0 < i < SLOTS && Prunes(EmptyChildLayout(i), c) && NoClash(c)
    ensures c.source[0] == Some(Dir(map[Other("kept") := File("data")]))
  {
    var b := EmptyChildLayout(i);
    assert Planned(b, i) && Planned(c, i) && Free(c, i);
    assert !Replaceable(b, Other("kept"));
    assert Entries(c.source[0]) == map[Other("kept") := File("data")];
  }

  /** The directory is lost: migrating and rolling back both succeed, and the data
      tree comes back without it. */
  method EmptyChildIsLost(i: nat) returns (m: Migration, prepared: Outcome, undone: Outcome)
    requires 0 < i < SLOTS
    ensures prepared.Ok? && undone.Ok? && fresh(m) && |m.world.source| == SLOTS
    ensures m.world.source[0] == Some(Dir(map[Other("kept") := File("data")])) != EmptyChildLayout(i).source[0]
  {
    var b := EmptyChildLayout(i);
    m := new Migration(b.source, b.home, b.same, b.foreign, []);
    assert Accepted(b) && Planned(b, i) && EmptyChild(b, i);
    assert ChildName(i) in Entries(b.source[0]);
    PlanCovers(b);
    prepared, undone := m.PrepareThenRollback();
    WithoutEmptyChild(i, m.base);
  }

  datatype Command = RunPrepare(fates: seq<Fate>) | RunRollback(fates: seq<Fate>) | RunCommit(fates: seq<Fate>)
}
