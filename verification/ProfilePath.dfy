/** Following a shell profile's symlinks (integrations/common/shell_profiles.py,
    ProfilePath).  A path is the list of its components from the root of the file
    system, which stays the same while one profile is being resolved.
 */
module ProfilePath {
  import opened Options

  type Name = string
  type Path = seq<Name>

  datatype Part = Up | Into(name: Name)

  // Exactly two slashes in front stay two when a path is normalised lexically, and then
  // it is below no root; the system takes them for one.
  datatype Anchor = Relative | Absolute | Doubled

  datatype Destination = Destination(anchor: Anchor, parts: seq<Part>)

  // The identity stands for everything that is compared to notice a change; safe
  // means owned by the user and, but for links, not writable by others.
  datatype Node =
    | Link(identity: nat, safe: bool, destination: Destination)
    | Directory(identity: nat, safe: bool)
    | Regular(identity: nat, safe: bool)
    | OtherNode(identity: nat, safe: bool)

  type Files = map<Path, Node>

  datatype Guard = LinkGuard(identity: nat, destination: Destination) | DirectoryGuard(identity: nat)

  type Guards = map<Path, Guard>

  const MAX_LINKS := 40

  function GuardOf(node: Node): Option<Guard> {
    match node
    case Link(identity, true, destination) => Some(LinkGuard(identity, destination))
    case Directory(identity, true) => Some(DirectoryGuard(identity))
    case _ => None
  }

  function Parent(p: Path): Path {
    if p == [] then [] else p[..|p| - 1]
  }

  // The lexical normal form of a path continued by some parts.
  function Normal(base: Path, parts: seq<Part>): Path
    decreases |parts|
  {
    if parts == [] then base
    else Normal(if parts[0].Up? then Parent(base) else base + [parts[0].name], parts[1..])
  }

  // Where a destination starts.
  function StartOf(parent: Path, destination: Destination): Path {
    if destination.anchor.Relative? then parent else []
  }

  function Target(parent: Path, destination: Destination): Path {
    Normal(StartOf(parent, destination), destination.parts)
  }

  // --------------------------------------------------------------- what is resolved

  datatype Outcome = Resolved(path: Path, guards: Guards) | Unsafe

  // Guards a link or a directory; None if it is unsafe or was seen differently.
  function Guarded(files: Files, guards: Guards, path: Path): Option<Guards> {
    if path !in files || GuardOf(files[path]).None? then None
    else
      var guard := GuardOf(files[path]).value;
      if path in guards && guards[path] != guard then None else Some(guards[path := guard])
  }

  function Follow(files: Files, root: Path, cursor: Path, pending: seq<Name>, links: nat, guards: Guards): Outcome
    requires links <= MAX_LINKS
    decreases MAX_LINKS - links, |pending|
  {
    if pending == [] then Unsafe
    else
      var candidate, rest := cursor + [pending[0]], pending[1..];
      if candidate !in files then Unsafe
      else
        match files[candidate]
        case Link(_, _, destination) =>
          var more := Guarded(files, guards, candidate);
          var target := Target(cursor, destination);
          if links == MAX_LINKS || more.None? || destination.anchor.Doubled? || !(root <= target) then Unsafe
          else Follow(files, root, root, target[|root|..] + rest, links + 1, more.value)
        case node =>
          if rest != [] then
            var more := Guarded(files, guards, candidate);
            if more.None? then Unsafe else Follow(files, root, candidate, rest, links, more.value)
          else if node.Regular? && node.safe then Resolved(candidate, guards)
          else Unsafe
  }

  // The whole resolution of a path that is a symlink.
  function Resolve(files: Files, root: Path, requested: Path): Outcome {
    var first := Guarded(files, map[], requested);
    if first.None? then Unsafe
    else
      var second := Guarded(files, first.value, root);
      if second.None? || !files[root].Directory? || !(root <= requested) then Unsafe
      else Follow(files, root, root, requested[|root|..], 0, second.value)
  }

  class Profile {
    var path: Path
    var guards: Guards

    constructor (requested: Path)
      ensures path == requested && guards == map[]
    {
      path := requested;
      guards := map[];
    }

    method Remember(files: Files, at: Path) returns (ok: bool)
      modifies this`guards
      ensures ok <==> Guarded(files, old(guards), at).Some?
      ensures guards == if ok then Guarded(files, old(guards), at).value else old(guards)
    {
      var more := Guarded(files, guards, at);
      ok := more.Some?;
      if ok {
        guards := more.value;
      }
    }

    /** Leaves a profile alone that is missing or no symlink; otherwise resolves it,
        or finds it unsafe. */
    method Open(files: Files, root: Path) returns (ok: bool)
      requires guards == map[]
      modifies this
      ensures !(old(path) in files && files[old(path)].Link?) ==> ok && path == old(path) && guards == map[]
      ensures old(path) in files && files[old(path)].Link? ==>
        && (ok <==> Resolve(files, root, old(path)).Resolved?)
        && (ok ==> Resolve(files, root, old(path)) == Resolved(path, guards))
    {
      if path !in files || !files[path].Link? {
        return true;
      }
      var fine := Remember(files, path);
      if !fine {
        return false;
      }
      fine := Remember(files, root);
      if !fine || !files[root].Directory? || !(root <= path) {
        return false;
      }
      var pending, cursor, links := path[|root|..], root, 0;
      ghost var whole := Follow(files, root, cursor, pending, links, guards);
      while pending != []
        invariant links <= MAX_LINKS && path == old(path)
        invariant Follow(files, root, cursor, pending, links, guards) == whole
        decreases MAX_LINKS - links, |pending|
      {
        var candidate := cursor + [pending[0]];
        pending := pending[1..];
        if candidate !in files {
          return false;
        }
        var node := files[candidate];
        if node.Link? {
          if links == MAX_LINKS {
            return false;
          }
          fine := Remember(files, candidate);
          var target := Target(cursor, node.destination);
          if !fine || node.destination.anchor.Doubled? || !(root <= target) {
            return false;
          }
          pending, cursor, links := target[|root|..] + pending, root, links + 1;
        } else if pending != [] {
          fine := Remember(files, candidate);
          if !fine {
            return false;
          }
          cursor := candidate;
        } else {
          if !node.Regular? || !node.safe {
            return false;
          }
          path := candidate;
          return true;
        }
      }
      ok := false;
    }

    /** Whether everything that was passed on the way is still what it was. */
    method Unchanged(files: Files) returns (same: bool)
      ensures same <==> Agrees(files, guards)
    {
      same := forall p :: p in guards ==> p in files && GuardedBy(files[p], guards[p]);
    }
  }

  // A node as a guard has seen it.
  predicate GuardedBy(node: Node, guard: Guard) {
    match guard
    case LinkGuard(identity, destination) =>
      node.Link? && node.identity == identity && node.destination == destination && node.safe
    case DirectoryGuard(identity) => node.Directory? && node.identity == identity && node.safe
  }

  ghost predicate Agrees(files: Files, guards: Guards) {
    forall p :: p in guards ==> p in files && GuardedBy(files[p], guards[p])
  }

  // ------------------------------------------------------------ what a result means

  ghost predicate SafeDirectory(files: Files, p: Path) {
    p in files && files[p].Directory? && files[p].safe
  }

  // Every directory from the root down to p is real, safe and guarded.
  ghost predicate GuardedDown(files: Files, root: Path, p: Path, guards: Guards) {
    root <= p && forall k :: |root| <= k <= |p| ==> SafeDirectory(files, p[..k]) && p[..k] in guards
  }

  ghost predicate Extends(more: Guards, guards: Guards) {
    forall p :: p in guards ==> p in more && more[p] == guards[p]
  }

  lemma GuardingOne(files: Files, guards: Guards, at: Path)
    requires Agrees(files, guards) && Guarded(files, guards, at).Some?
    ensures Agrees(files, Guarded(files, guards, at).value) && Extends(Guarded(files, guards, at).value, guards)
    ensures at in Guarded(files, guards, at).value
  {
  }

  lemma OneDeeper(files: Files, root: Path, p: Path, name: Name, guards: Guards, more: Guards)
    requires GuardedDown(files, root, p, guards) && Extends(more, guards)
    requires SafeDirectory(files, p + [name]) && p + [name] in more
    ensures GuardedDown(files, root, p + [name], more)
  {
    var q := p + [name];
    forall k | |root| <= k <= |q|
      ensures SafeDirectory(files, q[..k]) && q[..k] in more
    {
      if k <= |p| {
        assert q[..k] == p[..k];
      } else {
        assert q[..k] == q;
      }
    }
  }

  lemma RootStaysGuarded(files: Files, root: Path, cursor: Path, guards: Guards, more: Guards)
    requires GuardedDown(files, root, cursor, guards) && Extends(more, guards)
    ensures GuardedDown(files, root, root, more)
  {
    assert cursor[..|root|] == root;
    assert root[..|root|] == root;
  }

  // What a resolution has to establish about its result.
  ghost predicate WellResolved(files: Files, root: Path, path: Path, guards: Guards) {
    && |path| > |root| && GuardedDown(files, root, path[..|path| - 1], guards) && root <= path
    && path in files && files[path].Regular? && files[path].safe
    && Agrees(files, guards)
  }

  lemma {:induction false} FollowResolvesWell(files: Files, root: Path, cursor: Path, pending: seq<Name>, links: nat,
                                             guards: Guards)
    requires links <= MAX_LINKS && GuardedDown(files, root, cursor, guards) && Agrees(files, guards)
    requires Follow(files, root, cursor, pending, links, guards).Resolved?
    ensures var r := Follow(files, root, cursor, pending, links, guards);
            WellResolved(files, root, r.path, r.guards) && Extends(r.guards, guards)
    decreases MAX_LINKS - links, |pending|
  {
    var candidate, rest := cursor + [pending[0]], pending[1..];
    if files[candidate].Link? {
      GuardingOne(files, guards, candidate);
      var more := Guarded(files, guards, candidate).value;
      RootStaysGuarded(files, root, cursor, guards, more);
      var target := Target(cursor, files[candidate].destination);
      FollowResolvesWell(files, root, root, target[|root|..] + rest, links + 1, more);
    } else if rest != [] {
      GuardingOne(files, guards, candidate);
      var more := Guarded(files, guards, candidate).value;
      OneDeeper(files, root, cursor, pending[0], guards, more);
      FollowResolvesWell(files, root, candidate, rest, links, more);
    } else {
      assert candidate[..|candidate| - 1] == cursor;
    }
  }

  /** A resolved profile is a safe regular file below the root, reached through real
      and safe directories, and every link and directory passed is guarded. */
  lemma ResolvedIsWell(files: Files, root: Path, requested: Path)
    requires Resolve(files, root, requested).Resolved?
    ensures var r := Resolve(files, root, requested);
            WellResolved(files, root, r.path, r.guards) && requested in r.guards
  {
    var first := Guarded(files, map[], requested).value;
    GuardingOne(files, map[], requested);
    GuardingOne(files, first, root);
    var second := Guarded(files, first, root).value;
    assert root[..|root|] == root;
    FollowResolvesWell(files, root, root, requested[|root|..], 0, second);
  }

  lemma GuardedAgain(files: Files, later: Files, guards: Guards, all: Guards, at: Path)
    requires Guarded(files, guards, at).Some? && Extends(all, Guarded(files, guards, at).value) && Agrees(later, all)
    ensures Guarded(later, guards, at) == Guarded(files, guards, at)
    ensures at in later && GuardOf(later[at]) == GuardOf(files[at])
  {
    var more := Guarded(files, guards, at).value;
    assert at in more && all[at] == more[at];
  }

  lemma {:induction false} FollowAgain(files: Files, later: Files, root: Path, cursor: Path, pending: seq<Name>,
                                      links: nat, guards: Guards)
    requires links <= MAX_LINKS && GuardedDown(files, root, cursor, guards) && Agrees(files, guards)
    requires Follow(files, root, cursor, pending, links, guards).Resolved?
    requires var r := Follow(files, root, cursor, pending, links, guards);
             Agrees(later, r.guards) && r.path in later && later[r.path].Regular? && later[r.path].safe
    ensures Follow(later, root, cursor, pending, links, guards) == Follow(files, root, cursor, pending, links, guards)
    decreases MAX_LINKS - links, |pending|
  {
    var r := Follow(files, root, cursor, pending, links, guards);
    var candidate, rest := cursor + [pending[0]], pending[1..];
    if files[candidate].Link? {
      var more := Guarded(files, guards, candidate).value;
      var next := Target(cursor, files[candidate].destination)[|root|..] + rest;
      GuardingOne(files, guards, candidate);
      RootStaysGuarded(files, root, cursor, guards, more);
      FollowResolvesWell(files, root, root, next, links + 1, more);
      GuardedAgain(files, later, guards, r.guards, candidate);
      FollowAgain(files, later, root, root, next, links + 1, more);
    } else if rest != [] {
      var more := Guarded(files, guards, candidate).value;
      GuardingOne(files, guards, candidate);
      OneDeeper(files, root, cursor, pending[0], guards, more);
      FollowResolvesWell(files, root, candidate, rest, links, more);
      GuardedAgain(files, later, guards, r.guards, candidate);
      FollowAgain(files, later, root, candidate, rest, links, more);
    }
  }

  /** The guards are all that the way depends on: as long as they agree, and the
      file at its end is still a safe regular file, the profile resolves alike. */
  lemma GuardsSuffice(files: Files, later: Files, root: Path, requested: Path)
    requires Resolve(files, root, requested).Resolved?
    requires var r := Resolve(files, root, requested);
             Agrees(later, r.guards) && r.path in later && later[r.path].Regular? && later[r.path].safe
    ensures Resolve(later, root, requested) == Resolve(files, root, requested)
  {
    var r := Resolve(files, root, requested);
    var first := Guarded(files, map[], requested).value;
    GuardingOne(files, map[], requested);
    GuardingOne(files, first, root);
    var second := Guarded(files, first, root).value;
    assert root[..|root|] == root;
    var pending := requested[|root|..];
    FollowResolvesWell(files, root, root, pending, 0, second);
    assert Extends(r.guards, first);
    GuardedAgain(files, later, map[], r.guards, requested);
    GuardedAgain(files, later, first, r.guards, root);
    FollowAgain(files, later, root, root, pending, 0, second);
  }

  // --------------------------------------------------------- when it succeeds

  // Where the way leads, if every link and directory on it is safe, every destination
  // lies below the root, and there are links enough.  Nothing is guarded.
  function Way(files: Files, root: Path, cursor: Path, pending: seq<Name>, links: nat): Option<Path>
    decreases links, |pending|
  {
    if pending == [] then None
    else
      var candidate, rest := cursor + [pending[0]], pending[1..];
      if candidate !in files || !files[candidate].safe then None
      else if files[candidate].Link? then
        var destination := files[candidate].destination;
        var target := Normal(if destination.anchor == Relative then cursor else [], destination.parts);
        if links == 0 || destination.anchor == Doubled || !(root <= target) then None
        else Way(files, root, root, target[|root|..] + rest, links - 1)
      else if rest == [] then if files[candidate].Regular? then Some(candidate) else None
      else if files[candidate].Directory? then Way(files, root, candidate, rest, links)
      else None
  }

  // Nothing on the way has been seen differently: a file system at rest contradicts
  // no guard.
  lemma GuardedWhen(files: Files, guards: Guards, at: Path)
    requires Agrees(files, guards)
    ensures Guarded(files, guards, at).Some? <==>
      at in files && files[at].safe && (files[at].Link? || files[at].Directory?)
  {
  }

  lemma {:induction false} FollowIsTheWay(files: Files, root: Path, cursor: Path, pending: seq<Name>, links: nat,
                                         guards: Guards)
    requires links <= MAX_LINKS && Agrees(files, guards)
    ensures var r := Follow(files, root, cursor, pending, links, guards);
            Way(files, root, cursor, pending, MAX_LINKS - links) == if r.Resolved? then Some(r.path) else None
    decreases MAX_LINKS - links, |pending|
  {
    if pending != [] {
      var candidate, rest := cursor + [pending[0]], pending[1..];
      GuardedWhen(files, guards, candidate);
      if Guarded(files, guards, candidate).Some? {
        GuardingOne(files, guards, candidate);
        var more := Guarded(files, guards, candidate).value;
        if files[candidate].Directory? {
          FollowIsTheWay(files, root, candidate, rest, links, more);
        } else if links < MAX_LINKS {
          var target := Target(cursor, files[candidate].destination);
          if root <= target {
            FollowIsTheWay(files, root, root, target[|root|..] + rest, links + 1, more);
          }
        }
      }
    }
  }

  /** Exactly when a symlink resolves, and where to: it and the root are safe, and the
      way leads to a safe regular file through at most forty links. */
  lemma ResolvesWhen(files: Files, root: Path, requested: Path)
    requires requested in files && files[requested].Link?
    ensures var r := Resolve(files, root, requested);
            (if r.Resolved? then Some(r.path) else None) ==
            if files[requested].safe && SafeDirectory(files, root) && root <= requested then
              Way(files, root, root, requested[|root|..], 40)
            else None
  {
    GuardedWhen(files, map[], requested);
    if files[requested].safe {
      GuardingOne(files, map[], requested);
      var first := Guarded(files, map[], requested).value;
      GuardedWhen(files, first, root);
      if SafeDirectory(files, root) && root <= requested {
        GuardingOne(files, first, root);
        FollowIsTheWay(files, root, root, requested[|root|..], 0, Guarded(files, first, root).value);
      }
    }
  }

  // Every directory from the root down to p is real and safe.
  ghost predicate SafeDown(files: Files, root: Path, p: Path) {
    root <= p && forall k :: |root| <= k <= |p| ==> SafeDirectory(files, p[..k])
  }

  lemma {:induction false} WayDown(files: Files, root: Path, cursor: Path, names: seq<Name>, last: Name, links: nat)
    requires root <= cursor && SafeDown(files, root, cursor + names)
    ensures Way(files, root, cursor, names + [last], links) == Way(files, root, cursor + names, [last], links)
    decreases |names|
  {
    if names == [] {
      assert names + [last] == [last] && cursor + names == cursor;
    } else {
      var next := cursor + [names[0]];
      assert (cursor + names)[..|next|] == next && next + names[1..] == cursor + names;
      assert SafeDirectory(files, next);
      assert (names + [last])[1..] == names[1..] + [last];
      WayDown(files, root, next, names[1..], last, links);
    }
  }

  lemma WayOfPath(files: Files, root: Path, p: Path, links: nat)
    requires root <= p && |p| > |root| && SafeDown(files, root, Parent(p))
    ensures Way(files, root, root, p[|root|..], links) == Way(files, root, Parent(p), [p[|p| - 1]], links)
    ensures Parent(p) + [p[|p| - 1]] == p
  {
    var n := |p| - 1;
    assert p[|root|..] == p[|root|..n] + [p[n]];
    assert root + p[|root|..n] == p[..n];
    WayDown(files, root, root, p[|root|..n], p[n], links);
  }

  /** A link that stands and leads below the root, be it absolute or relative, resolves
      to what its normalised destination leads to. */
  lemma LinkLeadsOn(files: Files, root: Path, requested: Path)
    requires requested in files && files[requested].Link? && files[requested].safe
    requires root <= requested && |requested| > |root| && SafeDown(files, root, Parent(requested))
    requires !files[requested].destination.anchor.Doubled?
    requires root <= Target(Parent(requested), files[requested].destination)
    ensures var r := Resolve(files, root, requested);
            var target := Target(Parent(requested), files[requested].destination);
            (if r.Resolved? then Some(r.path) else None) == Way(files, root, root, target[|root|..], 39)
  {
    assert Parent(requested)[..|root|] == root && SafeDirectory(files, root);
    ResolvesWhen(files, root, requested);
    WayOfPath(files, root, requested, 40);
    var target := Target(Parent(requested), files[requested].destination);
    assert target[|root|..] + [] == target[|root|..];
  }

  /** It resolves to its destination itself, if that is a safe regular file that stands
      below the root. */
  lemma LinkToFileResolves(files: Files, root: Path, requested: Path)
    requires requested in files && files[requested].Link? && files[requested].safe
    requires root <= requested && |requested| > |root| && SafeDown(files, root, Parent(requested))
    requires !files[requested].destination.anchor.Doubled?
    requires var target := Target(Parent(requested), files[requested].destination);
             && root <= target && |target| > |root| && SafeDown(files, root, Parent(target))
             && target in files && files[target].Regular? && files[target].safe
    ensures var r := Resolve(files, root, requested);
            r.Resolved? && r.path == Target(Parent(requested), files[requested].destination)
  {
    LinkLeadsOn(files, root, requested);
    WayOfPath(files, root, Target(Parent(requested), files[requested].destination), 39);
  }

  // ------------------------------------------------- the system's own resolution

  // Pathname resolution as section 4.13 of POSIX.1-2017 has it: a parent is taken
  // of the directory reached, not of the name that led there.
  function Walk(files: Files, cursor: Path, parts: seq<Part>, links: nat): Option<Path>
    decreases links, |parts|
  {
    if parts == [] then Some(cursor)
    else if parts[0].Up? then Walk(files, Parent(cursor), parts[1..], links)
    else
      var candidate := cursor + [parts[0].name];
      if candidate !in files then None
      else
        match files[candidate]
        case Link(_, _, destination) =>
          if links == 0 then None
          else Walk(files, StartOf(cursor, destination), destination.parts + parts[1..], links - 1)
        case Directory(_, _) => Walk(files, candidate, parts[1..], links)
        case _ => if parts[1..] == [] then Some(candidate) else None
  }

  function Intos(names: seq<Name>): (r: seq<Part>)
    ensures |r| == |names| && forall i :: 0 <= i < |r| ==> r[i] == Into(names[i])
  {
    seq(|names|, i requires 0 <= i < |names| => Into(names[i]))
  }

  // A real directory, however it is reached.
  ghost predicate Standing(files: Files, p: Path) {
    forall k :: 1 <= k <= |p| ==> p[..k] in files && files[p[..k]].Directory?
  }

  // Walking the parts, the last of them names a real directory.
  predicate EndsInDirectory(files: Files, cursor: Path, parts: seq<Part>, links: nat)
    decreases links, |parts|
  {
    if parts == [] then false
    else if parts[0].Up? then EndsInDirectory(files, Parent(cursor), parts[1..], links)
    else
      var candidate := cursor + [parts[0].name];
      if candidate !in files then false
      else if |parts| == 1 then files[candidate].Directory?
      else
        match files[candidate]
        case Link(_, _, destination) =>
          && links > 0
          && var base := StartOf(cursor, destination);
             EndsInDirectory(files, base, destination.parts + parts[1..], links - 1)
        case Directory(_, _) => EndsInDirectory(files, candidate, parts[1..], links)
        case _ => false
  }

  // How many names come before the first parent.
  function NamesFirst(parts: seq<Part>): (n: nat)
    ensures n <= |parts| && (forall i :: 0 <= i < n ==> parts[i].Into?) && (n < |parts| ==> parts[n].Up?)
  {
    if parts == [] || parts[0].Up? then 0 else 1 + NamesFirst(parts[1..])
  }

  // Every parent cancels the name before it, which is that of a real directory
  // where the walk has got to: never of a link.
  predicate ParentsAreReal(files: Files, base: Path, parts: seq<Part>)
    decreases |parts|
  {
    var n := NamesFirst(parts);
    if n == |parts| then true
    else if n == 0 then ParentsAreReal(files, Parent(base), parts[1..])
    else
      && EndsInDirectory(files, base, parts[..n], MAX_LINKS)
      && ParentsAreReal(files, base, parts[..n - 1] + parts[n + 1..])
  }

  // It is so if no parent is taken, and if the parents of the start are.
  lemma {:induction false} ParentsFirst(files: Files, base: Path, ups: nat, names: seq<Name>)
    ensures ParentsAreReal(files, base, seq(ups, i => Up) + Intos(names))
    decreases ups
  {
    var parts := seq(ups, i => Up) + Intos(names);
    if ups == 0 {
      assert parts == Intos(names);
      assert NamesFirst(parts) == |parts|;
    } else {
      assert parts[0] == Up && parts[1..] == seq(ups - 1, i => Up) + Intos(names);
      ParentsFirst(files, Parent(base), ups - 1, names);
    }
  }

  // And if the parent taken is that of a real directory.
  lemma ParentOfDirectory(files: Files, base: Path, directory: Name, names: seq<Name>)
    requires base + [directory] in files && files[base + [directory]].Directory?
    ensures ParentsAreReal(files, base, [Into(directory), Up] + Intos(names))
  {
    var parts := [Into(directory), Up] + Intos(names);
    assert parts[1..][0] == Up && NamesFirst(parts) == 1;
    assert parts[..1] == [Into(directory)];
    assert parts[..0] + parts[2..] == [] + Intos(names);
    assert seq(0, i => Up) + Intos(names) == Intos(names) == [] + Intos(names);
    ParentsFirst(files, base, 0, names);
  }

  // So it is for the destination of each link that was passed.
  ghost predicate PassedParentsAreReal(files: Files, guards: Guards) {
    forall p :: p in guards && guards[p].LinkGuard? ==>
      ParentsAreReal(files, StartOf(Parent(p), guards[p].destination), guards[p].destination.parts)
  }

  lemma {:induction false} WalkDown(files: Files, cursor: Path, names: seq<Name>, rest: seq<Part>, links: nat)
    requires Standing(files, cursor + names)
    ensures Walk(files, cursor, Intos(names) + rest, links) == Walk(files, cursor + names, rest, links)
    decreases |names|
  {
    var parts := Intos(names) + rest;
    if names == [] {
      assert parts == rest && cursor + names == cursor;
    } else {
      var next := cursor + [names[0]];
      assert next + names[1..] == cursor + names;
      assert (cursor + names)[..|next|] == next;
      assert parts[1..] == Intos(names[1..]) + rest;
      WalkDown(files, next, names[1..], rest, links);
    }
  }

  lemma {:induction false} NormalOfNames(base: Path, parts: seq<Part>, names: seq<Name>)
    requires parts == Intos(names)
    ensures Normal(base, parts) == base + names
    decreases |names|
  {
    if names != [] {
      assert parts[1..] == Intos(names[1..]);
      NormalOfNames(base + [names[0]], parts[1..], names[1..]);
      assert base + [names[0]] + names[1..] == base + names;
    } else {
      assert base + names == base;
    }
  }

  lemma {:induction false} NamesOf(parts: seq<Part>) returns (names: seq<Name>)
    requires forall i :: 0 <= i < |parts| ==> parts[i].Into?
    ensures parts == Intos(names)
  {
    names := seq(|parts|, i requires 0 <= i < |parts| => parts[i].name);
  }

  lemma Regrouped(parts: seq<Part>, tail: seq<Part>, last: Part, rest: seq<Part>)
    ensures parts + (tail + [last]) == parts + tail + [last]
    ensures parts + (tail + [last, Up] + rest) == parts + tail + [last, Up] + rest
    ensures parts + (tail + rest) == parts + tail + rest
  {
  }

  // A real directory can be entered and left again.
  lemma {:induction false} InAndOut(files: Files, cursor: Path, front: seq<Part>, last: Part, rest: seq<Part>,
    links: nat)
    requires last.Into? && EndsInDirectory(files, cursor, front + [last], links)
    ensures Walk(files, cursor, front + [last, Up] + rest, links) == Walk(files, cursor, front + rest, links)
    decreases links, |front|
  {
    var parts, whole := front + [last], front + [last, Up] + rest;
    if front == [] {
      assert whole[1..] == [Up] + rest && ([Up] + rest)[1..] == rest && front + rest == rest;
      assert (cursor + [last.name])[..|cursor|] == cursor;
    } else {
      var tail := front[1..];
      assert parts[1..] == tail + [last] && whole[1..] == tail + [last, Up] + rest &&
        (front + rest)[1..] == tail + rest;
      if front[0].Up? {
        InAndOut(files, Parent(cursor), tail, last, rest, links);
      } else {
        var candidate := cursor + [front[0].name];
        match files[candidate] {
          case Link(_, _, destination) =>
            var more := destination.parts + tail;
            Regrouped(destination.parts, tail, last, rest);
            InAndOut(files, StartOf(cursor, destination), more, last, rest, links - 1);
          case Directory(_, _) =>
            InAndOut(files, candidate, tail, last, rest, links);
        }
      }
    }
  }

  // The links that a successful walk needs are enough for a part of it.
  lemma {:induction false} EnoughLinks(files: Files, cursor: Path, front: seq<Part>, last: Part, rest: seq<Part>,
                                      links: nat, all: nat)
    requires EndsInDirectory(files, cursor, front + [last], all) && links <= all
    requires Walk(files, cursor, front + rest, links).Some?
    ensures EndsInDirectory(files, cursor, front + [last], links)
    decreases links, |front|
  {
    if front != [] {
      var parts, tail := front + [last], front[1..];
      assert parts[1..] == tail + [last] && (front + rest)[1..] == tail + rest;
      if front[0].Up? {
        EnoughLinks(files, Parent(cursor), tail, last, rest, links, all);
      } else {
        var candidate := cursor + [front[0].name];
        match files[candidate] {
          case Link(_, _, destination) =>
            var more := destination.parts + tail;
            assert destination.parts + (tail + [last]) == more + [last];
            assert destination.parts + (tail + rest) == more + rest;
            EnoughLinks(files, StartOf(cursor, destination), more, last, rest, links - 1, all - 1);
          case Directory(_, _) =>
            EnoughLinks(files, candidate, tail, last, rest, links, all);
        }
      }
    }
  }

  lemma ParentCancels(files: Files, base: Path, front: seq<Part>, last: Part, tail: seq<Part>, rest: seq<Part>,
    links: nat)
    requires last.Into? && EndsInDirectory(files, base, front + [last], MAX_LINKS) && links <= MAX_LINKS
    requires Walk(files, base, front + tail + rest, links).Some?
    ensures Walk(files, base, front + [last, Up] + tail + rest, links) == Walk(files, base, front + tail + rest, links)
  {
    var after := tail + rest;
    assert front + tail + rest == front + after;
    assert front + [last, Up] + tail + rest == front + [last, Up] + after;
    EnoughLinks(files, base, front, last, after, links, MAX_LINKS);
    InAndOut(files, base, front, last, after, links);
  }

  lemma {:induction false} NormalCancels(base: Path, front: seq<Part>, last: Part, rest: seq<Part>)
    requires last.Into?
    ensures Normal(base, front + [last, Up] + rest) == Normal(base, front + rest)
    decreases |front|
  {
    var whole := front + [last, Up] + rest;
    if front == [] {
      assert whole[1..] == [Up] + rest && ([Up] + rest)[1..] == rest && front + rest == rest;
      assert (base + [last.name])[..|base|] == base;
    } else {
      assert whole[1..] == front[1..] + [last, Up] + rest && (front + rest)[1..] == front[1..] + rest;
      NormalCancels(if front[0].Up? then Parent(base) else base + [front[0].name], front[1..], last, rest);
    }
  }

  lemma FirstParent(files: Files, base: Path, parts: seq<Part>) returns (front: seq<Part>, last: Part, tail: seq<Part>)
    requires 0 < NamesFirst(parts) < |parts| && ParentsAreReal(files, base, parts)
    ensures parts == front + [last, Up] + tail && last.Into?
    ensures EndsInDirectory(files, base, front + [last], MAX_LINKS) && ParentsAreReal(files, base, front + tail)
  {
    var n := NamesFirst(parts);
    front, last, tail := parts[..n - 1], parts[n - 1], parts[n + 1..];
    assert parts[..n] == front + [last];
  }

  lemma {:induction false} WalkIsNormal(files: Files, base: Path, parts: seq<Part>, rest: seq<Part>, links: nat)
    requires Standing(files, base) && ParentsAreReal(files, base, parts) && links <= MAX_LINKS
    requires Walk(files, [], Intos(Normal(base, parts)) + rest, links).Some?
    ensures Walk(files, base, parts + rest, links) == Walk(files, [], Intos(Normal(base, parts)) + rest, links)
    decreases |parts|
  {
    var n := NamesFirst(parts);
    if n == |parts| {
      NamesAreNormal(files, base, parts, rest, links);
    } else if n == 0 {
      assert (parts + rest)[1..] == parts[1..] + rest;
      ParentStands(files, base);
      WalkIsNormal(files, Parent(base), parts[1..], rest, links);
    } else {
      var front, last, tail := FirstParent(files, base, parts);
      NormalCancels(base, front, last, tail);
      WalkIsNormal(files, base, front + tail, rest, links);
      ParentCancels(files, base, front, last, tail, rest, links);
    }
  }

  lemma ParentStands(files: Files, base: Path)
    requires Standing(files, base)
    ensures Standing(files, Parent(base))
  {
    forall k | 1 <= k <= |Parent(base)|
      ensures Parent(base)[..k] == base[..k]
    {
    }
  }

  lemma NamesAreNormal(files: Files, base: Path, parts: seq<Part>, rest: seq<Part>, links: nat)
    requires Standing(files, base) && NamesFirst(parts) == |parts|
    ensures Walk(files, base, parts + rest, links) == Walk(files, [], Intos(Normal(base, parts)) + rest, links)
  {
    var names := NamesOf(parts);
    NormalOfNames(base, parts, names);
    assert Intos(base + names) + rest == Intos(base) + (parts + rest);
    assert [] + base == base;
    WalkDown(files, [], base, parts + rest, links);
  }

  lemma GuardedIsStanding(files: Files, root: Path, p: Path, guards: Guards)
    requires Standing(files, root) && GuardedDown(files, root, p, guards)
    ensures Standing(files, p)
  {
    forall k | 1 <= k <= |p|
      ensures p[..k] in files && files[p[..k]].Directory?
    {
      if k < |root| {
        assert p[..k] == root[..k];
      } else {
        assert SafeDirectory(files, p[..k]);
      }
    }
  }

  lemma WalkFromTarget(files: Files, root: Path, base: Path, parts: seq<Part>, target: Path, rest: seq<Name>,
    links: nat)
    requires Standing(files, base) && Standing(files, root) && ParentsAreReal(files, base, parts)
    requires target == Normal(base, parts) && root <= target && links <= MAX_LINKS
    requires Walk(files, root, Intos(target[|root|..] + rest), links).Some?
    ensures Walk(files, base, parts + Intos(rest), links) == Walk(files, root, Intos(target[|root|..] + rest), links)
  {
    RestartAtRoot(files, root, target, rest, links);
    WalkIsNormal(files, base, parts, Intos(rest), links);
  }

  lemma LinkStep(files: Files, cursor: Path, pending: seq<Name>, links: nat)
    requires pending != [] && links > 0 && cursor + [pending[0]] in files && files[cursor + [pending[0]]].Link?
    ensures var destination := files[cursor + [pending[0]]].destination;
            Walk(files, cursor, Intos(pending), links)
            == Walk(files, StartOf(cursor, destination),
                    destination.parts + Intos(pending[1..]), links - 1)
  {
    assert Intos(pending)[1..] == Intos(pending[1..]);
  }

  lemma RestartAtRoot(files: Files, root: Path, target: Path, rest: seq<Name>, links: nat)
    requires Standing(files, root) && root <= target
    ensures Walk(files, [], Intos(target) + Intos(rest), links) ==
      Walk(files, root, Intos(target[|root|..] + rest), links)
  {
    var down := target[|root|..] + rest;
    assert target == root + target[|root|..];
    assert Intos(target) + Intos(rest) == Intos(root) + Intos(down);
    assert [] + root == root;
    WalkDown(files, [], root, Intos(down), links);
  }

  lemma {:induction false} FollowWalks(files: Files, root: Path, cursor: Path, pending: seq<Name>, links: nat,
    guards: Guards)
    requires links <= MAX_LINKS && GuardedDown(files, root, cursor, guards) && Agrees(files, guards)
    requires Standing(files, root) && Follow(files, root, cursor, pending, links, guards).Resolved?
    requires PassedParentsAreReal(files, Follow(files, root, cursor, pending, links, guards).guards)
    ensures Walk(files, cursor, Intos(pending), MAX_LINKS - links)
         == Some(Follow(files, root, cursor, pending, links, guards).path)
    decreases MAX_LINKS - links, |pending|
  {
    var candidate, rest := cursor + [pending[0]], pending[1..];
    assert Intos(pending)[1..] == Intos(rest);
    if files[candidate].Link? {
      var destination := files[candidate].destination;
      var down := Target(cursor, destination)[|root|..] + rest;
      var more := Guarded(files, guards, candidate).value;
      GuardingOne(files, guards, candidate);
      RootStaysGuarded(files, root, cursor, guards, more);
      FollowWalks(files, root, root, down, links + 1, more);
      PassedHere(files, root, cursor, candidate, down, links + 1, more);
      GuardedIsStanding(files, root, cursor, guards);
      LinkStep(files, cursor, pending, MAX_LINKS - links);
      WalkFromTarget(files, root, StartOf(cursor, destination), destination.parts,
                     Target(cursor, destination), rest, MAX_LINKS - links - 1);
    } else if rest != [] {
      GuardingOne(files, guards, candidate);
      var more := Guarded(files, guards, candidate).value;
      OneDeeper(files, root, cursor, pending[0], guards, more);
      FollowWalks(files, root, candidate, rest, links, more);
    }
  }

  // A link just passed stays guarded to the end.
  lemma PassedHere(files: Files, root: Path, cursor: Path, link: Path, down: seq<Name>, links: nat, guards: Guards)
    requires links <= MAX_LINKS && GuardedDown(files, root, root, guards) && Agrees(files, guards)
    requires link in guards && link in files && files[link].Link? && link != [] && Parent(link) == cursor
    requires Follow(files, root, root, down, links, guards).Resolved?
    requires PassedParentsAreReal(files, Follow(files, root, root, down, links, guards).guards)
    ensures var destination := files[link].destination;
            ParentsAreReal(files, StartOf(cursor, destination), destination.parts)
  {
    FollowResolvesWell(files, root, root, down, links, guards);
    var all := Follow(files, root, root, down, links, guards).guards;
    assert link in all && all[link] == guards[link] && GuardedBy(files[link], all[link]);
  }

  /** Where no link that is passed takes the parent of a name that is itself a link,
      the profile resolves to the file the system itself would open. */
  lemma ResolvesLikeTheSystem(files: Files, root: Path, requested: Path)
    requires Standing(files, root) && Resolve(files, root, requested).Resolved?
    requires PassedParentsAreReal(files, Resolve(files, root, requested).guards)
    ensures Walk(files, [], Intos(requested), MAX_LINKS) == Some(Resolve(files, root, requested).path)
  {
    var first := Guarded(files, map[], requested).value;
    GuardingOne(files, map[], requested);
    GuardingOne(files, first, root);
    var second := Guarded(files, first, root).value;
    assert root[..|root|] == root;
    var pending := requested[|root|..];
    FollowWalks(files, root, root, pending, 0, second);
    assert Intos(requested) == Intos(root) + Intos(pending);
    assert [] + root == root;
    WalkDown(files, [], root, Intos(pending), MAX_LINKS);
  }

  /** A resolved profile resolves to itself, through no link at all. */
  lemma ResolvesToItself(files: Files, root: Path, requested: Path)
    requires Standing(files, root) && Resolve(files, root, requested).Resolved?
    ensures var path := Resolve(files, root, requested).path;
            Walk(files, [], Intos(path), 0) == Some(path)
  {
    ResolvedIsWell(files, root, requested);
    var r := Resolve(files, root, requested);
    var n := |r.path| - 1;
    var directory := r.path[..n];
    GuardedIsStanding(files, root, directory, r.guards);
    assert Intos(r.path) == Intos(directory) + [Into(r.path[n])];
    assert [] + directory == directory && directory + [r.path[n]] == r.path;
    WalkDown(files, [], directory, [Into(r.path[n])], 0);
    assert [Into(r.path[n])][1..] == [];
  }

  // A home with a file "f", a directory "d" that holds another "f" and a directory
  // "e", a link "a" to "d/e" and a profile "p" that links to "a/../f".
  function Confusing(): Files {
    map[
      ["h"] := Directory(0, true),
      ["h", "d"] := Directory(1, true),
      ["h", "d", "e"] := Directory(2, true),
      ["h", "a"] := Link(3, true, Destination(Relative, [Into("d"), Into("e")])),
      ["h", "p"] := Link(4, true, Destination(Relative, [Into("a"), Up, Into("f")])),
      ["h", "f"] := Regular(5, true),
      ["h", "d", "f"] := Regular(6, true)
    ]
  }

  /** Where a link takes a parent behind another link, the lexical normal form can
      name a different file from the one the system opens. */
  lemma LexicalParentsCanDiffer()
    ensures Resolve(Confusing(), ["h"], ["h", "p"]).Resolved?
    ensures Resolve(Confusing(), ["h"], ["h", "p"]).path == ["h", "f"]
    ensures Walk(Confusing(), [], Intos(["h", "p"]), MAX_LINKS) == Some(["h", "d", "f"])
    ensures !ParentsAreReal(Confusing(), ["h"], Confusing()[["h", "p"]].destination.parts)
  {
    ResolveOfConfusing();
    WalkOfConfusing();
    ConfusingParent();
  }

  lemma ConfusingTarget()
    ensures Target(["h"], Confusing()[["h", "p"]].destination) == ["h", "f"]
  {
    calc {
      Target(["h"], Confusing()[["h", "p"]].destination);
      { assert [Into("a"), Up, Into("f")][1..] == [Up, Into("f")] && ["h"] + ["a"] == ["h", "a"]; }
      Normal(["h", "a"], [Up, Into("f")]);
      { assert [Up, Into("f")][1..] == [Into("f")] && ["h", "a"][..1] == ["h"]; }
      Normal(["h"], [Into("f")]);
      { assert ["h"] + ["f"] == ["h", "f"] && [Into("f")][1..] == []; }
      ["h", "f"];
    }
  }

  lemma ResolveOfConfusing()
    ensures Resolve(Confusing(), ["h"], ["h", "p"]).Resolved?
    ensures Resolve(Confusing(), ["h"], ["h", "p"]).path == ["h", "f"]
  {
    ConfusingTarget();
    assert ["h", "p"][1..] == ["p"] && ["h"] + ["p"] == ["h", "p"] && ["p"][1..] == [];
    assert ["h", "f"][1..] + [] == ["f"] && ["f"][1..] == [] && ["h"] + ["f"] == ["h", "f"];
  }

  lemma ConfusingParent()
    ensures !ParentsAreReal(Confusing(), ["h"], Confusing()[["h", "p"]].destination.parts)
  {
    var parts := [Into("a"), Up, Into("f")];
    assert parts[1..] == [Up, Into("f")] && NamesFirst(parts) == 1;
    assert parts[..1] == [Into("a")] && ["h"] + ["a"] == ["h", "a"];
  }

  lemma WalkOfConfusing()
    ensures Walk(Confusing(), [], Intos(["h", "p"]), MAX_LINKS) == Some(["h", "d", "f"])
  {
    var files := Confusing();
    var h: Path := ["h"];
    assert [] + h == h && Intos(["h", "p"])[1..] == [Into("p")] && h + ["p"] == ["h", "p"];
    assert Walk(files, [], Intos(["h", "p"]), 40) == Walk(files, h, [Into("p")], 40);
    assert [Into("p")][1..] == [] && [Into("a"), Up, Into("f")] + [] == [Into("a"), Up, Into("f")];
    assert Walk(files, h, [Into("p")], 40) == Walk(files, h, [Into("a"), Up, Into("f")], 39);
    assert h + ["a"] == ["h", "a"] && [Into("a"), Up, Into("f")][1..] == [Up, Into("f")];
    assert [Into("d"), Into("e")] + [Up, Into("f")] == [Into("d"), Into("e"), Up, Into("f")];
    assert Walk(files, h, [Into("a"), Up, Into("f")], 39) == Walk(files, h, [Into("d"), Into("e"), Up, Into("f")], 38);
    assert h + ["d"] == ["h", "d"] && [Into("d"), Into("e"), Up, Into("f")][1..] == [Into("e"), Up, Into("f")];
    assert ["h", "d"] + ["e"] == ["h", "d", "e"] && [Into("e"), Up, Into("f")][1..] == [Up, Into("f")];
    assert ["h", "d", "e"][..2] == ["h", "d"] && [Up, Into("f")][1..] == [Into("f")];
    assert ["h", "d"] + ["f"] == ["h", "d", "f"] && [Into("f")][1..] == [];
  }
}
