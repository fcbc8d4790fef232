/** The account lifecycle kept in step with the upstream credential store
    (integrations/common/orichum_cli.py, _mutate_account).

    The registry is one atomically written file; the upstream store is another
    program.  A patch to it may be refused, lost, applied differently, or applied
    although its answer is lost, and the process may die between any two operations.
 */
module AccountLifecycle {
  import opened Faults
  import opened Options

  datatype LifeState = PendingAdd | Active | Disabled | PendingRemove

  // Routing metadata of a credential; an empty prefix reads as none.
  datatype Fields = Fields(prefix: Option<string>, priority: Option<int>)

  datatype Credential = Credential(fields: Fields, disabled: bool)

  datatype Account = Account(id: string, name: string, credential: string,
                             prefix: string, priority: int, state: LifeState, original: Fields)

  datatype World = World(registry: seq<Account>, upstream: map<string, Credential>)

  function Normal(prefix: Option<string>): Option<string> {
    if prefix == Some("") then None else prefix
  }

  function Published(a: Account): Fields {
    Fields(Some(a.prefix), Some(a.priority))
  }

  predicate ValidPriority(priority: int) {
    0 <= priority <= 1000
  }

  predicate IsWord(c: char) {
    'A' <= c <= 'Z' || 'a' <= c <= 'z' || '0' <= c <= '9'
  }

  // What the registry accepts as the original fields of a credential.
  predicate Storable(fields: Fields) {
    && (fields.prefix.Some? ==>
          var p := fields.prefix.value;
          && 0 < |p| <= 128 && IsWord(p[0])
          && forall i :: 0 < i < |p| ==> IsWord(p[i]) || p[i] == '.' || p[i] == '_' || p[i] == '-')
    && (fields.priority.Some? ==> ValidPriority(fields.priority.value))
  }

  // A digit, a capital or a small letter of ASCII, by its code.
  ghost predicate Alphanumeric(c: char) {
    48 <= c as int <= 57 || 65 <= c as int <= 90 || 97 <= c as int <= 122
  }

  /** A prefix is stored if it has 1 to 128 letters, digits, dots, underscores and
      hyphens, and starts with a letter or a digit; a priority, from 0 to 1000. */
  lemma StorableWhen(fields: Fields)
    ensures Storable(fields) <==>
      && (fields.prefix.Some? ==>
            var p := fields.prefix.value;
            && 1 <= |p| <= 128 && Alphanumeric(p[0])
            && forall c :: c in p ==> Alphanumeric(c) || c in {'.', '_', '-'})
      && (fields.priority.Some? ==> 0 <= fields.priority.value <= 1000)
    ensures ValidPriority(1000) && ValidPriority(0) && !ValidPriority(1001) && !ValidPriority(-1)
  {
    if fields.prefix.Some? && fields.prefix.value != "" {
      var p := fields.prefix.value;
      assert forall i :: 0 <= i < |p| ==> p[i] in p;
      assert IsWord(p[0]) <==> Alphanumeric(p[0]);
    }
  }

  // ------------------------------------------------------------------- registry

  predicate Distinct(reg: seq<Account>) {
    forall i, j :: 0 <= i < j < |reg| ==>
      reg[i].id != reg[j].id && reg[i].name != reg[j].name && reg[i].credential != reg[j].credential &&
        reg[i].prefix != reg[j].prefix
  }

  predicate Selects(a: Account, selector: string) {
    a.id == selector || a.name == selector
  }

  function Replaced(reg: seq<Account>, id: string, b: Account): (r: seq<Account>)
    ensures |r| == |reg| && forall i :: 0 <= i < |reg| ==> r[i] == if reg[i].id == id then b else reg[i]
  {
    seq(|reg|, i requires 0 <= i < |reg| => if reg[i].id == id then b else reg[i])
  }

  function Without(reg: seq<Account>, id: string): (r: seq<Account>)
    ensures forall a :: a in r <==> a in reg && a.id != id
  {
    if reg == [] then []
    else if reg[0].id == id then Without(reg[1..], id)
    else [reg[0]] + Without(reg[1..], id)
  }

  lemma {:induction false} WithoutKeepsDistinct(reg: seq<Account>, id: string)
    requires Distinct(reg)
    ensures Distinct(Without(reg, id))
  {
    if reg != [] {
      WithoutKeepsDistinct(reg[1..], id);
      var rest := Without(reg[1..], id);
      forall j | 0 <= j < |rest|
        ensures rest[j].id != reg[0].id && rest[j].name != reg[0].name && rest[j].credential != reg[0].credential &&
          rest[j].prefix != reg[0].prefix
      {
        assert rest[j] in reg[1..];
      }
    }
  }

  function Matching(reg: seq<Account>, selector: string): seq<Account> {
    if reg == [] then []
    else Matching(reg[..|reg| - 1], selector) + if Selects(reg[|reg| - 1], selector) then [reg[|reg| - 1]] else []
  }

  lemma {:induction false} MatchingMembers(reg: seq<Account>, selector: string)
    requires Distinct(reg)
    ensures forall a :: a in Matching(reg, selector) <==> a in reg && Selects(a, selector)
    ensures forall j, k :: 0 <= j < k < |Matching(reg, selector)| ==>
      Matching(reg, selector)[j] != Matching(reg, selector)[k]
  {
    if reg != [] {
      var front, last := reg[..|reg| - 1], reg[|reg| - 1];
      assert reg == front + [last];
      MatchingMembers(front, selector);
      assert last !in front;
    }
  }

  lemma MatchingDecides(reg: seq<Account>, selector: string)
    requires Distinct(reg)
    ensures |Matching(reg, selector)| == 1 ==> Names(reg, selector, Matching(reg, selector)[0])
    ensures |Matching(reg, selector)| != 1 ==> forall a :: !Names(reg, selector, a)
  {
    var m := Matching(reg, selector);
    MatchingMembers(reg, selector);
    assert |m| > 0 ==> m[0] in m;
    assert |m| > 1 ==> m[1] in m && m[0] != m[1];
    forall a | Names(reg, selector, a)
      ensures |m| == 1
    {
      assert a in m;
    }
  }

  // A selector names an account if it is the id or the name of exactly one.
  ghost predicate Names(reg: seq<Account>, selector: string, a: Account) {
    a in reg && Selects(a, selector) && forall b :: b in reg && Selects(b, selector) ==> b == a
  }

  // Some other account is called what this account's id is.
  predicate HasNamesake(reg: seq<Account>, a: Account) {
    exists b :: b in reg && b != a && b.name == a.id
  }

  lemma IdSelects(reg: seq<Account>, a: Account)
    requires Distinct(reg) && a in reg
    ensures Names(reg, a.id, a) <==> !HasNamesake(reg, a)
  {
    forall b | b in reg && b.id == a.id
      ensures b == a
    {
      CredentialsDiffer(reg, a, b);
    }
  }

  lemma CredentialsDiffer(reg: seq<Account>, a: Account, b: Account)
    requires Distinct(reg) && a in reg && b in reg && (a.credential == b.credential || a.id == b.id)
    ensures a == b
  {
    var i :| 0 <= i < |reg| && reg[i] == a;
    var j :| 0 <= j < |reg| && reg[j] == b;
    assert !(i < j) && !(j < i);
  }

  // A change of state and priority alone keeps the registry valid.
  lemma SameNamesStayDistinct(reg: seq<Account>, a: Account, b: Account)
    requires Distinct(reg) && a in reg && b == a.(priority := b.priority, state := b.state)
    ensures Distinct(Replaced(reg, b.id, b))
  {
    var r := Replaced(reg, b.id, b);
    forall i | 0 <= i < |r|
      ensures r[i].id == reg[i].id && r[i].name == reg[i].name && r[i].credential == reg[i].credential &&
        r[i].prefix == reg[i].prefix
    {
      if reg[i].id == b.id {
        CredentialsDiffer(reg, a, reg[i]);
      }
    }
  }

  // ------------------------------------------------------- what a full sync does

  // An account once it has been synchronized: published, gone, or as it was.
  function SyncedOne(a: Account): seq<Account> {
    match a.state
    case PendingAdd => [a.(state := Active)]
    case PendingRemove => []
    case _ => [a]
  }

  function Synced(accounts: seq<Account>): seq<Account> {
    if accounts == [] then []
    else Synced(accounts[..|accounts| - 1]) + SyncedOne(accounts[|accounts| - 1])
  }

  predicate NonePending(accounts: seq<Account>) {
    forall a :: a in accounts ==> a.state.Active? || a.state.Disabled?
  }

  // The members of a synchronized registry are those not to be removed.
  lemma {:induction false} SyncedStays(accounts: seq<Account>, i: nat)
    requires i < |accounts| && !accounts[i].state.PendingRemove?
    ensures SyncedOne(accounts[i])[0] in Synced(accounts)
  {
    var n := |accounts| - 1;
    if i < n {
      SyncedStays(accounts[..n], i);
    }
  }

  lemma {:induction false} SyncedFrom(accounts: seq<Account>, x: Account) returns (i: nat)
    requires x in Synced(accounts)
    ensures i < |accounts| && !accounts[i].state.PendingRemove? && x == SyncedOne(accounts[i])[0]
  {
    var n := |accounts| - 1;
    if x in Synced(accounts[..n]) {
      i := SyncedFrom(accounts[..n], x);
    } else {
      i := n;
    }
  }

  lemma SyncedIsSettled(accounts: seq<Account>)
    ensures NonePending(Synced(accounts))
  {
    forall x | x in Synced(accounts)
      ensures x.state.Active? || x.state.Disabled?
    {
      var i := SyncedFrom(accounts, x);
    }
  }

  /** Synchronizing what is synchronized changes nothing. */
  lemma {:induction false} SyncedIsFixed(accounts: seq<Account>)
    requires NonePending(accounts)
    ensures Synced(accounts) == accounts
  {
    if accounts != [] {
      var front, last := accounts[..|accounts| - 1], accounts[|accounts| - 1];
      assert accounts == front + [last] && last in accounts;
      assert forall a :: a in front ==> a in accounts;
      SyncedIsFixed(front);
    }
  }

  lemma {:induction false} WithoutMiddle(front: seq<Account>, a: Account, rest: seq<Account>)
    requires forall x :: x in front || x in rest ==> x.id != a.id
    ensures Without(front + [a] + rest, a.id) == front + rest
  {
    var all := front + [a] + rest;
    if front == [] {
      assert all[1..] == rest;
      WithoutNothing(rest, a.id);
    } else {
      assert all[0] == front[0] && front[0] in front;
      assert all[1..] == front[1..] + [a] + rest;
      WithoutMiddle(front[1..], a, rest);
    }
  }

  lemma {:induction false} WithoutNothing(reg: seq<Account>, id: string)
    requires forall x :: x in reg ==> x.id != id
    ensures Without(reg, id) == reg
  {
    if reg != [] {
      WithoutNothing(reg[1..], id);
    }
  }

  lemma ReplacedMiddle(front: seq<Account>, a: Account, rest: seq<Account>, b: Account)
    requires forall x :: x in front || x in rest ==> x.id != a.id
    ensures Replaced(front + [a] + rest, a.id, b) == front + [b] + rest
  {
    var all := front + [a] + rest;
    forall i | 0 <= i < |all|
      ensures Replaced(all, a.id, b)[i] == (front + [b] + rest)[i]
    {
      assert i < |front| ==> all[i] in front;
      assert i > |front| ==> all[i] in rest;
    }
  }

  lemma OtherIds(accounts: seq<Account>, i: nat)
    requires Distinct(accounts) && i < |accounts|
    ensures forall x :: x in Synced(accounts[..i]) || x in accounts[i + 1..] ==> x.id != accounts[i].id
  {
    forall x | x in Synced(accounts[..i])
      ensures x.id != accounts[i].id
    {
      var j := SyncedFrom(accounts[..i], x);
      assert accounts[..i][j] == accounts[j];
    }
  }

  // The registry once the first i accounts of a full sync are done.
  function SyncedUpTo(accounts: seq<Account>, i: nat): seq<Account>
    requires i <= |accounts|
  {
    Synced(accounts[..i]) + accounts[i..]
  }

  lemma SyncSplit(accounts: seq<Account>, i: nat)
    requires i < |accounts|
    ensures SyncedUpTo(accounts, i) == Synced(accounts[..i]) + [accounts[i]] + accounts[i + 1..]
    ensures SyncedUpTo(accounts, i + 1) == Synced(accounts[..i]) + SyncedOne(accounts[i]) + accounts[i + 1..]
  {
    assert accounts[..i + 1][..i] == accounts[..i];
    assert accounts[i..] == [accounts[i]] + accounts[i + 1..];
  }

  lemma FullySynced(accounts: seq<Account>)
    ensures SyncedUpTo(accounts, |accounts|) == Synced(accounts) && NonePending(Synced(accounts))
    ensures SyncedUpTo(accounts, 0) == accounts
  {
    assert accounts[..|accounts|] == accounts;
    SyncedIsSettled(accounts);
  }

  // What synchronizing account a does to a registry.
  function SyncedRegistry(reg: seq<Account>, a: Account): seq<Account> {
    match a.state
    case PendingAdd => Replaced(reg, a.id, a.(state := Active))
    case PendingRemove => Without(reg, a.id)
    case _ => reg
  }

  lemma OneSynced(front: seq<Account>, a: Account, rest: seq<Account>)
    requires forall x :: x in front || x in rest ==> x.id != a.id
    ensures SyncedRegistry(front + [a] + rest, a) == front + SyncedOne(a) + rest
  {
    match a.state {
      case PendingAdd => ReplacedMiddle(front, a, rest, a.(state := Active));
      case PendingRemove =>
        WithoutMiddle(front, a, rest);
        assert front + [] + rest == front + rest;
      case _ =>
    }
  }

  lemma SyncStep(accounts: seq<Account>, i: nat)
    requires Distinct(accounts) && i < |accounts|
    ensures accounts[i] in SyncedUpTo(accounts, i)
    ensures SyncedUpTo(accounts, i + 1) == SyncedRegistry(SyncedUpTo(accounts, i), accounts[i])
  {
    var front := Synced(accounts[..i]);
    SyncSplit(accounts, i);
    OtherIds(accounts, i);
    OneSynced(front, accounts[i], accounts[i + 1..]);
    assert accounts[i] in front + [accounts[i]] + accounts[i + 1..];
  }

  function Enabled(upstream: map<string, Credential>): (r: set<string>)
    ensures forall c :: c in r <==> c in upstream && !upstream[c].disabled
  {
    set c | c in upstream && !upstream[c].disabled
  }

  // Account j, called what the id of account i is, is still there at i's turn.
  ghost predicate InTheWay(accounts: seq<Account>, i: nat, j: nat)
    requires i < |accounts|
  {
    && j < |accounts| && j != i && accounts[j].name == accounts[i].id
    && !(j < i && accounts[j].state.PendingRemove?)
  }

  // Account i can be published when its turn comes: its credential is enabled and
  // no account that is still there then is called what its id is.
  ghost predicate Publishable(accounts: seq<Account>, enabled: set<string>, i: nat)
    requires i < |accounts|
  {
    accounts[i].state.PendingAdd? ==>
      && accounts[i].credential in enabled
      && forall j :: !InTheWay(accounts, i, j)
  }

  ghost predicate PublishableBelow(accounts: seq<Account>, enabled: set<string>, n: nat)
    requires n <= |accounts|
  {
    forall i :: 0 <= i < n ==> Publishable(accounts, enabled, i)
  }

  lemma PublishableNext(accounts: seq<Account>, enabled: set<string>, i: nat)
    requires i < |accounts|
    ensures PublishableBelow(accounts, enabled, i + 1) <==>
              PublishableBelow(accounts, enabled, i) && Publishable(accounts, enabled, i)
    ensures PublishableBelow(accounts, enabled, |accounts|) ==> Publishable(accounts, enabled, i)
  {
  }

  lemma BlocksAtTurn(accounts: seq<Account>, i: nat, j: nat)
    requires Distinct(accounts) && i < |accounts| && InTheWay(accounts, i, j)
    ensures HasNamesake(SyncedUpTo(accounts, i), accounts[i])
  {
    if j < i {
      assert accounts[..i][j] == accounts[j];
      SyncedStays(accounts[..i], j);
      var b := SyncedOne(accounts[j])[0];
      assert b in SyncedUpTo(accounts, i) && b.id != accounts[i].id && b.name == accounts[i].id;
    } else {
      assert accounts[i..][j - i] == accounts[j];
      assert accounts[j] in SyncedUpTo(accounts, i) && accounts[j].id != accounts[i].id;
    }
  }

  lemma BlockerAtTurn(accounts: seq<Account>, i: nat, b: Account) returns (j: nat)
    requires Distinct(accounts) && i < |accounts|
    requires b in SyncedUpTo(accounts, i) && b != accounts[i] && b.name == accounts[i].id
    ensures InTheWay(accounts, i, j)
  {
    if b in Synced(accounts[..i]) {
      j := SyncedFrom(accounts[..i], b);
      assert accounts[..i][j] == accounts[j];
    } else {
      j :| i <= j < |accounts| && accounts[j] == b;
    }
  }

  lemma NamesakesAtTurn(accounts: seq<Account>, i: nat)
    requires Distinct(accounts) && i < |accounts|
    ensures HasNamesake(SyncedUpTo(accounts, i), accounts[i]) <==> exists j :: InTheWay(accounts, i, j)
  {
    if j :| InTheWay(accounts, i, j) {
      BlocksAtTurn(accounts, i, j);
    }
    if b :| b in SyncedUpTo(accounts, i) && b != accounts[i] && b.name == accounts[i].id {
      var j := BlockerAtTurn(accounts, i, b);
    }
  }

  // ------------------------------------------------------------------ invariant

  predicate Assigned(reg: seq<Account>, credential: string) {
    exists a :: a in reg && a.credential == credential
  }

  predicate AccountInv(base: map<string, Fields>, upstream: map<string, Credential>, a: Account) {
    && a.credential in base && a.credential in upstream && a.original == base[a.credential]
    && a.prefix != ""
    && (a.state.Active? ==> upstream[a.credential].fields == Published(a))
  }

  /** base is what each credential held before any account took it.  It never
      changes: an account remembers it, and a credential without one shows it.
   */
  ghost predicate Inv(base: map<string, Fields>, w: World) {
    && Distinct(w.registry)
    && w.upstream.Keys == base.Keys
    && (forall c :: c in base ==> base[c].prefix != Some(""))
    && (forall a :: a in w.registry ==> AccountInv(base, w.upstream, a))
    && (forall c :: c in base && !Assigned(w.registry, c) ==> w.upstream[c].fields == base[c])
  }

  // Touching the credential of an account that is not active keeps the invariant.
  lemma PatchKeepsInv(base: map<string, Fields>, w: World, a: Account, fields: Fields)
    requires Inv(base, w) && a in w.registry && !a.state.Active?
    ensures var c := a.credential;
            Inv(base, w.(upstream := w.upstream[c := w.upstream[c].(fields := fields)]))
  {
    assert AccountInv(base, w.upstream, a);
    var v := w.(upstream := w.upstream[a.credential := w.upstream[a.credential].(fields := fields)]);
    forall b | b in v.registry
      ensures AccountInv(base, v.upstream, b)
    {
      assert AccountInv(base, w.upstream, b);
      if b.credential == a.credential {
        CredentialsDiffer(w.registry, a, b);
      }
    }
    assert Assigned(v.registry, a.credential);
  }

  // Rewriting one account's name, priority or state.
  lemma ReplaceKeepsInv(base: map<string, Fields>, w: World, a: Account, b: Account)
    requires Inv(base, w) && a in w.registry
    requires b == a.(name := b.name, priority := b.priority, state := b.state)
    requires b.state.Active? ==> w.upstream[b.credential].fields == Published(b)
    requires Distinct(Replaced(w.registry, b.id, b))
    ensures Inv(base, w.(registry := Replaced(w.registry, b.id, b)))
  {
    var r := Replaced(w.registry, b.id, b);
    assert AccountInv(base, w.upstream, a);
    forall x | x in r
      ensures AccountInv(base, w.upstream, x)
    {
      assert x == b || x in w.registry;
    }
    forall x | x in w.registry
      ensures Assigned(r, x.credential)
    {
      var i :| 0 <= i < |r| && w.registry[i] == x;
      if x.id == b.id {
        CredentialsDiffer(w.registry, a, x);
      }
      assert r[i] in r && r[i].credential == x.credential;
    }
  }

  lemma ActivatingKeepsInv(base: map<string, Fields>, w: World, a: Account)
    requires Inv(base, w) && a in w.registry && w.upstream[a.credential].fields == Published(a)
    ensures Inv(base, w.(registry := Replaced(w.registry, a.id, a.(state := Active))))
  {
    SameNamesStayDistinct(w.registry, a, a.(state := Active));
    ReplaceKeepsInv(base, w, a, a.(state := Active));
  }

  // Dropping an account whose credential shows its original fields again.
  lemma WithoutKeepsInv(base: map<string, Fields>, w: World, a: Account)
    requires Inv(base, w) && a in w.registry && w.upstream[a.credential].fields == a.original
    ensures Inv(base, w.(registry := Without(w.registry, a.id)))
  {
    var r := Without(w.registry, a.id);
    WithoutKeepsDistinct(w.registry, a.id);
    assert AccountInv(base, w.upstream, a);
    forall x | x in w.registry && x != a
      ensures Assigned(r, x.credential)
    {
      if x.id == a.id {
        CredentialsDiffer(w.registry, a, x);
      }
      assert x in r;
    }
  }

  // A new account on a credential that nobody has.
  lemma AppendKeepsInv(base: map<string, Fields>, w: World, a: Account)
    requires Inv(base, w) && Distinct(w.registry + [a]) && !a.state.Active? && a.prefix != ""
    requires a.credential in base && a.original == w.upstream[a.credential].fields
    requires !Assigned(w.registry, a.credential)
    ensures Inv(base, w.(registry := w.registry + [a]))
  {
    var r := w.registry + [a];
    forall x | x in r
      ensures AccountInv(base, w.upstream, x)
    {
      assert x == a || x in w.registry;
    }
    forall x | x in w.registry
      ensures Assigned(r, x.credential)
    {
      assert x in r;
    }
  }

  lemma NamesAfterRewrite(reg: seq<Account>, a: Account, b: Account, selector: string)
    requires Distinct(reg) && Names(reg, selector, a) && b == a.(priority := b.priority, state := b.state)
    ensures Names(Replaced(reg, a.id, b), selector, b)
  {
    var r := Replaced(reg, a.id, b);
    var k :| 0 <= k < |reg| && reg[k] == a;
    assert r[k] == b;
    forall x | x in r && Selects(x, selector)
      ensures x == b
    {
      var i :| 0 <= i < |r| && r[i] == x;
      assert reg[i] in reg;
    }
  }

  // Publishing the account will not be refused.
  ghost predicate CanPublish(w: World, a: Account) {
    a.credential in Enabled(w.upstream) && !HasNamesake(w.registry, a)
  }

  lemma NamesakesAfterRewrite(reg: seq<Account>, a: Account, b: Account)
    requires Distinct(reg) && a in reg && b == a.(priority := b.priority, state := b.state)
    ensures HasNamesake(Replaced(reg, a.id, b), b) <==> HasNamesake(reg, a)
  {
    var r := Replaced(reg, a.id, b);
    if HasNamesake(reg, a) {
      var x :| x in reg && x != a && x.name == a.id;
      var i :| 0 <= i < |reg| && reg[i] == x;
      if x.id == a.id {
        CredentialsDiffer(reg, a, x);
      }
      assert r[i] == x;
    }
    if HasNamesake(r, b) {
      var x :| x in r && x != b && x.name == b.id;
      var i :| 0 <= i < |r| && r[i] == x;
      assert reg[i] == x;
    }
  }

  // Journalling that an account is to be published again changes nothing about
  // who can be found and published, and publishing it then completes the change.
  lemma RepublishingStarts(w: World, a: Account, b: Account, selector: string)
    requires Distinct(w.registry) && Names(w.registry, selector, a)
    requires b == a.(priority := b.priority, state := PendingAdd)
    ensures var r := Replaced(w.registry, a.id, b);
            && Distinct(r) && Names(r, selector, b) && (CanPublish(w.(registry := r), b) <==> CanPublish(w, a))
            && SyncedRegistry(r, b) == Replaced(w.registry, a.id, b.(state := Active))
  {
    SameNamesStayDistinct(w.registry, a, b);
    NamesAfterRewrite(w.registry, a, b, selector);
    NamesakesAfterRewrite(w.registry, a, b);
    assert SyncedRegistry(Replaced(w.registry, a.id, b), b) == Replaced(w.registry, a.id, b.(state := Active));
  }

  lemma ReplacedBySelf(reg: seq<Account>, a: Account)
    requires Distinct(reg) && a in reg
    ensures Replaced(reg, a.id, a) == reg
  {
    forall i | 0 <= i < |reg|
      ensures Replaced(reg, a.id, a)[i] == reg[i]
    {
      if reg[i].id == a.id {
        CredentialsDiffer(reg, a, reg[i]);
      }
    }
  }

  lemma AppendThenActivate(reg: seq<Account>, a: Account)
    requires Distinct(reg + [a])
    ensures Replaced(reg + [a], a.id, a.(state := Active)) == reg + [a.(state := Active)]
  {
    forall x | x in reg
      ensures x.id != a.id
    {
      var i :| 0 <= i < |reg| && reg[i] == x;
      assert (reg + [a])[i] == x && (reg + [a])[|reg|] == a;
    }
    ReplacedMiddle(reg, a, [], a.(state := Active));
    assert reg + [a] + [] == reg + [a];
    assert reg + [a.(state := Active)] + [] == reg + [a.(state := Active)];
  }

  // ---------------------------------------------------- what a command leaves alone

  // Of the upstream, nothing but the fields of one credential differs.
  ghost predicate OnlyCredential(before: World, after: World, credential: string) {
    && after.upstream.Keys == before.upstream.Keys
    && (forall c :: c in after.upstream ==> after.upstream[c].disabled == before.upstream[c].disabled)
    && (forall c :: c in after.upstream && c != credential ==> after.upstream[c] == before.upstream[c])
  }

  // Nothing but the named account's credential, if one is named.
  ghost predicate OnlyNamed(before: World, after: World, selector: string) {
    after.upstream == before.upstream ||
    exists a :: Names(before.registry, selector, a) && OnlyCredential(before, after, a.credential)
  }

  // The registry is as it was, but for what the named account is to become.
  ghost predicate NamedIntact(before: World, after: World, selector: string, change: Account -> Account) {
    after.registry == before.registry ||
    exists a :: Names(before.registry, selector, a) && after.registry == Replaced(before.registry, a.id, change(a))
  }

  // Of the upstream, nothing but the fields of credentials of pending accounts differs.
  ghost predicate OnlyPending(reg: seq<Account>, before: World, after: World) {
    && after.upstream.Keys == before.upstream.Keys
    && (forall c :: c in after.upstream ==> after.upstream[c].disabled == before.upstream[c].disabled)
    && forall c :: c in after.upstream && after.upstream[c] != before.upstream[c] ==> PendingOn(reg, c)
  }

  ghost predicate PendingOn(reg: seq<Account>, credential: string) {
    exists a :: a in reg && a.credential == credential && (a.state.PendingAdd? || a.state.PendingRemove?)
  }

  lemma SameEnabled(before: World, after: World, credential: string)
    requires OnlyCredential(before, after, credential)
    ensures Enabled(after.upstream) == Enabled(before.upstream)
  {
  }

  // The account is gone, or at most marked to go, and everything else is as it was.
  ghost predicate RemovedOnly(before: World, after: World, account: Account, done: bool) {
    && OnlyCredential(before, after, account.credential)
    && if done then
         Dropped(before.registry, after.registry, account) && forall a :: a in after.registry ==> a.id != account.id
       else Intact(before.registry, after.registry, account, account.(state := PendingRemove))
  }

  lemma RemovedAfterMark(before: World, middle: World, after: World, account: Account, a: Account, done: bool)
    requires Distinct(before.registry) && account in before.registry && a == account.(state := PendingRemove)
    requires middle.upstream == before.upstream
    requires middle.registry == Replaced(before.registry, a.id, a) || (middle == before && a == account)
    requires OnlyCredential(middle, after, a.credential)
    requires after.registry == if done then Without(middle.registry, a.id) else middle.registry
    ensures RemovedOnly(before, after, account, done)
    ensures !done ==> after.registry == Replaced(before.registry, account.id, a)
  {
    if a == account {
      ReplacedBySelf(before.registry, account);
    }
    if done {
      MarkedThenDropped(before.registry, account, a);
      WithoutDrops(before.registry, account);
    }
  }

  lemma OnlyPendingNext(reg: seq<Account>, i: nat, start: World, before: World, after: World)
    requires i < |reg| && OnlyPending(reg, start, before) && OnlyCredential(before, after, reg[i].credential)
    requires reg[i].state.Active? || reg[i].state.Disabled? ==> after.upstream == before.upstream
    ensures OnlyPending(reg, start, after)
  {
    forall c | c in after.upstream && after.upstream[c] != start.upstream[c]
      ensures PendingOn(reg, c)
    {
      if c == reg[i].credential && after.upstream[c] != before.upstream[c] {
        assert reg[i] in reg;
      }
    }
  }

  // The account is to be removed, and nothing else of the registry has changed.
  ghost predicate MarkedOnly(before: World, after: World, account: Account) {
    after.registry == Replaced(before.registry, account.id, account.(state := PendingRemove))
  }

  // One account is gone, and every other is in its place.
  ghost predicate Dropped(before: seq<Account>, after: seq<Account>, account: Account) {
    exists i :: 0 <= i < |before| && before[i] == account && after == before[..i] + before[i + 1..]
  }

  // The account is as it was, or its state says what was to be done to it.
  ghost predicate Intact(before: seq<Account>, after: seq<Account>, a: Account, pending: Account) {
    after == before || after == Replaced(before, a.id, pending)
  }

  lemma WithoutDrops(reg: seq<Account>, a: Account)
    requires Distinct(reg) && a in reg
    ensures Dropped(reg, Without(reg, a.id), a)
  {
    var i :| 0 <= i < |reg| && reg[i] == a;
    var front, rest := reg[..i], reg[i + 1..];
    assert reg == front + [a] + rest;
    forall x | x in front || x in rest
      ensures x.id != a.id
    {
      var j :| 0 <= j < |reg| && j != i && reg[j] == x;
    }
    WithoutMiddle(front, a, rest);
  }

  lemma MarkedThenDropped(reg: seq<Account>, a: Account, b: Account)
    requires Distinct(reg) && a in reg && b == a.(state := b.state)
    ensures Without(Replaced(reg, a.id, b), a.id) == Without(reg, a.id)
  {
    var i :| 0 <= i < |reg| && reg[i] == a;
    var front, rest := reg[..i], reg[i + 1..];
    assert reg == front + [a] + rest;
    forall x | x in front || x in rest
      ensures x.id != a.id
    {
      var j :| 0 <= j < |reg| && j != i && reg[j] == x;
    }
    WithoutMiddle(front, a, rest);
    ReplacedMiddle(front, a, rest, b);
    WithoutMiddle(front, b, rest);
  }

  lemma ForgettingKeepsInv(base: map<string, Fields>, w: World, a: Account)
    requires Inv(base, w) && a in w.registry && a.state.PendingRemove?
    requires a.credential in w.upstream && w.upstream[a.credential].fields == a.original
    ensures Inv(base, w.(registry := Without(w.registry, a.id)))
    ensures a.credential in base && base[a.credential] == a.original
    ensures SyncedRegistry(w.registry, a) == Without(w.registry, a.id)
  {
    assert AccountInv(base, w.upstream, a);
    WithoutKeepsInv(base, w, a);
  }

  // -------------------------------------------------------------------- machine

  // The answer to one operation; a patch may leave other fields than requested.
  datatype Reply = Reply(fate: Fate, effect: Option<Fields>)

  // The first reply of a script, and the script behind it.
  function Answer(replies: seq<Reply>): Outcome {
    if replies == [] || replies[0].fate.Proceed? then Ok
    else if replies[0].fate.Raise? then Failed
    else Crashed
  }

  function Rest(replies: seq<Reply>): seq<Reply> {
    if replies == [] then [] else replies[1..]
  }

  // What a patch leaves of the fields: those asked for if it succeeds, as far as
  // nothing else has come of it; a patch that fails may have had an effect.
  function Left(replies: seq<Reply>, asked: Fields, before: Fields): Fields {
    if replies != [] && replies[0].effect.Some? then replies[0].effect.value
    else if Answer(replies).Ok? then asked
    else before
  }

  class Registry {
    var world: World
    var replies: seq<Reply>
    ghost const base: map<string, Fields>

    constructor (world: World, ghost base: map<string, Fields>, replies: seq<Reply>)
      requires Inv(base, world)
      ensures Valid() && this.world == world && this.base == base && this.replies == replies
    {
      this.world := world;
      this.replies := replies;
      this.base := base;
    }

    ghost predicate Valid()
      reads this
    {
      Inv(base, world)
    }

    // From now on every operation succeeds and does what it is asked to do.
    ghost predicate Calm()
      reads this
    {
      replies == []
    }

    method NextReply() returns (o: Outcome, effect: Option<Fields>)
      modifies this`replies
      ensures o == Answer(old(replies)) && replies == Rest(old(replies))
      ensures effect == if old(replies) == [] then None else old(replies)[0].effect
    {
      o, effect := Ok, None;
      if replies != [] {
        o := Head([replies[0].fate]);
        effect := replies[0].effect;
        replies := replies[1..];
      }
    }

    method Patch(a: Account, prefix: Option<string>, priority: Option<int>) returns (o: Outcome)
      requires Valid() && a in world.registry && !a.state.Active?
      modifies this`world, this`replies
      ensures Valid() && OnlyTouched(old(world), a.credential)
      ensures o == Answer(old(replies)) && replies == Rest(old(replies))
      ensures world.upstream[a.credential].fields
           == Left(old(replies), Fields(if prefix == Some("") then None else prefix, priority),
                   old(world).upstream[a.credential].fields)
    {
      var c := a.credential;
      var effect;
      o, effect := NextReply();
      assert AccountInv(base, world.upstream, a);
      if effect.Some? || o.Ok? {
        var fields := if effect.Some? then effect.value else Fields(Normal(prefix), priority);
        PatchKeepsInv(base, world, a, fields);
        world := world.(upstream := world.upstream[c := world.upstream[c].(fields := fields)]);
      }
    }

    // Nothing but the fields of one credential differs from an earlier world.
    ghost predicate OnlyTouched(before: World, credential: string)
      reads this
    {
      world.registry == before.registry && OnlyCredential(before, world, credential)
    }

    method Publish(a: Account) returns (o: Outcome)
      requires Valid() && a in world.registry && !a.state.Active?
      modifies this`world, this`replies
      ensures Valid() && OnlyTouched(old(world), a.credential)
      ensures o.Ok? ==> world.upstream[a.credential].fields == Published(a)
      ensures old(Calm()) ==> Calm() && !o.Crashed?
      ensures old(Calm()) ==> (o.Ok? <==> !old(world).upstream[a.credential].disabled)
      ensures old(world).upstream[a.credential].disabled ==> o.Failed? && world == old(world) && replies == old(replies)
      ensures !old(world).upstream[a.credential].disabled ==>
        && replies == Rest(old(replies)) && (o.Ok? ==> Answer(old(replies)).Ok?)
        && world.upstream[a.credential].fields
           == Left(old(replies), Fields(Some(a.prefix), Some(a.priority)), old(world).upstream[a.credential].fields)
    {
      assert AccountInv(base, world.upstream, a);
      if world.upstream[a.credential].disabled {
        return Failed;
      }
      o := Patch(a, Some(a.prefix), Some(a.priority));
      if !o.Ok? {
        return;
      }
      if world.upstream[a.credential].fields != Published(a) {
        return Failed;
      }
    }

    method Unpublish(a: Account) returns (o: Outcome)
      requires Valid() && a in world.registry && !a.state.Active?
      modifies this`world, this`replies
      ensures Valid() && OnlyTouched(old(world), a.credential)
      ensures o.Ok? ==> world.upstream[a.credential].fields == a.original && Answer(old(replies)).Ok?
      ensures old(Calm()) ==> Calm() && o.Ok?
      ensures var once := !Answer(old(replies)).Ok? || (a.original.prefix.Some? && a.original.priority.Some?);
              && replies == (if once then Rest(old(replies)) else Rest(Rest(old(replies))))
              && (o.Ok? && !once ==> Answer(Rest(old(replies))).Ok?)
    {
      assert AccountInv(base, world.upstream, a);
      var prefix := if a.original.prefix.Some? then a.original.prefix else Some("");
      var priority := if a.original.priority.Some? then a.original.priority else Some(0);
      o := Patch(a, prefix, priority);
      if !o.Ok? {
        return;
      }
      if a.original.prefix.None? || a.original.priority.None? {
        o := Patch(a, a.original.prefix, a.original.priority);
        if !o.Ok? {
          return;
        }
      }
      if world.upstream[a.credential].fields != a.original {
        return Failed;
      }
    }

    method FindAccount(selector: string) returns (found: Option<Account>)
      requires Valid()
      ensures found.Some? ==> Names(world.registry, selector, found.value)
      ensures found.None? ==> forall a :: !Names(world.registry, selector, a)
    {
      var matches: seq<Account> := [];
      for i := 0 to |world.registry|
        invariant matches == Matching(world.registry[..i], selector)
      {
        assert world.registry[..i + 1][..i] == world.registry[..i];
        if Selects(world.registry[i], selector) {
          matches := matches + [world.registry[i]];
        }
      }
      assert world.registry[..|world.registry|] == world.registry;
      MatchingDecides(world.registry, selector);
      if |matches| != 1 {
        return None;
      }
      found := Some(matches[0]);
    }

    // The registry file is validated and replaced as a whole.
    method Save(next: seq<Account>) returns (o: Outcome)
      modifies this`world, this`replies
      ensures world == if o.Ok? then old(world).(registry := next) else old(world)
      ensures o == if Distinct(next) then Answer(old(replies)) else Failed
      ensures replies == if Distinct(next) then Rest(old(replies)) else old(replies)
    {
      if !Distinct(next) {
        return Failed;
      }
      var effect;
      o, effect := NextReply();
      if o.Ok? {
        world := world.(registry := next);
      }
    }

    // Publishes a pending account and records it as active.
    method FinishAdd(a: Account) returns (o: Outcome)
      requires Valid() && a in world.registry && a.state.PendingAdd?
      modifies this`world, this`replies
      ensures Valid()
      ensures world.registry == if o.Ok? then SyncedRegistry(old(world).registry, a) else old(world).registry
      ensures OnlyCredential(old(world), world, a.credential)
      ensures Enabled(world.upstream) == Enabled(old(world).upstream)
      ensures old(Calm()) ==> Calm() && !o.Crashed?
      ensures old(Calm()) ==> (o.Ok? <==> CanPublish(old(world), a))
    {
      assert AccountInv(base, world.upstream, a);
      o := Publish(a);
      if !o.Ok? {
        return;
      }
      var found := FindAccount(a.id);
      IdSelects(world.registry, a);
      if found.None? {
        assert !Names(world.registry, a.id, a);
        return Failed;
      }
      ActivatingKeepsInv(base, world, a);
      SameEnabled(old(world), world, a.credential);
      o := Save(Replaced(world.registry, a.id, a.(state := Active)));
    }

    // Puts the original fields back and forgets the account.
    method FinishRemove(a: Account) returns (o: Outcome)
      requires Valid() && a in world.registry && a.state.PendingRemove?
      modifies this`world, this`replies
      ensures Valid()
      ensures world.registry == if o.Ok? then SyncedRegistry(old(world).registry, a) else old(world).registry
      ensures OnlyCredential(old(world), world, a.credential)
      ensures Enabled(world.upstream) == Enabled(old(world).upstream)
      ensures o.Ok? ==>
        a.credential in world.upstream && world.upstream[a.credential].fields == a.original == base[a.credential]
      ensures old(Calm()) ==> Calm() && o.Ok?
    {
      o := Unpublish(a);
      SameEnabled(old(world), world, a.credential);
      if !o.Ok? {
        return;
      }
      ForgettingKeepsInv(base, world, a);
      o := Save(Without(world.registry, a.id));
    }

    method Synchronize(a: Account) returns (o: Outcome)
      requires Valid() && a in world.registry
      modifies this`world, this`replies
      ensures Valid()
      ensures world.registry == if o.Ok? then SyncedRegistry(old(world).registry, a) else old(world).registry
      ensures a.state.Active? || a.state.Disabled? ==> o.Ok? && world == old(world) && replies == old(replies)
      ensures OnlyCredential(old(world), world, a.credential)
      ensures Enabled(world.upstream) == Enabled(old(world).upstream)
      ensures old(Calm()) ==> Calm() && !o.Crashed?
      ensures old(Calm()) ==>
                (o.Ok? <==> a.state.PendingAdd? ==> CanPublish(old(world), a))
    {
      o := Ok;
      if a.state.PendingAdd? {
        o := FinishAdd(a);
      } else if a.state.PendingRemove? {
        o := FinishRemove(a);
      }
    }

    method SyncNext(accounts: seq<Account>, i: nat) returns (o: Outcome)
      requires Valid() && Distinct(accounts) && i < |accounts| && world.registry == SyncedUpTo(accounts, i)
      modifies this`world, this`replies
      ensures Valid()
      ensures world.registry == SyncedUpTo(accounts, if o.Ok? then i + 1 else i)
      ensures OnlyCredential(old(world), world, accounts[i].credential)
      ensures accounts[i].state.Active? || accounts[i].state.Disabled? ==> world.upstream == old(world).upstream
      ensures Enabled(world.upstream) == Enabled(old(world).upstream)
      ensures NonePending(accounts) ==> o.Ok? && world == old(world) && replies == old(replies)
      ensures old(Calm()) ==> Calm() && !o.Crashed?
      ensures old(Calm()) ==> (o.Ok? <==> Publishable(accounts, Enabled(old(world).upstream), i))
    {
      SyncStep(accounts, i);
      NamesakesAtTurn(accounts, i);
      assert accounts[i] in accounts;
      o := Synchronize(accounts[i]);
    }

    method SyncEach(accounts: seq<Account>, ghost enabled: set<string>) returns (o: Outcome)
      requires Valid() && Distinct(accounts) && world.registry == SyncedUpTo(accounts, 0)
      requires enabled == Enabled(world.upstream)
      modifies this`world, this`replies
      ensures Valid()
      ensures o.Ok? ==> world.registry == SyncedUpTo(accounts, |accounts|)
      ensures exists i: nat :: i <= |accounts| && world.registry == SyncedUpTo(accounts, i)
      ensures OnlyPending(accounts, old(world), world)
      ensures NonePending(accounts) ==> o.Ok? && world == old(world) && replies == old(replies)
      ensures old(Calm()) ==> Calm() && !o.Crashed?
      ensures old(Calm()) ==> (o.Ok? <==> PublishableBelow(accounts, enabled, |accounts|))
      ensures Enabled(world.upstream) == Enabled(old(world).upstream)
    {
      o := Ok;
      for i := 0 to |accounts|
        invariant Valid() && o.Ok? && world.registry == SyncedUpTo(accounts, i)
        invariant NonePending(accounts) ==> world == old(world) && replies == old(replies)
        invariant Enabled(world.upstream) == enabled && OnlyPending(accounts, old(world), world)
        invariant old(Calm()) ==> Calm() && PublishableBelow(accounts, enabled, i)
      {
        PublishableNext(accounts, enabled, i);
        ghost var before := world;
        o := SyncNext(accounts, i);
        OnlyPendingNext(accounts, i, old(world), before, world);
        if !o.Ok? {
          return;
        }
      }
    }

    /** A full sync that succeeds leaves nothing pending; without interference it
        succeeds exactly when every pending addition can be published in its turn.
     */
    method SyncAll() returns (o: Outcome)
      requires Valid()
      modifies this`world, this`replies
      ensures Valid()
      ensures o.Ok? ==> world.registry == Synced(old(world).registry) && NonePending(world.registry)
      ensures exists i: nat :: i <= |old(world).registry| && world.registry == SyncedUpTo(old(world).registry, i)
      ensures OnlyPending(old(world).registry, old(world), world)
      ensures NonePending(old(world).registry) ==> o.Ok? && world == old(world) && replies == old(replies)
      ensures old(Calm()) ==> Calm() && !o.Crashed?
      ensures old(Calm()) ==>
                (o.Ok? <==> PublishableBelow(old(world).registry, Enabled(old(world).upstream), |old(world).registry|))
      ensures Enabled(world.upstream) == Enabled(old(world).upstream)
    {
      FullySynced(world.registry);
      o := SyncEach(world.registry, Enabled(world.upstream));
    }

    // Rewrites the name, priority or state of one account.
    method Rewrite(a: Account, b: Account) returns (o: Outcome)
      requires Valid() && a in world.registry && b == a.(name := b.name, priority := b.priority, state := b.state)
      requires b.state.Active? ==> a.state.Active? && a.priority == b.priority
      modifies this`world, this`replies
      ensures Valid()
      ensures world == if o.Ok? then old(world).(registry := Replaced(old(world).registry, a.id, b)) else old(world)
      ensures o.Ok? ==> b in world.registry
      ensures o == if Distinct(Replaced(old(world).registry, a.id, b)) then Answer(old(replies)) else Failed
      ensures old(Calm()) ==> Calm()
    {
      var next := Replaced(world.registry, a.id, b);
      assert AccountInv(base, world.upstream, a);
      if Distinct(next) {
        ReplaceKeepsInv(base, world, a, b);
      }
      o := Save(next);
      ghost var i :| 0 <= i < |old(world).registry| && old(world).registry[i] == a;
      assert next[i] == b;
    }

    // Marks an account as to be published again and carries that through.
    method Republish(a: Account, b: Account, selector: string) returns (o: Outcome)
      requires Valid() && Names(world.registry, selector, a)
      requires b == a.(priority := b.priority, state := PendingAdd)
      modifies this`world, this`replies
      ensures Valid()
      ensures o.Ok? ==> world.registry == Replaced(old(world).registry, a.id, b.(state := Active))
      ensures !o.Ok? ==>
        world.registry ==
          if Answer(old(replies)).Ok? then Replaced(old(world).registry, a.id, b) else old(world).registry
      ensures OnlyCredential(old(world), world, a.credential)
      ensures old(Calm()) ==> (o.Ok? <==> CanPublish(old(world), a))
    {
      RepublishingStarts(world, a, b, selector);
      o := Rewrite(a, b);
      if !o.Ok? {
        return;
      }
      var found := FindAccount(selector);
      assert Names(world.registry, selector, b);
      if found.None? {
        return Failed;
      }
      o := Synchronize(found.value);
    }

    // What is checked before an account is added.
    ghost predicate Addable(w: World, credential: string, priority: int) {
      && credential in w.upstream && !w.upstream[credential].disabled && Storable(w.upstream[credential].fields)
      && (forall a :: a in w.registry ==> a.credential != credential)
      && 0 <= priority <= 1000
    }

    method Add(id: string, name: string, credential: string, prefix: string, priority: int) returns (o: Outcome)
      requires Valid() && prefix != ""
      modifies this`world, this`replies
      ensures Valid()
      ensures o.Ok? ==> credential in old(world).upstream &&
                        world.registry == old(world).registry +
                          [Account(id, name, credential, prefix, priority, Active,
                            old(world).upstream[credential].fields)]
      ensures !o.Ok? ==> world.registry == old(world).registry ||
                         (credential in old(world).upstream &&
                          world.registry == old(world).registry +
                            [Account(id, name, credential, prefix, priority, PendingAdd,
                              old(world).upstream[credential].fields)])
      ensures OnlyCredential(old(world), world, credential)
      ensures !Addable(old(world), credential, priority) ==>
        o.Failed? && world == old(world) && replies == old(replies)
      ensures old(Calm()) ==>
                (o.Ok? <==> credential in Enabled(old(world).upstream) && !Assigned(old(world).registry, credential) &&
                            0 <= priority <= 1000 && Storable(old(world).upstream[credential].fields) &&
                            var a := Account(id, name, credential, prefix, priority, PendingAdd,
                              old(world).upstream[credential].fields);
                            Distinct(old(world).registry + [a]) && !HasNamesake(old(world).registry, a))
    {
      if credential !in world.upstream || world.upstream[credential].disabled || Assigned(world.registry, credential) {
        return Failed;
      }
      if !ValidPriority(priority) || !Storable(world.upstream[credential].fields) {
        return Failed;
      }
      var a := Account(id, name, credential, prefix, priority, PendingAdd, world.upstream[credential].fields);
      if Distinct(world.registry + [a]) {
        AppendKeepsInv(base, world, a);
      }
      o := Save(world.registry + [a]);
      if !o.Ok? {
        return;
      }
      o := Synchronize(a);
      if o.Ok? {
        AppendThenActivate(old(world).registry, a);
      }
    }

    // Journals in the registry that an account is to go.
    method MarkForRemoval(account: Account, a: Account, selector: string) returns (o: Outcome)
      requires Valid() && Names(world.registry, selector, account) && a == account.(state := PendingRemove)
      modifies this`world, this`replies
      ensures Valid() && world.upstream == old(world).upstream
      ensures o.Ok? ==> a in world.registry && world.registry == Replaced(old(world).registry, a.id, a)
      ensures !o.Ok? ==> world == old(world)
      ensures o == Answer(old(replies)) && (old(Calm()) ==> Calm())
    {
      SameNamesStayDistinct(world.registry, account, a);
      o := Rewrite(account, a);
      if !o.Ok? {
        return;
      }
      NamesAfterRewrite(old(world).registry, account, a, selector);
      assert Names(world.registry, selector, a);
      var found := FindAccount(selector);
      if found.None? {
        return Failed;
      }
    }

    method RemoveFound(account: Account, selector: string) returns (o: Outcome)
      requires Valid() && Names(world.registry, selector, account)
      modifies this`world, this`replies
      ensures Valid()
      ensures RemovedOnly(old(world), world, account, o.Ok?)
      ensures o.Ok? ==>
                && account.credential in world.upstream && account.credential in base
                && world.upstream[account.credential].fields == base[account.credential]
      ensures old(Calm()) ==> Calm() && o.Ok?
      ensures !o.Ok? && (account.state.PendingRemove? || Answer(old(replies)).Ok?) ==>
        MarkedOnly(old(world), world, account)
    {
      var a := account.(state := PendingRemove);
      if !account.state.PendingRemove? {
        o := MarkForRemoval(account, a, selector);
        if !o.Ok? {
          return;
        }
      }
      ghost var marked := world;
      o := FinishRemove(a);
      RemovedAfterMark(old(world), marked, world, account, a, o.Ok?);
    }

    /** A completed removal leaves the credential as it was before it was added. */
    method Remove(selector: string, bound: set<string>) returns (o: Outcome, ghost gone: Option<Account>)
      requires Valid()
      modifies this`world, this`replies
      ensures Valid()
      ensures o.Ok? ==>
                && gone.Some? && Names(old(world).registry, selector, gone.value) && gone.value.id !in bound
                && RemovedOnly(old(world), world, gone.value, true)
                && gone.value.credential in world.upstream && gone.value.credential in base
                && world.upstream[gone.value.credential].fields == base[gone.value.credential]
      ensures gone.Some? ==> RemovedOnly(old(world), world, gone.value, o.Ok?)
      ensures gone.None? || gone.value.id in bound ==> o.Failed? && world == old(world) && replies == old(replies)
      ensures gone.Some? <==> exists a :: Names(old(world).registry, selector, a)
      ensures old(Calm()) ==> forall a :: Names(old(world).registry, selector, a) && a.id !in bound ==> o.Ok?
    {
      var found := FindAccount(selector);
      gone := found;
      if found.None? || found.value.id in bound {
        return Failed, gone;
      }
      o := RemoveFound(found.value, selector);
    }

    method SyncSelected(selector: string) returns (o: Outcome)
      requires Valid()
      modifies this`world, this`replies
      ensures Valid()
      ensures o.Ok? ==> exists a :: Names(old(world).registry, selector, a) &&
                                    world.registry == SyncedRegistry(old(world).registry, a)
      ensures !o.Ok? ==> world.registry == old(world).registry
      ensures OnlyNamed(old(world), world, selector)
      ensures (forall a :: !Names(old(world).registry, selector, a)) ==> o.Failed? && world == old(world)
      ensures old(Calm()) ==> forall a :: Names(old(world).registry, selector, a) ==>
                (o.Ok? <==> (a.state.PendingAdd? ==> CanPublish(old(world), a)))
    {
      var found := FindAccount(selector);
      if found.None? {
        return Failed;
      }
      o := Synchronize(found.value);
    }

    method Rename(selector: string, name: string) returns (o: Outcome)
      requires Valid()
      modifies this`world, this`replies
      ensures Valid() && world.upstream == old(world).upstream
      ensures o.Ok? ==> exists a :: Names(old(world).registry, selector, a) &&
                                    world.registry == Replaced(old(world).registry, a.id, a.(name := name))
      ensures !o.Ok? ==> world == old(world)
      ensures old(Calm()) ==>
                (o.Ok? <==> exists a :: Names(old(world).registry, selector, a) &&
                                        Distinct(Replaced(old(world).registry, a.id, a.(name := name))))
    {
      var found := FindAccount(selector);
      if found.None? {
        return Failed;
      }
      o := Rewrite(found.value, found.value.(name := name));
    }

    method SetPriority(selector: string, priority: int) returns (o: Outcome)
      requires Valid()
      modifies this`world, this`replies
      ensures Valid()
      ensures o.Ok? ==> exists a :: Names(old(world).registry, selector, a) && (a.state.Active? || a.state.Disabled?) &&
                                    world.registry == Replaced(old(world).registry, a.id, a.(priority := priority))
      ensures !o.Ok? ==>
        NamedIntact(old(world), world, selector, (a: Account) => a.(priority := priority, state := PendingAdd))
      ensures OnlyNamed(old(world), world, selector)
      ensures old(Calm()) ==> forall a :: Names(old(world).registry, selector, a) ==>
                (o.Ok? <==>
                  0 <= priority <= 1000 && (a.state.Disabled? || (a.state.Active? && CanPublish(old(world), a))))
      ensures !(0 <= priority <= 1000) || (forall a :: !Names(old(world).registry, selector, a)) ==>
        o.Failed? && world == old(world)
      ensures forall a :: Names(old(world).registry, selector, a) ==>
        && (a.state.PendingAdd? || a.state.PendingRemove? ==> o.Failed? && world == old(world))
        && (a.state.Disabled? ==> world.upstream == old(world).upstream && (o.Ok? || world == old(world)))
    {
      var found := FindAccount(selector);
      if found.None? {
        return Failed;
      }
      var a := found.value;
      if !ValidPriority(priority) {
        return Failed;
      }
      if a.state.Disabled? {
        SameNamesStayDistinct(world.registry, a, a.(priority := priority));
        o := Rewrite(a, a.(priority := priority));
        return;
      }
      if !a.state.Active? {
        return Failed;
      }
      o := Republish(a, a.(priority := priority, state := PendingAdd), selector);
    }

    method Enable(selector: string) returns (o: Outcome)
      requires Valid()
      modifies this`world, this`replies
      ensures Valid()
      ensures o.Ok? ==> exists a :: Names(old(world).registry, selector, a) && (a.state.Active? || a.state.Disabled?) &&
                                    world.registry == Replaced(old(world).registry, a.id, a.(state := Active))
      ensures !o.Ok? ==> NamedIntact(old(world), world, selector, (a: Account) => a.(state := PendingAdd))
      ensures OnlyNamed(old(world), world, selector)
      ensures old(Calm()) ==> forall a :: Names(old(world).registry, selector, a) ==>
                (o.Ok? <==> a.state.Active? || (a.state.Disabled? && CanPublish(old(world), a)))
      ensures (forall a :: !Names(old(world).registry, selector, a)) ==> o.Failed? && world == old(world)
      ensures forall a :: Names(old(world).registry, selector, a) && !a.state.Disabled? ==>
        world == old(world) && replies == old(replies) && o == if a.state.Active? then Ok else Failed
    {
      var found := FindAccount(selector);
      if found.None? {
        return Failed;
      }
      var a := found.value;
      if a.state.Active? {
        ReplacedBySelf(world.registry, a);
        return Ok;
      }
      if !a.state.Disabled? {
        return Failed;
      }
      o := Republish(a, a.(state := PendingAdd), selector);
    }

    method Disable(selector: string) returns (o: Outcome)
      requires Valid()
      modifies this`world, this`replies
      ensures Valid() && world.upstream == old(world).upstream
      ensures o.Ok? ==> exists a :: Names(old(world).registry, selector, a) &&
                                    world.registry == Replaced(old(world).registry, a.id, a.(state := Disabled))
      ensures !o.Ok? ==> world == old(world)
      ensures old(Calm()) ==>
                (o.Ok? <==>
                  exists a :: Names(old(world).registry, selector, a) && (a.state.Active? || a.state.Disabled?))
      ensures forall a :: Names(old(world).registry, selector, a) && !a.state.Active? ==>
        world == old(world) && replies == old(replies) && o == if a.state.Disabled? then Ok else Failed
    {
      var found := FindAccount(selector);
      if found.None? {
        return Failed;
      }
      var a := found.value;
      if a.state.Disabled? {
        ReplacedBySelf(world.registry, a);
        return Ok;
      }
      if !a.state.Active? {
        return Failed;
      }
      SameNamesStayDistinct(world.registry, a, a.(state := Disabled));
      o := Rewrite(a, a.(state := Disabled));
    }

    /** Any sequence of commands, each against its own script of answers and
        crashes: an active account's upstream fields equal its registry values,
        and the original fields of every credential are never lost.
     */
    method Run(commands: seq<Command>)
      requires Valid()
      modifies this`world, this`replies
      ensures Valid()
    {
      for i := 0 to |commands|
        invariant Valid()
      {
        replies := commands[i].replies;
        match commands[i].action {
          case DoAdd(id, name, credential, prefix, priority) =>
            if prefix != "" {
              var _ := Add(id, name, credential, prefix, priority);
            }
          case DoRemove(selector, bound) =>
            ghost var gone;
            var o;
            o, gone := Remove(selector, bound);
          case DoSync(None) => var _ := SyncAll();
          case DoSync(Some(selector)) => var _ := SyncSelected(selector);
          case DoRename(selector, name) => var _ := Rename(selector, name);
          case DoPriority(selector, priority) => var _ := SetPriority(selector, priority);
          case DoEnable(selector) => var _ := Enable(selector);
          case DoDisable(selector) => var _ := Disable(selector);
        }
      }
    }
  }

  predicate IsHex(c: char) {
    'a' <= c <= 'f' || '0' <= c <= '9'
  }

  // An id or a routing prefix as the registry accepts it.
  predicate WellFormed(kind: string, id: string) {
    |id| == |kind| + 16 && kind <= id && forall i :: |kind| <= i < |id| ==> IsHex(id[i])
  }

  function Numbered(kind: string, digit: char): (id: string)
    requires IsHex(digit)
    ensures WellFormed(kind, id) && id[|id| - 1] == digit
  {
    kind + seq(16, i => if i < 15 then '0' else digit)
  }

  // An account to be added whose id is what another account is called.
  function Namesakes(): World {
    var fields := Fields(None, None);
    var id := Numbered("oc-a-", '2');
    var one := Account(Numbered("oc-a-", '1'), id, "a.json", Numbered("oc-r-", '1'), 1, Disabled, fields);
    var two := Account(id, "three", "b.json", Numbered("oc-r-", '2'), 2, PendingAdd, fields);
    World([one, two], map["a.json" := Credential(fields, false), "b.json" := Credential(fields, false)])
  }

  lemma NamesakesAreWellFormed()
    ensures forall a :: a in Namesakes().registry ==>
      WellFormed("oc-a-", a.id) && WellFormed("oc-r-", a.prefix) && ValidPriority(a.priority) && Storable(a.original)
  {
  }

  lemma NamesakesAreKept()
    ensures Inv(map["a.json" := Fields(None, None), "b.json" := Fields(None, None)], Namesakes())
  {
    var w := Namesakes();
    var one, two := w.registry[0], w.registry[1];
    assert one.id[|one.id| - 1] != two.id[|two.id| - 1] && one.prefix[|one.prefix| - 1] != two.prefix[|two.prefix| - 1];
    assert one.credential == "a.json" && two.credential == "b.json" && "a.json"[0] != "b.json"[0];
    assert |one.name| == |two.id| && |two.name| < |one.name| && one.prefix != "";
    assert one in w.registry && two in w.registry;
    assert Assigned(w.registry, "a.json") && Assigned(w.registry, "b.json");
  }

  lemma NamesakeIsInTheWay()
    ensures var w := Namesakes();
            && Enabled(w.upstream) == {"a.json", "b.json"}
            && !PublishableBelow(w.registry, Enabled(w.upstream), |w.registry|)
  {
    var w := Namesakes();
    assert InTheWay(w.registry, 1, 0);
    assert !Publishable(w.registry, Enabled(w.upstream), 1);
  }

  /** A full sync that fails in peace, with every credential enabled: the lookup of
      the account to be added finds two.
   */
  method NamesakeBlocksSync() returns (r: Registry, o: Outcome)
    ensures o.Failed? && fresh(r) && Enabled(r.world.upstream) == {"a.json", "b.json"}
  {
    NamesakesAreKept();
    var w := Namesakes();
    r := new Registry(w, map["a.json" := Fields(None, None), "b.json" := Fields(None, None)], []);
    NamesakeIsInTheWay();
    o := r.SyncAll();
  }

  datatype Action =
    | DoAdd(id: string, name: string, credential: string, prefix: string, priority: int)
    | DoRemove(selector: string, bound: set<string>)
    | DoSync(selected: Option<string>)
    | DoRename(selector: string, name: string)
    | DoPriority(selector: string, priority: int)
    | DoEnable(selector: string)
    | DoDisable(selector: string)

  datatype Command = Command(action: Action, replies: seq<Reply>)
}
