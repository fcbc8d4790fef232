/** The installer's activation of the live control plane and its rollback
    (integrations/common/install_control_plane.py).

    Digests are injective.  The pair of stack files is one value that is compared
    and restored as a whole.  Between any two commands of the installer anybody may
    edit the managed files, also to something that is too large to be read or that
    is not private.
 */
module ControlPlane {
  import opened Faults
  import opened Options

  const MAX_CONFIG_BYTES: nat := 2 * 1024 * 1024
  const MAX_BINDING_BYTES: nat := 1024 * 1024

  // The bytes of a file; private if it is a plain file of the user's own, for the
  // user alone.
  datatype Payload = Payload(bytes: seq<char>, private: bool)

  const NOTHING: Payload := Payload([], true)

  predicate Fits(c: Payload, limit: nat) {
    c.private && |c.bytes| <= limit
  }

  // Reading the file does not raise.
  predicate Readable(c: Option<Payload>, limit: nat) {
    c.Some? ==> Fits(c.value, limit)
  }

  datatype Digest = Digest(of: Payload)

  // ---------------------------------------------------------------------- files

  datatype File = Projects | Jira | Providers | Plugins | Runtime | Policy | Accounts

  const BOOTSTRAP_FILES: nat := 7

  // The files that may be bootstrapped, in the order in which they are.
  function BootstrapFile(i: nat): File
    requires i < BOOTSTRAP_FILES
  {
    match i
    case 0 => Projects
    case 1 => Jira
    case 2 => Providers
    case 3 => Plugins
    case 4 => Runtime
    case 5 => Policy
    case _ => Accounts
  }

  // The place of a file in that order, which has every file once.
  function Rank(f: File): (r: nat)
    ensures r < BOOTSTRAP_FILES && BootstrapFile(r) == f
  {
    match f
    case Projects => 0
    case Jira => 1
    case Providers => 2
    case Plugins => 3
    case Runtime => 4
    case Policy => 5
    case Accounts => 6
  }

  lemma RankOfPlace(i: nat)
    requires i < BOOTSTRAP_FILES
    ensures Rank(BootstrapFile(i)) == i
  {
  }

  type Files = map<File, Payload>

  function Content(files: Files, f: File): Option<Payload> {
    if f in files then Some(files[f]) else None
  }

  function WithContent(files: Files, f: File, c: Option<Payload>): (r: Files)
    ensures Content(r, f) == c
    ensures forall g :: g != f ==> Content(r, g) == Content(files, g)
  {
    if c.Some? then files[f := c.value] else files - {f}
  }

  // Model stacks and stack bindings.
  datatype Stack = Stack(model: Option<Payload>, binding: Option<Payload>)

  // A stack that can be loaded; a binding alone is not a state to start from.
  predicate Loadable(s: Stack) {
    if s.model.Some? then Fits(s.model.value, MAX_CONFIG_BYTES) && Readable(s.binding, MAX_BINDING_BYTES)
    else s.binding.None?
  }

  datatype StackDigests = StackDigests(model: Option<Digest>, binding: Option<Digest>)

  function DigestOf(c: Option<Payload>): Option<Digest> {
    if c.Some? then Some(Digest(c.value)) else None
  }

  function DigestsOf(s: Stack): StackDigests {
    StackDigests(DigestOf(s.model), DigestOf(s.binding))
  }

  // -------------------------------------------------------------------- journal

  datatype Snap = ModelSnap | BindingSnap | PolicySnap | ProjectsSnap

  datatype Entry = Data(snap: Snap) | Present(snap: Snap) | Absent(snap: Snap)

  datatype Phase = Prepared | Saving | Committed | RollbackConflict | RolledBack | Finalized

  predicate Terminal(p: Phase) {
    p.RolledBack? || p.Finalized?
  }

  datatype Managed = Managed(priorPresent: bool, activated: Digest)

  // What the validations said that look inside the documents: of the stack with its
  // bindings and accounts, and of everything installed.
  datatype Verdict = Verdict(plannable: bool, valid: bool)

  datatype Conflict = StackConflict | FileConflict(file: File)

  datatype Manifest = Manifest(
    phase: Phase, priorModelPresent: bool, priorBindingPresent: bool,
    policy: Option<Managed>, projects: Option<Managed>, priorState: StackDigests,
    bootstrap: map<File, Digest>, activationStates: seq<StackDigests>, conflicts: seq<Conflict>)

  datatype Journal = Journal(entries: map<Entry, Payload>, manifest: Option<Manifest>)

  datatype World = World(files: Files, stack: Stack, journal: Option<Journal>)

  predicate Unfinished(w: World) {
    w.journal.Some? && !Spent(w.journal.value)
  }

  // Rollback will only remove such a journal.
  predicate Spent(j: Journal) {
    j.manifest.None? || Terminal(j.manifest.value.phase)
  }

  // ------------------------------------------------- what rollback is meant to do

  // The control plane before an activation and the files it installs.
  datatype Plan = Plan(priorFiles: Files, priorStack: Stack, candidate: Files)

  // Staging leaves no file out and none too large, and installing makes it private.
  predicate Complete(p: Plan) {
    forall f: File :: f in p.candidate && Fits(p.candidate[f], MAX_CONFIG_BYTES)
  }

  // What staging and planning make: complete, and a stack that can be loaded.
  predicate Staged(candidate: Files, initialModel: Payload, planned: Stack) {
    && (forall f: File :: f in candidate && Fits(candidate[f], MAX_CONFIG_BYTES))
    && Fits(initialModel, MAX_CONFIG_BYTES) && planned.model.Some? && Loadable(planned)
  }

  // Activation writes the policy and the projects always, the others only if absent.
  predicate Installs(p: Plan, f: File) {
    f == Policy || f == Projects || f !in p.priorFiles
  }

  /** A managed file that holds its activated bytes gets its prior bytes back;
      anything else is left alone.
   */
  function RolledFile(p: Plan, f: File, current: Option<Payload>): Option<Payload>
    requires Complete(p)
  {
    if Installs(p, f) && current == Some(p.candidate[f]) then Content(p.priorFiles, f) else current
  }

  // Somebody else's bytes; an absent plugins.json cannot be locked and counts too.
  predicate FileConflicts(p: Plan, f: File, current: Option<Payload>)
    requires Complete(p)
  {
    Installs(p, f) &&
    ((current != Some(p.candidate[f]) && current != Content(p.priorFiles, f)) || (f == Plugins && current == None))
  }

  function RolledStack(p: Plan, states: seq<StackDigests>, current: Stack): Stack {
    if DigestsOf(current) in states then p.priorStack else current
  }

  predicate StackConflicts(p: Plan, states: seq<StackDigests>, current: Stack) {
    current != p.priorStack && DigestsOf(current) !in states
  }

  lemma RollingTwiceIsRollingOnce(p: Plan, f: File, current: Option<Payload>)
    requires Complete(p)
    ensures RolledFile(p, f, RolledFile(p, f, current)) == RolledFile(p, f, current)
    ensures FileConflicts(p, f, RolledFile(p, f, current)) ==>
              FileConflicts(p, f, current) || (f == Plugins && current == Some(p.candidate[f]))
    ensures FileConflicts(p, f, current) ==> FileConflicts(p, f, RolledFile(p, f, current))
  {
  }

  lemma DigestsAreInjective(s: Stack, t: Stack)
    requires DigestsOf(s) == DigestsOf(t)
    ensures s == t
  {
  }

  // ------------------------------------------------------------ faithful journal

  // Of the files that are read outside any handler, all can be.
  predicate Documents(files: Files) {
    Readable(Content(files, Policy), MAX_CONFIG_BYTES) && Readable(Content(files, Projects), MAX_CONFIG_BYTES)
  }

  // Without a model the binding is read outside any handler.
  predicate StackReads(s: Stack) {
    s.model.None? ==> Readable(s.binding, MAX_BINDING_BYTES)
  }

  // A rollback will get past everything it reads.
  predicate Passable(w: World) {
    StackReads(w.stack) && Documents(w.files)
  }

  predicate Taken(j: Journal, snap: Snap, c: Option<Payload>) {
    c.Some? ==> Data(snap) in j.entries && j.entries[Data(snap)] == c.value
  }

  function BootstrapDigests(p: Plan): map<File, Digest>
    requires Complete(p)
  {
    map f | f in p.candidate && f != Policy && f != Projects && Installs(p, f) :: Digest(p.candidate[f])
  }

  predicate SnapshotsTaken(p: Plan, j: Journal) {
    && Loadable(p.priorStack) && Documents(p.priorFiles)
    && Taken(j, ModelSnap, p.priorStack.model)
    && Taken(j, BindingSnap, p.priorStack.binding)
    && Taken(j, PolicySnap, Content(p.priorFiles, Policy))
    && Taken(j, ProjectsSnap, Content(p.priorFiles, Projects))
  }

  predicate CanLoad(s: StackDigests) {
    && s.model.Some? && Fits(s.model.value.of, MAX_CONFIG_BYTES)
    && (s.binding.Some? ==> Fits(s.binding.value.of, MAX_BINDING_BYTES))
  }

  predicate ManifestFits(p: Plan, m: Manifest)
    requires Complete(p)
  {
    && m.priorModelPresent == p.priorStack.model.Some?
    && m.priorBindingPresent == p.priorStack.binding.Some?
    && m.policy == Some(Managed(Policy in p.priorFiles, Digest(p.candidate[Policy])))
    && m.projects == Some(Managed(Projects in p.priorFiles, Digest(p.candidate[Projects])))
    && m.priorState == DigestsOf(p.priorStack)
    && m.bootstrap == BootstrapDigests(p)
    && forall s :: s in m.activationStates ==> CanLoad(s)
  }

  // The journal of a rollback that met conflicts: they are listed, and the phase says so.
  function Noted(j: Journal, conflicts: seq<Conflict>): Journal {
    if j.manifest.None? then j
    else j.(manifest := Some(j.manifest.value.(phase := RollbackConflict, conflicts := conflicts)))
  }

  // Nothing of a journal has changed, or conflicts were noted.
  predicate SameJournal(j: Journal, k: Journal) {
    && j.manifest.Some? && k.manifest.Some?
    && (k == j || (k.manifest.value.conflicts != [] && k == Noted(j, k.manifest.value.conflicts)))
  }

  // If there still is a manifest, it says that everything has been rolled back.
  predicate RolledBackOnly(j: Journal) {
    j.manifest.Some? ==> j.manifest.value.phase.RolledBack? && j.manifest.value.conflicts == []
  }

  // The files of a journal that have to be unlinked before its directory can go.
  function Unlinks(j: Journal): nat {
    |j.entries| + if j.manifest.Some? then 1 else 0
  }

  lemma OneEntryLess(entries: map<Entry, Payload>, e: Entry)
    requires e in entries
    ensures |entries - {e}| == |entries| - 1
  {
    assert (entries - {e}).Keys == entries.Keys - {e};
    assert |(entries - {e}).Keys| == |entries.Keys| - 1;
  }

  // Of n operations this many are left, or one of them has not taken effect.
  ghost predicate StepsLeft(start: seq<Fate>, n: nat, o: Outcome, fates: seq<Fate>, left: nat) {
    if o.Ok? then Attempt(start, n) == Attempt(fates, left) && Behind(start, n) == Behind(fates, left)
    else Attempt(start, n) == o && Behind(start, n) == fates
  }

  // A rollback of the journal has met conflicts, and none since has got through.
  predicate Conflicted(w: World) {
    Unfinished(w) && w.journal.value.manifest.value.phase.RollbackConflict?
  }

  // The one state in which finalizing changes anything.
  predicate Finalizable(w: World) {
    w.journal.Some? && w.journal.value.manifest.Some? && w.journal.value.manifest.value.phase.Committed?
  }

  /** An unfinished journal holds what its rollback needs. */
  predicate Faithful(p: Plan, j: Journal) {
    Complete(p) && (!Spent(j) ==> SnapshotsTaken(p, j) && ManifestFits(p, j.manifest.value))
  }

  // A file that can be read within a limit: private, and not too large.
  ghost predicate Modest(c: Option<Payload>, limit: nat) {
    c.None? || (c.value.private && |c.value.bytes| <= limit)
  }

  /** What the conditions on reading say: the policy and the projects within 2 MiB and
      private if they are there, and a binding without a model within 1 MiB and private;
      a stack to start from has neither file, or a model with such a binding or none.
   */
  lemma ReadingMeans(w: World)
    ensures Documents(w.files) <==>
      && (Policy in w.files ==> Modest(Some(w.files[Policy]), 2097152))
      && (Projects in w.files ==> Modest(Some(w.files[Projects]), 2097152))
    ensures StackReads(w.stack) <==> w.stack.model.Some? || Modest(w.stack.binding, 1048576)
    ensures Passable(w) <==> Documents(w.files) && StackReads(w.stack)
    ensures Loadable(w.stack) <==>
      || (w.stack.model.None? && w.stack.binding.None?)
      || (w.stack.model.Some? && Modest(w.stack.model, 2097152) && Modest(w.stack.binding, 1048576))
  {
  }

  /** What a rollback takes for a conflict, and what it makes of a file and of the stack. */
  lemma RollingMeans(p: Plan, w: World, f: File, states: seq<StackDigests>)
    requires Complete(p)
    ensures var current, prior := Content(w.files, f), Content(p.priorFiles, f);
            var managed := f == Policy || f == Projects || prior.None?;
            && (FileConflicts(p, f, current) <==>
                  managed && ((f == Plugins && current.None?) || current !in [prior, Some(p.candidate[f])]))
            && (current == Some(p.candidate[f]) && managed ==> RolledFile(p, f, current) == prior)
            && (current != Some(p.candidate[f]) || !managed ==> RolledFile(p, f, current) == current)
            && (f in BootstrapDigests(p) <==> prior.None? && f != Policy && f != Projects)
            && (f in BootstrapDigests(p) ==> BootstrapDigests(p)[f] == Digest(p.candidate[f]))
    ensures StackConflicts(p, states, w.stack) <==> w.stack != p.priorStack && !RecordedIn(w.stack, states)
    ensures RolledStack(p, states, w.stack) == if RecordedIn(w.stack, states) then p.priorStack else w.stack
  {
  }

  // The digests of both files are among those recorded.
  ghost predicate RecordedIn(s: Stack, states: seq<StackDigests>) {
    exists i :: 0 <= i < |states| &&
                states[i].model == (if s.model.Some? then Some(Digest(s.model.value)) else None) &&
                states[i].binding == if s.binding.Some? then Some(Digest(s.binding.value)) else None
  }

  // A bootstrapped file is unlinked if it is as it was installed, under its lock if it
  // has one; an absent plugins.json has none.
  function RemovalSteps(p: Plan, f: File, current: Option<Payload>): nat
    requires Complete(p)
  {
    if f == Plugins && current.None? then 0
    else (if f == Accounts || f == Plugins then 1 else 0) + if current == Some(p.candidate[f]) then 1 else 0
  }

  // What comes of these steps: a lock that cannot be had makes a conflict, and so does
  // an unlinking of plugins.json that raises.
  ghost predicate Removed(p: Plan, f: File, current: Option<Payload>, fates: seq<Fate>, left: seq<Fate>, o: Outcome,
    conflict: bool)
    requires Complete(p)
  {
    var n := RemovalSteps(p, f, current);
    && left == Behind(fates, n)
    && match Attempt(fates, n)
       case Ok => o.Ok? && (conflict <==> FileConflicts(p, f, current))
       case Crashed => o.Crashed?
       case Failed =>
         if f == Plugins || (f == Accounts && Head(fates).Failed?) then o.Ok? && conflict else o.Failed?
  }

  // The files are where an activation or a rollback can have left them.
  ghost predicate Reachable(p: Plan, files: Files)
    requires Complete(p)
  {
    forall f :: Content(files, f) == Content(p.priorFiles, f) ||
      (Installs(p, f) && Content(files, f) == Some(p.candidate[f]))
  }

  // conflicts names f, and f is untouched, or f has been rolled back.
  ghost predicate Settled(p: Plan, f: File, before: Files, after: Files, conflicts: seq<Conflict>)
    requires Complete(p)
  {
    if FileConflict(f) in conflicts then Content(after, f) == Content(before, f)
    else !FileConflicts(p, f, Content(before, f)) && Content(after, f) == RolledFile(p, f, Content(before, f))
  }

  ghost predicate RolledOrNot(p: Plan, f: File, before: Files, after: Files)
    requires Complete(p)
  {
    Content(after, f) == Content(before, f) || Content(after, f) == RolledFile(p, f, Content(before, f))
  }

  // Whether the first i entries of the bootstrap list, and only those, are installed.
  ghost predicate BootstrappedUpTo(i: nat, p: Plan, files: Files)
    requires Complete(p)
  {
    forall f :: Content(files, f) ==
                if f in BootstrapDigests(p) && Rank(f) < i then Some(p.candidate[f]) else Content(p.priorFiles, f)
  }

  lemma BootstrapNext(i: nat, f: File, p: Plan, files: Files)
    requires Complete(p) && i < BOOTSTRAP_FILES && f == BootstrapFile(i) && BootstrappedUpTo(i, p, files)
    ensures f in BootstrapDigests(p) ==> f !in files && BootstrappedUpTo(i + 1, p, files[f := p.candidate[f]])
    ensures f !in BootstrapDigests(p) ==> BootstrappedUpTo(i + 1, p, files)
  {
    RankOfPlace(i);
    var digests := BootstrapDigests(p);
    assert Content(files, f) == Content(p.priorFiles, f);
    forall g: File
      ensures Rank(g) < i + 1 <==> Rank(g) < i || g == f
    {
    }
  }

  lemma AllInstalled(p: Plan, files: Files)
    requires Complete(p) && BootstrappedUpTo(BOOTSTRAP_FILES, p, files)
    ensures Activated(p, files[Policy := p.candidate[Policy]][Projects := p.candidate[Projects]])
  {
    forall f
      ensures Content(files[Policy := p.candidate[Policy]][Projects := p.candidate[Projects]], f) ==
              if Installs(p, f) then Some(p.candidate[f]) else Content(p.priorFiles, f)
    {
      assert Rank(f) < BOOTSTRAP_FILES;
    }
  }

  // What a completed pass over all files leaves, given what it reported.
  ghost predicate AllSettled(p: Plan, m: Manifest, before: World, after: World, conflicts: seq<Conflict>)
    requires Complete(p)
  {
    && (forall f :: Settled(p, f, before.files, after.files, conflicts))
    && (if StackConflict in conflicts then after.stack == before.stack
        else !StackConflicts(p, m.activationStates, before.stack) &&
             after.stack == RolledStack(p, m.activationStates, before.stack))
  }

  // What a rollback has done, whatever stopped it: nothing if nothing is unfinished;
  // else every file and the stack are untouched or rolled back, and the journal stays
  // fit for another rollback until all of them are rolled back.
  ghost predicate Undoes(p: Plan, before: World, after: World)
    requires Complete(p)
  {
    if !Unfinished(before) then
      after.files == before.files && after.stack == before.stack && !Unfinished(after)
    else
      var j := before.journal.value;
      var m := j.manifest.value;
      && (forall f :: RolledOrNot(p, f, before.files, after.files))
      && (after.stack == before.stack || after.stack == RolledStack(p, m.activationStates, before.stack))
      && if Unfinished(after) then SameJournal(j, after.journal.value)
         else AllSettled(p, m, before, after, [])
  }

  // No bootstrapped file has been looked at.
  ghost predicate Untouched(p: Plan, before: Files, after: Files)
    requires Complete(p)
  {
    forall f :: f in BootstrapDigests(p) ==> Content(after, f) == Content(before, f)
  }

  // Every reported conflict is one.
  ghost predicate AllReal(p: Plan, m: Manifest, before: World, conflicts: seq<Conflict>)
    requires Complete(p)
  {
    forall c :: c in conflicts ==>
      if c.StackConflict? then StackConflicts(p, m.activationStates, before.stack)
      else FileConflicts(p, c.file, Content(before.files, c.file))
  }

  // What cannot be read is neither prior nor activated.
  lemma UnreadIsUnsettled(p: Plan, j: Journal, before: World, after: World)
    requires Faithful(p, j) && !Spent(j) && !Passable(before)
    ensures !AllSettled(p, j.manifest.value, before, after, [])
  {
    if !StackReads(before.stack) {
      assert StackConflicts(p, j.manifest.value.activationStates, before.stack);
    } else if !Readable(Content(before.files, Policy), MAX_CONFIG_BYTES) {
      assert !Settled(p, Policy, before.files, after.files, []);
    } else {
      assert !Settled(p, Projects, before.files, after.files, []);
    }
  }

  // The pass over the documents followed by the pass over the bootstrap files.
  lemma PassesCompose(p: Plan, before: Files, middle: Files, after: Files,
                      documents: seq<Conflict>, more: seq<Conflict>, all: seq<Conflict>, finished: bool)
    requires Complete(p)
    requires forall f :: FileConflict(f) in all <==> FileConflict(f) in documents || FileConflict(f) in more
    requires forall f :: f != Policy && f != Projects ==> Content(middle, f) == Content(before, f)
    requires forall f :: f !in BootstrapDigests(p) ==> Content(after, f) == Content(middle, f)
    requires forall f :: RolledOrNot(p, f, middle, after)
    requires forall c :: c in documents ==> c == FileConflict(Policy) || c == FileConflict(Projects)
    requires forall c :: c in more ==> c.FileConflict? && c.file in BootstrapDigests(p)
    requires Settled(p, Policy, before, middle, documents) && Settled(p, Projects, before, middle, documents)
    requires finished ==> forall f :: f in BootstrapDigests(p) ==> Settled(p, f, middle, after, more)
    ensures forall f :: RolledOrNot(p, f, before, after)
    ensures finished ==> forall f :: Settled(p, f, before, after, all)
  {
    forall f
      ensures RolledOrNot(p, f, before, after)
      ensures finished ==> Settled(p, f, before, after, all)
    {
      assert RolledOrNot(p, f, middle, after);
      if f in BootstrapDigests(p) {
        assert finished ==> Settled(p, f, middle, after, more);
      }
    }
  }

  // ----------------------------------------------------------------- whole runs

  ghost predicate SameFiles(a: Files, b: Files) {
    forall f :: Content(a, f) == Content(b, f)
  }

  // Files and stack are at their base, or a rollback would bring them there.
  ghost predicate Steady(p: Plan, w: World, base: Files, stack: Stack)
    requires Complete(p)
  {
    if Unfinished(w) then
      && Faithful(p, w.journal.value)
      && (forall f :: RolledFile(p, f, Content(w.files, f)) == Content(base, f))
      && RolledStack(p, w.journal.value.manifest.value.activationStates, w.stack) == stack
    else SameFiles(w.files, base) && w.stack == stack
  }

  // Nobody but the installer has touched the files or the stack.
  ghost predicate InOneOfTwo(p: Plan, w: World)
    requires Complete(p)
  {
    Unfinished(w) ==>
      && Reachable(p, w.files)
      && (w.stack == p.priorStack || DigestsOf(w.stack) in w.journal.value.manifest.value.activationStates)
  }

  lemma RollBackIsSteady(p: Plan, before: World, after: World, base: Files, stack: Stack)
    requires Complete(p) && Steady(p, before, base, stack) && Undoes(p, before, after)
    ensures Steady(p, after, base, stack)
    ensures InOneOfTwo(p, before) ==> InOneOfTwo(p, after)
  {
    if Unfinished(before) {
      forall f
        ensures RolledFile(p, f, Content(after.files, f)) == Content(base, f)
        ensures !Unfinished(after) ==> Content(after.files, f) == Content(base, f)
        ensures InOneOfTwo(p, before) ==>
          Content(after.files, f) == Content(p.priorFiles, f)
          || (Installs(p, f) && Content(after.files, f) == Some(p.candidate[f]))
      {
        assert RolledOrNot(p, f, before.files, after.files);
        assert !Unfinished(after) ==> Settled(p, f, before.files, after.files, []);
        RollingTwiceIsRollingOnce(p, f, Content(before.files, f));
      }
    }
  }

  lemma InterruptedIsSteady(p: Plan, w: World)
    requires Complete(p) && (w.journal.Some? ==> Faithful(p, w.journal.value))
    requires
      if w.journal.None? || w.journal.value.manifest.None? then w.files == p.priorFiles && w.stack == p.priorStack
             else !Terminal(w.journal.value.manifest.value.phase) && InOneOfTwo(p, w)
    ensures Steady(p, w, p.priorFiles, p.priorStack) && InOneOfTwo(p, w)
  {
  }

  lemma EditIsSteady(p: Plan, w: World, base: Files, stack: Stack, f: File, c: Option<Payload>)
    requires Complete(p) && Steady(p, w, base, stack)
    ensures var d := if Unfinished(w) then RolledFile(p, f, c) else c;
            Steady(p, w.(files := WithContent(w.files, f, c)), WithContent(base, f, d), stack)
  {
    var v := w.(files := WithContent(w.files, f, c));
    var d := if Unfinished(w) then RolledFile(p, f, c) else c;
    forall g
      ensures Content(v.files, g) == if g == f then c else Content(w.files, g)
      ensures Content(WithContent(base, f, d), g) == if g == f then d else Content(base, g)
    {
    }
  }

  datatype Command =
    | RunActivate(candidate: Files, initialModel: Payload, planned: Stack, verdict: Verdict, fates: seq<Fate>)
    | RunRollBack(fates: seq<Fate>)
    | RunFinalize(fates: seq<Fate>)
    | EditFile(file: File, content: Option<Payload>)
    | EditStack(edited: Stack)

  // Some activation had these bytes to write to the file.
  ghost predicate Written(commands: seq<Command>, f: File, c: Option<Payload>) {
    exists i :: 0 <= i < |commands| && commands[i].RunActivate? && c.Some? && c == Content(commands[i].candidate, f)
  }

  ghost predicate Candidate(commands: seq<Command>, candidate: Files) {
    exists i :: 0 <= i < |commands| && commands[i].RunActivate? && commands[i].candidate == candidate
  }

  // The base of a file is what it was at the start or what somebody put there last; or
  // a finalization kept what an activation had written; or somebody put there the very
  // bytes of an activation, which nobody can tell from its own.
  ghost predicate Explains(commands: seq<Command>, start: Files, f: File, c: Option<Payload>) {
    if commands == [] then c == Content(start, f)
    else
      var front, last := commands[..|commands| - 1], commands[|commands| - 1];
      match last
      case EditFile(g, d) => if g == f then c == d || Written(front, f, d) else Explains(front, start, f, c)
      case RunFinalize(_) => Explains(front, start, f, c) || Written(front, f, c)
      case _ => Explains(front, start, f, c)
  }

  // What one command does to the base of a file.
  ghost predicate Rebases(command: Command, p: Plan, unfinished: bool, f: File, b: Option<Payload>, c: Option<Payload>)
    requires Complete(p)
  {
    match command
    case EditFile(g, d) => if g == f then c == d || (unfinished && d == Some(p.candidate[f])) else c == b
    case RunFinalize(_) => c == b || (unfinished && c == Some(p.candidate[f]))
    case _ => c == b
  }

  lemma ExplainsNext(commands: seq<Command>, i: nat, start: Files, f: File, p: Plan, unfinished: bool,
                     b: Option<Payload>, c: Option<Payload>)
    requires i < |commands| && Complete(p) && Explains(commands[..i], start, f, b)
    requires unfinished ==> Candidate(commands[..i], p.candidate)
    requires Rebases(commands[i], p, unfinished, f, b, c)
    ensures Explains(commands[..i + 1], start, f, c)
  {
    var front := commands[..i];
    assert commands[..i + 1] == front + [commands[i]];
    assert (front + [commands[i]])[..i] == front;
    if unfinished {
      var k :| 0 <= k < |front| && front[k].RunActivate? && front[k].candidate == p.candidate;
      assert Written(front, f, Some(p.candidate[f]));
    }
  }

  lemma CandidateStays(commands: seq<Command>, i: nat, candidate: Files)
    requires i < |commands|
    requires Candidate(commands[..i], candidate) || (commands[i].RunActivate? && commands[i].candidate == candidate)
    ensures Candidate(commands[..i + 1], candidate)
  {
    var more := commands[..i + 1];
    if Candidate(commands[..i], candidate) {
      var k :| 0 <= k < i && commands[..i][k].RunActivate? && commands[..i][k].candidate == candidate;
      assert more[k] == commands[..i][k];
    } else {
      assert more[i] == commands[i];
    }
  }

  ghost function NoFiles(): (files: Files)
    ensures forall f: File :: f in files && files[f] == NOTHING
  {
    map f: File | Rank(f) < BOOTSTRAP_FILES :: NOTHING
  }

  // ---------------------------------------------------------------- cut scripts

  // The operations of one snapshot, of all four, and of an activation up to its manifest.
  function SnapshotSteps(c: Option<Payload>): nat {
    if c.None? then 4 else 5
  }

  // What an activation saves can be read.
  predicate Startable(p: Plan) {
    Loadable(p.priorStack) && Documents(p.priorFiles)
  }

  // The files of the plan are installed, and no other is changed.
  ghost predicate Activated(p: Plan, files: Files)
    requires Complete(p)
  {
    forall f :: Content(files, f) == if Installs(p, f) then Some(p.candidate[f]) else Content(p.priorFiles, f)
  }

  lemma StepsOneByOne(fates: seq<Fate>)
    ensures var f1 := Tail(fates); var f2 := Tail(f1); var f3 := Tail(f2); var f4 := Tail(f3);
            && After(fates, 4) == f4 && After(fates, 5) == Tail(f4)
            && (Proceeds(fates, 4) <==> Head(fates).Ok? && Head(f1).Ok? && Head(f2).Ok? && Head(f3).Ok?)
            && (Proceeds(fates, 5) <==> Proceeds(fates, 4) && Head(f4).Ok?)
  {
    var f1, f2, f3, f4 := Tail(fates), Tail(Tail(fates)), Tail(Tail(Tail(fates))), Tail(Tail(Tail(Tail(fates))));
    OneStep(fates, 4);
    OneStep(f1, 3);
    OneStep(f2, 2);
    OneStep(f3, 1);
    OneStep(fates, 5);
    OneStep(f1, 4);
    OneStep(f2, 3);
    OneStep(f3, 2);
    OneStep(f4, 1);
  }

  function SnapshotsSteps(p: Plan): nat {
    SnapshotSteps(p.priorStack.model) + SnapshotSteps(p.priorStack.binding)
    + SnapshotSteps(Content(p.priorFiles, Policy)) + SnapshotSteps(Content(p.priorFiles, Projects))
  }

  function AnnounceSteps(p: Plan): nat {
    1 + (SnapshotsSteps(p) + 1)
  }

  // -------------------------------------------------------------------- machine

  class Installer {
    var world: World
    var fates: seq<Fate>

    ghost predicate Calm()
      reads this
    {
      fates == []
    }

    method Apply(next: World) returns (o: Outcome)
      modifies this
      ensures o == Head(old(fates)) && fates == Tail(old(fates))
      ensures world == if o.Ok? then next else old(world)
    {
      o := Head(fates);
      fates := Tail(fates);
      if o.Ok? {
        world := next;
      }
    }

    // Unlinks any one file of the journal.
    method UnlinkOne() returns (o: Outcome)
      requires world.journal.Some? && Unlinks(world.journal.value) > 0
      modifies this
      ensures o == Head(old(fates)) && fates == Tail(old(fates))
      ensures !o.Ok? ==> world == old(world)
      ensures o.Ok? ==>
        && world == old(world).(journal := world.journal) && world.journal.Some?
        && Unlinks(world.journal.value) == Unlinks(old(world).journal.value) - 1
        && world.journal.value.manifest in {old(world).journal.value.manifest, None}
    {
      var journal := world.journal.value;
      var manifestNext := *;
      if journal.manifest.Some? && (manifestNext || journal.entries == map[]) {
        o := Apply(world.(journal := Some(journal.(manifest := None))));
      } else {
        var e :| e in journal.entries;
        OneEntryLess(journal.entries, e);
        o := Apply(world.(journal := Some(journal.(entries := journal.entries - {e}))));
      }
    }

    // Unlinks the journal's files in any order, then the directory.
    method RemoveJournal() returns (o: Outcome)
      requires world.journal.Some? && Spent(world.journal.value)
      modifies this
      ensures world.files == old(world).files && world.stack == old(world).stack
      ensures world.journal.Some? ==> Spent(world.journal.value)
      ensures world.journal.Some? && world.journal.value.manifest.Some? ==>
        world.journal.value.manifest == old(world).journal.value.manifest
      ensures o.Ok? <==> world.journal.None?
      ensures o == Attempt(old(fates), Unlinks(old(world).journal.value) + 1)
      ensures fates == Behind(old(fates), Unlinks(old(world).journal.value) + 1)
      ensures old(Calm()) ==> Calm() && o.Ok?
    {
      o := Ok;
      ghost var all := Unlinks(world.journal.value) + 1;
      while o.Ok? && (world.journal.value.entries != map[] || world.journal.value.manifest.Some?)
        invariant world.files == old(world).files && world.stack == old(world).stack
        invariant world.journal.Some? && Spent(world.journal.value)
        invariant world.journal.value.manifest.Some? ==>
          world.journal.value.manifest == old(world).journal.value.manifest
        invariant old(Calm()) ==> Calm() && o.Ok?
        invariant StepsLeft(old(fates), all, o, fates, Unlinks(world.journal.value) + 1)
        decreases o.Ok?, Unlinks(world.journal.value)
      {
        OneAttempt(fates, Unlinks(world.journal.value) + 1);
        o := UnlinkOne();
      }
      if o.Ok? {
        OneAttempt(fates, 1);
        o := Apply(world.(journal := None));
      }
    }

    // ---------------------------------------------------------------- rollback

    // The policy or the projects file: restore it if it holds the activated bytes.
    method RollBackManaged(f: File, original: Option<Payload>, activated: Digest, ghost p: Plan)
      returns (o: Outcome, conflict: bool)
      requires Complete(p) && (f == Policy || f == Projects)
      requires original == Content(p.priorFiles, f) && activated == Digest(p.candidate[f])
      modifies this
      ensures world ==
        if o.Ok? then
          old(world).(files := WithContent(old(world).files, f, RolledFile(p, f, Content(old(world).files, f))))
        else old(world)
      ensures o.Ok? ==> (conflict <==> FileConflicts(p, f, Content(old(world).files, f)))
      ensures var n := if Content(old(world).files, f) == Some(p.candidate[f]) then 1 else 0;
              if Readable(Content(old(world).files, f), MAX_CONFIG_BYTES) then
                o == Attempt(old(fates), n) && fates == Behind(old(fates), n)
              else o.Failed? && fates == old(fates)
    {
      var current := Content(world.files, f);
      conflict := false;
      if !Readable(current, MAX_CONFIG_BYTES) {
        return Failed, false;
      }
      o := Ok;
      if DigestOf(current) == Some(activated) {
        OneAttempt(fates, 1);
        o := Apply(world.(files := WithContent(world.files, f, original)));
      } else if DigestOf(current) != DigestOf(original) {
        conflict := true;
      }
      assert o.Ok? && DigestOf(current) != Some(activated) ==> WithContent(world.files, f, current) == world.files;
    }

    // A bootstrapped file: remove it if it still holds the activated bytes.
    method RollBackBootstrap(f: File, expected: Digest, ghost p: Plan) returns (o: Outcome, conflict: bool)
      requires Complete(p) && f in BootstrapDigests(p) && expected == Digest(p.candidate[f])
      modifies this
      ensures o.Ok? && !conflict ==>
                world == old(world).(files := WithContent(old(world).files, f,
                  RolledFile(p, f, Content(old(world).files, f))))
      ensures !o.Ok? || conflict ==> world == old(world)
      ensures o.Ok? && FileConflicts(p, f, Content(old(world).files, f)) ==> conflict
      ensures f == Plugins ==> !o.Failed?
      ensures Removed(p, f, Content(old(world).files, f), old(fates), fates, o, conflict)
      ensures old(Calm()) ==> Calm() && o.Ok? && (conflict <==> FileConflicts(p, f, Content(old(world).files, f)))
    {
      var observed := Content(world.files, f);
      o, conflict := Ok, false;
      if f == Plugins && observed.None? {
        conflict := true;
        return;
      }
      var n := RemovalSteps(p, f, observed);
      if f == Accounts || f == Plugins {
        OneAttempt(fates, n);
        o := Apply(world);
        if o.Failed? {
          o, conflict := Ok, true;
          return;
        }
        if o.Crashed? {
          return;
        }
      }
      assert WithContent(world.files, f, observed) == world.files;
      if observed.None? {
        return;
      }
      if !Readable(observed, MAX_CONFIG_BYTES) || DigestOf(observed) != Some(expected) {
        conflict := true;
        return;
      }
      OneAttempt(fates, 1);
      o := Apply(world.(files := WithContent(world.files, f, None)));
      if o.Failed? && f == Plugins {
        o, conflict := Ok, true;
      }
    }

    method RollBackStack(manifest: Manifest, original: Stack, ghost p: Plan) returns (o: Outcome, conflict: bool)
      requires Complete(p) && ManifestFits(p, manifest) && original == p.priorStack && Loadable(original)
      modifies this
      ensures o.Ok? && !conflict ==>
        world == old(world).(stack := RolledStack(p, manifest.activationStates, old(world).stack))
      ensures !o.Ok? || conflict ==> world == old(world)
      ensures o.Ok? && StackConflicts(p, manifest.activationStates, old(world).stack) ==> conflict
      ensures o.Ok? ==> StackReads(old(world).stack)
      ensures old(Calm()) ==> Calm() && !o.Crashed? && (o.Ok? <==> StackReads(old(world).stack))
      ensures old(Calm()) && o.Ok? ==>
        (conflict <==> StackConflicts(p, manifest.activationStates, old(world).stack))
      ensures var states, stack := manifest.activationStates, old(world).stack;
              var n := if stack != p.priorStack && DigestsOf(stack) in states then 1 else 0;
              if !StackReads(stack) then o.Failed? && fates == old(fates)
              else
                && fates == Behind(old(fates), n)
                && match Attempt(old(fates), n)
                   case Ok => o.Ok? && (conflict <==> StackConflicts(p, states, stack))
                   case Crashed => o.Crashed?
                   case Failed => o.Ok? && conflict
    {
      var current := DigestsOf(world.stack);
      o, conflict := Ok, false;
      if !StackReads(world.stack) {
        return Failed, false;
      }
      if world.stack.model.Some? && !Loadable(world.stack) {
        conflict := true;
      } else if current != manifest.priorState {
        if current !in manifest.activationStates {
          conflict := true;
        } else if current.model.None? {
          conflict := true;
        } else {
          OneAttempt(fates, 1);
          o := Apply(world.(stack := original));
          if o.Failed? {
            o, conflict := Ok, true;
          }
        }
      } else {
        DigestsAreInjective(world.stack, p.priorStack);
      }
    }

    // Entry i of the bootstrap list, if it was bootstrapped.
    method RollBackNext(i: nat, bootstrap: map<File, Digest>, ghost p: Plan)
      returns (o: Outcome, conflicts: seq<Conflict>)
      requires Complete(p) && bootstrap == BootstrapDigests(p) && i < BOOTSTRAP_FILES
      modifies this
      ensures world == old(world).(files := world.files)
      ensures !o.Ok? ==> world == old(world)
      ensures forall f :: f !in bootstrap || Rank(f) != i ==> Content(world.files, f) == Content(old(world).files, f)
      ensures forall f :: RolledOrNot(p, f, old(world).files, world.files)
      ensures forall c :: c in conflicts ==> c.FileConflict? && c.file in bootstrap && Rank(c.file) == i
      ensures o.Ok? ==> forall f :: f in bootstrap && Rank(f) == i ==>
        Settled(p, f, old(world).files, world.files, conflicts)
      ensures old(Calm()) ==> Calm() && o.Ok? && forall c :: c in conflicts ==>
        FileConflicts(p, c.file, Content(old(world).files, c.file))
    {
      var f := BootstrapFile(i);
      RankOfPlace(i);
      o, conflicts := Ok, [];
      if f in bootstrap {
        var conflict;
        o, conflict := RollBackBootstrap(f, bootstrap[f], p);
        if conflict {
          conflicts := [FileConflict(f)];
        }
      }
    }

    // Every file the bootstrap list names, last first.
    method RollBackAllBootstrap(bootstrap: map<File, Digest>, ghost p: Plan)
      returns (o: Outcome, conflicts: seq<Conflict>)
      requires Complete(p) && bootstrap == BootstrapDigests(p)
      modifies this
      ensures world == old(world).(files := world.files)
      ensures forall f :: f !in bootstrap ==> Content(world.files, f) == Content(old(world).files, f)
      ensures forall f :: RolledOrNot(p, f, old(world).files, world.files)
      ensures forall c :: c in conflicts ==> c.FileConflict? && c.file in bootstrap
      ensures o.Ok? ==> forall f :: f in bootstrap ==> Settled(p, f, old(world).files, world.files, conflicts)
      ensures old(Calm()) ==> Calm() && o.Ok? && forall c :: c in conflicts ==>
        FileConflicts(p, c.file, Content(old(world).files, c.file))
    {
      o, conflicts := Ok, [];
      for i := BOOTSTRAP_FILES downto 0
        invariant o.Ok? && world == old(world).(files := world.files)
        invariant forall f :: f !in bootstrap || Rank(f) < i ==> Content(world.files, f) == Content(old(world).files, f)
        invariant forall f :: RolledOrNot(p, f, old(world).files, world.files)
        invariant forall c :: c in conflicts ==> c.FileConflict? && c.file in bootstrap && Rank(c.file) >= i
        invariant forall f :: f in bootstrap && Rank(f) >= i ==> Settled(p, f, old(world).files, world.files, conflicts)
        invariant old(Calm()) ==> Calm() && forall c :: c in conflicts ==>
          FileConflicts(p, c.file, Content(old(world).files, c.file))
      {
        ghost var before := world.files;
        var more;
        o, more := RollBackNext(i, bootstrap, p);
        if !o.Ok? {
          return;
        }
        forall f | f in bootstrap && Rank(f) >= i
          ensures Settled(p, f, old(world).files, world.files, conflicts + more)
          ensures RolledOrNot(p, f, old(world).files, world.files)
        {
          assert Rank(f) > i ==> Settled(p, f, old(world).files, before, conflicts);
        }
        conflicts := conflicts + more;
      }
    }

    // The policy and the projects file, as far as the manifest manages them.
    method RollBackDocuments(journal: Journal, manifest: Manifest, ghost p: Plan)
      returns (o: Outcome, conflicts: seq<Conflict>)
      requires Complete(p) && SnapshotsTaken(p, journal) && ManifestFits(p, manifest)
      modifies this
      ensures world == old(world).(files := world.files)
      ensures forall f :: f != Policy && f != Projects ==> Content(world.files, f) == Content(old(world).files, f)
      ensures RolledOrNot(p, Policy, old(world).files, world.files) &&
        RolledOrNot(p, Projects, old(world).files, world.files)
      ensures forall c :: c in conflicts ==> c == FileConflict(Policy) || c == FileConflict(Projects)
      ensures o.Ok? ==> Settled(p, Policy, old(world).files, world.files, conflicts)
      ensures o.Ok? ==> Settled(p, Projects, old(world).files, world.files, conflicts)
      ensures forall c :: c in conflicts ==> FileConflicts(p, c.file, Content(old(world).files, c.file))
      ensures o.Ok? ==> Documents(old(world).files)
      ensures old(Calm()) ==> Calm() && !o.Crashed? && (o.Ok? <==> Documents(old(world).files))
    {
      o, conflicts := Ok, [];
      var conflict;
      if manifest.policy.Some? {
        var original := if manifest.policy.value.priorPresent then Some(journal.entries[Data(PolicySnap)]) else None;
        o, conflict := RollBackManaged(Policy, original, manifest.policy.value.activated, p);
        if !o.Ok? {
          return;
        }
        if conflict {
          conflicts := [FileConflict(Policy)];
        }
      }
      if manifest.projects.Some? {
        var original := if manifest.projects.value.priorPresent then Some(journal.entries[Data(ProjectsSnap)])
          else None;
        o, conflict := RollBackManaged(Projects, original, manifest.projects.value.activated, p);
        if !o.Ok? {
          return;
        }
        if conflict {
          conflicts := conflicts + [FileConflict(Projects)];
        }
      }
    }

    // The pass over the stack files, the policy, the projects and the bootstrap files.
    method RollBackFiles(journal: Journal, manifest: Manifest, ghost p: Plan)
      returns (o: Outcome, conflicts: seq<Conflict>)
      requires Complete(p) && SnapshotsTaken(p, journal) && ManifestFits(p, manifest)
      modifies this
      ensures world.journal == old(world).journal
      ensures forall f :: RolledOrNot(p, f, old(world).files, world.files)
      ensures world.stack == old(world).stack ||
        world.stack == RolledStack(p, manifest.activationStates, old(world).stack)
      ensures o.Ok? ==> AllSettled(p, manifest, old(world), world, conflicts) && Passable(old(world))
      ensures !Passable(old(world)) ==> Untouched(p, old(world).files, world.files)
      ensures old(Calm()) ==> Calm() && !o.Crashed? && (o.Ok? <==> Passable(old(world)))
      ensures old(Calm()) && o.Ok? ==> AllReal(p, manifest, old(world), conflicts)
      ensures old(Calm()) && StackReads(old(world).stack) ==>
        world.stack == RolledStack(p, manifest.activationStates, old(world).stack)
    {
      var original := Stack(
        if manifest.priorModelPresent then Some(journal.entries[Data(ModelSnap)]) else None,
        if manifest.priorBindingPresent then Some(journal.entries[Data(BindingSnap)]) else None);
      ghost var files := world.files;
      var conflict, documents, more;
      conflicts := [];
      o, conflict := RollBackStack(manifest, original, p);
      if !o.Ok? {
        return;
      }
      o, documents := RollBackDocuments(journal, manifest, p);
      if !o.Ok? {
        return;
      }
      ghost var middle := world.files;
      o, more := RollBackAllBootstrap(manifest.bootstrap, p);
      conflicts := (if conflict then [StackConflict] else []) + documents + more;
      PassesCompose(p, files, middle, world.files, documents, more, conflicts, o.Ok?);
    }

    /** rollback.  Every file is untouched or rolled back, whatever interrupts it;
        if it gets to the end, what holds prior or activated bytes holds its prior
        bytes and everything else is untouched and reported; without interference
        it reports nothing but conflicts and succeeds exactly when there are none.
     */
    method RollBack(ghost p: Plan) returns (o: Outcome, conflicts: seq<Conflict>)
      requires world.journal.Some? ==> Faithful(p, world.journal.value)
      requires Complete(p)
      modifies this
      ensures world.journal.Some? ==> Faithful(p, world.journal.value)
      ensures Undoes(p, old(world), world)
      ensures Unfinished(old(world)) ==>
                var m := old(world).journal.value.manifest.value;
                && (o.Ok? || conflicts != [] ==> AllSettled(p, m, old(world), world, conflicts))
                && (old(Calm()) ==> AllReal(p, m, old(world), conflicts))
                && (old(Calm()) ==> (AllSettled(p, m, old(world), world, conflicts) <==> Passable(old(world))))
                && (old(Calm()) && StackReads(old(world).stack) ==>
                      world.stack == RolledStack(p, m.activationStates, old(world).stack))
      ensures conflicts != [] ==>
        o.Failed? && Unfinished(old(world)) && world.journal == Some(Noted(old(world).journal.value, conflicts))
      ensures conflicts == [] && Unfinished(world) ==> world.journal == old(world).journal
      ensures Unfinished(old(world)) && !Unfinished(world) && world.journal.Some? ==>
        RolledBackOnly(world.journal.value)
      ensures o.Ok? ==> world.journal.None?
      ensures Unfinished(old(world)) && !Passable(old(world)) ==>
        !o.Ok? && conflicts == [] && world.journal == old(world).journal
        && Untouched(p, old(world).files, world.files)
      ensures old(Calm()) ==> Calm() && !o.Crashed?
      ensures old(Calm()) && (Unfinished(old(world)) ==> Passable(old(world))) ==> (o.Ok? <==> conflicts == [])
    {
      conflicts := [];
      if world.journal.None? {
        return Ok, [];
      }
      var journal := world.journal.value;
      if Spent(journal) {
        o := RemoveJournal();
        return;
      }
      var manifest := journal.manifest.value;
      o, conflicts := RollBackFiles(journal, manifest, p);
      if !o.Ok? {
        conflicts := [];
        if !Passable(old(world)) {
          UnreadIsUnsettled(p, journal, old(world), world);
        }
        return;
      }
      var phase := if conflicts != [] then RollbackConflict else RolledBack;
      var next := manifest.(conflicts := conflicts, phase := phase);
      o := Apply(world.(journal := Some(journal.(manifest := Some(next)))));
      if !o.Ok? {
        conflicts := [];
        return;
      }
      if conflicts != [] {
        return Failed, conflicts;
      }
      o := RemoveJournal();
    }

    // finalize: nothing is rolled back any more once this is journalled.
    method FinalizeInstall() returns (o: Outcome)
      modifies this
      ensures world.files == old(world).files && world.stack == old(world).stack
      ensures o.Ok? ==> world.journal.None?
      ensures o.Ok? && old(world).journal.Some? ==>
                old(world).journal.value.manifest.Some? && old(world).journal.value.manifest.value.phase.Committed?
      ensures world == old(world) || (world.journal.Some? ==> Spent(world.journal.value))
      ensures !Finalizable(old(world)) ==> world == old(world) && (o.Ok? <==> world.journal.None?)
      ensures old(Calm()) ==> Calm() && !o.Crashed? && (Finalizable(old(world)) ==> o.Ok?)
    {
      if world.journal.None? {
        return Ok;
      }
      var journal := world.journal.value;
      if journal.manifest.None? || !journal.manifest.value.phase.Committed? {
        return Failed;
      }
      o := Apply(world.(journal := Some(journal.(manifest := Some(journal.manifest.value.(phase := Finalized))))));
      if o.Ok? {
        o := RemoveJournal();
      }
    }

    // ---------------------------------------------------------------- activation

    // Where an activation of plan p can be interrupted.
    ghost predicate Interrupted(p: Plan)
      reads this
    {
      && Complete(p)
      && (world.journal.Some? ==> Faithful(p, world.journal.value))
      && (if world.journal.None? || world.journal.value.manifest.None? then
            world.files == p.priorFiles && world.stack == p.priorStack
          else
            var m := world.journal.value.manifest.value;
            && !Terminal(m.phase) && m.conflicts == []
            && Reachable(p, world.files)
            && (world.stack == p.priorStack || DigestsOf(world.stack) in m.activationStates))
    }

    ghost predicate Fresh()
      reads this
    {
      world.journal.Some? && world.journal.value.manifest.None?
    }

    // One write to the journal directory, before there is a manifest.
    method PutEntry(e: Entry, c: Option<Payload>) returns (o: Outcome)
      requires Fresh()
      modifies this
      ensures Fresh() && world.files == old(world).files && world.stack == old(world).stack
      ensures forall d :: d != e ==> (d in world.journal.value.entries <==> d in old(world).journal.value.entries)
      ensures forall d :: d != e && d in world.journal.value.entries ==>
                            world.journal.value.entries[d] == old(world).journal.value.entries[d]
      ensures o.Ok? && c.Some? ==> e in world.journal.value.entries && world.journal.value.entries[e] == c.value
      ensures o == Head(old(fates)) && fates == Tail(old(fates))
    {
      var j := world.journal.value;
      o := Apply(world.(journal := Some(j.(entries := if c.Some? then j.entries[e := c.value] else j.entries - {e}))));
    }

    // Leftovers of an earlier interrupted activation are dropped first.
    method Snapshot(snap: Snap, c: Option<Payload>, limit: nat) returns (o: Outcome)
      requires Fresh()
      modifies this
      ensures Fresh() && world.files == old(world).files && world.stack == old(world).stack
      ensures o.Ok? ==> Taken(world.journal.value, snap, c) && Readable(c, limit)
      ensures forall s, d :: s != snap && Taken(old(world).journal.value, s, d) ==> Taken(world.journal.value, s, d)
      ensures old(Calm()) ==> Calm() && !o.Crashed? && (o.Ok? <==> Readable(c, limit))
      ensures Readable(c, limit) && Proceeds(old(fates), SnapshotSteps(c)) ==>
        o.Ok? && fates == After(old(fates), SnapshotSteps(c))
      ensures var n := if Readable(c, limit) then SnapshotSteps(c) else 3;
              && fates == Behind(old(fates), n)
              && o == if Attempt(old(fates), n).Ok? && !Readable(c, limit) then Failed else Attempt(old(fates), n)
    {
      StepsOneByOne(fates);
      ghost var n := if Readable(c, limit) then SnapshotSteps(c) else 3;
      OneAttempt(fates, n);
      OneAttempt(Tail(fates), n - 1);
      OneAttempt(Tail(Tail(fates)), n - 2);
      OneAttempt(Tail(Tail(Tail(fates))), 2);
      OneAttempt(Tail(Tail(Tail(fates))), 1);
      OneAttempt(Tail(Tail(Tail(Tail(fates)))), 1);
      o := PutEntry(Data(snap), None);
      if !o.Ok? {
        return;
      }
      o := PutEntry(Present(snap), None);
      if !o.Ok? {
        return;
      }
      o := PutEntry(Absent(snap), None);
      if !o.Ok? {
        return;
      }
      if c.None? {
        o := PutEntry(Absent(snap), Some(NOTHING));
        return;
      }
      if !Readable(c, limit) {
        return Failed;
      }
      o := PutEntry(Data(snap), c);
      if !o.Ok? {
        return;
      }
      o := PutEntry(Present(snap), Some(NOTHING));
    }

    method TakeSnapshots(ghost p: Plan) returns (o: Outcome)
      requires Fresh() && world.files == p.priorFiles && world.stack == p.priorStack && Loadable(p.priorStack)
      modifies this
      ensures Fresh() && world.files == p.priorFiles && world.stack == p.priorStack
      ensures o.Ok? ==> SnapshotsTaken(p, world.journal.value)
      ensures old(Calm()) ==> Calm() && !o.Crashed? && (o.Ok? <==> Documents(p.priorFiles))
      ensures Documents(p.priorFiles) && Proceeds(old(fates), SnapshotsSteps(p)) ==>
        o.Ok? && fates == After(old(fates), SnapshotsSteps(p))
    {
      ghost var model, binding := SnapshotSteps(world.stack.model), SnapshotSteps(world.stack.binding);
      ghost var policy, projects := SnapshotSteps(Content(world.files, Policy)),
        SnapshotSteps(Content(world.files, Projects));
      ProceedsInParts(fates, model, binding + policy + projects);
      ProceedsInParts(After(fates, model), binding, policy + projects);
      ProceedsInParts(After(After(fates, model), binding), policy, projects);
      o := Snapshot(ModelSnap, world.stack.model, MAX_CONFIG_BYTES);
      if !o.Ok? {
        return;
      }
      o := Snapshot(BindingSnap, world.stack.binding, MAX_BINDING_BYTES);
      if !o.Ok? {
        return;
      }
      o := Snapshot(PolicySnap, Content(world.files, Policy), MAX_CONFIG_BYTES);
      if !o.Ok? {
        return;
      }
      o := Snapshot(ProjectsSnap, Content(world.files, Projects), MAX_CONFIG_BYTES);
    }

    ghost predicate Installing(p: Plan)
      reads this
    {
      Interrupted(p) && world.journal.Some? && world.journal.value.manifest.Some?
    }

    // Writes one managed file.
    method Install(f: File, candidate: Files, ghost p: Plan) returns (o: Outcome)
      requires Installing(p) && Installs(p, f) && p.candidate == candidate
      modifies this
      ensures Installing(p) && world.journal == old(world).journal && world.stack == old(world).stack
      ensures world.files == if o.Ok? then old(world).files[f := candidate[f]] else old(world).files
      ensures o == Head(old(fates)) && fates == Tail(old(fates))
    {
      o := Apply(world.(files := world.files[f := candidate[f]]));
    }

    method InstallNext(i: nat, candidate: Files, bootstrap: map<File, Digest>, ghost p: Plan) returns (o: Outcome)
      requires Installing(p) && p.candidate == candidate && bootstrap == BootstrapDigests(p)
      requires i < BOOTSTRAP_FILES && BootstrappedUpTo(i, p, world.files)
      modifies this
      ensures Installing(p) && world.journal == old(world).journal && world.stack == old(world).stack
      ensures o.Ok? ==> BootstrappedUpTo(i + 1, p, world.files)
      ensures Head(old(fates)).Crashed? ==> world == old(world) && (o.Crashed? || (o.Ok? && fates == old(fates)))
      ensures old(Calm()) ==> Calm() && o.Ok?
    {
      var f := BootstrapFile(i);
      BootstrapNext(i, f, p, world.files);
      o := Ok;
      if f in bootstrap {
        if f in world.files {
          return Failed;
        }
        o := Install(f, candidate, p);
      }
    }

    method InstallBootstrap(candidate: Files, bootstrap: map<File, Digest>, ghost p: Plan) returns (o: Outcome)
      requires Installing(p) && p.candidate == candidate && bootstrap == BootstrapDigests(p)
      requires world.files == p.priorFiles
      modifies this
      ensures Installing(p) && world.journal == old(world).journal && world.stack == old(world).stack
      ensures o.Ok? ==> BootstrappedUpTo(BOOTSTRAP_FILES, p, world.files)
      ensures Head(old(fates)).Crashed? ==> world == old(world) && (o.Crashed? || (o.Ok? && fates == old(fates)))
      ensures old(Calm()) ==> Calm() && o.Ok?
    {
      o := Ok;
      for i := 0 to BOOTSTRAP_FILES
        invariant o.Ok? && Installing(p) && world.journal == old(world).journal && world.stack == old(world).stack
        invariant BootstrappedUpTo(i, p, world.files)
        invariant Head(old(fates)).Crashed? ==> world == old(world) && fates == old(fates)
        invariant old(Calm()) ==> Calm()
      {
        o := InstallNext(i, candidate, bootstrap, p);
        if !o.Ok? {
          return;
        }
      }
    }

    method InstallFiles(candidate: Files, bootstrap: map<File, Digest>, ghost p: Plan) returns (o: Outcome)
      requires Installing(p) && p.candidate == candidate && bootstrap == BootstrapDigests(p)
      requires world.files == p.priorFiles
      modifies this
      ensures Installing(p) && world.journal == old(world).journal && world.stack == old(world).stack
      ensures o.Ok? ==> Activated(p, world.files)
      ensures Head(old(fates)).Crashed? ==> world == old(world) && o.Crashed?
      ensures old(Calm()) ==> Calm() && o.Ok?
    {
      o := InstallBootstrap(candidate, bootstrap, p);
      if !o.Ok? {
        return;
      }
      ghost var middle := world.files;
      o := Install(Policy, candidate, p);
      if !o.Ok? {
        return;
      }
      o := Install(Projects, candidate, p);
      if o.Ok? {
        AllInstalled(p, middle);
      }
    }

    method SetManifest(manifest: Manifest, ghost p: Plan) returns (o: Outcome)
      requires Installing(p) && ManifestFits(p, manifest) && !Terminal(manifest.phase) && manifest.conflicts == []
      requires world.stack == p.priorStack || DigestsOf(world.stack) in manifest.activationStates
      modifies this
      ensures Installing(p) && world.files == old(world).files && world.stack == old(world).stack
      ensures o.Ok? ==> world.journal.value.manifest == Some(manifest)
      ensures !o.Ok? ==> world == old(world)
      ensures o == Head(old(fates)) && fates == Tail(old(fates))
    {
      o := Apply(world.(journal := Some(world.journal.value.(manifest := Some(manifest)))));
    }

    method SetStack(stack: Stack, ghost p: Plan) returns (o: Outcome)
      requires Installing(p) && DigestsOf(stack) in world.journal.value.manifest.value.activationStates
      modifies this
      ensures Installing(p) && world.files == old(world).files && world.journal == old(world).journal
      ensures world.stack == if o.Ok? then stack else old(world).stack
      ensures o == Head(old(fates)) && fates == Tail(old(fates))
    {
      o := Apply(world.(stack := stack));
    }

    // Only a complete installation is journalled as committed.
    ghost predicate CommittedOnlyComplete(p: Plan, planned: Stack)
      reads this
    {
      Finalizable(world) ==> Complete(p) && world.stack == planned && Activated(p, world.files)
    }

    // The stack files: the initial model if there was none, then the planned state.
    method InstallStack(initialModel: Payload, planned: Stack, verdict: Verdict, ghost p: Plan) returns (o: Outcome)
      requires Installing(p) && planned.model.Some? && Loadable(planned) && world.stack == p.priorStack
      requires Activated(p, world.files) && !Finalizable(world)
      requires p.priorStack.model.None? ==>
                 DigestsOf(Stack(Some(initialModel), p.priorStack.binding))
                 in world.journal.value.manifest.value.activationStates
      modifies this
      ensures Installing(p) && world.files == old(world).files && CommittedOnlyComplete(p, planned)
      ensures o.Ok? ==> world.stack == planned && world.journal.value.manifest.value.phase.Committed?
      ensures old(Calm()) ==> Calm() && !o.Crashed? && (o.Ok? <==> verdict.plannable && verdict.valid)
      ensures var first := if old(world).stack.model.None? then 1 else 0;
              var n := if verdict.plannable then first + 3 else first;
              var all := Attempt(old(fates), n);
              && fates == Behind(old(fates), n)
              && o == if all.Ok? && !(verdict.plannable && verdict.valid) then Failed else all
    {
      ghost var first := if world.stack.model.None? then 1 else 0;
      OneAttempt(fates, if verdict.plannable then first + 3 else 1);
      if world.stack.model.None? {
        o := SetStack(Stack(Some(initialModel), world.stack.binding), p);
        if !o.Ok? {
          return;
        }
      }
      if !verdict.plannable {
        return Failed;
      }
      o := SaveStack(planned, p);
      if o.Ok? && !verdict.valid {
        o := Failed;
      }
    }

    method SaveStack(planned: Stack, ghost p: Plan) returns (o: Outcome)
      requires Installing(p) && planned.model.Some? && Loadable(planned)
      requires Activated(p, world.files) && !Finalizable(world)
      modifies this
      ensures Installing(p) && world.files == old(world).files && CommittedOnlyComplete(p, planned)
      ensures o.Ok? ==> world.stack == planned && world.journal.value.manifest.value.phase.Committed?
      ensures o == Attempt(old(fates), 3) && fates == Behind(old(fates), 3)
      ensures old(Calm()) ==> Calm() && o.Ok?
    {
      OneAttempt(fates, 3);
      OneAttempt(Tail(fates), 2);
      OneAttempt(Tail(Tail(fates)), 1);
      var manifest := world.journal.value.manifest.value;
      if DigestsOf(planned) !in manifest.activationStates {
        manifest := manifest.(activationStates := manifest.activationStates + [DigestsOf(planned)]);
      }
      o := SetManifest(manifest.(phase := Saving), p);
      if !o.Ok? {
        return;
      }
      o := SetStack(planned, p);
      if !o.Ok? {
        return;
      }
      o := SetManifest(manifest.(phase := Committed), p);
    }

    // The snapshots and then the manifest: from then on rollback has work to do.
    method Announce(candidate: Files, initialModel: Payload) returns (o: Outcome)
      requires Complete(Plan(world.files, world.stack, candidate)) && Fits(initialModel, MAX_CONFIG_BYTES)
      requires world.journal.Some? ==> world.journal.value.manifest.None?
      modifies this
      ensures var p := Plan(old(world).files, old(world).stack, candidate);
              && Interrupted(p) && world.files == p.priorFiles && world.stack == p.priorStack
              && !Finalizable(world)
              && (o.Ok? ==> Installing(p) && (world.stack.model.None? ==> Initial(initialModel) in States()))
              && (old(world).journal.None? && Startable(p) && Proceeds(old(fates), AnnounceSteps(p)) ==>
                    o.Ok? && fates == After(old(fates), AnnounceSteps(p)))
              && (old(world).journal.Some? && Startable(p) && Proceeds(old(fates), SnapshotsSteps(p) + 1) ==>
                    o.Ok? && fates == After(old(fates), SnapshotsSteps(p) + 1))
              && (old(Calm()) ==> Calm() && !o.Crashed? && (o.Ok? <==> Startable(p)))
    {
      ghost var p := Plan(world.files, world.stack, candidate);
      ProceedsInParts(fates, 1, SnapshotsSteps(p) + 1);
      ProceedsInParts(After(fates, 1), SnapshotsSteps(p), 1);
      ProceedsInParts(fates, SnapshotsSteps(p), 1);
      if world.journal.None? {
        o := Apply(world.(journal := Some(Journal(map[], None))));
        if !o.Ok? {
          return;
        }
      }
      if !Loadable(world.stack) {
        return Failed;
      }
      o := TakeSnapshots(p);
      if !o.Ok? {
        return;
      }
      o := WriteManifest(candidate, initialModel, p);
    }

    ghost function Initial(model: Payload): StackDigests
      reads this
    {
      DigestsOf(Stack(Some(model), world.stack.binding))
    }

    ghost function States(): seq<StackDigests>
      requires world.journal.Some? && world.journal.value.manifest.Some?
      reads this
    {
      world.journal.value.manifest.value.activationStates
    }

    method WriteManifest(candidate: Files, initialModel: Payload, ghost p: Plan) returns (o: Outcome)
      requires p == Plan(world.files, world.stack, candidate) && Complete(p) && Fits(initialModel, MAX_CONFIG_BYTES)
      requires Fresh() && SnapshotsTaken(p, world.journal.value)
      modifies this
      ensures Interrupted(p) && world.files == p.priorFiles && world.stack == p.priorStack && !Finalizable(world)
      ensures o.Ok? ==> Installing(p) && (world.stack.model.None? ==> Initial(initialModel) in States())
      ensures o == Head(old(fates)) && fates == Tail(old(fates))
    {
      var bootstrap := map f | f in candidate && f != Policy && f != Projects && f !in world.files ::
        Digest(candidate[f]);
      assert bootstrap == BootstrapDigests(p);
      var states := if world.stack.model.None? then [DigestsOf(Stack(Some(initialModel), world.stack.binding))] else [];
      var manifest := Manifest(Prepared, world.stack.model.Some?, world.stack.binding.Some?,
        Some(Managed(Policy in world.files, Digest(candidate[Policy]))),
        Some(Managed(Projects in world.files, Digest(candidate[Projects]))),
        DigestsOf(world.stack), bootstrap, states, []);
      o := Apply(world.(journal := Some(world.journal.value.(manifest := Some(manifest)))));
    }

    /** activate: snapshots, then a manifest, then the files, each step journalled
        so that an interruption anywhere leaves something rollback can undo.
     */
    method Activate(candidate: Files, initialModel: Payload, planned: Stack, verdict: Verdict) returns (o: Outcome)
      requires Staged(candidate, initialModel, planned)
      modifies this
      ensures var p := Plan(old(world).files, old(world).stack, candidate);
              if old(world).journal.Some? && old(world).journal.value.manifest.Some? then
                o.Failed? && world == old(world)
              else
                && Interrupted(p) && CommittedOnlyComplete(p, planned)
                && (o.Ok? ==>
                      Installing(p) && Finalizable(world) && world.stack == planned && Activated(p, world.files))
      ensures var p := Plan(old(world).files, old(world).stack, candidate);
              old(world).journal.None? && Startable(p) && CutAt(old(fates), AnnounceSteps(p)) ==>
                o.Crashed? && Installing(p) && world.files == p.priorFiles && world.stack == p.priorStack
      ensures old(Calm()) ==> Calm() && !o.Crashed?
      ensures old(Calm()) && (old(world).journal.Some? ==> old(world).journal.value.manifest.None?) ==>
                (o.Ok? <==>
                  Startable(Plan(old(world).files, old(world).stack, candidate)) && verdict.plannable && verdict.valid)
    {
      ghost var p := Plan(world.files, world.stack, candidate);
      if world.journal.Some? && world.journal.value.manifest.Some? {
        return Failed;
      }
      o := Announce(candidate, initialModel);
      if !o.Ok? {
        return;
      }
      o := InstallAll(candidate, initialModel, planned, verdict, p);
    }

    // The files and then the stack, under the manifest.
    method InstallAll(candidate: Files, initialModel: Payload, planned: Stack, verdict: Verdict, ghost p: Plan)
      returns (o: Outcome)
      requires Installing(p) && p == Plan(world.files, world.stack, candidate) && !Finalizable(world)
      requires planned.model.Some? && Loadable(planned)
      requires world.stack.model.None? ==> Initial(initialModel) in States()
      modifies this
      ensures Installing(p) && CommittedOnlyComplete(p, planned)
      ensures o.Ok? ==> Finalizable(world) && world.stack == planned && Activated(p, world.files)
      ensures Head(old(fates)).Crashed? ==> o.Crashed? && world == old(world)
      ensures old(Calm()) ==> Calm() && !o.Crashed? && (o.Ok? <==> verdict.plannable && verdict.valid)
    {
      var bootstrap := map f | f in candidate && f != Policy && f != Projects && f !in world.files ::
        Digest(candidate[f]);
      assert bootstrap == BootstrapDigests(p);
      o := InstallFiles(candidate, bootstrap, p);
      if !o.Ok? {
        return;
      }
      o := InstallStack(initialModel, planned, verdict, p);
    }

    /** An activation interrupted anywhere, then any number of rollbacks, each
        interrupted anywhere, and then one in peace, restore every file and the
        stack.  The last one also removes the journal, unless plugins.json was to be
        bootstrapped and is not there: then it reports that, however often it runs.
     */
    method ActivateThenRollBacks(candidate: Files, initialModel: Payload, planned: Stack, verdict: Verdict,
                                scripts: seq<seq<Fate>>)
      returns (o: Outcome, conflicts: seq<Conflict>)
      requires Staged(candidate, initialModel, planned) && world.journal.None?
      modifies this
      ensures SameFiles(world.files, old(world).files) && world.stack == old(world).stack
      ensures o.Ok? <==> world.journal.None?
      ensures conflicts != [] ==>
        Plugins !in old(world).files && forall c :: c in conflicts ==> c == FileConflict(Plugins)
      ensures o.Ok? <==> conflicts == []
    {
      ghost var p := Plan(world.files, world.stack, candidate);
      ghost var base, stack := world.files, world.stack;
      o := Activate(candidate, initialModel, planned, verdict);
      InterruptedIsSteady(p, world);
      for i := 0 to |scripts|
        invariant Complete(p) && Steady(p, world, base, stack) && InOneOfTwo(p, world)
      {
        fates := scripts[i];
        ghost var before := world;
        o, conflicts := RollBack(p);
        RollBackIsSteady(p, before, world, base, stack);
      }
      fates := [];
      ghost var before := world;
      o, conflicts := RollBack(p);
      RollBackIsSteady(p, before, world, base, stack);
      if Unfinished(before) {
        OnlyPluginsConflict(p, before, world, conflicts);
      }
    }

    /** An activation that dies right after its manifest, then a rollback in peace:
        exactly if plugins.json was absent, the rollback reports it as a conflict.
     */
    method CutAfterManifest(candidate: Files, initialModel: Payload, planned: Stack, verdict: Verdict)
      returns (o: Outcome, conflicts: seq<Conflict>)
      requires Staged(candidate, initialModel, planned) && world.journal.None?
      requires Startable(Plan(world.files, world.stack, candidate))
      requires CutAt(fates, AnnounceSteps(Plan(world.files, world.stack, candidate)))
      modifies this
      ensures SameFiles(world.files, old(world).files) && world.stack == old(world).stack
      ensures FileConflict(Plugins) in conflicts <==> Plugins !in old(world).files
      ensures forall c :: c in conflicts ==> c == FileConflict(Plugins)
      ensures o.Ok? <==> Plugins in old(world).files
    {
      ghost var p := Plan(world.files, world.stack, candidate);
      o := Activate(candidate, initialModel, planned, verdict);
      fates := [];
      ghost var before := world;
      o, conflicts := RollBack(p);
      OnlyPluginsConflict(p, before, world, conflicts);
    }

    // Activated, but for the stack, which may be back, and a file that cannot be read.
    ghost predicate StuckAs(p: Plan, edited: World, f: File)
      requires Complete(p)
      reads this
    {
      && world.journal == edited.journal && Untouched(p, edited.files, world.files)
      && Content(world.files, f) == Content(edited.files, f)
      && (world.stack == edited.stack || world.stack == p.priorStack)
    }

    method RollBackStuck(ghost p: Plan, ghost edited: World, f: File) returns (o: Outcome, conflicts: seq<Conflict>)
      requires Unfinished(edited) && Faithful(p, edited.journal.value) && StuckAs(p, edited, f)
      requires f == Policy || f == Projects
      requires !Readable(Content(edited.files, f), MAX_CONFIG_BYTES) && StackReads(edited.stack)
      requires edited.stack == p.priorStack ||
        DigestsOf(edited.stack) in edited.journal.value.manifest.value.activationStates
      modifies this
      ensures StuckAs(p, edited, f) && !o.Ok? && conflicts == []
      ensures old(Calm()) ==> Calm() && o.Failed? && world.stack == p.priorStack
    {
      ghost var before := world;
      o, conflicts := RollBack(p);
      assert RolledOrNot(p, f, before.files, world.files);
    }

    /** An activation in peace, and then an edit of the policy or the projects file to
        something that cannot be read.  Whatever interrupts them, no rollback succeeds
        or lists a conflict; one in peace puts the stack back, but every bootstrapped
        file stays as it was activated.
     */
    method UnreadableEditSticks(candidate: Files, initialModel: Payload, planned: Stack, f: File, c: Payload,
                                scripts: seq<seq<Fate>>)
      returns (o: Outcome, conflicts: seq<Conflict>)
      requires Staged(candidate, initialModel, planned) && world.journal.None? && Calm()
      requires Startable(Plan(world.files, world.stack, candidate))
      requires (f == Policy || f == Projects) && !Readable(Some(c), MAX_CONFIG_BYTES)
      modifies this
      ensures o.Failed? && conflicts == [] && Unfinished(world) && world.journal.value.manifest.value.conflicts == []
      ensures Content(world.files, f) == Some(c) && world.stack == old(world).stack
      ensures forall g :: g != Policy && g != Projects && g !in old(world).files ==>
        Content(world.files, g) == Some(candidate[g])
    {
      ghost var p := Plan(world.files, world.stack, candidate);
      o := Activate(candidate, initialModel, planned, Verdict(true, true));
      world := world.(files := WithContent(world.files, f, Some(c)));
      ghost var edited := world;
      for i := 0 to |scripts|
        invariant StuckAs(p, edited, f)
      {
        fates := scripts[i];
        o, conflicts := RollBackStuck(p, edited, f);
      }
      fates := [];
      o, conflicts := RollBackStuck(p, edited, f);
    }

    /** What finalizing keeps is a complete installation, wherever the activation
        before it stopped.
     */
    method ActivateThenFinalize(candidate: Files, initialModel: Payload, planned: Stack, verdict: Verdict,
                                script: seq<Fate>)
      returns (activated: Outcome, o: Outcome)
      requires Staged(candidate, initialModel, planned) && world.journal.None?
      modifies this
      ensures var p := Plan(old(world).files, old(world).stack, candidate);
              && (world.journal.None? ==>
                    || (world.stack == planned && Activated(p, world.files))
                    || (world.files == p.priorFiles && world.stack == p.priorStack))
              && (activated.Ok? ==> world.stack == planned && Activated(p, world.files))
              && (activated.Ok? && script == [] ==> o.Ok? && world.journal.None?)
    {
      activated := Activate(candidate, initialModel, planned, verdict);
      fates := script;
      o := FinalizeInstall();
    }

    /** Once a rollback has reported a conflict, finalizing fails under every script and
        changes nothing, until a rollback gets through and there is nothing to keep.
     */
    method FinalizeAfterConflict(further: seq<Command>, script: seq<Fate>, ghost p: Plan)
      returns (o: Outcome, ghost before: World)
      requires Conflicted(world) && Faithful(p, world.journal.value)
      requires forall i :: 0 <= i < |further| ==> !further[i].RunActivate?
      modifies this
      ensures world == before && (Conflicted(world) || !Unfinished(world))
      ensures o.Ok? <==> world.journal.None?
    {
      for i := 0 to |further|
        invariant world.journal.Some? ==> Faithful(p, world.journal.value)
        invariant Conflicted(world) || !Unfinished(world)
      {
        match further[i] {
          case RunRollBack(fates') =>
            fates := fates';
            var _, _ := RollBack(p);
          case RunFinalize(fates') =>
            fates := fates';
            var _ := FinalizeInstall();
          case EditFile(f, c) =>
            world := world.(files := WithContent(world.files, f, c));
          case EditStack(s) =>
            world := world.(stack := s);
          case _ =>
        }
      }
      before := world;
      fates := script;
      o := FinalizeInstall();
    }

    // One command of a run, and the plan, base and stack that it leaves.
    method RunOne(command: Command, ghost p: Plan, ghost base: Files, ghost stack: Stack)
      returns (ghost q: Plan, ghost after: Files, ghost stackAfter: Stack)
      requires Complete(p) && Steady(p, world, base, stack)
      modifies this
      ensures Complete(q) && Steady(q, world, after, stackAfter)
      ensures forall f :: Rebases(command, p, Unfinished(old(world)), f, Content(base, f), Content(after, f))
      ensures !command.EditStack? && !command.RunFinalize? ==> stackAfter == stack
      ensures Unfinished(world) ==>
        (q == p && Unfinished(old(world))) || (command.RunActivate? && q.candidate == command.candidate)
    {
      q, after, stackAfter := p, base, stack;
      ghost var before := world;
      match command {
        case RunActivate(candidate, initialModel, planned, verdict, script) =>
          fates := script;
          if Staged(candidate, initialModel, planned) {
            var _ := Activate(candidate, initialModel, planned, verdict);
            if before.journal.None? || before.journal.value.manifest.None? {
              q, after, stackAfter := Plan(before.files, before.stack, candidate), before.files, before.stack;
              InterruptedIsSteady(q, world);
            }
          }
        case RunRollBack(script) =>
          fates := script;
          var o, conflicts := RollBack(p);
          RollBackIsSteady(p, before, world, base, stack);
        case RunFinalize(script) =>
          fates := script;
          var _ := FinalizeInstall();
          if Unfinished(before) && !Unfinished(world) {
            after, stackAfter := world.files, world.stack;
          }
        case EditFile(f, c) =>
          EditIsSteady(p, world, base, stack, f, c);
          world := world.(files := WithContent(world.files, f, c));
          after := WithContent(base, f, if Unfinished(world) then RolledFile(p, f, c) else c);
        case EditStack(s) =>
          world := world.(stack := s);
          stackAfter := if Unfinished(world) then RolledStack(p, world.journal.value.manifest.value.activationStates, s)
            else s;
      }
    }

    /** Any sequence of activations, rollbacks and finalizations, each under its own
        script of errors and crashes, with edits by anybody in between.  What is left
        of a file once nothing is unfinished, and what a rollback will leave of it
        until then, is its base: what it was at the start, what somebody put there
        since, or what was finalized; never what an unfinished activation wrote.
     */
    method Run(commands: seq<Command>) returns (ghost p: Plan, ghost base: Files, ghost stack: Stack)
      requires !Unfinished(world)
      modifies this
      ensures Complete(p) && Steady(p, world, base, stack)
      ensures forall f :: Explains(commands, old(world).files, f, Content(base, f))
      ensures (forall i :: 0 <= i < |commands| ==> !commands[i].EditStack? && !commands[i].RunFinalize?) ==>
        stack == old(world).stack
    {
      p, base, stack := Plan(world.files, world.stack, NoFiles()), world.files, world.stack;
      for i := 0 to |commands|
        invariant Complete(p) && Steady(p, world, base, stack)
        invariant Unfinished(world) ==> Candidate(commands[..i], p.candidate)
        invariant forall f :: Explains(commands[..i], old(world).files, f, Content(base, f))
        invariant (forall k :: 0 <= k < i ==> !commands[k].EditStack? && !commands[k].RunFinalize?) ==>
          stack == old(world).stack
      {
        ghost var q, b, unfinished := p, base, Unfinished(world);
        p, base, stack := RunOne(commands[i], q, b, stack);
        forall f
          ensures Explains(commands[..i + 1], old(world).files, f, Content(base, f))
        {
          ExplainsNext(commands, i, old(world).files, f, q, unfinished, Content(b, f), Content(base, f));
        }
        if Unfinished(world) {
          CandidateStays(commands, i, p.candidate);
        }
      }
      assert commands[..|commands|] == commands;
    }
  }

  lemma OnlyPluginsConflict(p: Plan, before: World, after: World, conflicts: seq<Conflict>)
    requires Complete(p) && before.journal.Some? && before.journal.value.manifest.Some?
    requires Reachable(p, before.files)
    requires before.stack == p.priorStack ||
      DigestsOf(before.stack) in before.journal.value.manifest.value.activationStates
    requires AllSettled(p, before.journal.value.manifest.value, before, after, conflicts)
    requires AllReal(p, before.journal.value.manifest.value, before, conflicts)
    ensures forall f :: Content(after.files, f) == Content(p.priorFiles, f)
    ensures after.stack == p.priorStack
    ensures conflicts != [] <==> Plugins !in p.priorFiles && Plugins !in before.files
    ensures forall c :: c in conflicts ==> c == FileConflict(Plugins)
    ensures FileConflict(Plugins) in conflicts <==> Plugins !in p.priorFiles && Plugins !in before.files
  {
    var m := before.journal.value.manifest.value;
    forall f
      ensures Content(after.files, f) == Content(p.priorFiles, f)
    {
      assert Settled(p, f, before.files, after.files, conflicts);
    }
    if conflicts != [] {
      assert conflicts[0] in conflicts;
    }
    if Plugins !in p.priorFiles && Plugins !in before.files {
      assert Settled(p, Plugins, before.files, after.files, conflicts);
    }
  }
}
