/** The durable replacement of one configuration document
    (integrations/common/project_context.py): a saved original, a pending or
    committed marker, and recovery before the next use.

    Directory operations reach the disk in order but late: a power loss may undo
    any suffix of those performed since the last successful directory sync.  The
    store therefore keeps the trail of disk states a power loss could reveal.
 */
module ContextTransaction {
  import opened Faults
  import opened Options

  const MAX_RECOVERY_BYTES: nat := 2 * 1024 * 1024
  const MAX_MODE: nat := 0x1FF

  type Bytes = seq<char>

  datatype Doc = Doc(bytes: Bytes, mode: nat)

  datatype MarkerState = Pending | Committed

  datatype Marker = Marker(state: MarkerState, originalMode: nat)

  // The document, the transaction marker, and the saved original.
  datatype Disk = Disk(config: Doc, marker: Option<Marker>, original: Option<Bytes>)

  predicate IsPending(d: Disk) {
    d.marker.Some? && d.marker.value.state.Pending?
  }

  /** The document that recovery yields from a disk state. */
  function Recovered(d: Disk): Doc {
    if IsPending(d) && d.original.Some? then Doc(d.original.value, d.marker.value.originalMode)
    else d.config
  }

  // A pending marker implies the saved original, an original without a marker is that
  // of the document in use, and every marker names the mode in use.
  predicate Sound(d: Disk) {
    && (IsPending(d) ==> d.original.Some?)
    && (d.marker.None? && d.original.Some? ==> d.original.value == d.config.bytes)
    && (d.marker.Some? ==> d.marker.value.originalMode == d.config.mode)
  }

  predicate Oversize(original: Option<Bytes>) {
    original.Some? && |original.value| > MAX_RECOVERY_BYTES
  }

  // Recovery raises here, however often it is tried: on a saved original that it reads
  // and cannot, or on a marker that it does not accept.
  predicate Stuck(d: Disk) {
    if d.marker.None? then Oversize(d.original)
    else d.marker.value.originalMode > MAX_MODE || (IsPending(d) && (d.original.None? || Oversize(d.original)))
  }

  // The original is gone, and then perhaps the marker; or nothing is.
  predicate Tidier(before: Disk, after: Disk) {
    && (after.original == before.original || after.original.None?)
    && (after.marker == before.marker || (after.marker.None? && after.original.None?))
  }

  // How many operations it takes to remove what a transaction has left.
  function Removals(d: Disk): nat {
    1 + (if d.original.Some? then 1 else 0) + if d.marker.Some? then 1 else 0
  }

  // The saved original once a write has begun, or not even that.
  function SavedBy(fates: seq<Fate>, d: Disk): Option<Bytes> {
    if Head(fates).Ok? then Some(d.config.bytes) else d.original
  }

  // What a write leaves that dies right after its first n operations: the saved
  // original, its sync, the pending marker.
  function CutAfter(n: nat, d: Disk): Disk {
    if n < 3 then d.(original := Some(d.config.bytes))
    else Disk(d.config, Some(Marker(Pending, d.config.mode)), Some(d.config.bytes))
  }

  // The document alone, with no trace of a transaction.
  ghost predicate Alone(trail: seq<Disk>, config: Doc) {
    trail == [Disk(config, None, None)]
  }

  predicate Fits(doc: Doc) {
    |doc.bytes| <= MAX_RECOVERY_BYTES && doc.mode <= MAX_MODE
  }

  predicate Yields(d: Disk, docs: set<Doc>) {
    Sound(d) && Recovered(d) in docs
  }

  // Whatever the power loss reveals, recovery yields one of docs.
  predicate Holds(trail: seq<Disk>, docs: set<Doc>) {
    trail != [] && forall i :: 0 <= i < |trail| ==> Yields(trail[i], docs)
  }

  /** Documents of ordinary size and mode never leave a disk that cannot recover. */
  lemma NeverStuck(trail: seq<Disk>, docs: set<Doc>, i: nat)
    requires Holds(trail, docs) && i < |trail|
    requires forall doc :: doc in docs ==> Fits(doc)
    ensures !Stuck(trail[i])
  {
    assert Yields(trail[i], docs);
    assert Fits(Recovered(trail[i]));
  }

  lemma HoldsMore(trail: seq<Disk>, docs: set<Doc>, more: set<Doc>)
    requires Holds(trail, docs) && docs <= more
    ensures Holds(trail, more)
  {
    forall i | 0 <= i < |trail|
      ensures Yields(trail[i], more)
    {
      assert Yields(trail[i], docs);
    }
  }

  lemma FirstSteps(fates: seq<Fate>)
    ensures var f1 := Tail(fates); var f2 := Tail(f1); var f3 := Tail(f2);
            && After(fates, 1) == f1 && After(fates, 2) == f2 && After(fates, 3) == f3
            && (CutAt(fates, 1) <==> Head(fates).Ok? && Head(f1).Crashed?)
            && (CutAt(fates, 2) <==> Head(fates).Ok? && Head(f1).Ok? && Head(f2).Crashed?)
            && (CutAt(fates, 3) <==> Head(fates).Ok? && Head(f1).Ok? && Head(f2).Ok? && Head(f3).Crashed?)
            && (FailsAt(fates, 1) <==> Head(fates).Ok? && Head(f1).Failed?)
  {
    var f1, f2 := Tail(fates), Tail(Tail(fates));
    OneStep(fates, 1);
    OneStep(fates, 2);
    OneStep(fates, 3);
    OneStep(f1, 1);
    OneStep(f1, 2);
    OneStep(f2, 1);
  }

  // What became of a write that failed after its pending marker.
  datatype Undo = NotBegun | Undone | NotUndone

  // A write that fails once and is left in peace then: it is undone, or cleans up, and
  // the old document is alone; unless what has to be read for that is too large.
  ghost predicate FailedIn(before: Disk, trail: seq<Disk>, fates: seq<Fate>, o: Outcome, undo: Undo) {
    && o.Failed? && trail != []
    && if Proceeds(fates, 3) then
         if |before.config.bytes| <= MAX_RECOVERY_BYTES then undo.Undone? && Alone(trail, before.config)
         else undo.NotUndone?
       else
         && undo.NotBegun? && trail[|trail| - 1].config == before.config
         && (!Oversize(SavedBy(fates, before)) ==> Alone(trail, before.config))
  }

  /** The directory that holds the document, and the process working on it.
      possible is what a power loss now, followed by recovery, may yield.
   */
  class Store {
    var trail: seq<Disk>
    var fates: seq<Fate>
    ghost var possible: set<Doc>

    ghost predicate Valid()
      reads this
    {
      Holds(trail, possible)
    }

    ghost predicate Calm()
      reads this
    {
      fates == []
    }

    function Now(): Disk
      requires trail != []
      reads this
    {
      trail[|trail| - 1]
    }

    // No transaction is in doubt for the running process.
    ghost predicate Settled()
      reads this
    {
      Valid() && !IsPending(Now())
    }

    constructor (config: Doc, fates: seq<Fate>)
      ensures Settled() && possible == {config} && Now().config == config
    {
      trail := [Disk(config, None, None)];
      this.fates := fates;
      possible := {config};
    }

    // Replacing or unlinking one name.
    method Change(next: Disk, ghost docs: set<Doc>) returns (o: Outcome)
      requires Holds(trail, docs) && Yields(next, docs)
      modifies this`trail, this`fates
      ensures Holds(trail, docs)
      ensures o == Head(old(fates)) && fates == Tail(old(fates))
      ensures trail == if o.Ok? then old(trail) + [next] else old(trail)
    {
      o := Head(fates);
      fates := Tail(fates);
      if o.Ok? {
        trail := trail + [next];
      }
    }

    // A sync of the directory makes everything before it durable.
    method Sync(ghost docs: set<Doc>) returns (o: Outcome)
      requires Holds(trail, docs)
      modifies this`trail, this`fates
      ensures Holds(trail, docs)
      ensures o == Head(old(fates)) && fates == Tail(old(fates))
      ensures trail == if o.Ok? then [old(Now())] else old(trail)
    {
      o := Head(fates);
      fates := Tail(fates);
      if o.Ok? {
        trail := [trail[|trail| - 1]];
      }
    }

    method PowerLoss(k: nat)
      requires Valid() && k < |trail|
      modifies this
      ensures Valid() && trail == [old(trail)[k]]
      ensures possible == {Recovered(old(trail)[k])} && possible <= old(possible)
    {
      assert Yields(trail[k], possible);
      possible := {Recovered(trail[k])};
      trail := [trail[k]];
    }

    // Removes original, then marker; errors are swallowed.
    method Cleanup(ghost docs: set<Doc>) returns (o: Outcome)
      requires Holds(trail, docs) && !IsPending(Now())
      modifies this`trail, this`fates
      ensures Holds(trail, docs) && !IsPending(Now())
      ensures Now().config == old(Now()).config
      ensures old(Calm()) ==> Calm() && !o.Crashed?
      ensures Oversize(old(Now()).original) ==> fates == old(fates)
      ensures !Oversize(old(Now()).original) ==>
        && fates == Behind(old(fates), Removals(old(Now())))
        && o == if Attempt(old(fates), Removals(old(Now()))).Crashed? then Crashed else Ok
      ensures old(Calm()) && !Oversize(old(Now()).original) ==> trail == [Disk(old(Now()).config, None, None)]
      ensures Oversize(old(Now()).original) ==> o.Ok? && trail == old(trail)
      ensures Tidier(old(Now()), Now())
    {
      assert Yields(trail[|trail| - 1], docs);
      o := RemoveArtifacts(docs);
      if o.Failed? {
        o := Ok;
      }
    }

    method RemoveArtifacts(ghost docs: set<Doc>) returns (o: Outcome)
      requires Holds(trail, docs) && !IsPending(Now())
      modifies this`trail, this`fates
      ensures Holds(trail, docs) && !IsPending(Now())
      ensures Now().config == old(Now()).config
      ensures old(Calm()) ==> Calm() && !o.Crashed?
      ensures o.Ok? ==> trail == [Disk(old(Now()).config, None, None)]
      ensures old(Calm()) && !Oversize(old(Now()).original) ==> o.Ok?
      ensures Oversize(old(Now()).original) ==> o.Failed? && trail == old(trail) && fates == old(fates)
      ensures !Oversize(old(Now()).original) ==>
        o == Attempt(old(fates), Removals(old(Now()))) && fates == Behind(old(fates), Removals(old(Now())))
      ensures Tidier(old(Now()), Now())
    {
      assert Yields(trail[|trail| - 1], docs);
      if Now().original.Some? {
        if Oversize(Now().original) {
          return Failed;
        }
        OneAttempt(fates, Removals(Now()));
        o := Change(Now().(original := None), docs);
        if !o.Ok? {
          return;
        }
      }
      if Now().marker.Some? {
        OneAttempt(fates, Removals(Now()));
        o := Change(Now().(marker := None), docs);
        if !o.Ok? {
          return;
        }
      }
      OneAttempt(fates, 1);
      o := Sync(docs);
    }

    // Puts the saved original back under its mode.
    method RestoreOriginal(mode: nat, ghost docs: set<Doc>) returns (o: Outcome)
      requires Holds(trail, docs)
      requires IsPending(Now()) && Now().marker.value.originalMode == mode
      modifies this`trail, this`fates
      ensures Holds(trail, docs) && IsPending(Now()) && Now().marker == old(Now()).marker
      ensures Now().original == old(Now()).original
      ensures o.Ok? ==> trail == [old(Now()).(config := Recovered(old(Now())))]
      ensures old(Calm()) ==> Calm() && !o.Crashed?
      ensures old(Calm()) ==> (o.Ok? <==> !Oversize(old(Now()).original))
      ensures Oversize(old(Now()).original) ==> o.Failed? && trail == old(trail) && fates == old(fates)
      ensures !Oversize(old(Now()).original) ==> o == Attempt(old(fates), 2) && fates == Behind(old(fates), 2)
    {
      assert Yields(trail[|trail| - 1], docs);
      if Now().original.None? || Oversize(Now().original) {
        return Failed;
      }
      OneAttempt(fates, 2);
      o := Change(Now().(config := Doc(Now().original.value, mode)), docs);
      if !o.Ok? {
        return;
      }
      OneAttempt(fates, 1);
      o := Sync(docs);
    }

    // The original is back: mark that durably, then tidy up.
    method FinishRecovery(mode: nat) returns (o: Outcome)
      requires |trail| == 1 && Sound(Now()) && IsPending(Now())
      requires Now().marker.value.originalMode == mode && Now().config == Recovered(Now())
      modifies this`trail, this`fates
      ensures Holds(trail, {old(Now()).config}) && Now().config == old(Now()).config
      ensures o.Ok? ==> !IsPending(Now()) && (mode <= MAX_MODE ==> !Stuck(Now()))
      ensures old(Calm()) ==> Calm() && o.Ok?
      ensures old(Calm()) && !Oversize(old(Now()).original) ==> Alone(trail, old(Now()).config)
      ensures o.Ok? ==> Attempt(old(fates), 2).Ok?
      ensures !Attempt(old(fates), 2).Ok? ==> o == Attempt(old(fates), 2) && fates == Behind(old(fates), 2)
    {
      ghost var docs := {Now().config};
      assert Yields(trail[0], docs);
      OneAttempt(fates, 2);
      o := Change(Now().(marker := Some(Marker(Committed, mode))), docs);
      if !o.Ok? {
        return;
      }
      OneAttempt(fates, 1);
      o := Sync(docs);
      if !o.Ok? {
        return;
      }
      o := Cleanup(docs);
    }

    /** Run under the lock before every use of the document. */
    method Recover() returns (o: Outcome)
      requires Valid()
      modifies this
      ensures Valid() && possible <= old(possible)
      ensures o.Ok? ==> Settled() && Now().config == Recovered(old(Now())) && !Stuck(Now())
      ensures old(Calm()) ==> Calm() && !o.Crashed? && (o.Ok? <==> !Stuck(old(Now())))
      ensures Stuck(old(Now())) ==> o.Failed? && trail == old(trail)
      ensures old(Calm()) && o.Ok? && !Oversize(old(Now()).original) ==>
        if old(Now()).marker.None? && old(Now()).original.None? then trail == old(trail)
        else Alone(trail, Recovered(old(Now())))
      ensures old(Calm()) && Oversize(old(Now()).original) ==> trail == old(trail)
    {
      var marker, original := Now().marker, Now().original;
      assert Yields(trail[|trail| - 1], possible);
      if marker.None? {
        if Oversize(original) {
          return Failed;
        }
        o := Ok;
        if original.Some? {
          o := Cleanup(possible);
        }
        return;
      }
      if marker.value.originalMode > MAX_MODE {
        return Failed;
      }
      if marker.value.state.Committed? {
        o := Cleanup(possible);
        return;
      }
      o := RestoreOriginal(marker.value.originalMode, possible);
      if !o.Ok? {
        return;
      }
      possible := {Now().config};
      o := FinishRecovery(marker.value.originalMode);
    }

    // Undoes a write whose pending marker is in place.
    method RollBack(mode: nat, ghost docs: set<Doc>) returns (o: Outcome)
      requires Holds(trail, docs) && Now().original.Some? && Now().config.mode == mode
      requires Doc(Now().original.value, mode) in docs
      modifies this`trail, this`fates
      ensures Holds(trail, docs)
      ensures o.Ok? ==> Holds(trail, {Doc(old(Now()).original.value, mode)}) && !IsPending(Now())
      ensures o.Ok? ==> Now().config == Doc(old(Now()).original.value, mode)
      ensures old(Calm()) ==> Calm() && !o.Crashed? && (o.Ok? <==> !Oversize(old(Now()).original))
      ensures old(Calm()) && o.Ok? ==> Alone(trail, Doc(old(Now()).original.value, mode))
    {
      ghost var before := Doc(Now().original.value, mode);
      o := Change(Now().(marker := Some(Marker(Pending, mode))), docs);
      if !o.Ok? {
        return;
      }
      o := RestoreOriginal(mode, docs);
      if !o.Ok? {
        return;
      }
      o := FinishRecovery(mode);
      HoldsMore(trail, {before}, docs);
    }

    // Everything up to the durable commit.  ready: the pending marker is written.
    method WriteSteps(next: Doc, ghost docs: set<Doc>) returns (o: Outcome, ready: bool)
      requires Holds(trail, docs) && !IsPending(Now()) && next.mode == Now().config.mode
      modifies this`trail, this`fates
      ensures Holds(trail, if ready then docs + {next} else docs)
      ensures !ready ==> !o.Ok? && !IsPending(Now()) && Now().config == old(Now()).config
      ensures ready ==> Now().original == Some(old(Now()).config.bytes) && Now().config.mode == next.mode
      ensures ready ==> old(Now()).config in docs
      ensures o.Ok? ==> trail == [Disk(next, Some(Marker(Committed, next.mode)), Some(old(Now()).config.bytes))]
      ensures o == Attempt(old(fates), 8) && fates == Behind(old(fates), 8) && (ready <==> Proceeds(old(fates), 3))
      ensures !ready ==> Now().marker == old(Now()).marker && Now().original == SavedBy(old(fates), old(Now()))
      ensures old(Calm()) ==> Calm() && o.Ok?
      ensures forall n | 1 <= n <= 3 && CutAt(old(fates), n) :: o.Crashed? && Now() == CutAfter(n, old(Now()))
      ensures FailsAt(old(fates), 1) ==>
        o.Failed? && !ready && Now() == CutAfter(1, old(Now())) && fates == After(old(fates), 2)
    {
      FirstSteps(fates);
      assert Yields(trail[|trail| - 1], docs);
      var mode := Now().config.mode;
      OneAttempt(fates, 8);
      OneStep(fates, 3);
      o := Change(Now().(original := Some(Now().config.bytes)), docs);
      ready := false;
      if !o.Ok? {
        return;
      }
      OneAttempt(fates, 7);
      OneStep(fates, 2);
      o := Sync(docs);
      if !o.Ok? {
        return;
      }
      OneAttempt(fates, 6);
      OneStep(fates, 1);
      o := Change(Now().(marker := Some(Marker(Pending, mode))), docs);
      if !o.Ok? {
        return;
      }
      ready := true;
      o := CommitSteps(next, docs);
    }

    method CommitSteps(next: Doc, ghost docs: set<Doc>) returns (o: Outcome)
      requires Holds(trail, docs) && IsPending(Now()) && next.mode == Now().config.mode
      modifies this`trail, this`fates
      ensures Holds(trail, docs + {next})
      ensures Now().original == old(Now()).original && Now().config.mode == next.mode
      ensures o.Ok? ==> trail == [Disk(next, Some(Marker(Committed, next.mode)), old(Now()).original)]
      ensures old(Calm()) ==> Calm() && o.Ok?
      ensures o == Attempt(old(fates), 5) && fates == Behind(old(fates), 5)
      ensures Head(old(fates)).Crashed? ==> o.Crashed? && trail == old(trail)
    {
      ghost var more := docs + {next};
      HoldsMore(trail, docs, more);
      assert Yields(trail[|trail| - 1], docs);
      OneAttempt(fates, 5);
      o := Sync(more);
      if !o.Ok? {
        return;
      }
      OneAttempt(fates, 4);
      o := Change(Now().(config := next), more);
      if !o.Ok? {
        return;
      }
      OneAttempt(fates, 3);
      o := Sync(more);
      if !o.Ok? {
        return;
      }
      OneAttempt(fates, 2);
      o := Change(Now().(marker := Some(Marker(Committed, next.mode))), more);
      if !o.Ok? {
        return;
      }
      OneAttempt(fates, 1);
      o := Sync(more);
    }

    /** Replaces the document.  Success survives every later power loss; a failure
        that was rolled back leaves the old document alone; and whatever happens, a
        power loss yields the new document or one that was possible before.
     */
    method Write(payload: Bytes) returns (o: Outcome, undo: Undo)
      requires Settled()
      modifies this
      ensures Valid()
      ensures var next := Doc(payload, old(Now()).config.mode);
              && possible <= old(possible) + {next}
              && (o.Ok? ==> possible == {next} && Settled() && Now().config == next)
      ensures undo.Undone? ==>
        o.Failed? && possible == {old(Now()).config} && Settled() && Now().config == old(Now()).config
      ensures undo.NotBegun? && o.Failed? ==>
        possible <= old(possible) && Settled() && Now().config == old(Now()).config
      ensures old(Calm()) ==> Calm() && o.Ok?
      ensures forall n | 1 <= n <= 3 && CutAt(old(fates), n) :: o.Crashed? && Now() == CutAfter(n, old(Now()))
      ensures FailsAt(old(fates), 1) ==>
        && !o.Ok? && undo.NotBegun? && Now().config == old(Now()).config
        && (old(Now()).marker.None? ==> Now().marker.None?)
        && (|old(Now()).config.bytes| > MAX_RECOVERY_BYTES ==> o.Failed? && Now() == CutAfter(1, old(Now())))
      ensures old(Calm()) ==>
        var next := Doc(payload, old(Now()).config.mode);
        if |old(Now()).config.bytes| <= MAX_RECOVERY_BYTES then Alone(trail, next)
        else trail == [Disk(next, Some(Marker(Committed, next.mode)), Some(old(Now()).config.bytes))]
      ensures o.Ok? ==> Attempt(old(fates), 8).Ok?
      ensures Attempt(old(fates), 8).Crashed? ==> o.Crashed?
      ensures Attempt(old(fates), 8).Failed? && Behind(old(fates), 8) == [] ==>
        FailedIn(old(Now()), trail, old(fates), o, undo)
    {
      var current := Now().config;
      var next := Doc(payload, current.mode);
      ghost var docs := possible;
      undo := NotBegun;
      var ready;
      o, ready := WriteSteps(next, docs);
      possible := if ready then docs + {next} else docs;
      if o.Ok? {
        possible := {next};
        assert Yields(trail[0], possible);
        o := Cleanup(possible);
        return;
      }
      if o.Crashed? {
        return;
      }
      if ready {
        o := RollBack(current.mode, possible);
        if o.Ok? {
          possible := {current};
          o, undo := Failed, Undone;
        } else {
          undo := NotUndone;
        }
      } else {
        o := Cleanup(possible);
        if o.Ok? {
          o := Failed;
        }
      }
    }

    // Recoveries in peace, one after another.
    method RecoverRepeatedly(attempts: nat) returns (o: Outcome)
      requires Valid() && attempts > 0
      modifies this
      ensures Valid() && possible <= old(possible)
      ensures o.Ok? <==> !Stuck(old(Now()))
      ensures if o.Ok? then Settled() && Now().config == Recovered(old(Now()))
              else o.Failed? && trail == old(trail)
    {
      fates := [];
      o := Recover();
      for i := 1 to attempts
        invariant Valid() && Calm() && possible <= old(possible)
        invariant o.Ok? <==> !Stuck(old(Now()))
        invariant if o.Ok? then Settled() && Now().config == Recovered(old(Now())) && !Stuck(Now())
                  else o.Failed? && trail == old(trail)
      {
        o := Recover();
      }
    }

    /** A write that dies right after its first, second or third operation, and then
        recoveries in peace.  They bring the old document back exactly if it can be
        read: it always must be small enough, and of an ordinary mode once a marker
        says so, but for what an earlier marker hides.  Otherwise none of them ever
        changes anything.
     */
    method CutWriteThenRecover(payload: Bytes, n: nat, attempts: nat) returns (o: Outcome)
      requires Settled() && 1 <= n <= 3 && CutAt(fates, n) && attempts > 0
      modifies this
      ensures Valid()
      ensures old(Now()).marker.None? || n == 3 ==>
        (o.Ok? <==> |old(Now()).config.bytes| <= MAX_RECOVERY_BYTES && (n == 3 ==> old(Now()).config.mode <= MAX_MODE))
      ensures old(Now()).marker.Some? && n < 3 ==> (o.Ok? <==> old(Now()).config.mode <= MAX_MODE)
      ensures if o.Ok? then Settled() && Now().config == old(Now()).config
              else o.Failed? && Now() == CutAfter(n, old(Now()))
    {
      var undo;
      o, undo := Write(payload);
      assert Sound(Now());
      o := RecoverRepeatedly(attempts);
    }

    /** A write whose first sync raises, whatever befalls it then, and recoveries in
        peace.  If the old document is too large the write reports an ordinary error,
        the error of its clean-up is swallowed, and no recovery ever succeeds.
     */
    method FailedWriteThenRecover(payload: Bytes, attempts: nat) returns (written: Outcome, o: Outcome)
      requires Settled() && Now().marker.None? && FailsAt(fates, 1) && attempts > 0
      modifies this
      ensures Valid() && !written.Ok? && Now().config == old(Now()).config
      ensures o.Ok? <==> |old(Now()).config.bytes| <= MAX_RECOVERY_BYTES
      ensures !o.Ok? ==> written.Failed? && o.Failed? && Now() == CutAfter(1, old(Now()))
    {
      var undo;
      written, undo := Write(payload);
      assert Sound(Now()) by {
        assert Yields(trail[|trail| - 1], possible);
      }
      o := RecoverRepeatedly(attempts);
    }

    // One configuration change: take the lock, recover, write.
    method Update(payload: Bytes) returns (o: Outcome)
      requires Valid()
      modifies this
      ensures Valid()
      ensures o.Ok? ==> exists mode :: possible == {Doc(payload, mode)} &&
                                         exists doc :: doc in old(possible) && doc.mode == mode
      ensures forall doc :: doc in possible ==>
                              doc in old(possible) || (doc.bytes == payload &&
                                                      exists d :: d in old(possible) && d.mode == doc.mode)
      ensures old(Calm()) ==> Calm() && !o.Crashed? && (o.Ok? <==> !Stuck(old(Now())))
      ensures old(Calm()) && o.Ok? ==>
        var before := Recovered(old(Now()));
        && Now().config == Doc(payload, before.mode)
        && (|before.bytes| <= MAX_RECOVERY_BYTES ==> Alone(trail, Doc(payload, before.mode)))
    {
      assert Yields(trail[|trail| - 1], possible);
      o := Recover();
      if !o.Ok? {
        return;
      }
      assert Yields(trail[|trail| - 1], possible);
      ghost var current := Now().config;
      assert current in old(possible);
      var undo;
      o, undo := Write(payload);
    }

    /** Any sequence of updates, each under its own script of errors and crashes,
        with power losses in between: recovery yields the starting document or a
        submitted one, whole and under the starting mode, and never one older
        than the latest update that reported success.
     */
    method Run(events: seq<Event>) returns (results: seq<bool>)
      requires Valid() && possible == {Now().config}
      modifies this
      ensures Valid() && |results| == |events|
      ensures forall doc :: doc in possible ==> Explained(doc, old(Now()).config, events, results)
      ensures Fits(old(Now()).config) && AllFit(events) ==> Peaceful(events, results)
    {
      ghost var start := Now().config;
      results := [];
      for i := 0 to |events|
        invariant Valid() && |results| == i
        invariant forall doc :: doc in possible ==> Explained(doc, start, events[..i], results)
        invariant Fits(start) && AllFit(events) ==> forall doc :: doc in possible ==> Fits(doc)
        invariant Fits(start) && AllFit(events) ==> Peaceful(events[..i], results)
      {
        var success := false;
        ghost var before := possible;
        match events[i] {
          case Submit(payload, script) =>
            fates := script;
            if Fits(start) && AllFit(events) {
              assert AllFit([events[i]]);
              NeverStuck(trail, possible, |trail| - 1);
            }
            var o := Update(payload);
            success := o.Ok?;
          case Outage(k) =>
            if k < |trail| {
              PowerLoss(k);
            }
        }
        results := results + [success];
        assert events[..i + 1] == events[..i] + [events[i]];
        forall doc | doc in possible
          ensures Explained(doc, start, events[..i + 1], results)
        {
          StillExplained(doc, before, start, events[..i], events[i], results[..i], success);
        }
      }
      assert events[..|events|] == events;
    }
  }

  datatype Event = Submit(payload: Bytes, fates: seq<Fate>) | Outage(revealed: nat)

  ghost predicate AllFit(events: seq<Event>) {
    forall i :: 0 <= i < |events| && events[i].Submit? ==> |events[i].payload| <= MAX_RECOVERY_BYTES
  }

  // Every update that was left in peace has succeeded.
  ghost predicate Peaceful(events: seq<Event>, results: seq<bool>) {
    |events| == |results| &&
    forall i :: 0 <= i < |events| && events[i].Submit? && events[i].fates == [] ==> results[i]
  }

  // doc is the starting document or a submitted one, and no update after it succeeded.
  ghost predicate Explained(doc: Doc, start: Doc, events: seq<Event>, results: seq<bool>)
    requires |events| == |results|
  {
    doc.mode == start.mode &&
    ((doc == start && forall j :: 0 <= j < |results| ==> !results[j]) ||
     exists i :: SubmittedAt(doc, events, i) && forall j :: i < j < |results| ==> !results[j])
  }

  ghost predicate SubmittedAt(doc: Doc, events: seq<Event>, i: int) {
    0 <= i < |events| && events[i].Submit? && events[i].payload == doc.bytes
  }

  lemma StillExplained(doc: Doc, before: set<Doc>, start: Doc, events: seq<Event>, e: Event, results: seq<bool>,
    success: bool)
    requires |events| == |results|
    requires forall d :: d in before ==> Explained(d, start, events, results)
    requires (doc in before && !success) ||
      (e.Submit? && e.payload == doc.bytes && exists d :: d in before && d.mode == doc.mode)
    ensures Explained(doc, start, events + [e], results + [success])
  {
    var more := events + [e];
    if doc in before && !success {
      assert Explained(doc, start, events, results);
      if i :| SubmittedAt(doc, events, i) && forall j :: i < j < |results| ==> !results[j] {
        assert SubmittedAt(doc, more, i);
      }
    } else {
      assert SubmittedAt(doc, more, |events|);
    }
  }
}
