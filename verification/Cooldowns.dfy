/** The routes that are resting after a failure
    (integrations/common/route_proxy.py, Cooldowns).

    The table is shared: before each access of the request that is modelled, other
    requests may have tripped and cleared any models.
 */
module Cooldowns {
  type Model = string

  // A change of the table, and whether the request that is modelled made it.
  datatype Change = Tripped(model: Model, at: nat, own: bool) | Cleared(model: Model, own: bool)

  // What another request does to the table.
  datatype Touch = Touch(model: Model, trips: bool)

  // When a model stops resting, read off the changes alone: its last change counts.
  function RestsUntil(history: seq<Change>, model: Model, seconds: nat): nat {
    if history == [] then 0
    else
      var last := history[|history| - 1];
      if last.model == model then (if last.Tripped? then last.at + seconds else 0)
      else RestsUntil(history[..|history| - 1], model, seconds)
  }

  // The changes the request that is modelled made.
  function Own(history: seq<Change>): seq<Change> {
    if history == [] then []
    else
      var last := history[|history| - 1];
      Own(history[..|history| - 1]) + if last.own then [last] else []
  }

  lemma OneMore(history: seq<Change>, change: Change, seconds: nat)
    ensures Own(history + [change]) == Own(history) + if change.own then [change] else []
    ensures forall m: Model ::
      RestsUntil(history + [change], m, seconds)
      == if change.model == m then (if change.Tripped? then change.at + seconds else 0)
         else RestsUntil(history, m, seconds)
  {
    var more := history + [change];
    assert more[..|more| - 1] == history;
  }

  class Table {
    const seconds: nat
    var now: nat
    var ticks: seq<nat>
    var others: seq<seq<Touch>>
    var until: map<Model, nat>
    ghost var history: seq<Change>

    // The map may have forgotten a model, but only one that no longer rests.
    ghost predicate Valid()
      reads this
    {
      forall m: Model ::
        if m in until then until[m] == RestsUntil(history, m, seconds)
        else RestsUntil(history, m, seconds) <= now
    }

    constructor (seconds: nat, ticks: seq<nat>, others: seq<seq<Touch>>)
      ensures Valid() && history == [] && this.seconds == seconds && this.ticks == ticks && this.others == others
    {
      this.seconds := seconds;
      this.now := 0;
      this.ticks := ticks;
      this.others := others;
      this.until := map[];
      this.history := [];
    }

    // A monotonic clock: any time may have passed since it was last read.
    method Clock() returns (time: nat)
      requires Valid()
      modifies this`now, this`ticks
      ensures Valid() && time == now
      ensures now == old(now) + if old(ticks) == [] then 0 else old(ticks)[0]
      ensures ticks == if old(ticks) == [] then [] else old(ticks)[1..]
    {
      if ticks != [] {
        now := now + ticks[0];
        ticks := ticks[1..];
      }
      time := now;
    }

    method Put(model: Model, trips: bool, ghost own: bool)
      requires Valid()
      modifies this`until, this`history
      ensures Valid()
      ensures history == old(history) + [if trips then Tripped(model, now, own) else Cleared(model, own)]
    {
      ghost var change := if trips then Tripped(model, now, own) else Cleared(model, own);
      OneMore(history, change, seconds);
      until := if trips then until[model := now + seconds] else until - {model};
      history := history + [change];
    }

    // Whatever other requests did to the table since this one last looked.
    method Meddle()
      requires Valid()
      modifies this`others, this`until, this`history
      ensures Valid() && old(history) <= history && Own(history) == Own(old(history))
    {
      if others == [] {
        return;
      }
      var touches := others[0];
      others := others[1..];
      for i := 0 to |touches|
        invariant Valid() && old(history) <= history && Own(history) == Own(old(history))
      {
        ghost var before := history;
        Put(touches[i].model, touches[i].trips, false);
        OneMore(before, history[|before|], seconds);
      }
    }

    /** A model rests from the moment it was last tripped, by whomever, for the
        cooldown, unless it was cleared since; asking changes no answer. */
    method Active(model: Model) returns (resting: bool)
      requires Valid()
      modifies this
      ensures Valid() && old(now) <= now
      ensures old(history) <= history && Own(history) == Own(old(history))
      ensures resting <==> now < RestsUntil(history, model, seconds)
      ensures model in until <==> resting
    {
      Meddle();
      var time := Clock();
      var end := if model in until then until[model] else 0;
      if end <= time {
        until := until - {model};
        return false;
      }
      resting := true;
    }

    method Trip(model: Model) returns (time: nat)
      requires Valid()
      modifies this
      ensures Valid() && old(now) <= now && time == now
      ensures old(history) <= history && Own(history) == Own(old(history)) + [Tripped(model, time, true)]
      ensures RestsUntil(history, model, seconds) == time + seconds
    {
      Meddle();
      time := Clock();
      OneMore(history, Tripped(model, time, true), seconds);
      Put(model, true, true);
    }

    method Clear(model: Model)
      requires Valid()
      modifies this
      ensures Valid() && old(now) <= now
      ensures old(history) <= history && Own(history) == Own(old(history)) + [Cleared(model, true)]
      ensures RestsUntil(history, model, seconds) == 0
    {
      Meddle();
      OneMore(history, Cleared(model, true), seconds);
      Put(model, false, true);
    }
  }

  /** Changes to other models never matter, and the last change to a model decides. */
  lemma {:induction false} LastChangeDecides(history: seq<Change>, more: seq<Change>, change: Change, seconds: nat)
    requires forall i :: 0 <= i < |more| ==> more[i].model != change.model
    ensures RestsUntil(history + [change] + more, change.model, seconds)
         == if change.Tripped? then change.at + seconds else 0
  {
    var all := history + [change] + more;
    if more == [] {
      assert all[|all| - 1] == change;
    } else {
      var n := |more| - 1;
      assert all[..|all| - 1] == history + [change] + more[..n];
      assert all[|all| - 1] == more[n];
      LastChangeDecides(history, more[..n], change, seconds);
    }
  }
}
