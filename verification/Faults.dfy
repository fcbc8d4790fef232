/** What the environment may do to one durable operation, shared by every
    crash-recovery protocol of the project.

    A process runs against a script of fates, one per operation.  An operation
    takes effect, raises an error and has no effect, or never happens because the
    process dies first.  A script is arbitrary, so a statement about every script
    is a statement about an error or a crash between any two operations; a script
    that has run out never interferes again.
 */
module Faults {

  datatype Fate = Proceed | Raise | Die

  datatype Outcome = Ok | Failed | Crashed

  function Head(fates: seq<Fate>): Outcome {
    if fates == [] || fates[0].Proceed? then Ok
    else if fates[0].Raise? then Failed
    else Crashed
  }

  function Tail(fates: seq<Fate>): seq<Fate> {
    if fates == [] then [] else fates[1..]
  }

  // The script after n operations, and that all n of them take effect.
  function After(fates: seq<Fate>, n: nat): seq<Fate> {
    if n == 0 then fates else After(Tail(fates), n - 1)
  }

  predicate Proceeds(fates: seq<Fate>, n: nat) {
    n == 0 || (Head(fates).Ok? && Proceeds(Tail(fates), n - 1))
  }

  lemma {:induction false} ProceedsInParts(fates: seq<Fate>, m: nat, n: nat)
    ensures Proceeds(fates, m + n) <==> Proceeds(fates, m) && Proceeds(After(fates, m), n)
    ensures After(fates, m + n) == After(After(fates, m), n)
  {
    if m > 0 {
      ProceedsInParts(Tail(fates), m - 1, n);
    }
  }

  // The process dies right after n operations.
  predicate CutAt(fates: seq<Fate>, n: nat) {
    Proceeds(fates, n) && Head(After(fates, n)).Crashed?
  }

  // The operation right after n others raises.
  predicate FailsAt(fates: seq<Fate>, n: nat) {
    Proceeds(fates, n) && Head(After(fates, n)).Failed?
  }

  // What comes of n operations of which each needs the one before, and the script
  // behind those that were begun.
  function Attempt(fates: seq<Fate>, n: nat): Outcome {
    if n == 0 then Ok
    else if Head(fates).Ok? then Attempt(Tail(fates), n - 1)
    else Head(fates)
  }

  function Behind(fates: seq<Fate>, n: nat): seq<Fate> {
    if n == 0 then fates
    else if Head(fates).Ok? then Behind(Tail(fates), n - 1)
    else Tail(fates)
  }

  // At most one operation raises, nothing comes in its way after that, and the process
  // lives.
  predicate AtMostOneError(fates: seq<Fate>) {
    fates == [] || (fates[0].Proceed? && AtMostOneError(fates[1..])) || fates == [Raise]
  }

  lemma OneAttempt(fates: seq<Fate>, n: nat)
    requires n > 0
    ensures Attempt(fates, n) == if Head(fates).Ok? then Attempt(Tail(fates), n - 1) else Head(fates)
    ensures Behind(fates, n) == if Head(fates).Ok? then Behind(Tail(fates), n - 1) else Tail(fates)
  {
  }

  lemma OneStep(fates: seq<Fate>, n: nat)
    requires n > 0
    ensures After(fates, n) == After(Tail(fates), n - 1)
    ensures Proceeds(fates, n) <==> Head(fates).Ok? && Proceeds(Tail(fates), n - 1)
  {
  }
}
