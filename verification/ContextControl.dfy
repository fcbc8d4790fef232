/** Bounding shell output and compaction retries
    (integrations/common/context_control.py, _output and handle).
 */
module ContextControl {
  import opened Faults
  import opened Options
  import Arithmetic

  type Text = string

  const OUTPUT_BUDGET: nat := 8000
  const MAX_ATTEMPTS: nat := 2

  // ------------------------------------------------------------- the slot arithmetic

  function Total(texts: seq<Text>): nat {
    if texts == [] then 0 else Total(texts[..|texts| - 1]) + |texts[|texts| - 1]|
  }

  // There is room in the budget for a notice and an excerpt in every slot.
  predicate Fits(texts: seq<Text>, notice: Text) {
    |texts| * (|notice| + 40) <= OUTPUT_BUDGET
  }

  predicate OverBudget(texts: seq<Text>, notice: Text) {
    texts != [] && Total(texts) > OUTPUT_BUDGET && Fits(texts, notice)
  }

  function Allowance(n: nat, notice: Text): nat
    requires n > 0
  {
    if OUTPUT_BUDGET / n >= |notice| then OUTPUT_BUDGET / n - |notice| else 0
  }

  function Excerpt(text: Text, allowance: nat, notice: Text): Text
    requires allowance < |text|
  {
    text[..allowance / 2] + notice + text[|text| - allowance / 2..]
  }

  function Bounded(text: Text, allowance: nat, notice: Text): Text {
    if |text| > allowance then Excerpt(text, allowance, notice) else text
  }

  lemma AllowanceIsEnough(n: nat, notice: Text)
    requires n > 0 && n * (|notice| + 40) <= OUTPUT_BUDGET
    ensures Allowance(n, notice) >= 40 && Allowance(n, notice) == OUTPUT_BUDGET / n - |notice|
    ensures n * (Allowance(n, notice) + |notice|) <= OUTPUT_BUDGET
  {
    Arithmetic.Share(n, |notice| + 40, OUTPUT_BUDGET);
  }

  lemma {:induction false} TotalAtMost(texts: seq<Text>, most: nat)
    requires forall i :: 0 <= i < |texts| ==> |texts[i]| <= most
    ensures Total(texts) <= |texts| * most
  {
    if texts != [] {
      var n := |texts| - 1;
      TotalAtMost(texts[..n], most);
      assert |texts| * most == n * most + most;
    }
  }

  // What bounding did to the slots.
  ghost predicate BoundedTo(before: seq<Text>, after: seq<Text>, allowance: nat, notice: Text) {
    |after| == |before| && forall i :: 0 <= i < |before| ==> after[i] == Bounded(before[i], allowance, notice)
  }

  // A slot that keeps a non-empty start and a non-empty end of its text, apart.
  ghost predicate KeepsEnds(before: Text, after: Text, notice: Text, kept: nat) {
    && 0 < kept && 2 * kept < |before|
    && after == before[..kept] + notice + before[|before| - kept..]
  }

  /** The replaced output fits into the budget, notices included, and is shorter
      than before; a slot is either left alone or keeps disjoint ends of its text,
      and some slot is cut. */
  lemma BoundedOutput(before: seq<Text>, after: seq<Text>, allowance: nat, notice: Text)
    requires OverBudget(before, notice) && allowance == Allowance(|before|, notice)
    requires BoundedTo(before, after, allowance, notice)
    ensures Total(after) <= OUTPUT_BUDGET < Total(before)
    ensures forall i :: 0 <= i < |before| ==>
              after[i] == before[i] || KeepsEnds(before[i], after[i], notice, allowance / 2)
    ensures exists i :: 0 <= i < |before| && KeepsEnds(before[i], after[i], notice, allowance / 2)
  {
    AllowanceIsEnough(|before|, notice);
    TotalFits(before, after, allowance, notice);
    var i := SomeLongText(before, allowance, notice);
    forall k | 0 <= k < |before|
      ensures after[k] == before[k] || KeepsEnds(before[k], after[k], notice, allowance / 2)
    {
      BoundedText(before[k], allowance, notice);
    }
    BoundedText(before[i], allowance, notice);
    assert KeepsEnds(before[i], after[i], notice, allowance / 2);
  }

  lemma BoundedText(text: Text, allowance: nat, notice: Text)
    requires allowance >= 40
    ensures |Bounded(text, allowance, notice)| <= allowance + |notice|
    ensures |text| <= allowance ==> Bounded(text, allowance, notice) == text
    ensures |text| > allowance ==> KeepsEnds(text, Bounded(text, allowance, notice), notice, allowance / 2)
  {
  }

  lemma TotalFits(before: seq<Text>, after: seq<Text>, allowance: nat, notice: Text)
    requires BoundedTo(before, after, allowance, notice) && allowance >= 40
    requires |before| * (allowance + |notice|) <= OUTPUT_BUDGET
    ensures Total(after) <= OUTPUT_BUDGET
  {
    forall i | 0 <= i < |after|
      ensures |after[i]| <= allowance + |notice|
    {
      BoundedText(before[i], allowance, notice);
    }
    TotalAtMost(after, allowance + |notice|);
  }

  lemma SomeLongText(texts: seq<Text>, allowance: nat, notice: Text) returns (i: nat)
    requires Total(texts) > OUTPUT_BUDGET && |texts| * (allowance + |notice|) <= OUTPUT_BUDGET
    ensures i < |texts| && |texts[i]| > allowance
  {
    if forall k :: 0 <= k < |texts| ==> |texts[k]| <= allowance + |notice| {
      TotalAtMost(texts, allowance + |notice|);
    }
    i :| 0 <= i < |texts| && |texts[i]| > allowance + |notice|;
  }

  /** A single cut slot may grow: its notice can outweigh what was left out. */
  lemma CutSlotShrinksIff(text: Text, allowance: nat, notice: Text)
    requires |text| > allowance
    ensures |Bounded(text, allowance, notice)| < |text| <==> |text| - 2 * (allowance / 2) > |notice|
  {
  }

  method BoundSlots(slots: array<Text>, notice: Text) returns (replaced: bool)
    modifies slots
    ensures replaced <==> OverBudget(old(slots[..]), notice)
    ensures replaced ==> BoundedTo(old(slots[..]), slots[..], Allowance(slots.Length, notice), notice)
    ensures !replaced ==> slots[..] == old(slots[..])
  {
    ghost var before := slots[..];
    var total := 0;
    for i := 0 to slots.Length
      invariant total == Total(slots[..i])
    {
      assert slots[..i + 1][..i] == slots[..i];
      total := total + |slots[i]|;
    }
    assert slots[..slots.Length] == slots[..];
    if slots.Length == 0 || total <= OUTPUT_BUDGET || slots.Length * (|notice| + 40) > OUTPUT_BUDGET {
      return false;
    }
    AllowanceIsEnough(slots.Length, notice);
    var allowance: nat := OUTPUT_BUDGET / slots.Length - |notice|;
    for i := 0 to slots.Length
      invariant forall k :: 0 <= k < i ==> slots[k] == Bounded(before[k], allowance, notice)
      invariant forall k :: i <= k < slots.Length ==> slots[k] == before[k]
    {
      var value := slots[i];
      if |value| > allowance {
        var half := allowance / 2;
        slots[i] := value[..half] + notice + value[|value| - half..];
      }
    }
    replaced := true;
  }

  // ------------------------------------------------------------- tool responses

  datatype Tool = Bash | ContextShell | OtherTool

  datatype Item = TextItem(text: Text) | OtherItem

  datatype Response =
    | Shell(interrupted: bool, image: bool, stdout: Option<Text>, stderr: Option<Text>, spooled: bool)
    | Content(isError: bool, structured: bool, items: seq<Item>)
    | PlainText(text: Text)
    | Shapeless

  function Present(t: Option<Text>): seq<Text> {
    if t.Some? then [t.value] else []
  }

  function TextsOf(items: seq<Item>): (r: seq<Text>)
    ensures |r| <= |items|
    ensures |r| == |items| ==> forall i :: 0 <= i < |items| ==> items[i] == TextItem(r[i])
  {
    if items == [] then []
    else
      var n := |items| - 1;
      TextsOf(items[..n]) + if items[n].TextItem? then [items[n].text] else []
  }

  // The texts of a response that count against the budget.
  function Slots(tool: Tool, r: Response): seq<Text> {
    match (tool, r)
    case (Bash, Shell(interrupted, image, out, err, _)) =>
      if interrupted || image then [] else Present(out) + Present(err)
    case (ContextShell, Content(isError, _, items)) => if isError then [] else TextsOf(items)
    case (ContextShell, PlainText(text)) => [text]
    case _ => []
  }

  // Structured and mixed results are never changed.
  predicate Replaceable(r: Response) {
    r.Content? ==> !r.structured && |TextsOf(r.items)| == |r.items|
  }

  function WithSlots(r: Response, texts: seq<Text>): Response {
    match r
    case Shell(interrupted, image, out, err, _) =>
      var first := if out.Some? && texts != [] then Some(texts[0]) else None;
      var second := if err.Some? && texts != [] then Some(texts[|texts| - 1]) else None;
      Shell(interrupted, image, first, second, false)
    case Content(isError, structured, _) =>
      Content(isError, structured, seq(|texts|, i requires 0 <= i < |texts| => TextItem(texts[i])))
    case PlainText(text) => if texts == [] then r else PlainText(texts[0])
    case Shapeless => r
  }

  // Where the texts among the items are.
  ghost predicate Picks(at: seq<nat>, items: seq<Item>, texts: seq<Text>) {
    && |at| == |texts| && (forall j, k :: 0 <= j < k < |at| ==> at[j] < at[k])
    && (forall k :: 0 <= k < |at| ==> at[k] < |items| && items[at[k]] == TextItem(texts[k]))
    && (forall i :: 0 <= i < |items| && items[i].TextItem? ==> i in at)
  }

  lemma PicksMore(at: seq<nat>, front: seq<Item>, last: Item, texts: seq<Text>)
    requires Picks(at, front, texts)
    ensures if last.TextItem? then Picks(at + [|front|], front + [last], texts + [last.text])
            else Picks(at, front + [last], texts)
  {
    var more := at + [|front|];
    assert more[|at|] == |front|;
    assert forall i :: i in at ==> i in more;
  }

  lemma {:induction false} TextsOfItems(items: seq<Item>) returns (at: seq<nat>)
    ensures Picks(at, items, TextsOf(items))
  {
    at := [];
    if items != [] {
      var n := |items| - 1;
      at := TextsOfItems(items[..n]);
      PicksMore(at, items[..n], items[n], TextsOf(items[..n]));
      assert items == items[..n] + [items[n]];
      if items[n].TextItem? {
        at := at + [n];
      }
    }
  }

  /** Which texts of a response count, in order: what a finished shell command wrote, and
      every text block of an answer that is no error. */
  lemma SlotsAre(tool: Tool, r: Response) returns (at: seq<nat>)
    ensures Slots(tool, r) == [] || tool.Bash? || tool.ContextShell?
    ensures tool.Bash? && r.Shell? && !r.interrupted && !r.image ==>
      var texts := Slots(tool, r);
      && (r.stdout.Some? ==> texts != [] && texts[0] == r.stdout.value)
      && (r.stderr.Some? ==> texts != [] && texts[|texts| - 1] == r.stderr.value)
      && |texts| == (if r.stdout.Some? then 1 else 0) + (if r.stderr.Some? then 1 else 0)
    ensures tool.Bash? && (r.Shell? ==> r.interrupted || r.image) ==> Slots(tool, r) == []
    ensures tool.ContextShell? && r.PlainText? ==> Slots(tool, r) == [r.text]
    ensures tool.ContextShell? && (r.Shell? || r.Shapeless? || (r.Content? && r.isError)) ==> Slots(tool, r) == []
    ensures tool.ContextShell? && r.Content? && !r.isError ==> Picks(at, r.items, Slots(tool, r))
  {
    at := [];
    if r.Content? {
      at := TextsOfItems(r.items);
    }
  }

  /** A replacement differs from the response in its texts, and in that what a shell has
      put aside is not shown. */
  lemma OnlyTextsAreReplaced(tool: Tool, r: Response, texts: seq<Text>)
    requires |texts| == |Slots(tool, r)| > 0 && Replaceable(r)
    ensures var after := WithSlots(r, texts);
            match r
            case Shell(interrupted, image, out, err, _) =>
              && after.Shell? && after.interrupted == interrupted && after.image == image && !after.spooled
              && (after.stdout.Some? <==> out.Some?) && (after.stderr.Some? <==> err.Some?)
              && (out.Some? ==> after.stdout.value == texts[0])
              && (err.Some? ==> after.stderr.value == texts[|texts| - 1])
            case Content(_, _, items) =>
              && after.Content? && !after.isError && !after.structured && |after.items| == |items|
              && forall i :: 0 <= i < |items| ==> after.items[i] == TextItem(texts[i])
            case PlainText(_) => after == PlainText(texts[0])
            case Shapeless => false
  {
  }

  lemma {:induction false} TextsOfTexts(texts: seq<Text>)
    ensures TextsOf(seq(|texts|, i requires 0 <= i < |texts| => TextItem(texts[i]))) == texts
  {
    var items := seq(|texts|, i requires 0 <= i < |texts| => TextItem(texts[i]));
    if texts != [] {
      var n := |texts| - 1;
      assert items[..n] == seq(n, i requires 0 <= i < n => TextItem(texts[..n][i]));
      TextsOfTexts(texts[..n]);
    }
  }

  lemma SlotsAreReplaced(tool: Tool, r: Response, texts: seq<Text>)
    requires |texts| == |Slots(tool, r)| > 0 && Replaceable(r)
    ensures Slots(tool, WithSlots(r, texts)) == texts
  {
    if r.Content? {
      TextsOfTexts(texts);
    }
  }

  class OutputGuard {
    var artifacts: set<Response>
    var fates: seq<Fate>

    constructor (fates: seq<Fate>)
      ensures artifacts == {} && this.fates == fates
    {
      this.artifacts := {};
      this.fates := fates;
    }

    // Saves a response under its digest; saving it again changes nothing.
    method Save(response: Response) returns (saved: bool)
      modifies this
      ensures artifacts == if saved then old(artifacts) + {response} else old(artifacts)
      ensures saved == Head(old(fates)).Ok? && fates == Tail(old(fates))
    {
      saved := Head(fates).Ok?;
      fates := Tail(fates);
      if saved {
        artifacts := artifacts + {response};
      }
    }

    /** A response is replaced only after it was saved whole, only when all its texts
        can be bounded, and then in its texts alone. */
    method Output(tool: Tool, response: Response, notice: Text) returns (replacement: Option<Response>)
      modifies this
      ensures artifacts == old(artifacts) || artifacts == old(artifacts) + {response}
      ensures Total(Slots(tool, response)) <= OUTPUT_BUDGET || !Replaceable(response) ==>
        artifacts == old(artifacts) && fates == old(fates)
      ensures replacement.Some? ==>
        && response in artifacts && OverBudget(Slots(tool, response), notice) && Replaceable(response)
        && var after := Slots(tool, replacement.value);
           && BoundedTo(Slots(tool, response), after, Allowance(|Slots(tool, response)|, notice), notice)
           && replacement.value == WithSlots(response, after)
      ensures Head(old(fates)).Ok? && OverBudget(Slots(tool, response), notice) && Replaceable(response) ==>
        replacement.Some?
    {
      var texts := Slots(tool, response);
      if texts == [] || Total(texts) <= OUTPUT_BUDGET || !Replaceable(response) {
        return None;
      }
      var saved := Save(response);
      if !saved {
        return None;
      }
      var slots := new Text[|texts|](i requires 0 <= i < |texts| => texts[i]);
      assert slots[..] == texts;
      var replaced := BoundSlots(slots, notice);
      if !replaced {
        return None;
      }
      SlotsAreReplaced(tool, response, slots[..]);
      replacement := Some(WithSlots(response, slots[..]));
    }
  }

  // ------------------------------------------------------------ compaction attempts

  // What is stored for a conversation; more attempts than allowed are invalid.
  datatype Stored = Missing | Damaged | Attempts(count: nat)

  datatype Event = Prompted | Compacted(hasSummary: bool) | Compacting(auto: bool)

  datatype Reply = Quiet | Block | Unavailable

  // One event, the reply, and whether the new number of attempts was stored.
  datatype Handled = Handled(event: Event, reply: Reply, kept: bool)

  // Whether the lock and the state can be had, and what becomes of the store: it may
  // also raise after it has taken effect.
  datatype Access = Denied | Opened(storing: Storing)

  datatype Storing = Kept | Lost | KeptButRaised

  predicate Resets(e: Event) {
    e.Prompted? || (e.Compacted? && e.hasSummary)
  }

  predicate IsAuto(e: Event) {
    e.Compacting? && e.auto
  }

  // The compactions stored since a reset was.
  function Tries(log: seq<Handled>): nat {
    if log == [] then 0
    else
      var last := log[|log| - 1];
      if !last.kept then Tries(log[..|log| - 1])
      else if Resets(last.event) then 0
      else Tries(log[..|log| - 1]) + if last.event.Compacting? then 1 else 0
  }

  // The automatic compactions since the last reset that went ahead: a guard that is
  // unavailable stops nothing.
  function Passed(log: seq<Handled>): nat {
    if log == [] then 0
    else
      var last := log[|log| - 1];
      if Resets(last.event) then 0
      else Passed(log[..|log| - 1]) + if IsAuto(last.event) && !last.reply.Block? then 1 else 0
  }

  // Those of them that met an unavailable guard.
  function Missed(log: seq<Handled>): nat {
    if log == [] then 0
    else
      var last := log[|log| - 1];
      if Resets(last.event) then 0
      else Missed(log[..|log| - 1]) + if IsAuto(last.event) && last.reply.Unavailable? then 1 else 0
  }

  class CompactionGuard {
    var stored: Stored
    var accesses: seq<Access>
    ghost var log: seq<Handled>

    ghost predicate Valid()
      reads this
    {
      && (stored.Missing? ==> Tries(log) == 0)
      && (stored.Attempts? ==> stored.count == if Tries(log) < MAX_ATTEMPTS then Tries(log) else MAX_ATTEMPTS)
      && Passed(log) <= Missed(log) + match stored
                                      case Missing => 0
                                      case Damaged => MAX_ATTEMPTS
                                      case Attempts(count) => count
    }

    constructor (accesses: seq<Access>)
      ensures Valid() && stored == Missing && log == [] && this.accesses == accesses
    {
      this.stored := Missing;
      this.accesses := accesses;
      this.log := [];
    }

    // Somebody else spoils the state.
    method Damage()
      requires Valid()
      modifies this`stored
      ensures Valid() && stored == Damaged
    {
      stored := Damaged;
    }

    function Next(): Access
      reads this
    {
      if accesses == [] then Opened(Kept) else accesses[0]
    }

    // The reply to an event when the state could be read, and what to store, if anything.
    function Decide(attempts: nat, e: Event): (r: (Reply, Option<nat>)) {
      if e.Compacted? && !e.hasSummary then (Quiet, None)
      else if !e.Compacting? then (Quiet, Some(0))
      else if e.auto && attempts >= MAX_ATTEMPTS then (Block, None)
      else (Quiet, Some(if attempts + 1 < MAX_ATTEMPTS then attempts + 1 else MAX_ATTEMPTS))
    }

    /** Between two resets the automatic compactions that go ahead are at most as many
        as allowed and those that met an unavailable guard; one is blocked exactly when
        the guard is available and that many are stored, a manual one never. */
    method Handle(e: Event) returns (reply: Reply)
      requires Valid()
      modifies this
      ensures Valid() && Passed(log) <= MAX_ATTEMPTS + Missed(log)
      ensures |log| == |old(log)| + 1 && log == old(log) + [Handled(e, reply, log[|old(log)|].kept)]
      ensures reply.Block? <==>
        old(Next()).Opened? && !old(stored).Damaged? && IsAuto(e) && Tries(old(log)) >= MAX_ATTEMPTS
      ensures reply.Unavailable? <==>
        old(stored).Damaged? || old(Next()).Denied?
        || ((Resets(e) || (e.Compacting? && !reply.Block?)) && !old(Next()).storing.Kept?)
      ensures log[|old(log)|].kept <==>
        && !old(stored).Damaged? && old(Next()).Opened? && !old(Next()).storing.Lost?
        && (Resets(e) || (e.Compacting? && !(e.auto && Tries(old(log)) >= MAX_ATTEMPTS)))
      ensures if log[|old(log)|].kept then stored.Attempts? else stored == old(stored)
      ensures reply.Quiet? ==> log[|old(log)|].kept || (e.Compacted? && !e.hasSummary)
      ensures accesses == if old(accesses) == [] then [] else old(accesses)[1..]
    {
      var access, kept := Next(), false;
      accesses := if accesses == [] then [] else accesses[1..];
      reply := Unavailable;
      if access.Opened? && !stored.Damaged? {
        var decision := Decide(if stored.Missing? then 0 else stored.count, e);
        reply := decision.0;
        if decision.1.Some? {
          kept := !access.storing.Lost?;
          if kept {
            stored := Attempts(decision.1.value);
          }
          if !access.storing.Kept? {
            reply := Unavailable;
          }
        }
      }
      log := log + [Handled(e, reply, kept)];
      assert log[..|log| - 1] == old(log);
    }
  }

  /** The bound is met: with n denials as many more go ahead, and then the guard
      blocks. */
  method DenialsLetThrough(n: nat) returns (guard: CompactionGuard, last: Reply)
    ensures fresh(guard) && guard.Valid() && last.Block?
    ensures Missed(guard.log) == n && Passed(guard.log) == MAX_ATTEMPTS + n
  {
    guard := new CompactionGuard(seq(n, i => Denied));
    for i := 0 to n + MAX_ATTEMPTS
      invariant guard.Valid() && !guard.stored.Damaged? && |guard.log| == i
      invariant |guard.accesses| == if i < n then n - i else 0
      invariant forall k :: 0 <= k < |guard.accesses| ==> guard.accesses[k].Denied?
      invariant Missed(guard.log) == (if i < n then i else n) && Passed(guard.log) == i
      invariant Tries(guard.log) == i - Missed(guard.log)
    {
      ghost var before := guard.log;
      last := guard.Handle(Compacting(true));
      assert guard.log[..|guard.log| - 1] == before;
    }
    ghost var before := guard.log;
    last := guard.Handle(Compacting(true));
    assert guard.log[..|guard.log| - 1] == before;
  }
}
