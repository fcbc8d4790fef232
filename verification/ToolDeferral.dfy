/** Deferring non-resident client tools in a model request
    (integrations/common/tool_deferral.py). A JSON object is a map: the order
    of its keys is not modelled.
 */
module ToolDeferral {
  import opened Options

  // The keys the code looks at, and every other one.
  datatype Key = CacheControl | DeferLoading | InputSchema | Model | Name | Tools | Type | Other(text: string)

  datatype Json =
    | Null
    | Bool(value: bool)
    | Number(number: int)
    | Text(text: string)
    | Array(items: seq<Json>)
    | Object(fields: map<Key, Json>)

  // A request body, as far as it parses.  An excessive one holds an integer of more
  // digits than the parser converts, and the error for that is not a syntax error.
  datatype Body = Malformed(raw: seq<int>) | Excessive(raw: seq<int>) | Parsed(document: Json)

  datatype TransformResult = TransformResult(body: Body, transformed: bool)

  type Names = set<string>

  const MINIMUM_TOOLS := 12
  const SEARCH_TYPE := "tool_search_tool_regex_20251119"
  const SEARCH_NAME := "tool_search_tool_regex"
  const VERIFIED_MODELS: Names := {
    "gpt-5.6-sol", "gpt-5.6-terra", "claude-sonnet-5", "claude-opus-4-8",
    "claude-opus-5", "claude-opus-4-6-thinking"
  }
  const LEAN_RESIDENT_NAMES: Names := {
    "mcp__leanctx__ctx_read", "mcp__leanctx__ctx_search",
    "mcp__leanctx__ctx_tree", "mcp__leanctx__ctx_shell"
  }
  const FULL_RESIDENT_NAMES: Names := LEAN_RESIDENT_NAMES + {
    "mcp__leanctx__ctx_graph", "mcp__leanctx__ctx_impact", "mcp__leanctx__ctx_callgraph",
    "mcp__leanctx__ctx_patch", "mcp__leanctx__ctx_expand"
  }
  const ALL_LEANCTX_NAMES: Names := FULL_RESIDENT_NAMES + {
    "mcp__leanctx__ctx_knowledge", "mcp__leanctx__ctx_overview"
  }

  // ------------------------------------------------------------- predicates

  predicate HasText(tool: Json, key: Key) {
    tool.Object? && key in tool.fields && tool.fields[key].Text?
  }

  predicate HasObject(tool: Json, key: Key) {
    tool.Object? && key in tool.fields && tool.fields[key].Object?
  }

  predicate HasItems(tool: Json, key: Key) {
    tool.Object? && key in tool.fields && tool.fields[key].Array?
  }

  predicate NamedIn(tool: Json, names: Names) {
    HasText(tool, Name) && tool.fields[Name].text in names
  }

  predicate IsToolSearch(tool: Json) {
    HasText(tool, Type) && tool.fields[Type].text == SEARCH_TYPE
  }

  predicate IsDeferred(tool: Json) {
    tool.Object? && DeferLoading in tool.fields && tool.fields[DeferLoading] == Bool(true)
  }

  predicate HasMarker(tool: Json) {
    tool.Object? && CacheControl in tool.fields
  }

  predicate WellFormedTool(tool: Json) {
    && HasText(tool, Name)
    && if Type in tool.fields then
         tool.fields[Type].Text? && (InputSchema in tool.fields ==> tool.fields[InputSchema].Object?)
       else
         HasObject(tool, InputSchema)
  }

  predicate EligibleClientTool(tool: Json) {
    HasText(tool, Name) && HasObject(tool, InputSchema) && !HasText(tool, Type)
  }

  predicate IsResident(tool: Json, residents: Names) {
    EligibleClientTool(tool) && NamedIn(tool, residents)
  }

  function AfterLastSlash(s: string): (r: string)
    ensures '/' !in r
    ensures '/' !in s ==> r == s
  {
    if s == [] then []
    else if s[|s| - 1] == '/' then []
    else AfterLastSlash(s[..|s| - 1]) + [s[|s| - 1]]
  }

  // What is behind the last slash ends the text, at its start or behind a slash.
  lemma {:induction false} AfterLastSlashEnds(s: string) returns (front: string)
    ensures s == front + AfterLastSlash(s)
    ensures front == "" || front[|front| - 1] == '/'
  {
    if s == "" || s[|s| - 1] == '/' {
      front := s;
    } else {
      front := AfterLastSlashEnds(s[..|s| - 1]);
      assert s == s[..|s| - 1] + [s[|s| - 1]];
    }
  }

  predicate IsVerifiedModel(document: Json) {
    HasText(document, Model) && AfterLastSlash(document.fields[Model].text) in VERIFIED_MODELS
  }

  // ----------------------------------------------------------- specification

  predicate Deferrable(tools: seq<Json>) {
    && |tools| >= MINIMUM_TOOLS
    && (forall i :: 0 <= i < |tools| ==> WellFormedTool(tools[i]) && !IsToolSearch(tools[i]) && !IsDeferred(tools[i]))
    && exists i :: 0 <= i < |tools| && NamedIn(tools[i], ALL_LEANCTX_NAMES)
  }

  // The requests that may be transformed at all.
  predicate Transformable(body: Body) {
    && body.Parsed? && IsVerifiedModel(body.document)
    && Tools in body.document.fields && body.document.fields[Tools].Array?
    && Deferrable(body.document.fields[Tools].items)
  }

  function ToolsOf(body: Body): seq<Json>
    requires Transformable(body)
  {
    body.document.fields[Tools].items
  }

  function Deferred(tool: Json, residents: Names): Json {
    if EligibleClientTool(tool) && !NamedIn(tool, residents) then
      Object(tool.fields[DeferLoading := Bool(true)])
    else tool
  }

  function DeferAll(tools: seq<Json>, residents: Names): (r: seq<Json>)
    ensures |r| == |tools|
    ensures forall i :: 0 <= i < |tools| ==> r[i] == Deferred(tools[i], residents)
  {
    if tools == [] then []
    else
      var n := |tools| - 1;
      DeferAll(tools[..n], residents) + [Deferred(tools[n], residents)]
  }

  predicate AnyDeferred(tools: seq<Json>) {
    exists i :: 0 <= i < |tools| && IsDeferred(tools[i])
  }

  predicate MarkersAreObjects(tools: seq<Json>) {
    forall i :: 0 <= i < |tools| && HasMarker(tools[i]) ==> tools[i].fields[CacheControl].Object?
  }

  predicate IsSource(tool: Json) {
    IsDeferred(tool) && HasMarker(tool)
  }

  function Sources(tools: seq<Json>): (r: seq<nat>)
    ensures forall k :: 0 <= k < |r| ==> r[k] < |tools| && IsSource(tools[r[k]])
    ensures forall i :: 0 <= i < |tools| && IsSource(tools[i]) ==> i in r
  {
    if tools == [] then []
    else
      var n := |tools| - 1;
      Sources(tools[..n]) + if IsSource(tools[n]) then [n] else []
  }

  // The last resident tool, if there is one; -1 if there is none.
  function LastResident(tools: seq<Json>, residents: Names): (r: int)
    ensures -1 <= r < |tools|
    ensures r >= 0 ==> IsResident(tools[r], residents)
    ensures forall i :: r < i < |tools| ==> !IsResident(tools[i], residents)
  {
    if tools == [] then -1
    else
      var n := |tools| - 1;
      if IsResident(tools[n], residents) then n else LastResident(tools[..n], residents)
  }

  predicate CanMoveMarker(tools: seq<Json>, residents: Names) {
    && MarkersAreObjects(tools)
    && (Sources(tools) != [] ==>
          && |Sources(tools)| == 1
          && LastResident(tools, residents) >= 0
          && !HasMarker(tools[LastResident(tools, residents)]))
  }

  function WithMarker(tool: Json, marker: Json): Json
    requires tool.Object?
  {
    Object(tool.fields[CacheControl := marker])
  }

  function WithoutMarker(tool: Json): Json
    requires tool.Object?
  {
    Object(tool.fields - {CacheControl})
  }

  function MoveMarker(tools: seq<Json>, residents: Names): (r: seq<Json>)
    requires CanMoveMarker(tools, residents)
    ensures |r| == |tools|
  {
    if Sources(tools) == [] then tools
    else
      var source := Sources(tools)[0];
      var resident := LastResident(tools, residents);
      tools[resident := WithMarker(tools[resident], tools[source].fields[CacheControl])]
           [source := WithoutMarker(tools[source])]
  }

  function SearchTool(): Json {
    Object(map[Type := Text(SEARCH_TYPE), Name := Text(SEARCH_NAME)])
  }

  predicate Transforms(body: Body, residents: Names) {
    && Transformable(body)
    && AnyDeferred(DeferAll(ToolsOf(body), residents))
    && CanMoveMarker(DeferAll(ToolsOf(body), residents), residents)
  }

  function TransformedTools(tools: seq<Json>, residents: Names): seq<Json>
    requires CanMoveMarker(DeferAll(tools, residents), residents)
  {
    MoveMarker(DeferAll(tools, residents), residents) + [SearchTool()]
  }

  function Transform(body: Body, residents: Names): TransformResult {
    if Transforms(body, residents) then
      var tools := Array(TransformedTools(ToolsOf(body), residents));
      TransformResult(Parsed(Object(body.document.fields[Tools := tools])), true)
    else TransformResult(body, false)
  }

  // ----------------------------------------------------------------- methods

  method AllMarkersAreObjects(tools: seq<Json>) returns (all: bool)
    ensures all == MarkersAreObjects(tools)
  {
    for i := 0 to |tools|
      invariant forall k :: 0 <= k < i && HasMarker(tools[k]) ==> tools[k].fields[CacheControl].Object?
    {
      if HasMarker(tools[i]) && !tools[i].fields[CacheControl].Object? {
        return false;
      }
    }
    all := true;
  }

  method FindSources(tools: seq<Json>) returns (sources: seq<nat>)
    ensures sources == Sources(tools)
  {
    sources := [];
    for i := 0 to |tools|
      invariant sources == Sources(tools[..i])
    {
      assert tools[..i + 1][..i] == tools[..i];
      if IsSource(tools[i]) {
        sources := sources + [i];
      }
    }
    assert tools[..|tools|] == tools;
  }

  method FindLastResident(tools: seq<Json>, residents: Names) returns (last: int)
    ensures last == LastResident(tools, residents)
  {
    last := |tools| - 1;
    while last >= 0 && !IsResident(tools[last], residents)
      invariant -1 <= last < |tools|
      invariant LastResident(tools, residents) == LastResident(tools[..last + 1], residents)
    {
      assert tools[..last + 1][..last] == tools[..last];
      last := last - 1;
    }
    if last >= 0 {
      assert tools[..last + 1][last] == tools[last];
    }
  }

  /** Moves the cache marker in place, from the one deferred tool that has it to
      the last resident tool; refuses, and changes nothing, when it cannot. */
  method PreserveCacheBreakpoint(tools: array<Json>, residents: Names) returns (kept: bool)
    modifies tools
    ensures kept == CanMoveMarker(old(tools[..]), residents)
    ensures tools[..] == if kept then MoveMarker(old(tools[..]), residents) else old(tools[..])
  {
    var objects := AllMarkersAreObjects(tools[..]);
    if !objects {
      return false;
    }
    var sources := FindSources(tools[..]);
    if sources == [] {
      return true;
    }
    if |sources| != 1 {
      return false;
    }
    var resident := FindLastResident(tools[..], residents);
    if resident < 0 || HasMarker(tools[resident]) {
      return false;
    }
    var source := sources[0];
    var marker := tools[source].fields[CacheControl];
    tools[resident] := WithMarker(tools[resident], marker);
    tools[source] := WithoutMarker(tools[source]);
    kept := true;
  }

  method CopyDeferring(tools: seq<Json>, residents: Names) returns (copied: seq<Json>, some: bool)
    ensures copied == DeferAll(tools, residents) && some == AnyDeferred(copied)
  {
    copied, some := [], false;
    for i := 0 to |tools|
      invariant |copied| == i && forall k :: 0 <= k < i ==> copied[k] == Deferred(tools[k], residents)
      invariant some == AnyDeferred(copied)
    {
      var tool := Deferred(tools[i], residents);
      ghost var before := copied;
      copied := copied + [tool];
      some := some || IsDeferred(tool);
      assert AnyDeferred(before) ==> AnyDeferred(copied) by {
        if AnyDeferred(before) {
          var k :| 0 <= k < |before| && IsDeferred(before[k]);
          assert copied[k] == before[k];
        }
      }
      assert copied[i] == tool;
    }
    assert copied == DeferAll(tools, residents);
  }

  // None: parsing the body raises past the handlers for syntax errors.
  method TransformRequest(body: Body, residents: Names) returns (result: Option<TransformResult>)
    ensures result == if body.Excessive? then None else Some(Transform(body, residents))
  {
    if body.Excessive? {
      return None;
    }
    if !Transformable(body) {
      return Some(TransformResult(body, false));
    }
    var tools := body.document.fields[Tools].items;
    var copied, some := CopyDeferring(tools, residents);
    if !some {
      return Some(TransformResult(body, false));
    }
    var list := new Json[|copied|](i requires 0 <= i < |copied| => copied[i]);
    assert list[..] == copied;
    var kept := PreserveCacheBreakpoint(list, residents);
    if !kept {
      return Some(TransformResult(body, false));
    }
    var transformed := Array(list[..] + [SearchTool()]);
    result := Some(TransformResult(Parsed(Object(body.document.fields[Tools := transformed])), true));
  }

  // -------------------------------------------------------------- properties

  function Marker(tool: Json): multiset<Json> {
    if HasMarker(tool) then multiset{tool.fields[CacheControl]} else multiset{}
  }

  function Markers(tools: seq<Json>): multiset<Json> {
    if tools == [] then multiset{} else Markers(tools[..|tools| - 1]) + Marker(tools[|tools| - 1])
  }

  lemma MarkersOfLast(front: seq<Json>, last: Json)
    ensures Markers(front + [last]) == Markers(front) + Marker(last)
  {
    assert (front + [last])[..|front|] == front;
  }

  lemma AddToBoth(a: multiset<Json>, b: multiset<Json>, c: multiset<Json>, d: multiset<Json>, m: multiset<Json>)
    requires a + b == c + d
    ensures (a + m) + b == (c + m) + d
  {
    assert (a + m) + b == (a + b) + m && (c + m) + d == (c + d) + m;
  }

  lemma {:induction false} MarkersAt(tools: seq<Json>, i: nat, tool: Json)
    requires i < |tools|
    ensures Markers(tools[i := tool]) + Marker(tools[i]) == Markers(tools) + Marker(tool)
  {
    var n := |tools| - 1;
    var front, last := tools[..n], tools[n];
    assert tools == front + [last];
    MarkersOfLast(front, last);
    if i == n {
      assert tools[i := tool] == front + [tool];
      MarkersOfLast(front, tool);
      AddToBoth(Marker(tool), Marker(last), Marker(last), Marker(tool), Markers(front));
    } else {
      assert tools[i := tool] == front[i := tool] + [last];
      MarkersOfLast(front[i := tool], last);
      MarkersAt(front, i, tool);
      AddToBoth(Markers(front[i := tool]), Marker(front[i]), Markers(front), Marker(tool), Marker(last));
    }
  }

  lemma DeferringKeepsMarker(tool: Json, residents: Names)
    ensures Marker(Deferred(tool, residents)) == Marker(tool)
  {
  }

  lemma {:induction false} MarkersOfDeferred(tools: seq<Json>, residents: Names)
    ensures Markers(DeferAll(tools, residents)) == Markers(tools)
  {
    if tools != [] {
      var front, last := tools[..|tools| - 1], tools[|tools| - 1];
      MarkersOfDeferred(front, residents);
      DeferringKeepsMarker(last, residents);
      MarkersOneMore(tools, front, last);
      MarkersOneMore(DeferAll(tools, residents), DeferAll(front, residents), Deferred(last, residents));
    }
  }

  lemma MarkersOneMore(all: seq<Json>, front: seq<Json>, last: Json)
    requires all == front + [last]
    ensures Markers(all) == Markers(front) + Marker(last)
  {
    MarkersOfLast(front, last);
  }

  lemma GivingAMarker(tool: Json, marker: Json)
    requires tool.Object?
    ensures IsDeferred(WithMarker(tool, marker)) == IsDeferred(tool)
    ensures IsDeferred(WithoutMarker(tool)) == IsDeferred(tool)
    ensures Marker(WithMarker(tool, marker)) == multiset{marker} && Marker(WithoutMarker(tool)) == multiset{}
  {
  }

  lemma SourceIsNotResident(tools: seq<Json>, residents: Names)
    requires Sources(tools) != [] && CanMoveMarker(tools, residents)
    ensures Sources(tools)[0] != LastResident(tools, residents)
  {
  }

  lemma MovingKeepsMarkers(tools: seq<Json>, residents: Names)
    requires CanMoveMarker(tools, residents)
    ensures Markers(MoveMarker(tools, residents)) == Markers(tools)
  {
    if Sources(tools) != [] {
      SourceIsNotResident(tools, residents);
      var source, resident := Sources(tools)[0], LastResident(tools, residents);
      MovingOneMarker(tools, source, resident);
    }
  }

  lemma MovingOneMarker(tools: seq<Json>, source: nat, resident: nat)
    requires source < |tools| && resident < |tools| && source != resident
    requires IsSource(tools[source]) && tools[resident].Object? && !HasMarker(tools[resident])
    ensures var marker := tools[source].fields[CacheControl];
            Markers(tools[resident := WithMarker(tools[resident], marker)][source := WithoutMarker(tools[source])])
            == Markers(tools)
  {
    var marker := tools[source].fields[CacheControl];
    var given, bare := WithMarker(tools[resident], marker), WithoutMarker(tools[source]);
    GivingAMarker(tools[resident], marker);
    GivingAMarker(tools[source], marker);
    MarkersAt(tools, resident, given);
    MarkersAt(tools[resident := given], source, bare);
    SwapCancels(Markers(tools), Markers(tools[resident := given]),
                Markers(tools[resident := given][source := bare]), marker);
  }

  lemma SwapCancels(a: multiset<Json>, b: multiset<Json>, c: multiset<Json>, m: Json)
    requires b + multiset{} == a + multiset{m} && c + multiset{m} == b + multiset{}
    ensures c == a
  {
    assert c == (c + multiset{m}) - multiset{m};
    assert a == (a + multiset{m}) - multiset{m};
    assert c + multiset{m} == a + multiset{m};
  }

  // ------------------------------------------------ what happens to a tool

  // A tool that takes part: named, with a schema or a type of its own, no search tool
  // and not deferred yet.
  ghost predicate Proper(tool: Json) {
    && tool.Object? && Name in tool.fields && tool.fields[Name].Text?
    && (Type in tool.fields || InputSchema in tool.fields)
    && (Type in tool.fields ==> tool.fields[Type].Text? && tool.fields[Type].text != SEARCH_TYPE)
    && (InputSchema in tool.fields ==> tool.fields[InputSchema].Object?)
    && (DeferLoading in tool.fields ==> tool.fields[DeferLoading] != Bool(true))
  }

  // The tools without a type are the client's.
  ghost predicate ToDefer(tool: Json, residents: Names)
    requires Proper(tool)
  {
    Type !in tool.fields && tool.fields[Name].text !in residents
  }

  ghost predicate Resident(tool: Json, residents: Names)
    requires Proper(tool)
  {
    Type !in tool.fields && tool.fields[Name].text in residents
  }

  lemma ProperWhen(tool: Json)
    ensures Proper(tool) <==> WellFormedTool(tool) && !IsToolSearch(tool) && !IsDeferred(tool)
  {
  }

  lemma DeferredWhen(tool: Json, residents: Names)
    requires Proper(tool)
    ensures var after := Deferred(tool, residents);
            && after.Object?
            && (IsDeferred(after) <==> ToDefer(tool, residents))
            && (IsResident(after, residents) <==> Resident(tool, residents))
            && (CacheControl in after.fields <==> CacheControl in tool.fields)
            && (CacheControl in tool.fields ==> after.fields[CacheControl] == tool.fields[CacheControl])
  {
    ProperWhen(tool);
  }

  ghost predicate AllProper(tools: seq<Json>) {
    forall i :: 0 <= i < |tools| ==> Proper(tools[i])
  }

  // The one tool to defer with a marker, and the last resident, which has none.
  ghost predicate MovesBetween(tools: seq<Json>, residents: Names, source: nat, last: nat)
    requires AllProper(tools)
  {
    && source < |tools| && ToDefer(tools[source], residents) && CacheControl in tools[source].fields
    && (forall i :: 0 <= i < |tools| && i != source && ToDefer(tools[i], residents) ==>
          CacheControl !in tools[i].fields)
    && last < |tools| && Resident(tools[last], residents) && CacheControl !in tools[last].fields
    && (forall i :: last < i < |tools| ==> !Resident(tools[i], residents))
  }

  // What the transformation did to one tool of the request.
  ghost predicate ToolKept(before: Json, after: Json, residents: Names) {
    && Proper(before) && after.Object?
    && (forall k :: k != DeferLoading && k != CacheControl ==> SameField(before, after, k))
    && if ToDefer(before, residents) then
         DeferLoading in after.fields && after.fields[DeferLoading] == Bool(true) && CacheControl !in after.fields
       else
         SameField(before, after, DeferLoading)
  }

  ghost predicate SameField(a: Json, b: Json, k: Key)
    requires a.Object? && b.Object?
  {
    (k in a.fields <==> k in b.fields) && (k in a.fields ==> a.fields[k] == b.fields[k])
  }

  // No marker has moved, or the one of a tool to defer to the last resident.
  ghost predicate MarkersKept(before: seq<Json>, after: seq<Json>, residents: Names)
    requires AllProper(before) && |after| >= |before|
    requires forall i :: 0 <= i < |before| ==> after[i].Object?
  {
    || (forall i :: 0 <= i < |before| ==> SameField(before[i], after[i], CacheControl))
    || exists source, last :: MovesBetween(before, residents, source, last) && MarkerMoved(before, after, source, last)
  }

  ghost predicate MarkerMoved(before: seq<Json>, after: seq<Json>, source: nat, last: nat)
    requires AllProper(before) && |after| >= |before|
    requires forall i :: 0 <= i < |before| ==> after[i].Object?
    requires source < |before| && last < |before| && CacheControl in before[source].fields
  {
    && CacheControl !in after[source].fields && CacheControl in after[last].fields
    && after[last].fields[CacheControl] == before[source].fields[CacheControl]
    && (forall i :: 0 <= i < |before| && i != source && i != last ==> SameField(before[i], after[i], CacheControl))
  }

  lemma {:induction false} SourcesIncrease(tools: seq<Json>)
    ensures forall j, k :: 0 <= j < k < |Sources(tools)| ==> Sources(tools)[j] < Sources(tools)[k]
    ensures |Sources(tools)| > 1 ==> Sources(tools)[0] < Sources(tools)[1]
  {
    if tools != [] {
      SourcesIncrease(tools[..|tools| - 1]);
    }
  }

  ghost predicate OnlySource(tools: seq<Json>, i: nat) {
    i < |tools| && IsSource(tools[i]) && forall k :: 0 <= k < |tools| && k != i ==> !IsSource(tools[k])
  }

  lemma OneSource(tools: seq<Json>)
    requires |Sources(tools)| == 1
    ensures OnlySource(tools, Sources(tools)[0])
  {
  }

  lemma OnlyOneSource(tools: seq<Json>, i: nat)
    requires OnlySource(tools, i)
    ensures Sources(tools) == [i]
  {
    var sources := Sources(tools);
    SourcesIncrease(tools);
    assert i in sources;
    assert forall k :: 0 <= k < |sources| ==> sources[k] == i;
  }

  lemma SourceAfterDeferring(tools: seq<Json>, residents: Names, i: nat)
    requires AllProper(tools) && i < |tools|
    ensures IsSource(DeferAll(tools, residents)[i]) <==>
      ToDefer(tools[i], residents) && CacheControl in tools[i].fields
  {
    DeferredWhen(tools[i], residents);
  }

  // The two lists have the same sources, residents and markers.
  ghost predicate SameMarkers(tools: seq<Json>, after: seq<Json>, residents: Names)
    requires AllProper(tools)
  {
    && |after| == |tools|
    && (forall i :: 0 <= i < |tools| ==>
          (IsSource(after[i]) <==> ToDefer(tools[i], residents) && CacheControl in tools[i].fields))
    && (forall i :: 0 <= i < |tools| ==> (IsResident(after[i], residents) <==> Resident(tools[i], residents)))
    && (forall i :: 0 <= i < |tools| ==> (HasMarker(after[i]) <==> CacheControl in tools[i].fields))
    && (forall i :: 0 <= i < |tools| && CacheControl in tools[i].fields ==>
          after[i].fields[CacheControl] == tools[i].fields[CacheControl])
  }

  lemma DeferringKeepsMarkers(tools: seq<Json>, residents: Names)
    requires AllProper(tools)
    ensures SameMarkers(tools, DeferAll(tools, residents), residents)
  {
    forall i | 0 <= i < |tools|
      ensures var after := DeferAll(tools, residents)[i];
              && (IsSource(after) <==> ToDefer(tools[i], residents) && CacheControl in tools[i].fields)
              && (IsResident(after, residents) <==> Resident(tools[i], residents))
              && (HasMarker(after) <==> CacheControl in tools[i].fields)
              && (HasMarker(after) ==> after.fields[CacheControl] == tools[i].fields[CacheControl])
    {
      DeferredWhen(tools[i], residents);
    }
  }

  // A step changes nothing of a tool but its marker.
  ghost predicate OnlyMarker(a: Json, b: Json) {
    a.Object? && b.Object? && forall k :: k != CacheControl ==> SameField(a, b, k)
  }

  lemma MovingOne(tools: seq<Json>, residents: Names, i: nat)
    requires CanMoveMarker(tools, residents) && i < |tools|
    ensures tools[i].Object? ==> OnlyMarker(tools[i], MoveMarker(tools, residents)[i])
    ensures IsDeferred(tools[i]) && !IsResident(tools[i], residents) ==> !HasMarker(MoveMarker(tools, residents)[i])
  {
    if Sources(tools) != [] {
      SourceIsNotResident(tools, residents);
      OneSource(tools);
    }
  }

  lemma ToolsKept(tools: seq<Json>, residents: Names, i: nat)
    requires CanMoveMarker(DeferAll(tools, residents), residents)
    requires i < |tools| && Proper(tools[i])
    ensures ToolKept(tools[i], TransformedTools(tools, residents)[i], residents)
  {
    DeferredWhen(tools[i], residents);
    MovingOne(DeferAll(tools, residents), residents, i);
  }

  lemma MarkersAreKept(tools: seq<Json>, residents: Names)
    requires AllProper(tools) && CanMoveMarker(DeferAll(tools, residents), residents)
    requires forall i :: 0 <= i < |tools| ==> TransformedTools(tools, residents)[i].Object?
    ensures MarkersKept(tools, TransformedTools(tools, residents), residents)
  {
    var deferred, out := DeferAll(tools, residents), TransformedTools(tools, residents);
    DeferringKeepsMarkers(tools, residents);
    if Sources(deferred) != [] {
      OneSource(deferred);
      SourceIsNotResident(deferred, residents);
      var source, last := Sources(deferred)[0], LastResident(deferred, residents);
      assert MovesBetween(tools, residents, source, last);
      assert MarkerMoved(tools, out, source, last);
    }
  }

  lemma SearchToolHasNoMarker(tools: seq<Json>)
    ensures Markers(tools + [SearchTool()]) == Markers(tools)
  {
    MarkersOfLast(tools, SearchTool());
    assert !HasMarker(SearchTool());
  }

  lemma MarkersOfTransformed(tools: seq<Json>, residents: Names)
    requires CanMoveMarker(DeferAll(tools, residents), residents)
    ensures Markers(TransformedTools(tools, residents)) == Markers(tools)
  {
    MarkersOfDeferred(tools, residents);
    MovingKeepsMarkers(DeferAll(tools, residents), residents);
    SearchToolHasNoMarker(MoveMarker(DeferAll(tools, residents), residents));
  }

  // The tools a transformed request carries, against those it came with.
  ghost predicate ToolsTransformed(before: seq<Json>, after: seq<Json>, residents: Names) {
    && |after| == |before| + 1 && AllProper(before)
    && after[|before|] == Object(map[Type := Text(SEARCH_TYPE), Name := Text(SEARCH_NAME)])
    && (forall i :: 0 <= i < |before| ==> ToolKept(before[i], after[i], residents))
    && (exists i :: 0 <= i < |before| && ToDefer(before[i], residents))
    && MarkersKept(before, after, residents)
    && Markers(after) == Markers(before)
  }

  lemma ToolsAreTransformed(tools: seq<Json>, residents: Names)
    requires Deferrable(tools) && AnyDeferred(DeferAll(tools, residents))
    requires CanMoveMarker(DeferAll(tools, residents), residents)
    ensures ToolsTransformed(tools, TransformedTools(tools, residents), residents)
  {
    DeferrableWhen(tools);
    SomeIsDeferred(tools, residents);
    forall i | 0 <= i < |tools|
      ensures ToolKept(tools[i], TransformedTools(tools, residents)[i], residents)
    {
      ToolsKept(tools, residents, i);
    }
    MarkersAreKept(tools, residents);
    MarkersOfTransformed(tools, residents);
  }

  /** A transformed request keeps every tool, in order, changing nothing but
      defer_loading and cache_control; it defers exactly the client tools that are
      not resident; it adds one search tool at the end and keeps the rest of the
      document; every cache marker survives once, and never on a deferred tool. */
  lemma TransformKeepsTheRequest(body: Body, residents: Names)
    requires Transform(body, residents).transformed
    ensures Transform(body, residents).body.Parsed?
    ensures var before := body.document.fields;
            var after := Transform(body, residents).body.document;
            && after.Object? && after.fields - {Tools} == before - {Tools}
            && Tools in after.fields && after.fields[Tools].Array?
            && ToolsTransformed(before[Tools].items, after.fields[Tools].items, residents)
  {
    ToolsAreTransformed(ToolsOf(body), residents);
    OthersKept(body.document.fields, Array(TransformedTools(ToolsOf(body), residents)));
  }

  lemma OthersKept(fields: map<Key, Json>, tools: Json)
    ensures fields[Tools := tools] - {Tools} == fields - {Tools}
  {
  }

  // --------------------------------------------- when a request is transformed

  // The marker of the tool to defer, if one has it, can go to the last resident.
  ghost predicate HasRoom(tools: seq<Json>, residents: Names)
    requires AllProper(tools)
  {
    || (forall i :: 0 <= i < |tools| && ToDefer(tools[i], residents) ==> CacheControl !in tools[i].fields)
    || exists source, last :: MovesBetween(tools, residents, source, last)
  }

  lemma MovableHasRoom(tools: seq<Json>, after: seq<Json>, residents: Names)
    requires AllProper(tools) && SameMarkers(tools, after, residents)
    requires CanMoveMarker(after, residents)
    ensures HasRoom(tools, residents)
  {
    if Sources(after) != [] {
      OneSource(after);
      assert MovesBetween(tools, residents, Sources(after)[0], LastResident(after, residents));
    }
  }

  lemma RoomIsMovable(tools: seq<Json>, after: seq<Json>, residents: Names)
    requires AllProper(tools) && SameMarkers(tools, after, residents)
    requires MarkersAreObjects(after) && HasRoom(tools, residents)
    ensures CanMoveMarker(after, residents)
  {
    if Sources(after) != [] {
      var k := Sources(after)[0];
      assert IsSource(after[k]) && ToDefer(tools[k], residents);
      var source: nat, last: nat :| MovesBetween(tools, residents, source, last);
      assert OnlySource(after, source);
      OnlyOneSource(after, source);
      LastIs(after, residents, last);
    }
  }

  lemma LastIs(tools: seq<Json>, residents: Names, last: nat)
    requires last < |tools| && IsResident(tools[last], residents)
    requires forall i :: last < i < |tools| ==> !IsResident(tools[i], residents)
    ensures LastResident(tools, residents) == last
  {
  }

  lemma RoomWhen(tools: seq<Json>, residents: Names)
    requires AllProper(tools)
    ensures CanMoveMarker(DeferAll(tools, residents), residents) <==>
      MarkersFit(tools) && HasRoom(tools, residents)
  {
    var after := DeferAll(tools, residents);
    DeferringKeepsMarkers(tools, residents);
    assert MarkersAreObjects(after) <==> MarkersFit(tools);
    if CanMoveMarker(after, residents) {
      MovableHasRoom(tools, after, residents);
    }
    if MarkersFit(tools) && HasRoom(tools, residents) {
      RoomIsMovable(tools, after, residents);
    }
  }

  ghost predicate MarkersFit(tools: seq<Json>)
    requires AllProper(tools)
  {
    forall i :: 0 <= i < |tools| && CacheControl in tools[i].fields ==> tools[i].fields[CacheControl].Object?
  }

  lemma DeferrableWhen(tools: seq<Json>)
    ensures Deferrable(tools) <==>
      && |tools| >= 12 && AllProper(tools)
      && exists i :: 0 <= i < |tools| && tools[i].fields[Name].text in ALL_LEANCTX_NAMES
  {
    forall i | 0 <= i < |tools|
      ensures Proper(tools[i]) <==> WellFormedTool(tools[i]) && !IsToolSearch(tools[i]) && !IsDeferred(tools[i])
      ensures Proper(tools[i]) ==>
        (NamedIn(tools[i], ALL_LEANCTX_NAMES) <==> tools[i].fields[Name].text in ALL_LEANCTX_NAMES)
    {
      ProperWhen(tools[i]);
    }
  }

  /** Exactly the requests that are transformed: those for a verified model with at
      least twelve proper tools, some of them known, some of them to be deferred, and a
      place for the cache marker. */
  lemma TransformsWhen(body: Body, residents: Names)
    ensures Transform(body, residents).transformed <==>
      && body.Parsed? && body.document.Object?
      && var fields := body.document.fields;
      && Model in fields && fields[Model].Text? && AfterLastSlash(fields[Model].text) in VERIFIED_MODELS
      && Tools in fields && fields[Tools].Array?
      && var tools := fields[Tools].items;
      && |tools| >= 12 && AllProper(tools)
      && (exists i :: 0 <= i < |tools| && tools[i].fields[Name].text in ALL_LEANCTX_NAMES)
      && (exists i :: 0 <= i < |tools| && ToDefer(tools[i], residents))
      && (forall i :: 0 <= i < |tools| && CacheControl in tools[i].fields ==> tools[i].fields[CacheControl].Object?)
      && HasRoom(tools, residents)
  {
    if body.Parsed? && HasItems(body.document, Tools) {
      var tools := body.document.fields[Tools].items;
      DeferrableWhen(tools);
      if AllProper(tools) {
        SomeIsDeferred(tools, residents);
        RoomWhen(tools, residents);
      }
    }
  }

  lemma SomeIsDeferred(tools: seq<Json>, residents: Names)
    requires AllProper(tools)
    ensures AnyDeferred(DeferAll(tools, residents)) <==> exists i :: 0 <= i < |tools| && ToDefer(tools[i], residents)
  {
    forall i | 0 <= i < |tools|
      ensures IsDeferred(DeferAll(tools, residents)[i]) <==> ToDefer(tools[i], residents)
    {
      DeferredWhen(tools[i], residents);
    }
  }

  lemma SearchToolStopsDeferral(tools: seq<Json>)
    requires |tools| > 0 && tools[|tools| - 1] == SearchTool()
    ensures !Deferrable(tools)
  {
    assert IsToolSearch(tools[|tools| - 1]);
  }

  /** The output is never transformed again, whatever the resident names. */
  lemma TransformIsIdempotent(body: Body, residents: Names, others: Names)
    requires Transform(body, residents).transformed
    ensures var once := Transform(body, residents).body;
            Transform(once, others) == TransformResult(once, false)
  {
    var out := Transform(body, residents).body.document.fields[Tools].items;
    SearchToolStopsDeferral(out);
  }

  function ExampleTool(name: string): Json {
    Object(map[Name := Text(name), InputSchema := Object(map[])])
  }

  function ExampleTools(): (r: seq<Json>)
    ensures |r| == 12 && r[0] == ExampleTool("mcp__leanctx__ctx_read")
    ensures forall i :: 1 <= i < 12 ==> r[i] == ExampleTool("Other")
  {
    [ExampleTool("mcp__leanctx__ctx_read")] + seq(11, i => ExampleTool("Other"))
  }

  function ExampleBody(): Body {
    Parsed(Object(map[Model := Text("gpt-5.6-sol"), Tools := Array(ExampleTools())]))
  }

  lemma ExampleIsTransformable()
    ensures Transformable(ExampleBody()) && ToolsOf(ExampleBody()) == ExampleTools()
  {
    var tools := ExampleTools();
    var model := "gpt-5.6-sol";
    assert '/' !in model;
    assert model in VERIFIED_MODELS;
    assert NamedIn(tools[0], ALL_LEANCTX_NAMES);
    forall i | 0 <= i < |tools|
      ensures WellFormedTool(tools[i]) && !IsToolSearch(tools[i]) && !IsDeferred(tools[i])
    {
    }
    assert Deferrable(tools);
  }

  lemma {:induction false} NoMarkersNoSources(tools: seq<Json>)
    requires forall i :: 0 <= i < |tools| ==> !HasMarker(tools[i])
    ensures Sources(tools) == [] && MarkersAreObjects(tools)
  {
    if tools != [] {
      NoMarkersNoSources(tools[..|tools| - 1]);
    }
  }

  lemma OtherIsDeferred(tool: Json)
    requires tool == ExampleTool("Other")
    ensures IsDeferred(Deferred(tool, FULL_RESIDENT_NAMES))
  {
    assert "Other"[0] == 'O';
    assert forall n :: n in FULL_RESIDENT_NAMES ==> n[0] == 'm';
  }

  lemma UnmarkedIsTransformed(body: Body, residents: Names)
    requires Transformable(body) && AnyDeferred(DeferAll(ToolsOf(body), residents))
    requires forall i :: 0 <= i < |ToolsOf(body)| ==> !HasMarker(Deferred(ToolsOf(body)[i], residents))
    ensures Transform(body, residents).transformed
  {
    NoMarkersNoSources(DeferAll(ToolsOf(body), residents));
  }

  lemma ExampleIsUnmarked(name: string, residents: Names)
    ensures !HasMarker(Deferred(ExampleTool(name), residents))
  {
  }

  /** Twelve client tools, one of them resident, are transformed for a verified model. */
  lemma ExampleIsTransformed()
    ensures Transform(ExampleBody(), FULL_RESIDENT_NAMES).transformed
  {
    ExampleIsTransformable();
    var tools := ExampleTools();
    OtherIsDeferred(tools[1]);
    assert IsDeferred(DeferAll(tools, FULL_RESIDENT_NAMES)[1]);
    forall i | 0 <= i < |tools|
      ensures !HasMarker(Deferred(tools[i], FULL_RESIDENT_NAMES))
    {
      ExampleIsUnmarked(if i == 0 then "mcp__leanctx__ctx_read" else "Other", FULL_RESIDENT_NAMES);
    }
    UnmarkedIsTransformed(ExampleBody(), FULL_RESIDENT_NAMES);
  }
}
