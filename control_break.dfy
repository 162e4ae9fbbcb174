/**
 * The control-break engine as functions: the group keys of a record, the
 * levels that change between two key vectors, the group states and their
 * contexts, and the bands one pass over the records emits.  Every function
 * here follows one step of the report's `render` loop; the `Report` class
 * runs the same steps imperatively and is proved to agree with them.
 */
module ControlBreak {
  import opened Wrappers
  import opened Values
  import opened Aggregates
  import opened GroupBuilders

  // ---------------------------------------------------------------------------
  // Group keys

  /** The key of one level for a record. */
  function GroupKey(spec: GroupSpec, rec: Record): string {
    KeyString(Eval(spec.expression, rec))
  }

  /** One key per configured level, in level order. */
  function GroupKeys(specs: seq<GroupSpec>, rec: Record): (keys: seq<string>)
    ensures |keys| == |specs|
  {
    if specs == [] then [] else GroupKeys(specs[..|specs| - 1], rec) + [GroupKey(specs[|specs| - 1], rec)]
  }

  lemma GroupKeysNext(specs: seq<GroupSpec>, rec: Record, i: nat)
    requires i < |specs|
    ensures GroupKeys(specs[..i + 1], rec) == GroupKeys(specs[..i], rec) + [GroupKey(specs[i], rec)]
  {
    assert specs[..i + 1][..i] == specs[..i];
  }

  /** Key `i` is the key of level `i`. */
  lemma {:induction false} GroupKeysAt(specs: seq<GroupSpec>, rec: Record, i: nat)
    requires i < |specs|
    ensures GroupKeys(specs, rec)[i] == GroupKey(specs[i], rec)
    decreases |specs|
  {
    if i < |specs| - 1 {
      GroupKeysAt(specs[..|specs| - 1], rec, i);
    }
  }

  // ---------------------------------------------------------------------------
  // Changed levels: an ordered list of (level, new key) pairs

  /** The first loop of the detection after `n` iterations: levels below `n` whose key differs. */
  function Differing(prev: seq<string>, cur: seq<string>, n: nat): seq<(nat, string)>
    requires n <= |prev| && n <= |cur|
  {
    if n == 0 then []
    else Differing(prev, cur, n - 1) + (if prev[n - 1] != cur[n - 1] then [(n - 1, cur[n - 1])] else [])
  }

  /** The second loop after reaching `n`: every level from `from` below `n`. */
  function Appended(cur: seq<string>, from: nat, n: nat): seq<(nat, string)>
    requires from <= n <= |cur|
    decreases n
  {
    if n == from then [] else Appended(cur, from, n - 1) + [(n - 1, cur[n - 1])]
  }

  function MinLength(prev: seq<string>, cur: seq<string>): nat {
    if |prev| <= |cur| then |prev| else |cur|
  }

  /** `detectGroupChanges(previous, current)`. */
  function DetectChanges(prev: seq<string>, cur: seq<string>): seq<(nat, string)> {
    var m := MinLength(prev, cur);
    Differing(prev, cur, m) + Appended(cur, m, |cur|)
  }

  predicate LevelsBelow(changed: seq<(nat, string)>, n: nat) {
    forall j :: 0 <= j < |changed| ==> changed[j].0 < n
  }

  /** Every change names a level of `cur` and carries that level's new key. */
  predicate ChangesOf(changed: seq<(nat, string)>, cur: seq<string>, from: nat, n: nat) {
    forall j :: 0 <= j < |changed| ==>
      from <= changed[j].0 < n && changed[j].0 < |cur| && changed[j].1 == cur[changed[j].0]
  }

  lemma {:induction false} DifferingChanges(prev: seq<string>, cur: seq<string>, n: nat)
    requires n <= |prev| && n <= |cur|
    ensures ChangesOf(Differing(prev, cur, n), cur, 0, n)
  {
    if n > 0 {
      DifferingChanges(prev, cur, n - 1);
    }
  }

  lemma {:induction false} AppendedChanges(cur: seq<string>, from: nat, n: nat)
    requires from <= n <= |cur|
    ensures ChangesOf(Appended(cur, from, n), cur, from, n)
    decreases n
  {
    if n > from {
      AppendedChanges(cur, from, n - 1);
    }
  }

  lemma DetectChangesBounded(prev: seq<string>, cur: seq<string>)
    ensures ChangesOf(DetectChanges(prev, cur), cur, 0, |cur|)
    ensures LevelsBelow(DetectChanges(prev, cur), |cur|)
  {
    var m := MinLength(prev, cur);
    DifferingChanges(prev, cur, m);
    AppendedChanges(cur, m, |cur|);
  }

  // ---------------------------------------------------------------------------
  // Composite keys: `implode('|', array_slice($keys, 0, $level + 1))`

  function Join(parts: seq<string>): string {
    if parts == [] then ""
    else if |parts| == 1 then parts[0]
    else Join(parts[..|parts| - 1]) + "|" + parts[|parts| - 1]
  }

  /** `array_slice($s, 0, $n)`: the first `n` elements, or all of a shorter `s`. */
  function Take(s: seq<string>, n: nat): seq<string> {
    if n <= |s| then s[..n] else s
  }

  function PrefixKey(keys: seq<string>, level: nat): string {
    Join(Take(keys, level + 1))
  }

  // ---------------------------------------------------------------------------
  // Group states and their contexts

  /**
   * The live state of one group instance.  `aggregates` maps each alias to
   * its accumulator; `records` lists the records fed so far.
   */
  datatype GroupState = GroupState(
    aggregates: map<string, Acc>,
    calculations: seq<Calculation>,
    records: seq<Record>,
    firstRecord: Option<Record>,
    lastRecord: Option<Record>)

  /** `$aggregates[$def['as']] = new Aggregate(...)` for each definition in turn. */
  function InitAggregates(defs: seq<AggDef>): map<string, Acc> {
    if defs == [] then map[]
    else
      var d := defs[|defs| - 1];
      InitAggregates(defs[..|defs| - 1])[d.alias := Fresh(d.kind, d.field)]
  }

  /** `initializeGroupState`: fresh accumulators, the level's calculations, no records. */
  function InitState(spec: GroupSpec): GroupState {
    GroupState(InitAggregates(spec.aggregates), spec.calculations, [], None, None)
  }

  /** The state a context is built from when the key has no state. */
  const Absent := GroupState(map[], [], [], None, None)

  function AsDatum(r: Option<Record>): Datum {
    if r.Some? then DRecord(r.value) else DNull
  }

  function BaseContext(st: GroupState): map<string, Datum> {
    map["firstRecord" := AsDatum(st.firstRecord), "lastRecord" := AsDatum(st.lastRecord),
        "recordCount" := DInt(|st.records|)]
  }

  function AggregateEntries(st: GroupState): map<string, Datum> {
    map a | a in st.aggregates :: DNumber(ValueOf(st.aggregates[a]))
  }

  /**
   * The state array itself as a calculation sees it; the aggregate objects
   * and closures it holds are opaque entries.
   */
  function StateView(st: GroupState): map<string, Datum> {
    map["aggregates" := DInternal, "calculations" := DInternal, "records" := DRecords(st.records),
        "firstRecord" := AsDatum(st.firstRecord), "lastRecord" := AsDatum(st.lastRecord)]
  }

  /**
   * Runs the calculations in order; each receives `$state + $context`, so the
   * state's entries win and earlier results are visible.
   */
  function RunCalculations(view: map<string, Datum>, ctx: map<string, Datum>, calcs: seq<Calculation>): map<string, Datum> {
    if calcs == [] then ctx
    else
      var before := RunCalculations(view, ctx, calcs[..|calcs| - 1]);
      var c := calcs[|calcs| - 1];
      before[c.alias := c.callback(before + view)]
  }

  function ContextOf(st: GroupState): map<string, Datum> {
    RunCalculations(StateView(st), BaseContext(st) + AggregateEntries(st), st.calculations)
  }

  /** `buildGroupContext($fullKey)`. */
  function BuildContext(states: map<string, GroupState>, key: string): map<string, Datum> {
    ContextOf(if key in states then states[key] else Absent)
  }

  /** The record fed into one open group: every aggregate, the count, the last record. */
  function FeedState(st: GroupState, rec: Record): GroupState {
    st.(aggregates := map a | a in st.aggregates :: Add(st.aggregates[a], rec),
        records := st.records + [rec],
        lastRecord := Some(rec))
  }

  function FeedStates(states: map<string, GroupState>, rec: Record): map<string, GroupState> {
    map k | k in states :: FeedState(states[k], rec)
  }

  // ---------------------------------------------------------------------------
  // Bands

  datatype BandType = ReportHeader | GroupHeader | Detail | GroupFooter | Summary | ReportFooter

  datatype BandContext = NoContext | GroupContext(entries: map<string, Datum>) | DetailRecord(rec: Record)

  datatype Band = Band(kind: BandType, level: Option<nat>, context: BandContext)

  function TypeString(t: BandType): string {
    match t
    case ReportHeader => "reportHeader"
    case GroupHeader => "groupHeader"
    case Detail => "detail"
    case GroupFooter => "groupFooter"
    case Summary => "summary"
    case ReportFooter => "reportFooter"
  }

  /** The band name a renderer sees: `type_level`, or the type alone. */
  function BandName(b: Band): string {
    if b.level.Some? then TypeString(b.kind) + "_" + NatToString(b.level.value) else TypeString(b.kind)
  }

  /** The names of the recorded bands, in order. */
  function BandNames(bs: seq<Band>): seq<string> {
    seq(|bs|, i requires 0 <= i < |bs| => BandName(bs[i]))
  }

  predicate IsGroupBand(b: Band) {
    b.kind == GroupHeader || b.kind == GroupFooter
  }

  function Footer(states: map<string, GroupState>, level: nat, key: string): Band {
    Band(GroupFooter, Some(level), GroupContext(BuildContext(states, key)))
  }

  function Header(states: map<string, GroupState>, level: nat, key: string): Band {
    Band(GroupHeader, Some(level), GroupContext(BuildContext(states, key)))
  }

  function DetailBand(rec: Record): Band {
    Band(Detail, None, DetailRecord(rec))
  }

  // ---------------------------------------------------------------------------
  // One pass

  /** The report's run-time state: the band sink, the group stack, the group states. */
  datatype Engine = Engine(bands: seq<Band>, stack: seq<string>, states: map<string, GroupState>)

  /**
   * One iteration of the close loop.  After `array_reverse` renumbers the
   * changed levels, the position `j` is used as the level.
   */
  function CloseOne(e: Engine, prev: seq<string>, j: nat): Engine {
    var key := PrefixKey(prev, j);
    e.(bands := e.bands + [Footer(e.states, j, key)], states := e.states - {key})
  }

  /** The first `m` iterations of the close loop. */
  function CloseGroups(e: Engine, prev: seq<string>, m: nat): (r: Engine)
    ensures r.stack == e.stack
  {
    if m == 0 then e else CloseOne(CloseGroups(e, prev, m - 1), prev, m - 1)
  }

  lemma CloseGroupsNext(e: Engine, prev: seq<string>, j: nat)
    ensures var c := CloseGroups(e, prev, j);
            var key := PrefixKey(prev, j);
            CloseGroups(e, prev, j + 1) == Engine(c.bands + [Footer(c.states, j, key)], c.stack, c.states - {key})
  {
  }

  /** A new state for a level whose first record is `rec`. */
  function Opened(spec: GroupSpec, rec: Record): GroupState {
    InitState(spec).(firstRecord := Some(rec))
  }

  function OpenOne(specs: seq<GroupSpec>, e: Engine, cur: seq<string>, rec: Record, level: nat): Engine
    requires level < |specs|
  {
    var key := PrefixKey(cur, level);
    var states := e.states[key := Opened(specs[level], rec)];
    e.(bands := e.bands + [Header(states, level, key)], states := states)
  }

  /** The first `m` iterations of the open loop. */
  function OpenGroups(specs: seq<GroupSpec>, e: Engine, cur: seq<string>, rec: Record,
                      changed: seq<(nat, string)>, m: nat): (r: Engine)
    requires m <= |changed| && LevelsBelow(changed, |specs|)
    ensures r.stack == e.stack
  {
    if m == 0 then e
    else OpenOne(specs, OpenGroups(specs, e, cur, rec, changed, m - 1), cur, rec, changed[m - 1].0)
  }

  lemma OpenGroupsNext(specs: seq<GroupSpec>, e: Engine, cur: seq<string>, rec: Record,
                       changed: seq<(nat, string)>, m: nat)
    requires m < |changed| && LevelsBelow(changed, |specs|)
    ensures OpenGroups(specs, e, cur, rec, changed, m + 1)
         == OpenOne(specs, OpenGroups(specs, e, cur, rec, changed, m), cur, rec, changed[m].0)
  {
  }

  /** Closing, then opening, the groups a record breaks. */
  function Reorganise(specs: seq<GroupSpec>, e: Engine, prev: seq<string>, rec: Record): (r: Engine)
    ensures r.stack == e.stack
  {
    var cur := GroupKeys(specs, rec);
    var changed := DetectChanges(prev, cur);
    DetectChangesBounded(prev, cur);
    var closed := if prev != [] then CloseGroups(e, prev, |changed|) else e;
    OpenGroups(specs, closed, cur, rec, changed, |changed|)
  }

  /** One iteration of the record loop, with `prev` the previous record's keys. */
  function Step(specs: seq<GroupSpec>, e: Engine, prev: seq<string>, rec: Record): Engine {
    var r := Reorganise(specs, e, prev, rec);
    Engine(r.bands + [DetailBand(rec)], GroupKeys(specs, rec), FeedStates(r.states, rec))
  }

  /** `Step` with the close loop's result named `closed`. */
  lemma StepAfterClose(specs: seq<GroupSpec>, e: Engine, prev: seq<string>, rec: Record, closed: Engine)
    requires closed == if prev != [] then CloseGroups(e, prev, |DetectChanges(prev, GroupKeys(specs, rec))|) else e
    ensures LevelsBelow(DetectChanges(prev, GroupKeys(specs, rec)), |specs|)
    ensures var cur := GroupKeys(specs, rec);
            var changed := DetectChanges(prev, cur);
            var reorganised := OpenGroups(specs, closed, cur, rec, changed, |changed|);
            Step(specs, e, prev, rec) == Engine(reorganised.bands + [DetailBand(rec)], cur, FeedStates(reorganised.states, rec))
  {
    DetectChangesBounded(prev, GroupKeys(specs, rec));
  }

  /** The keys of the last record processed, or none. */
  function LastKeys(specs: seq<GroupSpec>, recs: seq<Record>): seq<string> {
    if recs == [] then [] else GroupKeys(specs, recs[|recs| - 1])
  }

  /** The record loop over `recs`. */
  function RecordLoop(specs: seq<GroupSpec>, e: Engine, recs: seq<Record>): Engine {
    if recs == [] then e
    else
      var n := |recs| - 1;
      Step(specs, RecordLoop(specs, e, recs[..n]), LastKeys(specs, recs[..n]), recs[n])
  }

  /** The record loop over one more record. */
  lemma RecordLoopNext(specs: seq<GroupSpec>, e: Engine, recs: seq<Record>, i: nat)
    requires i < |recs|
    ensures RecordLoop(specs, e, recs[..i + 1]) == Step(specs, RecordLoop(specs, e, recs[..i]), LastKeys(specs, recs[..i]), recs[i])
    ensures LastKeys(specs, recs[..i + 1]) == GroupKeys(specs, recs[i])
  {
    assert recs[..i + 1][..i] == recs[..i];
  }

  /** The first `m` iterations of the final loop: levels `|stack|-1` down to `|stack|-m`. */
  function FinalFooters(e: Engine, m: nat): (r: Engine)
    requires m <= |e.stack|
    ensures r.stack == e.stack && r.states == e.states
  {
    if m == 0 then e
    else
      var f := FinalFooters(e, m - 1);
      var level := |e.stack| - m;
      f.(bands := f.bands + [Footer(f.states, level, PrefixKey(e.stack, level))])
  }

  lemma FinalFootersNext(e: Engine, m: nat)
    requires m < |e.stack|
    ensures var f := FinalFooters(e, m);
            var level := |e.stack| - (m + 1);
            FinalFooters(e, m + 1) == Engine(f.bands + [Footer(e.states, level, PrefixKey(e.stack, level))], e.stack, e.states)
  {
  }

  function AddBand(e: Engine, b: Band): Engine {
    e.(bands := e.bands + [b])
  }

  /** `render()`: header, the record loop, the final footers, summary and footer. */
  function RenderSpec(specs: seq<GroupSpec>, e: Engine, recs: seq<Record>): Engine {
    var started := AddBand(e, Band(ReportHeader, None, NoContext));
    var looped := RecordLoop(specs, started, recs);
    var closed := FinalFooters(looped, |looped.stack|);
    AddBand(AddBand(closed, Band(Summary, None, NoContext)), Band(ReportFooter, None, NoContext))
  }
}
