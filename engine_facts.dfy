/**
 * The bands one pass emits, in closed form: what the close loop, the open
 * loop and the final loop append, what one record appends, and what a whole
 * `render` appends (one detail band per record, in order; as many group
 * headers as group footers; the report header first and the summary and
 * report footer last).
 */
module EngineFacts {
  import opened Wrappers
  import opened Values
  import opened GroupBuilders
  import opened ControlBreak
  import opened ChangeFacts

  // ---------------------------------------------------------------------------
  // Counting bands

  /** How many bands of kind `k` the list holds. */
  function Count(bs: seq<Band>, k: BandType): nat {
    if bs == [] then 0
    else Count(bs[..|bs| - 1], k) + (if bs[|bs| - 1].kind == k then 1 else 0)
  }

  /** The records of the detail bands, in order. */
  function Details(bs: seq<Band>): seq<Record> {
    if bs == [] then []
    else
      var b := bs[|bs| - 1];
      Details(bs[..|bs| - 1]) + (if b.kind == Detail && b.context.DetailRecord? then [b.context.rec] else [])
  }

  /** Group headers opened minus group footers emitted. */
  function Balance(bs: seq<Band>): int {
    Count(bs, GroupHeader) - Count(bs, GroupFooter)
  }

  /** Every band of the list has kind `k`. */
  predicate AllOfKind(bs: seq<Band>, k: BandType) {
    forall i :: 0 <= i < |bs| ==> bs[i].kind == k
  }

  lemma {:induction false} CountAppend(a: seq<Band>, b: seq<Band>, k: BandType)
    ensures Count(a + b, k) == Count(a, k) + Count(b, k)
    decreases |b|
  {
    if b != [] {
      var n := |b| - 1;
      assert (a + b)[..|a + b| - 1] == a + b[..n];
      assert (a + b)[|a + b| - 1] == b[n];
      CountAppend(a, b[..n], k);
    } else {
      assert a + b == a;
    }
  }

  lemma {:induction false} DetailsAppend(a: seq<Band>, b: seq<Band>)
    ensures Details(a + b) == Details(a) + Details(b)
    decreases |b|
  {
    if b != [] {
      var n := |b| - 1;
      assert (a + b)[..|a + b| - 1] == a + b[..n];
      assert (a + b)[|a + b| - 1] == b[n];
      DetailsAppend(a, b[..n]);
    } else {
      assert a + b == a;
    }
  }

  /** A list of bands of one kind counts only that kind. */
  lemma {:induction false} AllOfKindCount(bs: seq<Band>, k: BandType, other: BandType)
    requires AllOfKind(bs, k)
    ensures Count(bs, k) == |bs|
    ensures other != k ==> Count(bs, other) == 0
    ensures k != Detail ==> Details(bs) == []
    decreases |bs|
  {
    if bs != [] {
      AllOfKindCount(bs[..|bs| - 1], k, other);
    }
  }

  // ---------------------------------------------------------------------------
  // Proof plumbing: generic sequence and map identities, not facts about the
  // engine, stated once so that the loop proofs below need not rediscover
  // them for band lists

  lemma AppendAssoc<T>(a: seq<T>, b: seq<T>, c: seq<T>)
    ensures (a + b) + c == a + (b + c)
  {
  }

  lemma AppendAssoc4<T>(a: seq<T>, b: seq<T>, c: seq<T>, d: seq<T>)
    ensures ((a + b) + c) + d == a + ((b + c) + d)
  {
  }

  lemma AppendNothing<T>(a: seq<T>)
    ensures a + [] == a
  {
  }

  lemma PrefixOfAppend<T>(a: seq<T>, b: seq<T>, n: nat)
    requires n <= |a|
    ensures (a + b)[..n] == a[..n]
  {
  }

  lemma TakeOneMore<T>(s: seq<T>, i: nat)
    requires i < |s|
    ensures s[..i + 1] == s[..i] + [s[i]]
  {
  }

  lemma RemoveMore<K, V>(m: map<K, V>, gone: set<K>, k: K)
    ensures (m - gone) - {k} == m - (gone + {k})
  {
  }

  /** What a footer list, a header list and one detail band count. */
  lemma BlockCounts(f: seq<Band>, h: seq<Band>, rec: Record, k: BandType)
    requires AllOfKind(f, GroupFooter) && AllOfKind(h, GroupHeader)
    ensures Count(f + h + [DetailBand(rec)], k)
         == (if k == GroupFooter then |f| else 0) + (if k == GroupHeader then |h| else 0) + (if k == Detail then 1 else 0)
    ensures Details(f + h + [DetailBand(rec)]) == [rec]
  {
    CountAppend(f + h, [DetailBand(rec)], k);
    CountAppend(f, h, k);
    DetailsAppend(f + h, [DetailBand(rec)]);
    DetailsAppend(f, h);
    AllOfKindCount(f, GroupFooter, k);
    AllOfKindCount(h, GroupHeader, k);
    assert [DetailBand(rec)][..0] == [];
  }

  // ---------------------------------------------------------------------------
  // The close loop

  /** The composite keys the first `m` iterations of the close loop remove. */
  function ClosedKeys(prev: seq<string>, m: nat): set<string> {
    set j | 0 <= j < m :: PrefixKey(prev, j)
  }

  /** Footer `j` of the close loop is built after the keys of footers `0..j-1` were removed. */
  function ClosingFooters(states: map<string, GroupState>, prev: seq<string>, m: nat): seq<Band> {
    seq(m, j requires 0 <= j < m => Footer(states - ClosedKeys(prev, j), j, PrefixKey(prev, j)))
  }

  lemma ClosingFootersKind(states: map<string, GroupState>, prev: seq<string>, m: nat)
    ensures |ClosingFooters(states, prev, m)| == m && AllOfKind(ClosingFooters(states, prev, m), GroupFooter)
  {
  }

  lemma ClosedKeysNext(prev: seq<string>, m: nat)
    ensures ClosedKeys(prev, m + 1) == ClosedKeys(prev, m) + {PrefixKey(prev, m)}
  {
  }

  lemma ClosingFootersNext(states: map<string, GroupState>, prev: seq<string>, m: nat)
    ensures ClosingFooters(states, prev, m + 1)
         == ClosingFooters(states, prev, m) + [Footer(states - ClosedKeys(prev, m), m, PrefixKey(prev, m))]
  {
  }

  /** The close loop after `j` iterations, in closed form. */
  ghost predicate Closed(e: Engine, prev: seq<string>, j: nat) {
    CloseGroups(e, prev, j).bands == e.bands + ClosingFooters(e.states, prev, j) &&
    CloseGroups(e, prev, j).states == e.states - ClosedKeys(prev, j)
  }

  lemma CloseStep(e: Engine, prev: seq<string>, j: nat)
    requires Closed(e, prev, j)
    ensures Closed(e, prev, j + 1)
  {
    var key := PrefixKey(prev, j);
    CloseGroupsNext(e, prev, j);
    ClosedKeysNext(prev, j);
    ClosingFootersNext(e.states, prev, j);
    RemoveMore(e.states, ClosedKeys(prev, j), key);
    AppendAssoc(e.bands, ClosingFooters(e.states, prev, j), [Footer(e.states - ClosedKeys(prev, j), j, key)]);
  }

  /**
   * The close loop appends one footer per iteration, at the iteration's
   * position, and removes exactly the composite keys it closed.
   */
  lemma {:induction false} CloseGroupsShape(e: Engine, prev: seq<string>, m: nat)
    ensures CloseGroups(e, prev, m).bands == e.bands + ClosingFooters(e.states, prev, m)
    ensures CloseGroups(e, prev, m).states == e.states - ClosedKeys(prev, m)
  {
    assert ClosingFooters(e.states, prev, 0) == [];
    assert ClosedKeys(prev, 0) == {};
    AppendNothing(e.bands);
    assert e.states - {} == e.states;
    for j := 0 to m
      invariant Closed(e, prev, j)
    {
      CloseStep(e, prev, j);
    }
  }

  /**
   * While the close loop stays within the previous key vector, every footer
   * reports the state its composite key had before the loop started.
   */
  lemma ClosingFooterOwnState(states: map<string, GroupState>, prev: seq<string>, m: nat, j: nat)
    requires j < m && j < |prev|
    ensures ClosingFooters(states, prev, m)[j] == Footer(states, j, PrefixKey(prev, j))
  {
    var key := PrefixKey(prev, j);
    forall t | 0 <= t < j ensures PrefixKey(prev, t) != key {
      PrefixKeysDistinct(prev, t, j);
    }
    assert key !in ClosedKeys(prev, j);
    assert BuildContext(states - ClosedKeys(prev, j), key) == BuildContext(states, key);
  }

  // ---------------------------------------------------------------------------
  // The open loop

  /** The composite keys the first `m` iterations of the open loop write. */
  function OpenedKeys(cur: seq<string>, changed: seq<(nat, string)>, m: nat): set<string>
    requires m <= |changed|
  {
    set j | 0 <= j < m :: PrefixKey(cur, changed[j].0)
  }

  /** The header of a group of `level` opened on `rec`. */
  function OpenedHeader(specs: seq<GroupSpec>, level: nat, rec: Record): Band
    requires level < |specs|
  {
    Band(GroupHeader, Some(level), GroupContext(ContextOf(Opened(specs[level], rec))))
  }

  /** Header `j` is on the changed level `changed[j].0` and shows a group opened on `rec`. */
  function OpeningHeaders(specs: seq<GroupSpec>, rec: Record, changed: seq<(nat, string)>, m: nat): seq<Band>
    requires m <= |changed| && LevelsBelow(changed, |specs|)
  {
    seq(m, j requires 0 <= j < m => OpenedHeader(specs, changed[j].0, rec))
  }

  lemma OpeningHeadersKind(specs: seq<GroupSpec>, rec: Record, changed: seq<(nat, string)>, m: nat)
    requires m <= |changed| && LevelsBelow(changed, |specs|)
    ensures |OpeningHeaders(specs, rec, changed, m)| == m && AllOfKind(OpeningHeaders(specs, rec, changed, m), GroupHeader)
  {
  }

  lemma OpeningHeadersNext(specs: seq<GroupSpec>, rec: Record, changed: seq<(nat, string)>, m: nat)
    requires m < |changed| && LevelsBelow(changed, |specs|)
    ensures OpeningHeaders(specs, rec, changed, m + 1)
         == OpeningHeaders(specs, rec, changed, m) + [OpenedHeader(specs, changed[m].0, rec)]
  {
  }

  lemma OpenedKeysNext(cur: seq<string>, changed: seq<(nat, string)>, m: nat)
    requires m < |changed|
    ensures OpenedKeys(cur, changed, m + 1) == OpenedKeys(cur, changed, m) + {PrefixKey(cur, changed[m].0)}
  {
  }

  /** One iteration of the open loop: the header reads the state it has just written. */
  lemma OpenOneEffect(specs: seq<GroupSpec>, e: Engine, cur: seq<string>, rec: Record, level: nat)
    requires level < |specs|
    ensures OpenOne(specs, e, cur, rec, level)
         == Engine(e.bands + [OpenedHeader(specs, level, rec)], e.stack,
                   e.states[PrefixKey(cur, level) := Opened(specs[level], rec)])
  {
  }

  lemma OpenBandsStep(specs: seq<GroupSpec>, e: Engine, cur: seq<string>, rec: Record,
                      changed: seq<(nat, string)>, j: nat)
    requires j < |changed| && LevelsBelow(changed, |specs|)
    requires OpenGroups(specs, e, cur, rec, changed, j).bands == e.bands + OpeningHeaders(specs, rec, changed, j)
    ensures OpenGroups(specs, e, cur, rec, changed, j + 1).bands == e.bands + OpeningHeaders(specs, rec, changed, j + 1)
  {
    OpenGroupsNext(specs, e, cur, rec, changed, j);
    OpenOneEffect(specs, OpenGroups(specs, e, cur, rec, changed, j), cur, rec, changed[j].0);
    OpeningHeadersNext(specs, rec, changed, j);
    AppendAssoc(e.bands, OpeningHeaders(specs, rec, changed, j), [OpenedHeader(specs, changed[j].0, rec)]);
  }

  /** The open loop appends one header per changed level, whatever the states held. */
  lemma {:induction false} OpenGroupsShape(specs: seq<GroupSpec>, e: Engine, cur: seq<string>, rec: Record,
                                           changed: seq<(nat, string)>, m: nat)
    requires m <= |changed| && LevelsBelow(changed, |specs|)
    ensures OpenGroups(specs, e, cur, rec, changed, m).bands == e.bands + OpeningHeaders(specs, rec, changed, m)
  {
    assert OpeningHeaders(specs, rec, changed, 0) == [];
    AppendNothing(e.bands);
    for j := 0 to m
      invariant OpenGroups(specs, e, cur, rec, changed, j).bands == e.bands + OpeningHeaders(specs, rec, changed, j)
    {
      OpenBandsStep(specs, e, cur, rec, changed, j);
    }
  }

  /** The states after `j` iterations: the opened keys added, every other state as before. */
  ghost predicate KeptStates(specs: seq<GroupSpec>, e: Engine, cur: seq<string>, rec: Record,
                       changed: seq<(nat, string)>, j: nat)
    requires j <= |changed| && LevelsBelow(changed, |specs|)
  {
    var st := OpenGroups(specs, e, cur, rec, changed, j).states;
    st.Keys == e.states.Keys + OpenedKeys(cur, changed, j) &&
    forall k :: k in e.states && k !in OpenedKeys(cur, changed, j) ==> st[k] == e.states[k]
  }

  lemma OpenKeysStep(specs: seq<GroupSpec>, e: Engine, cur: seq<string>, rec: Record,
                     changed: seq<(nat, string)>, j: nat)
    requires j < |changed| && LevelsBelow(changed, |specs|)
    requires KeptStates(specs, e, cur, rec, changed, j)
    ensures KeptStates(specs, e, cur, rec, changed, j + 1)
  {
    OpenGroupsNext(specs, e, cur, rec, changed, j);
    OpenOneEffect(specs, OpenGroups(specs, e, cur, rec, changed, j), cur, rec, changed[j].0);
    OpenedKeysNext(cur, changed, j);
  }

  /** The open loop writes a state under each opened composite key and leaves every other state alone. */
  lemma {:induction false} OpenGroupsKeys(specs: seq<GroupSpec>, e: Engine, cur: seq<string>, rec: Record,
                                          changed: seq<(nat, string)>, m: nat)
    requires m <= |changed| && LevelsBelow(changed, |specs|)
    ensures OpenGroups(specs, e, cur, rec, changed, m).states.Keys == e.states.Keys + OpenedKeys(cur, changed, m)
    ensures forall k :: k in e.states && k !in OpenedKeys(cur, changed, m) ==>
      OpenGroups(specs, e, cur, rec, changed, m).states[k] == e.states[k]
  {
    assert OpenedKeys(cur, changed, 0) == {};
    for j := 0 to m
      invariant KeptStates(specs, e, cur, rec, changed, j)
    {
      OpenKeysStep(specs, e, cur, rec, changed, j);
    }
  }

  /** Each of the first `j` opened keys holds the fresh state of its own level. */
  ghost predicate FreshlyOpened(specs: seq<GroupSpec>, e: Engine, cur: seq<string>, rec: Record,
                          changed: seq<(nat, string)>, j: nat)
    requires j <= |changed| && LevelsBelow(changed, |specs|)
  {
    var st := OpenGroups(specs, e, cur, rec, changed, j).states;
    forall t :: 0 <= t < j ==>
      PrefixKey(cur, changed[t].0) in st && st[PrefixKey(cur, changed[t].0)] == Opened(specs[changed[t].0], rec)
  }

  lemma OpenStatesStep(specs: seq<GroupSpec>, e: Engine, cur: seq<string>, rec: Record,
                       changed: seq<(nat, string)>, j: nat)
    requires j < |changed| && LevelsBelow(changed, |specs|)
    requires Ascending(changed) && LevelsBelow(changed, |cur|)
    requires FreshlyOpened(specs, e, cur, rec, changed, j)
    ensures FreshlyOpened(specs, e, cur, rec, changed, j + 1)
  {
    OpenGroupsNext(specs, e, cur, rec, changed, j);
    OpenOneEffect(specs, OpenGroups(specs, e, cur, rec, changed, j), cur, rec, changed[j].0);
    forall t | 0 <= t < j ensures PrefixKey(cur, changed[t].0) != PrefixKey(cur, changed[j].0) {
      PrefixKeysDistinct(cur, changed[t].0, changed[j].0);
    }
  }

  /**
   * With the changes ascending and within `cur`, each opened composite key
   * holds the fresh state of its own level after the loop.
   */
  lemma {:induction false} OpenGroupsStates(specs: seq<GroupSpec>, e: Engine, cur: seq<string>, rec: Record,
                                            changed: seq<(nat, string)>, m: nat)
    requires m <= |changed| && LevelsBelow(changed, |specs|)
    requires Ascending(changed) && LevelsBelow(changed, |cur|)
    ensures forall t :: 0 <= t < m ==>
      PrefixKey(cur, changed[t].0) in OpenGroups(specs, e, cur, rec, changed, m).states &&
      OpenGroups(specs, e, cur, rec, changed, m).states[PrefixKey(cur, changed[t].0)] == Opened(specs[changed[t].0], rec)
  {
    for j := 0 to m
      invariant FreshlyOpened(specs, e, cur, rec, changed, j)
    {
      OpenStatesStep(specs, e, cur, rec, changed, j);
    }
  }

  // ---------------------------------------------------------------------------
  // The final loop

  /** The final loop closes the levels of the stack deepest first, removing nothing. */
  function FinalBands(e: Engine, m: nat): seq<Band>
    requires m <= |e.stack|
  {
    seq(m, t requires 0 <= t < m => Footer(e.states, |e.stack| - 1 - t, PrefixKey(e.stack, |e.stack| - 1 - t)))
  }

  lemma FinalBandsKind(e: Engine, m: nat)
    requires m <= |e.stack|
    ensures |FinalBands(e, m)| == m && AllOfKind(FinalBands(e, m), GroupFooter)
  {
    forall t | 0 <= t < m ensures FinalBands(e, m)[t].kind == GroupFooter {
      var level := |e.stack| - 1 - t;
      assert FinalBands(e, m)[t] == Footer(e.states, level, PrefixKey(e.stack, level));
    }
  }

  lemma FinalBandsNext(e: Engine, m: nat)
    requires m < |e.stack|
    ensures FinalBands(e, m + 1)
         == FinalBands(e, m) + [Footer(e.states, |e.stack| - (m + 1), PrefixKey(e.stack, |e.stack| - (m + 1)))]
  {
  }

  lemma FinalStep(e: Engine, t: nat)
    requires t < |e.stack|
    requires FinalFooters(e, t).bands == e.bands + FinalBands(e, t)
    ensures FinalFooters(e, t + 1).bands == e.bands + FinalBands(e, t + 1)
  {
    var level := |e.stack| - (t + 1);
    FinalFootersNext(e, t);
    FinalBandsNext(e, t);
    AppendAssoc(e.bands, FinalBands(e, t), [Footer(e.states, level, PrefixKey(e.stack, level))]);
  }

  lemma {:induction false} FinalFootersShape(e: Engine, m: nat)
    requires m <= |e.stack|
    ensures FinalFooters(e, m).bands == e.bands + FinalBands(e, m)
  {
    assert FinalBands(e, 0) == [];
    AppendNothing(e.bands);
    for t := 0 to m
      invariant FinalFooters(e, t).bands == e.bands + FinalBands(e, t)
    {
      FinalStep(e, t);
    }
  }

  // ---------------------------------------------------------------------------
  // One record

  /** The footers the close loop emits for a record (none for the first one). */
  function StepFooters(specs: seq<GroupSpec>, e: Engine, prev: seq<string>, rec: Record): seq<Band> {
    if prev != [] then ClosingFooters(e.states, prev, |DetectChanges(prev, GroupKeys(specs, rec))|) else []
  }

  /** The headers the open loop emits for a record. */
  function StepHeaders(specs: seq<GroupSpec>, prev: seq<string>, rec: Record): seq<Band> {
    var cur := GroupKeys(specs, rec);
    var changed := DetectChanges(prev, cur);
    DetectChangesBounded(prev, cur);
    OpeningHeaders(specs, rec, changed, |changed|)
  }

  /**
   * What one iteration of the record loop appends: the footers of the close
   * loop, the headers of the open loop, then the record's detail band.
   */
  function StepBands(specs: seq<GroupSpec>, e: Engine, prev: seq<string>, rec: Record): seq<Band> {
    StepFooters(specs, e, prev, rec) + StepHeaders(specs, prev, rec) + [DetailBand(rec)]
  }

  lemma StepShape(specs: seq<GroupSpec>, e: Engine, prev: seq<string>, rec: Record)
    ensures Step(specs, e, prev, rec).bands == e.bands + StepBands(specs, e, prev, rec)
    ensures Step(specs, e, prev, rec).stack == GroupKeys(specs, rec)
  {
    var cur := GroupKeys(specs, rec);
    var changed := DetectChanges(prev, cur);
    DetectChangesBounded(prev, cur);
    var closed := if prev != [] then CloseGroups(e, prev, |changed|) else e;
    var f := StepFooters(specs, e, prev, rec);
    if prev != [] {
      CloseGroupsShape(e, prev, |changed|);
    } else {
      AppendNothing(e.bands);
    }
    OpenGroupsShape(specs, closed, cur, rec, changed, |changed|);
    StepAfterClose(specs, e, prev, rec, closed);
    AppendAssoc4(e.bands, f, StepHeaders(specs, prev, rec), [DetailBand(rec)]);
  }

  /** One record adds one detail band, its own, a header per changed level, and as many footers unless it is the first. */
  lemma StepCounts(specs: seq<GroupSpec>, e: Engine, prev: seq<string>, rec: Record, k: BandType)
    ensures var changed := DetectChanges(prev, GroupKeys(specs, rec));
            Count(StepBands(specs, e, prev, rec), k)
            == (if k == GroupFooter && prev != [] then |changed| else 0)
             + (if k == GroupHeader then |changed| else 0) + (if k == Detail then 1 else 0)
    ensures Details(StepBands(specs, e, prev, rec)) == [rec]
  {
    var cur := GroupKeys(specs, rec);
    var changed := DetectChanges(prev, cur);
    DetectChangesBounded(prev, cur);
    if prev != [] {
      ClosingFootersKind(e.states, prev, |changed|);
    }
    OpeningHeadersKind(specs, rec, changed, |changed|);
    BlockCounts(StepFooters(specs, e, prev, rec), StepHeaders(specs, prev, rec), rec, k);
  }

  /** Levels an equal key vector reports: none. */
  lemma {:induction false} DifferingNone(keys: seq<string>, n: nat)
    requires n <= |keys|
    ensures Differing(keys, keys, n) == []
    decreases n
  {
    if n > 0 {
      DifferingNone(keys, n - 1);
    }
  }

  /** A record whose keys equal the previous record's appends only its detail band. */
  lemma NoBreakStep(specs: seq<GroupSpec>, e: Engine, prev: seq<string>, rec: Record)
    requires prev == GroupKeys(specs, rec)
    ensures Step(specs, e, prev, rec).bands == e.bands + [DetailBand(rec)]
    ensures Step(specs, e, prev, rec).states == FeedStates(e.states, rec)
  {
    DifferingNone(prev, |prev|);
    assert DetectChanges(prev, prev) == [];
    StepAfterClose(specs, e, prev, rec, if prev != [] then CloseGroups(e, prev, 0) else e);
  }

  /**
   * The first record (no previous keys) closes nothing and opens every level
   * in order, each on a fresh state whose first record is this one.
   */
  lemma FirstStep(specs: seq<GroupSpec>, e: Engine, rec: Record)
    ensures StepBands(specs, e, [], rec)
         == seq(|specs|, l requires 0 <= l < |specs| => OpenedHeader(specs, l, rec)) + [DetailBand(rec)]
  {
    var cur := GroupKeys(specs, rec);
    DetectChangesFromNothing(cur);
    DetectChangesBounded([], cur);
    assert StepHeaders(specs, [], rec) == seq(|specs|, l requires 0 <= l < |specs| => OpenedHeader(specs, l, rec));
  }

  /** A record changes the header-minus-footer balance by the number of levels only when it is the first. */
  lemma StepBalance(specs: seq<GroupSpec>, e: Engine, prev: seq<string>, rec: Record)
    requires prev == [] || |prev| == |specs|
    ensures Balance(StepBands(specs, e, prev, rec)) == if prev == [] then |specs| else 0
  {
    var cur := GroupKeys(specs, rec);
    StepCounts(specs, e, prev, rec, GroupHeader);
    StepCounts(specs, e, prev, rec, GroupFooter);
    if prev == [] {
      DetectChangesFromNothing(cur);
    }
  }

  // ---------------------------------------------------------------------------
  // The record loop and the whole pass

  /**
   * `bs` extends `base` by detail bands for `done`, group bands whose
   * balance is `balance`, and no report-level band.
   */
  predicate Extends(base: seq<Band>, bs: seq<Band>, done: seq<Record>, balance: int) {
    Details(bs) == Details(base) + done &&
    Balance(bs) == Balance(base) + balance &&
    Count(bs, ReportHeader) == Count(base, ReportHeader) &&
    Count(bs, Summary) == Count(base, Summary) &&
    Count(bs, ReportFooter) == Count(base, ReportFooter) &&
    |bs| >= |base| && bs[..|base|] == base
  }

  lemma ExtendsMore(base: seq<Band>, bs: seq<Band>, done: seq<Record>, balance: int,
                    more: seq<Band>, rec: Record, delta: int)
    requires Extends(base, bs, done, balance)
    requires Details(more) == [rec] && Balance(more) == delta
    requires Count(more, ReportHeader) == 0 && Count(more, Summary) == 0 && Count(more, ReportFooter) == 0
    ensures Extends(base, bs + more, done + [rec], balance + delta)
  {
    DetailsAppend(bs, more);
    CountAppend(bs, more, GroupHeader);
    CountAppend(bs, more, GroupFooter);
    CountAppend(bs, more, ReportHeader);
    CountAppend(bs, more, Summary);
    CountAppend(bs, more, ReportFooter);
    PrefixOfAppend(bs, more, |base|);
  }

  /** One record adds no report-level band. */
  lemma StepFrame(specs: seq<GroupSpec>, e: Engine, prev: seq<string>, rec: Record)
    ensures Details(StepBands(specs, e, prev, rec)) == [rec]
    ensures Count(StepBands(specs, e, prev, rec), ReportHeader) == 0
    ensures Count(StepBands(specs, e, prev, rec), Summary) == 0
    ensures Count(StepBands(specs, e, prev, rec), ReportFooter) == 0
  {
    StepCounts(specs, e, prev, rec, ReportHeader);
    StepCounts(specs, e, prev, rec, Summary);
    StepCounts(specs, e, prev, rec, ReportFooter);
  }

  /** What the record loop keeps after `i` records. */
  predicate LoopCounts(specs: seq<GroupSpec>, e: Engine, recs: seq<Record>, i: nat)
    requires i <= |recs|
  {
    Extends(e.bands, RecordLoop(specs, e, recs[..i]).bands, recs[..i], if i == 0 then 0 else |specs|)
  }

  /** One record extends the bands by its detail band and, when it is the first, by one open group per level. */
  lemma StepExtends(specs: seq<GroupSpec>, base: seq<Band>, before: Engine, prev: seq<string>, rec: Record,
                    done: seq<Record>, balance: int)
    requires Extends(base, before.bands, done, balance)
    requires prev == [] || |prev| == |specs|
    ensures Extends(base, Step(specs, before, prev, rec).bands, done + [rec],
                    balance + if prev == [] then |specs| else 0)
  {
    StepShape(specs, before, prev, rec);
    StepFrame(specs, before, prev, rec);
    StepBalance(specs, before, prev, rec);
    ExtendsMore(base, before.bands, done, balance, StepBands(specs, before, prev, rec), rec,
                if prev == [] then |specs| else 0);
  }

  lemma LoopCountsStep(specs: seq<GroupSpec>, e: Engine, recs: seq<Record>, i: nat)
    requires i < |recs| && LoopCounts(specs, e, recs, i)
    ensures LoopCounts(specs, e, recs, i + 1)
  {
    var before := RecordLoop(specs, e, recs[..i]);
    var prev := LastKeys(specs, recs[..i]);
    var balance := if i == 0 then 0 else |specs|;
    RecordLoopNext(specs, e, recs, i);
    if i > 0 {
      assert |prev| == |specs|;
    }
    StepExtends(specs, e.bands, before, prev, recs[i], recs[..i], balance);
    TakeOneMore(recs, i);
  }

  /**
   * The record loop emits one detail band per record, in input order, and
   * over a non-empty input one more header than footer per level.
   */
  lemma {:induction false} RecordLoopCounts(specs: seq<GroupSpec>, e: Engine, recs: seq<Record>)
    ensures var r := RecordLoop(specs, e, recs);
            Details(r.bands) == Details(e.bands) + recs &&
            Balance(r.bands) == Balance(e.bands) + (if recs == [] then 0 else |specs|) &&
            Count(r.bands, ReportHeader) == Count(e.bands, ReportHeader) &&
            Count(r.bands, Summary) == Count(e.bands, Summary) &&
            Count(r.bands, ReportFooter) == Count(e.bands, ReportFooter) &&
            |r.bands| >= |e.bands| && r.bands[..|e.bands|] == e.bands
  {
    assert recs[..0] == [];
    for i := 0 to |recs|
      invariant LoopCounts(specs, e, recs, i)
    {
      LoopCountsStep(specs, e, recs, i);
    }
    assert recs[..|recs|] == recs;
  }

  /** After a non-empty input the stack holds the last record's keys, one per level. */
  lemma RecordLoopStack(specs: seq<GroupSpec>, e: Engine, recs: seq<Record>)
    requires recs != []
    ensures RecordLoop(specs, e, recs).stack == GroupKeys(specs, recs[|recs| - 1])
  {
    var n := |recs| - 1;
    RecordLoopNext(specs, e, recs, n);
    assert recs[..n + 1] == recs;
    StepShape(specs, RecordLoop(specs, e, recs[..n]), LastKeys(specs, recs[..n]), recs[n]);
  }

  /** The three report-level bands `render` adds around the loop. */
  lemma FrameCounts(looped: seq<Band>, fin: seq<Band>, k: BandType)
    requires AllOfKind(fin, GroupFooter)
    ensures Count(looped + fin + [Band(Summary, None, NoContext), Band(ReportFooter, None, NoContext)], k)
         == Count(looped, k) + (if k == GroupFooter then |fin| else 0) + (if k == Summary || k == ReportFooter then 1 else 0)
    ensures Details(looped + fin + [Band(Summary, None, NoContext), Band(ReportFooter, None, NoContext)]) == Details(looped)
  {
    var tail := [Band(Summary, None, NoContext), Band(ReportFooter, None, NoContext)];
    CountAppend(looped + fin, tail, k);
    CountAppend(looped, fin, k);
    AllOfKindCount(fin, GroupFooter, k);
    DetailsAppend(looped + fin, tail);
    DetailsAppend(looped, fin);
    assert tail[..1] == [tail[0]] && tail[..1][..0] == [];
  }

  lemma HeaderCounts(bs: seq<Band>, k: BandType)
    ensures Count(bs + [Band(ReportHeader, None, NoContext)], k) == Count(bs, k) + (if k == ReportHeader then 1 else 0)
    ensures Details(bs + [Band(ReportHeader, None, NoContext)]) == Details(bs)
  {
    var b := bs + [Band(ReportHeader, None, NoContext)];
    assert b[..|b| - 1] == bs;
  }

  /** `render` in pieces: the header, the loop, the final footers, the summary and the report footer. */
  lemma RenderPieces(specs: seq<GroupSpec>, e: Engine, recs: seq<Record>)
    ensures var started := AddBand(e, Band(ReportHeader, None, NoContext));
            var looped := RecordLoop(specs, started, recs);
            RenderSpec(specs, e, recs).bands
            == looped.bands + FinalBands(looped, |looped.stack|)
               + [Band(Summary, None, NoContext), Band(ReportFooter, None, NoContext)]
  {
    var started := AddBand(e, Band(ReportHeader, None, NoContext));
    var looped := RecordLoop(specs, started, recs);
    FinalFootersShape(looped, |looped.stack|);
  }

  /** The bands around the record loop's, counted. */
  lemma FrameOf(base: seq<Band>, looped: seq<Band>, fin: seq<Band>, recs: seq<Record>, balance: int)
    requires Extends(base + [Band(ReportHeader, None, NoContext)], looped, recs, balance)
    requires AllOfKind(fin, GroupFooter)
    ensures var bs := looped + fin + [Band(Summary, None, NoContext), Band(ReportFooter, None, NoContext)];
            |bs| >= |base| + 3 &&
            bs[..|base| + 1] == base + [Band(ReportHeader, None, NoContext)] &&
            bs[|bs| - 2..] == [Band(Summary, None, NoContext), Band(ReportFooter, None, NoContext)] &&
            Details(bs) == Details(base) + recs &&
            Count(bs, ReportHeader) == Count(base, ReportHeader) + 1 &&
            Count(bs, Summary) == Count(base, Summary) + 1 &&
            Count(bs, ReportFooter) == Count(base, ReportFooter) + 1 &&
            Balance(bs) == Balance(base) + balance - |fin|
  {
    var tail := [Band(Summary, None, NoContext), Band(ReportFooter, None, NoContext)];
    FrameCounts(looped, fin, ReportHeader);
    FrameCounts(looped, fin, Summary);
    FrameCounts(looped, fin, ReportFooter);
    FrameCounts(looped, fin, GroupHeader);
    FrameCounts(looped, fin, GroupFooter);
    HeaderCounts(base, ReportHeader);
    HeaderCounts(base, Summary);
    HeaderCounts(base, ReportFooter);
    HeaderCounts(base, GroupHeader);
    HeaderCounts(base, GroupFooter);
    AppendAssoc(looped, fin, tail);
    PrefixOfAppend(looped, fin + tail, |base| + 1);
  }

  /**
   * `render` emits the report header after what the sink held, then one
   * detail band per record in input order, and ends with the summary and
   * the report footer; no other band is a report-level one.
   */
  lemma RenderFrame(specs: seq<GroupSpec>, e: Engine, recs: seq<Record>)
    ensures var bs := RenderSpec(specs, e, recs).bands;
            |bs| >= |e.bands| + 3 &&
            bs[..|e.bands| + 1] == e.bands + [Band(ReportHeader, None, NoContext)] &&
            bs[|bs| - 2..] == [Band(Summary, None, NoContext), Band(ReportFooter, None, NoContext)] &&
            Details(bs) == Details(e.bands) + recs &&
            Count(bs, ReportHeader) == Count(e.bands, ReportHeader) + 1 &&
            Count(bs, Summary) == Count(e.bands, Summary) + 1 &&
            Count(bs, ReportFooter) == Count(e.bands, ReportFooter) + 1
  {
    var started := AddBand(e, Band(ReportHeader, None, NoContext));
    var looped := RecordLoop(specs, started, recs);
    RenderPieces(specs, e, recs);
    RecordLoopCounts(specs, started, recs);
    FinalBandsKind(looped, |looped.stack|);
    FrameOf(e.bands, looped.bands, FinalBands(looped, |looped.stack|), recs, if recs == [] then 0 else |specs|);
  }

  /**
   * Over a non-empty input, a pass emits exactly as many group footers as
   * group headers.
   */
  lemma RenderBalanced(specs: seq<GroupSpec>, e: Engine, recs: seq<Record>)
    requires recs != []
    ensures Balance(RenderSpec(specs, e, recs).bands) == Balance(e.bands)
  {
    var started := AddBand(e, Band(ReportHeader, None, NoContext));
    var looped := RecordLoop(specs, started, recs);
    RenderPieces(specs, e, recs);
    RecordLoopCounts(specs, started, recs);
    RecordLoopStack(specs, started, recs);
    FinalBandsKind(looped, |looped.stack|);
    FrameOf(e.bands, looped.bands, FinalBands(looped, |looped.stack|), recs, |specs|);
  }

  /**
   * With nothing to process, a pass emits the report header, a footer for
   * every level still on the stack (none for a fresh report), the summary
   * and the report footer.
   */
  lemma RenderNothing(specs: seq<GroupSpec>, e: Engine)
    ensures RenderSpec(specs, e, []).bands
         == e.bands + [Band(ReportHeader, None, NoContext)] + FinalBands(e, |e.stack|)
            + [Band(Summary, None, NoContext), Band(ReportFooter, None, NoContext)]
    ensures e.stack == [] ==>
      RenderSpec(specs, e, []).bands
      == e.bands + [Band(ReportHeader, None, NoContext), Band(Summary, None, NoContext), Band(ReportFooter, None, NoContext)]
  {
    var started := AddBand(e, Band(ReportHeader, None, NoContext));
    RenderPieces(specs, e, []);
    assert RecordLoop(specs, started, []) == started;
    assert FinalBands(started, |started.stack|) == FinalBands(e, |e.stack|);
    if e.stack == [] {
      assert FinalBands(e, 0) == [];
    }
  }

  /** Without levels, the record loop emits one detail band per record and nothing else. */
  function DetailBands(recs: seq<Record>): seq<Band> {
    seq(|recs|, i requires 0 <= i < |recs| => DetailBand(recs[i]))
  }

  lemma DetailBandsNext(recs: seq<Record>, i: nat)
    requires i < |recs|
    ensures DetailBands(recs[..i + 1]) == DetailBands(recs[..i]) + [DetailBand(recs[i])]
  {
  }

  /** Without levels, a record appends its detail band and nothing else. */
  lemma NoGroupsBands(e: Engine, prev: seq<string>, rec: Record)
    requires prev == []
    ensures StepBands([], e, prev, rec) == [DetailBand(rec)]
  {
    assert GroupKeys([], rec) == [];
    assert DetectChanges(prev, []) == [];
    assert StepHeaders([], prev, rec) == [];
  }

  lemma NoGroupsStep(e: Engine, recs: seq<Record>, i: nat)
    requires i < |recs|
    requires RecordLoop([], e, recs[..i]).bands == e.bands + DetailBands(recs[..i])
    ensures RecordLoop([], e, recs[..i + 1]).bands == e.bands + DetailBands(recs[..i + 1])
    ensures RecordLoop([], e, recs[..i + 1]).stack == []
  {
    var before := RecordLoop([], e, recs[..i]);
    var prev := LastKeys([], recs[..i]);
    RecordLoopNext([], e, recs, i);
    assert prev == [];
    StepShape([], before, prev, recs[i]);
    NoGroupsBands(before, prev, recs[i]);
    DetailBandsNext(recs, i);
    AppendAssoc(e.bands, DetailBands(recs[..i]), [DetailBand(recs[i])]);
  }

  lemma {:induction false} NoGroupsLoop(e: Engine, recs: seq<Record>)
    ensures RecordLoop([], e, recs).bands == e.bands + DetailBands(recs)
    ensures recs != [] ==> RecordLoop([], e, recs).stack == []
  {
    assert recs[..0] == [];
    assert DetailBands([]) == [];
    AppendNothing(e.bands);
    for i := 0 to |recs|
      invariant RecordLoop([], e, recs[..i]).bands == e.bands + DetailBands(recs[..i])
      invariant i > 0 ==> RecordLoop([], e, recs[..i]).stack == []
    {
      NoGroupsStep(e, recs, i);
    }
    assert recs[..|recs|] == recs;
  }

  /**
   * Without levels, a pass emits the report header, one detail band per
   * record, the summary and the footer.  On an empty input a stale stack
   * from an earlier pass still yields footers (`RenderNothing`), hence the
   * precondition.
   */
  lemma RenderWithoutGroups(e: Engine, recs: seq<Record>)
    requires e.stack == [] || recs != []
    ensures RenderSpec([], e, recs).bands
         == e.bands + [Band(ReportHeader, None, NoContext)] + DetailBands(recs)
            + [Band(Summary, None, NoContext), Band(ReportFooter, None, NoContext)]
  {
    var started := AddBand(e, Band(ReportHeader, None, NoContext));
    NoGroupsLoop(started, recs);
    RenderPieces([], e, recs);
    var looped := RecordLoop([], started, recs);
    assert looped.stack == [];
    assert FinalBands(looped, 0) == [];
    AppendNothing(looped.bands);
  }
}
