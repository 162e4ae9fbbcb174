/**
 * One grouping level.  The close loop uses the position of a change as its
 * level, which with a single level is the real level 0, so a pass over the
 * records is the textbook control break: the input splits into maximal
 * runs of equal keys, and each run is framed by a header showing a fresh
 * group opened on its first record and a footer showing the group after
 * the whole run.
 */
module SingleLevel {
  import opened Wrappers
  import opened Values
  import opened Aggregates
  import opened GroupBuilders
  import opened ControlBreak
  import opened ChangeFacts
  import opened ContextFacts
  import opened EngineFacts

  // ---------------------------------------------------------------------------
  // Runs of equal keys

  /** Record `i` starts a run: it is the first record or its key differs from the previous one's. */
  predicate BreakAt(spec: GroupSpec, recs: seq<Record>, i: nat)
    requires i < |recs|
  {
    i == 0 || GroupKey(spec, recs[i - 1]) != GroupKey(spec, recs[i])
  }

  /** Where the run holding record `i` starts. */
  function RunStart(spec: GroupSpec, recs: seq<Record>, i: nat): (s: nat)
    requires i < |recs|
    ensures s <= i && BreakAt(spec, recs, s)
    ensures forall t :: s < t <= i ==> !BreakAt(spec, recs, t)
    ensures forall t :: s <= t <= i ==> GroupKey(spec, recs[t]) == GroupKey(spec, recs[i])
    decreases i
  {
    if BreakAt(spec, recs, i) then i else RunStart(spec, recs, i - 1)
  }

  /** A state fed the records of `rs`, in order. */
  function FeedRun(st: GroupState, rs: seq<Record>): GroupState {
    if rs == [] then st else FeedState(FeedRun(st, rs[..|rs| - 1]), rs[|rs| - 1])
  }

  /**
   * Feeding a run appends its records, makes its last record the last one,
   * runs every accumulator over it and touches nothing else.
   */
  lemma {:induction false} FeedRunState(st: GroupState, rs: seq<Record>)
    ensures FeedRun(st, rs).records == st.records + rs
    ensures FeedRun(st, rs).firstRecord == st.firstRecord
    ensures FeedRun(st, rs).lastRecord == if rs == [] then st.lastRecord else Some(rs[|rs| - 1])
    ensures FeedRun(st, rs).aggregates.Keys == st.aggregates.Keys
    ensures forall a :: a in st.aggregates ==> FeedRun(st, rs).aggregates[a] == FeedAll(st.aggregates[a], rs)
    decreases |rs|
  {
    if rs != [] {
      var n := |rs| - 1;
      FeedRunState(st, rs[..n]);
      assert st.records + rs[..n] + [rs[n]] == st.records + rs;
    }
  }

  lemma FeedRunCalculations(st: GroupState, rs: seq<Record>)
    ensures FeedRun(st, rs).calculations == st.calculations
  {
    if rs != [] {
      FeedRunCalculations(st, rs[..|rs| - 1]);
    }
  }

  /** The state of record `i`'s group once record `i` has been fed. */
  function RunState(spec: GroupSpec, recs: seq<Record>, i: nat): GroupState
    requires i < |recs|
  {
    var s := RunStart(spec, recs, i);
    FeedRun(Opened(spec, recs[s]), recs[s..i + 1])
  }

  /** The footer that closes the run ending at record `j`. */
  function RunFooter(spec: GroupSpec, recs: seq<Record>, j: nat): Band
    requires j < |recs|
  {
    Band(GroupFooter, Some(0), GroupContext(ContextOf(RunState(spec, recs, j))))
  }

  /**
   * The bands record `i` brings: the footer of the previous run and a
   * header when it starts a run, then its detail band.
   */
  function RecordBands(spec: GroupSpec, recs: seq<Record>, i: nat): seq<Band>
    requires i < |recs|
  {
    (if i > 0 && BreakAt(spec, recs, i) then [RunFooter(spec, recs, i - 1)] else [])
    + (if BreakAt(spec, recs, i) then [OpenedHeader([spec], 0, recs[i])] else [])
    + [DetailBand(recs[i])]
  }

  function LevelBands(spec: GroupSpec, recs: seq<Record>, n: nat): seq<Band>
    requires n <= |recs|
  {
    if n == 0 then [] else LevelBands(spec, recs, n - 1) + RecordBands(spec, recs, n - 1)
  }

  lemma RunStateNext(spec: GroupSpec, recs: seq<Record>, i: nat)
    requires i < |recs|
    ensures RunState(spec, recs, i)
         == FeedState(if BreakAt(spec, recs, i) then Opened(spec, recs[i]) else RunState(spec, recs, i - 1), recs[i])
  {
    var s := RunStart(spec, recs, i);
    if BreakAt(spec, recs, i) {
      var st := Opened(spec, recs[i]);
      var run := recs[s..i + 1];
      assert run == [recs[i]];
      assert run[..0] == [];
      assert FeedRun(st, run) == FeedState(FeedRun(st, run[..0]), recs[i]);
    } else {
      assert recs[s..i + 1][..i - s] == recs[s..i];
    }
  }

  // ---------------------------------------------------------------------------
  // One record on one level

  lemma SingleKeys(spec: GroupSpec, rec: Record)
    ensures GroupKeys([spec], rec) == [GroupKey(spec, rec)]
    ensures PrefixKey([GroupKey(spec, rec)], 0) == GroupKey(spec, rec)
  {
    assert [spec][..0] == [];
  }

  /** With one level, the only possible change is level 0, on the first record or a new key. */
  lemma SingleChanges(prev: seq<string>, c: string)
    requires prev == [] || |prev| == 1
    ensures DetectChanges(prev, [c]) == if prev == [] || prev[0] != c then [(0, c)] else []
  {
    if prev == [] {
      DetectChangesFromNothing([c]);
    } else {
      assert Differing(prev, [c], 0) == [];
    }
  }

  lemma SingleStepBands(spec: GroupSpec, e: Engine, prev: seq<string>, rec: Record)
    requires prev == [] || |prev| == 1
    ensures var k := GroupKey(spec, rec);
            StepBands([spec], e, prev, rec)
            == (if prev != [] && prev[0] != k then [Footer(e.states, 0, prev[0])] else [])
             + (if prev == [] || prev[0] != k then [OpenedHeader([spec], 0, rec)] else [])
             + [DetailBand(rec)]
  {
    var k := GroupKey(spec, rec);
    SingleKeys(spec, rec);
    SingleChanges(prev, k);
    if prev != [] {
      assert ClosedKeys(prev, 0) == {};
      assert e.states - {} == e.states;
      assert Take(prev, 1) == prev;
    }
  }

  /** The state of the record's key after the step: a fresh group fed once at a break, else the old one fed once more. */
  lemma SingleStepState(spec: GroupSpec, e: Engine, prev: seq<string>, rec: Record)
    requires prev == [] || |prev| == 1
    requires prev != [] && prev[0] == GroupKey(spec, rec) ==> GroupKey(spec, rec) in e.states
    ensures var k := GroupKey(spec, rec);
            var st := Step([spec], e, prev, rec).states;
            k in st &&
            st[k] == FeedState(if prev == [] || prev[0] != k then Opened(spec, rec) else e.states[k], rec)
  {
    var k := GroupKey(spec, rec);
    var cur := GroupKeys([spec], rec);
    SingleKeys(spec, rec);
    SingleChanges(prev, k);
    var changed := DetectChanges(prev, cur);
    var closed := if prev != [] then CloseGroups(e, prev, |changed|) else e;
    StepAfterClose([spec], e, prev, rec, closed);
    if prev == [] || prev[0] != k {
      OpenGroupsStates([spec], closed, cur, rec, changed, 1);
    } else {
      assert closed == e;
    }
  }

  // ---------------------------------------------------------------------------
  // The record loop on one level

  /** After `n` records: the bands so far, the last key on the stack, its group's state as the run so far. */
  ghost predicate LevelInvariant(spec: GroupSpec, e: Engine, recs: seq<Record>, n: nat)
    requires n <= |recs|
  {
    var r := RecordLoop([spec], e, recs[..n]);
    r.bands == e.bands + LevelBands(spec, recs, n) &&
    (n > 0 ==>
      r.stack == [GroupKey(spec, recs[n - 1])] &&
      GroupKey(spec, recs[n - 1]) in r.states &&
      r.states[GroupKey(spec, recs[n - 1])] == RunState(spec, recs, n - 1))
  }

  lemma PreviousKeys(spec: GroupSpec, recs: seq<Record>, i: nat)
    requires i <= |recs|
    ensures LastKeys([spec], recs[..i]) == if i == 0 then [] else [GroupKey(spec, recs[i - 1])]
  {
    if i > 0 {
      SingleKeys(spec, recs[i - 1]);
    }
  }

  /** The footer at a break shows the state of the finished run. */
  lemma BreakFooter(spec: GroupSpec, states: map<string, GroupState>, recs: seq<Record>, i: nat)
    requires 0 < i < |recs|
    requires GroupKey(spec, recs[i - 1]) in states && states[GroupKey(spec, recs[i - 1])] == RunState(spec, recs, i - 1)
    ensures Footer(states, 0, GroupKey(spec, recs[i - 1])) == RunFooter(spec, recs, i - 1)
  {
  }

  lemma LevelBandsStep(spec: GroupSpec, e: Engine, recs: seq<Record>, i: nat)
    requires i < |recs| && LevelInvariant(spec, e, recs, i)
    ensures RecordLoop([spec], e, recs[..i + 1]).bands == e.bands + LevelBands(spec, recs, i + 1)
    ensures RecordLoop([spec], e, recs[..i + 1]).stack == [GroupKey(spec, recs[i])]
  {
    var before := RecordLoop([spec], e, recs[..i]);
    var prev := LastKeys([spec], recs[..i]);
    RecordLoopNext([spec], e, recs, i);
    PreviousKeys(spec, recs, i);
    SingleKeys(spec, recs[i]);
    StepShape([spec], before, prev, recs[i]);
    SingleStepBands(spec, before, prev, recs[i]);
    if i > 0 && BreakAt(spec, recs, i) {
      BreakFooter(spec, before.states, recs, i);
    }
    assert StepBands([spec], before, prev, recs[i]) == RecordBands(spec, recs, i);
    AppendAssoc(e.bands, LevelBands(spec, recs, i), RecordBands(spec, recs, i));
  }

  lemma LevelStateStep(spec: GroupSpec, e: Engine, recs: seq<Record>, i: nat)
    requires i < |recs| && LevelInvariant(spec, e, recs, i)
    ensures var r := RecordLoop([spec], e, recs[..i + 1]);
            GroupKey(spec, recs[i]) in r.states && r.states[GroupKey(spec, recs[i])] == RunState(spec, recs, i)
  {
    var before := RecordLoop([spec], e, recs[..i]);
    var prev := LastKeys([spec], recs[..i]);
    RecordLoopNext([spec], e, recs, i);
    PreviousKeys(spec, recs, i);
    SingleStepState(spec, before, prev, recs[i]);
    RunStateNext(spec, recs, i);
  }

  lemma {:induction false} LevelLoop(spec: GroupSpec, e: Engine, recs: seq<Record>)
    ensures LevelInvariant(spec, e, recs, |recs|)
  {
    assert recs[..0] == [];
    AppendNothing(e.bands);
    for i := 0 to |recs|
      invariant LevelInvariant(spec, e, recs, i)
    {
      LevelBandsStep(spec, e, recs, i);
      LevelStateStep(spec, e, recs, i);
    }
  }

  /** The record loop over the whole input, on one level. */
  lemma LevelLoopAll(spec: GroupSpec, e: Engine, recs: seq<Record>)
    requires recs != []
    ensures var r := RecordLoop([spec], e, recs);
            r.bands == e.bands + LevelBands(spec, recs, |recs|) &&
            r.stack == [GroupKey(spec, recs[|recs| - 1])] &&
            GroupKey(spec, recs[|recs| - 1]) in r.states &&
            r.states[GroupKey(spec, recs[|recs| - 1])] == RunState(spec, recs, |recs| - 1)
  {
    LevelLoop(spec, e, recs);
    assert recs[..|recs|] == recs;
  }

  /** The final loop closes the last run. */
  lemma LastFooter(spec: GroupSpec, looped: Engine, recs: seq<Record>)
    requires recs != []
    requires looped.stack == [GroupKey(spec, recs[|recs| - 1])]
    requires GroupKey(spec, recs[|recs| - 1]) in looped.states
    requires looped.states[GroupKey(spec, recs[|recs| - 1])] == RunState(spec, recs, |recs| - 1)
    ensures FinalBands(looped, |looped.stack|) == [RunFooter(spec, recs, |recs| - 1)]
  {
    SingleKeys(spec, recs[|recs| - 1]);
    assert FinalBands(looped, 1)[0] == Footer(looped.states, 0, PrefixKey(looped.stack, 0));
  }

  lemma Glue<T>(whole: seq<T>, looped: seq<T>, start: seq<T>, middle: seq<T>, f: T, s: T, r: T)
    requires whole == looped + [f] + [s, r] && looped == start + middle
    ensures whole == start + middle + [f, s, r]
  {
  }

  /**
   * A pass with one grouping level over a non-empty input: the report
   * header, then for each record the footer of the previous run and a
   * header when it starts a run and its detail band, then the footer of
   * the last run, the summary and the report footer.
   */
  lemma SingleLevelRender(spec: GroupSpec, e: Engine, recs: seq<Record>)
    requires recs != []
    ensures RenderSpec([spec], e, recs).bands
         == e.bands + [Band(ReportHeader, None, NoContext)] + LevelBands(spec, recs, |recs|)
            + [RunFooter(spec, recs, |recs| - 1), Band(Summary, None, NoContext), Band(ReportFooter, None, NoContext)]
  {
    var started := AddBand(e, Band(ReportHeader, None, NoContext));
    var looped := RecordLoop([spec], started, recs);
    var f := RunFooter(spec, recs, |recs| - 1);
    LevelLoopAll(spec, started, recs);
    RenderPieces([spec], e, recs);
    LastFooter(spec, looped, recs);
    Glue(RenderSpec([spec], e, recs).bands, looped.bands, started.bands, LevelBands(spec, recs, |recs|),
         f, Band(Summary, None, NoContext), Band(ReportFooter, None, NoContext));
  }

  // ---------------------------------------------------------------------------
  // What the headers and footers show

  /** The declared names a context entry could be shadowed by. */
  predicate Unshadowed(spec: GroupSpec) {
    forall k :: k in ["firstRecord", "lastRecord", "recordCount"] ==>
      k !in Aliases(spec.aggregates) && NoCalculationNamed(spec.calculations, k)
  }

  /** The state of a run, described by the run itself. */
  lemma RunStateFacts(spec: GroupSpec, recs: seq<Record>, j: nat)
    requires j < |recs|
    ensures var s := RunStart(spec, recs, j);
            var st := RunState(spec, recs, j);
            st.records == recs[s..j + 1] && st.firstRecord == Some(recs[s]) && st.lastRecord == Some(recs[j]) &&
            st.calculations == spec.calculations && st.aggregates.Keys == Aliases(spec.aggregates) &&
            forall a :: a in st.aggregates ==>
              a in InitAggregates(spec.aggregates) && st.aggregates[a] == FeedAll(InitAggregates(spec.aggregates)[a], recs[s..j + 1])
  {
    var s := RunStart(spec, recs, j);
    var start := Opened(spec, recs[s]);
    FeedRunState(start, recs[s..j + 1]);
    FeedRunCalculations(start, recs[s..j + 1]);
    InitAggregatesKeys(spec.aggregates);
  }

  /**
   * The footer of the run ending at record `j` shows the run's first and
   * last record and its length.
   */
  lemma RunFooterContext(spec: GroupSpec, recs: seq<Record>, j: nat)
    requires j < |recs| && Unshadowed(spec)
    ensures var s := RunStart(spec, recs, j);
            var ctx := RunFooter(spec, recs, j).context.entries;
            "firstRecord" in ctx && ctx["firstRecord"] == DRecord(recs[s]) &&
            "lastRecord" in ctx && ctx["lastRecord"] == DRecord(recs[j]) &&
            "recordCount" in ctx && ctx["recordCount"] == DInt(j + 1 - s)
  {
    RunStateFacts(spec, recs, j);
    ContextBase(RunState(spec, recs, j));
  }

  /**
   * In the footer of the run ending at record `j`, an aggregate no
   * calculation reuses is the accumulator of its last definition run over
   * exactly that run.
   */
  lemma RunFooterAggregate(spec: GroupSpec, recs: seq<Record>, j: nat, i: nat)
    requires j < |recs|
    requires i < |spec.aggregates| && NoCalculationNamed(spec.calculations, spec.aggregates[i].alias)
    requires forall t :: i < t < |spec.aggregates| ==> spec.aggregates[t].alias != spec.aggregates[i].alias
    ensures var s := RunStart(spec, recs, j);
            var ctx := RunFooter(spec, recs, j).context.entries;
            var d := spec.aggregates[i];
            d.alias in ctx && ctx[d.alias] == DNumber(ValueOf(FeedAll(Fresh(d.kind, d.field), recs[s..j + 1])))
  {
    RunStateFacts(spec, recs, j);
    InitAggregatesLastWins(spec.aggregates, i);
    ContextAggregate(RunState(spec, recs, j), spec.aggregates[i].alias);
  }

  /** A run's header shows a fresh group: its first record, no last record and a zero count. */
  lemma RunHeaderContext(spec: GroupSpec, rec: Record)
    requires Unshadowed(spec)
    ensures var ctx := OpenedHeader([spec], 0, rec).context.entries;
            "firstRecord" in ctx && ctx["firstRecord"] == DRecord(rec) &&
            "lastRecord" in ctx && ctx["lastRecord"] == DNull &&
            "recordCount" in ctx && ctx["recordCount"] == DInt(0)
  {
    OpenedContext(spec, rec);
  }
}
