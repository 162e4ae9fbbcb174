/**
 * The report object: its group builders, the group stack and group states it
 * keeps between records, and the band sink (the band list a test renderer
 * records).  `Render` performs the single forward pass over the records.
 */
module Reports {
  import opened Wrappers
  import opened Values
  import opened Aggregates
  import opened GroupBuilders
  import opened ControlBreak

  /** The configurations of a list of builders, as they stand now. */
  function SpecsOf(bs: seq<GroupBuilder>): (specs: seq<GroupSpec>)
    reads bs
    ensures |specs| == |bs|
  {
    if bs == [] then [] else SpecsOf(bs[..|bs| - 1]) + [bs[|bs| - 1].Spec()]
  }

  /** Level `i` of `SpecsOf(bs)` is the configuration of builder `i`. */
  lemma {:induction false} SpecsOfAt(bs: seq<GroupBuilder>, i: nat)
    requires i < |bs|
    ensures SpecsOf(bs)[i] == bs[i].Spec()
    decreases |bs|
  {
    if i < |bs| - 1 {
      SpecsOfAt(bs[..|bs| - 1], i);
    }
  }

  /** The key vector over one more level. */
  lemma KeysNext(bs: seq<GroupBuilder>, rec: Record, i: nat)
    requires i < |bs|
    ensures GroupKeys(SpecsOf(bs)[..i + 1], rec) == GroupKeys(SpecsOf(bs)[..i], rec) + [KeyString(Eval(bs[i].expression, rec))]
  {
    SpecsOfAt(bs, i);
    GroupKeysNext(SpecsOf(bs), rec, i);
  }

  class Report {
    var groupBuilders: seq<GroupBuilder>
    var groupStack: seq<string>
    var groupStates: map<string, GroupState>
    var renderedBands: seq<Band>

    constructor ()
      ensures groupBuilders == [] && groupStack == [] && groupStates == map[] && renderedBands == []
    {
      groupBuilders := [];
      groupStack := [];
      groupStates := map[];
      renderedBands := [];
    }

    /** The run-time state the engine functions describe. */
    function State(): Engine
      reads this
    {
      Engine(renderedBands, groupStack, groupStates)
    }

    method SetGroups(builders: seq<GroupBuilder>) returns (self: Report)
      modifies this
      ensures self == this && groupBuilders == builders && State() == old(State())
    {
      groupBuilders := builders;
      self := this;
    }

    /** The renderer: records the band, as the test report does. */
    method RenderBand(kind: BandType, level: Option<nat>, context: BandContext)
      modifies this
      ensures renderedBands == old(renderedBands) + [Band(kind, level, context)]
      ensures groupBuilders == old(groupBuilders) && groupStack == old(groupStack) && groupStates == old(groupStates)
      ensures SpecsOf(groupBuilders) == old(SpecsOf(groupBuilders))
    {
      renderedBands := renderedBands + [Band(kind, level, context)];
    }

    method ComputeGroupKeys(rec: Record) returns (keys: seq<string>)
      ensures keys == GroupKeys(SpecsOf(groupBuilders), rec)
    {
      keys := [];
      for i := 0 to |groupBuilders|
        invariant keys == GroupKeys(SpecsOf(groupBuilders)[..i], rec)
      {
        var expr := groupBuilders[i].GetExpression();
        KeysNext(groupBuilders, rec, i);
        var value := Eval(expr, rec);
        keys := keys + [KeyString(value)];
      }
      assert SpecsOf(groupBuilders)[..|groupBuilders|] == SpecsOf(groupBuilders);
    }

    method DetectGroupChanges(previous: seq<string>, current: seq<string>) returns (changes: seq<(nat, string)>)
      ensures changes == DetectChanges(previous, current)
    {
      changes := [];
      var min := if |previous| <= |current| then |previous| else |current|;
      var i := 0;
      while i < min
        invariant 0 <= i <= min
        invariant changes == Differing(previous, current, i)
      {
        if previous[i] != current[i] {
          changes := changes + [(i, current[i])];
        }
        i := i + 1;
      }
      ghost var first := changes;
      while i < |current|
        invariant min <= i <= |current|
        invariant changes == first + Appended(current, min, i)
      {
        changes := changes + [(i, current[i])];
        i := i + 1;
      }
    }

    method InitializeGroupState(level: nat, fullKey: string)
      requires level < |groupBuilders|
      modifies this
      ensures groupBuilders == old(groupBuilders) && groupStack == old(groupStack) && renderedBands == old(renderedBands)
      ensures SpecsOf(groupBuilders) == old(SpecsOf(groupBuilders))
      ensures groupStates == old(groupStates)[fullKey := InitState(SpecsOf(groupBuilders)[level])]
    {
      var builder := groupBuilders[level];
      SpecsOfAt(groupBuilders, level);
      var defs := builder.GetAggregates();
      var aggregates: map<string, Acc> := map[];
      var i := 0;
      while i < |defs|
        invariant 0 <= i <= |defs|
        invariant aggregates == InitAggregates(defs[..i])
      {
        var def := defs[i];
        aggregates := aggregates[def.alias := Fresh(def.kind, def.field)];
        assert defs[..i + 1][..i] == defs[..i];
        i := i + 1;
      }
      assert defs[..|defs|] == defs;
      var calcs := builder.GetCalculations();
      groupStates := groupStates[fullKey := GroupState(aggregates, calcs, [], None, None)];
    }

    method BuildGroupContext(fullKey: string) returns (context: map<string, Datum>)
      ensures context == BuildContext(groupStates, fullKey)
    {
      var state := if fullKey in groupStates then groupStates[fullKey] else Absent;
      context := map["firstRecord" := AsDatum(state.firstRecord), "lastRecord" := AsDatum(state.lastRecord),
                     "recordCount" := DInt(|state.records|)];
      ghost var base := context;
      var todo := state.aggregates.Keys;
      while todo != {}
        invariant todo <= state.aggregates.Keys
        invariant context == base + map a | a in state.aggregates.Keys - todo :: DNumber(ValueOf(state.aggregates[a]))
        decreases todo
      {
        var name :| name in todo;
        context := context[name := DNumber(ValueOf(state.aggregates[name]))];
        todo := todo - {name};
      }
      assert state.aggregates.Keys - todo == state.aggregates.Keys;
      ghost var withAggregates := context;
      var view := StateView(state);
      var i := 0;
      while i < |state.calculations|
        invariant 0 <= i <= |state.calculations|
        invariant context == RunCalculations(view, withAggregates, state.calculations[..i])
      {
        var calculation := state.calculations[i];
        context := context[calculation.alias := calculation.callback(context + view)];
        assert state.calculations[..i + 1][..i] == state.calculations[..i];
        i := i + 1;
      }
      assert state.calculations[..|state.calculations|] == state.calculations;
    }

    /** `$this->renderBand($type, $level, $this->buildGroupContext($fullKey))`. */
    method EmitGroupBand(kind: BandType, level: nat, fullKey: string)
      modifies this
      ensures renderedBands == old(renderedBands) + [Band(kind, Some(level), GroupContext(BuildContext(groupStates, fullKey)))]
      ensures groupBuilders == old(groupBuilders) && groupStack == old(groupStack) && groupStates == old(groupStates)
      ensures SpecsOf(groupBuilders) == old(SpecsOf(groupBuilders))
    {
      var context := BuildGroupContext(fullKey);
      RenderBand(kind, Some(level), GroupContext(context));
    }

    /** The close loop of one record: footers for the first `count` positions. */
    method CloseBreakingGroups(prev: seq<string>, count: nat)
      modifies this
      ensures State() == CloseGroups(old(State()), prev, count)
      ensures groupBuilders == old(groupBuilders)
      ensures SpecsOf(groupBuilders) == old(SpecsOf(groupBuilders))
    {
      ghost var start := State();
      for j := 0 to count
        invariant State() == CloseGroups(start, prev, j)
        invariant groupBuilders == old(groupBuilders) && SpecsOf(groupBuilders) == old(SpecsOf(groupBuilders))
      {
        CloseGroupsNext(start, prev, j);
        var fullKey := PrefixKey(prev, j);
        EmitGroupBand(GroupFooter, j, fullKey);
        groupStates := groupStates - {fullKey};
      }
    }

    /** One iteration of the open loop: a new state for `level` and its header. */
    method OpenGroup(cur: seq<string>, rec: Record, level: nat)
      requires level < |groupBuilders|
      modifies this
      ensures groupBuilders == old(groupBuilders)
      ensures SpecsOf(groupBuilders) == old(SpecsOf(groupBuilders))
      ensures State() == OpenOne(SpecsOf(groupBuilders), old(State()), cur, rec, level)
    {
      ghost var specs := SpecsOf(groupBuilders);
      var fullKey := PrefixKey(cur, level);
      InitializeGroupState(level, fullKey);
      groupStates := groupStates[fullKey := groupStates[fullKey].(firstRecord := Some(rec))];
      assert groupStates == old(groupStates)[fullKey := Opened(specs[level], rec)];
      EmitGroupBand(GroupHeader, level, fullKey);
    }

    /** The open loop of one record: a new state and a header per changed level. */
    method OpenChangedGroups(cur: seq<string>, rec: Record, changed: seq<(nat, string)>)
      requires LevelsBelow(changed, |groupBuilders|)
      modifies this
      ensures groupBuilders == old(groupBuilders)
      ensures SpecsOf(groupBuilders) == old(SpecsOf(groupBuilders))
      ensures State() == OpenGroups(SpecsOf(groupBuilders), old(State()), cur, rec, changed, |changed|)
    {
      ghost var start := State();
      ghost var specs := SpecsOf(groupBuilders);
      var m := 0;
      while m < |changed|
        invariant 0 <= m <= |changed|
        invariant groupBuilders == old(groupBuilders)
        invariant SpecsOf(groupBuilders) == specs
        invariant State() == OpenGroups(specs, start, cur, rec, changed, m)
      {
        OpenGroupsNext(specs, start, cur, rec, changed, m);
        OpenGroup(cur, rec, changed[m].0);
        m := m + 1;
      }
    }

    /** Feeds the record into every state in `groupStates`. */
    method AccumulateIntoStates(rec: Record)
      modifies this
      ensures groupStates == FeedStates(old(groupStates), rec)
      ensures groupBuilders == old(groupBuilders) && groupStack == old(groupStack) && renderedBands == old(renderedBands)
      ensures SpecsOf(groupBuilders) == old(SpecsOf(groupBuilders))
    {
      ghost var before := groupStates;
      var states := groupStates;
      var todo := states.Keys;
      while todo != {}
        invariant todo <= before.Keys && states.Keys == before.Keys
        invariant forall k :: k in states ==> states[k] == if k in todo then before[k] else FeedState(before[k], rec)
        invariant unchanged(this)
        decreases todo
      {
        var fullKey :| fullKey in todo;
        var state := FeedOne(states[fullKey], rec);
        states := states[fullKey := state];
        todo := todo - {fullKey};
      }
      assert states == FeedStates(before, rec);
      groupStates := states;
    }

    /** One state of the accumulation loop: every aggregate, the record list, the last record. */
    static method FeedOne(state: GroupState, rec: Record) returns (fed: GroupState)
      ensures fed == FeedState(state, rec)
    {
      var aggregates := state.aggregates;
      var pending := aggregates.Keys;
      while pending != {}
        invariant pending <= state.aggregates.Keys && aggregates.Keys == state.aggregates.Keys
        invariant forall a :: a in aggregates ==>
          aggregates[a] == if a in pending then state.aggregates[a] else Add(state.aggregates[a], rec)
        decreases pending
      {
        var name :| name in pending;
        aggregates := aggregates[name := Add(aggregates[name], rec)];
        pending := pending - {name};
      }
      fed := state.(aggregates := aggregates, records := state.records + [rec], lastRecord := Some(rec));
    }

    /** The body of the record loop: close, open, accumulate, detail. */
    method ProcessRecord(previousGroupKeys: seq<string>, current: Record) returns (currentGroupKeys: seq<string>)
      modifies this
      ensures groupBuilders == old(groupBuilders)
      ensures SpecsOf(groupBuilders) == old(SpecsOf(groupBuilders))
      ensures currentGroupKeys == GroupKeys(SpecsOf(groupBuilders), current)
      ensures State() == Step(SpecsOf(groupBuilders), old(State()), previousGroupKeys, current)
    {
      ghost var specs := SpecsOf(groupBuilders);
      currentGroupKeys := ComputeGroupKeys(current);
      var changedLevels := DetectGroupChanges(previousGroupKeys, currentGroupKeys);
      if previousGroupKeys != [] {
        CloseBreakingGroups(previousGroupKeys, |changedLevels|);
      }
      StepAfterClose(specs, old(State()), previousGroupKeys, current, State());
      OpenChangedGroups(currentGroupKeys, current, changedLevels);
      SetStack(currentGroupKeys);
      AccumulateIntoStates(current);
      RenderBand(Detail, None, DetailRecord(current));
    }

    /** `$this->groupStack = $currentGroupKeys`. */
    method SetStack(keys: seq<string>)
      modifies this
      ensures groupBuilders == old(groupBuilders) && SpecsOf(groupBuilders) == old(SpecsOf(groupBuilders))
      ensures groupStack == keys && groupStates == old(groupStates) && renderedBands == old(renderedBands)
    {
      groupStack := keys;
    }

    /**
     * `render()` over the records the data provider yields, in order.  The new
     * state is exactly what `RenderSpec` computes from the old one.
     */
    method Render(records: seq<Record>)
      modifies this
      ensures groupBuilders == old(groupBuilders)
      ensures State() == RenderSpec(old(SpecsOf(groupBuilders)), old(State()), records)
    {
      RenderBand(ReportHeader, None, NoContext);
      ProcessRecords(records);
      CloseOpenGroups();
      RenderBand(Summary, None, NoContext);
      RenderBand(ReportFooter, None, NoContext);
    }

    /** The record loop of `render()`. */
    method ProcessRecords(records: seq<Record>)
      modifies this
      ensures groupBuilders == old(groupBuilders)
      ensures SpecsOf(groupBuilders) == old(SpecsOf(groupBuilders))
      ensures State() == RecordLoop(SpecsOf(groupBuilders), old(State()), records)
    {
      ghost var specs := SpecsOf(groupBuilders);
      ghost var start := State();
      var previousGroupKeys: seq<string> := [];
      for i := 0 to |records|
        invariant groupBuilders == old(groupBuilders) && SpecsOf(groupBuilders) == specs
        invariant State() == RecordLoop(specs, start, records[..i])
        invariant previousGroupKeys == LastKeys(specs, records[..i])
      {
        RecordLoopNext(specs, start, records, i);
        previousGroupKeys := ProcessRecord(previousGroupKeys, records[i]);
      }
      assert records[..|records|] == records;
    }

    /** The final loop: a footer for every level of the stack, deepest first. */
    method CloseOpenGroups()
      modifies this
      ensures groupBuilders == old(groupBuilders)
      ensures SpecsOf(groupBuilders) == old(SpecsOf(groupBuilders))
      ensures State() == FinalFooters(old(State()), |old(groupStack)|)
    {
      ghost var start := State();
      for level := |groupStack| downto 0
        invariant groupBuilders == old(groupBuilders) && SpecsOf(groupBuilders) == old(SpecsOf(groupBuilders))
        invariant groupStack == start.stack && groupStates == start.states
        invariant State() == FinalFooters(start, |start.stack| - level)
      {
        FinalFootersNext(start, |start.stack| - level - 1);
        EmitGroupBand(GroupFooter, level, PrefixKey(groupStack, level));
      }
    }
  }
}
