/**
 * Properties of group states and of the contexts built from them: the
 * aggregate entries, the order calculations run in, and the context of a key
 * that has no state.
 */
module ContextFacts {
  import opened Wrappers
  import opened Values
  import opened Aggregates
  import opened GroupBuilders
  import opened ControlBreak

  /** The aliases a list of aggregate definitions declares. */
  function Aliases(defs: seq<AggDef>): set<string> {
    set i | 0 <= i < |defs| :: defs[i].alias
  }

  /** No calculation in the list is named `k`. */
  predicate NoCalculationNamed(calcs: seq<Calculation>, k: string) {
    forall i :: 0 <= i < |calcs| ==> calcs[i].alias != k
  }

  /** A state gets one accumulator per declared alias. */
  lemma {:induction false} InitAggregatesKeys(defs: seq<AggDef>)
    ensures InitAggregates(defs).Keys == Aliases(defs)
    decreases |defs|
  {
    if defs != [] {
      var n := |defs| - 1;
      InitAggregatesKeys(defs[..n]);
      assert Aliases(defs) == Aliases(defs[..n]) + {defs[n].alias} by {
        forall x | x in Aliases(defs) ensures x in Aliases(defs[..n]) + {defs[n].alias} {
          var i :| 0 <= i < |defs| && defs[i].alias == x;
          if i < n {
            assert defs[..n][i] == defs[i];
          }
        }
        forall x | x in Aliases(defs[..n]) ensures x in Aliases(defs) {
          var i :| 0 <= i < n && defs[..n][i].alias == x;
          assert defs[i] == defs[..n][i];
        }
      }
    }
  }

  /**
   * When several definitions share an alias, the last of them supplies the
   * accumulator: a fresh one of its kind over its field.
   */
  lemma {:induction false} InitAggregatesLastWins(defs: seq<AggDef>, i: nat)
    requires i < |defs|
    requires forall t :: i < t < |defs| ==> defs[t].alias != defs[i].alias
    ensures defs[i].alias in InitAggregates(defs)
    ensures InitAggregates(defs)[defs[i].alias] == Fresh(defs[i].kind, defs[i].field)
    decreases |defs|
  {
    var n := |defs| - 1;
    if i < n {
      assert defs[..n][i] == defs[i];
      forall t | i < t < n ensures defs[..n][t].alias != defs[..n][i].alias {
        assert defs[..n][t] == defs[t];
      }
      InitAggregatesLastWins(defs[..n], i);
    }
  }

  /** A calculation never touches an entry it is not named after. */
  lemma {:induction false} RunCalculationsKeeps(view: map<string, Datum>, ctx: map<string, Datum>,
                                                calcs: seq<Calculation>, k: string)
    requires NoCalculationNamed(calcs, k)
    ensures k in RunCalculations(view, ctx, calcs) <==> k in ctx
    ensures k in ctx ==> RunCalculations(view, ctx, calcs)[k] == ctx[k]
    decreases |calcs|
  {
    if calcs != [] {
      var n := |calcs| - 1;
      assert calcs[n].alias != k;
      forall i | 0 <= i < n ensures calcs[..n][i].alias != k {
        assert calcs[..n][i] == calcs[i];
      }
      RunCalculationsKeeps(view, ctx, calcs[..n], k);
    }
  }

  /**
   * Calculations run in declaration order, each on the state merged with the
   * context so far, the state's entries winning: calculation `j` sees the
   * result of an earlier calculation `i` unless a calculation in between
   * reused the alias or the state has an entry of that name.
   */
  lemma {:induction false} CalculationSeesEarlier(view: map<string, Datum>, ctx: map<string, Datum>,
                                                  calcs: seq<Calculation>, i: nat, j: nat)
    requires i < j <= |calcs|
    requires calcs[i].alias !in view
    requires forall t :: i < t < j ==> calcs[t].alias != calcs[i].alias
    ensures calcs[i].alias in RunCalculations(view, ctx, calcs[..j])
    ensures (RunCalculations(view, ctx, calcs[..j]) + view)[calcs[i].alias]
         == calcs[i].callback(RunCalculations(view, ctx, calcs[..i]) + view)
    decreases j
  {
    var k := calcs[i].alias;
    assert calcs[..j][..j - 1] == calcs[..j - 1];
    var after := RunCalculations(view, ctx, calcs[..j]);
    var before := RunCalculations(view, ctx, calcs[..j - 1]);
    if j == i + 1 {
      assert calcs[..j][j - 1] == calcs[i];
      assert after == before[k := calcs[i].callback(before + view)];
    } else {
      assert calcs[..j][j - 1] == calcs[j - 1];
      CalculationSeesEarlier(view, ctx, calcs, i, j - 1);
      assert calcs[j - 1].alias != k;
      assert after[k] == before[k];
    }
  }

  /** An entry of the state is what every calculation sees under that name. */
  lemma CalculationSeesState(view: map<string, Datum>, ctx: map<string, Datum>,
                             calcs: seq<Calculation>, j: nat, k: string)
    requires j <= |calcs| && k in view
    ensures (RunCalculations(view, ctx, calcs[..j]) + view)[k] == view[k]
  {
  }

  /**
   * Each aggregate alias that no calculation reuses maps, in the context, to
   * the accumulator's `getValue`.
   */
  lemma ContextAggregate(st: GroupState, a: string)
    requires a in st.aggregates && NoCalculationNamed(st.calculations, a)
    ensures a in ContextOf(st) && ContextOf(st)[a] == DNumber(ValueOf(st.aggregates[a]))
  {
    RunCalculationsKeeps(StateView(st), BaseContext(st) + AggregateEntries(st), st.calculations, a);
  }

  /**
   * `firstRecord`, `lastRecord` and `recordCount` come from the state unless an
   * aggregate or calculation alias shadows them.
   */
  lemma ContextBase(st: GroupState)
    requires forall k :: k in BaseContext(st) ==> k !in st.aggregates && NoCalculationNamed(st.calculations, k)
    ensures var ctx := ContextOf(st);
            "firstRecord" in ctx && ctx["firstRecord"] == AsDatum(st.firstRecord) &&
            "lastRecord" in ctx && ctx["lastRecord"] == AsDatum(st.lastRecord) &&
            "recordCount" in ctx && ctx["recordCount"] == DInt(|st.records|)
  {
    var base := BaseContext(st);
    var start := base + AggregateEntries(st);
    assert "firstRecord" in base && "lastRecord" in base && "recordCount" in base;
    RunCalculationsKeeps(StateView(st), start, st.calculations, "firstRecord");
    RunCalculationsKeeps(StateView(st), start, st.calculations, "lastRecord");
    RunCalculationsKeeps(StateView(st), start, st.calculations, "recordCount");
  }

  /** A key without a state has null records, a zero count and nothing else. */
  lemma AbsentContext(states: map<string, GroupState>, key: string)
    requires key !in states
    ensures BuildContext(states, key) == map["firstRecord" := DNull, "lastRecord" := DNull, "recordCount" := DInt(0)]
  {
    assert AggregateEntries(Absent) == map[];
  }

  /**
   * The context of a group just opened on `rec`: that record first, no last
   * record, a zero count, and zero for every aggregate no calculation
   * reuses.
   */
  lemma OpenedContext(spec: GroupSpec, rec: Record)
    requires forall k :: k in ["firstRecord", "lastRecord", "recordCount"] ==>
      k !in Aliases(spec.aggregates) && NoCalculationNamed(spec.calculations, k)
    ensures var ctx := ContextOf(Opened(spec, rec));
            "firstRecord" in ctx && ctx["firstRecord"] == DRecord(rec) &&
            "lastRecord" in ctx && ctx["lastRecord"] == DNull &&
            "recordCount" in ctx && ctx["recordCount"] == DInt(0)
    ensures forall a :: a in Aliases(spec.aggregates) && NoCalculationNamed(spec.calculations, a) ==>
      a in ContextOf(Opened(spec, rec)) && ContextOf(Opened(spec, rec))[a] == DNumber(0.0)
  {
    var st := Opened(spec, rec);
    InitAggregatesKeys(spec.aggregates);
    ContextBase(st);
    forall a | a in Aliases(spec.aggregates) && NoCalculationNamed(spec.calculations, a)
      ensures a in ContextOf(st) && ContextOf(st)[a] == DNumber(0.0)
    {
      ContextAggregate(st, a);
      FreshAccumulators(spec.aggregates, a);
    }
  }

  /** Every accumulator of a fresh state reads 0. */
  lemma {:induction false} FreshAccumulators(defs: seq<AggDef>, a: string)
    requires a in InitAggregates(defs)
    ensures ValueOf(InitAggregates(defs)[a]) == 0.0
    decreases |defs|
  {
    if defs != [] {
      var n := |defs| - 1;
      if a != defs[n].alias {
        FreshAccumulators(defs[..n], a);
      }
    }
  }
}
