/**
 * The report's own test data, run through the model: a single level over
 * categories A, A, B; the five-record input whose two groups have all five
 * aggregate kinds; and an empty input on a fresh report.
 */
module Scenarios {
  import opened Wrappers
  import opened Values
  import opened Aggregates
  import opened GroupBuilders
  import opened ControlBreak
  import opened ContextFacts
  import opened EngineFacts
  import opened SingleLevel

  /** The state of a report nobody has rendered yet. */
  const FreshEngine := Engine([], [], map[])

  const RH := Band(ReportHeader, None, NoContext)
  const SM := Band(Summary, None, NoContext)
  const RF := Band(ReportFooter, None, NoContext)

  // ---------------------------------------------------------------------------
  // Categories A, A, B with a sum over the amount

  function Sale(id: int, category: string, amount: int): Record {
    map["id" := Int(id), "category" := Str(category), "amount" := Int(amount)]
  }

  const Sales := [Sale(1, "A", 100), Sale(2, "A", 200), Sale(3, "B", 300)]

  const ByCategory := GroupSpec(Field("category"), [AggDef(Sum, Field("amount"), "sumAmount")], [])

  lemma SaleFields(id: int, category: string, amount: int)
    ensures GroupKey(ByCategory, Sale(id, category, amount)) == category
    ensures Sample(Field("amount"), Sale(id, category, amount)) == amount as real
  {
  }

  lemma Shape3<T>(whole: seq<T>, start: seq<T>, lb1: seq<T>, lb2: seq<T>, lb3: seq<T>, rh: T, h0: T, d0: T, d1: T, f1: T,
                  h2: T, d2: T, f2: T, sm: T, rf: T)
    requires start == [] && lb1 == [] + ([] + [h0] + [d0]) && lb2 == lb1 + ([] + [] + [d1]) && lb3 == lb2 + ([f1] + [h2] + [d2])
    requires whole == start + [rh] + lb3 + [f2, sm, rf]
    ensures whole == [rh, h0, d0, d1, f1, h2, d2, f2, sm, rf]
  {
  }

  /**
   * Three records whose keys are A, A, B on one level: the first two form
   * one group and the third another.
   */
  lemma {:induction false} TwoRunsBands(spec: GroupSpec, r0: Record, r1: Record, r2: Record)
    requires GroupKey(spec, r0) == GroupKey(spec, r1) != GroupKey(spec, r2)
    ensures var recs := [r0, r1, r2];
            RenderSpec([spec], FreshEngine, recs).bands
            == [RH, OpenedHeader([spec], 0, r0), DetailBand(r0), DetailBand(r1), RunFooter(spec, recs, 1),
                OpenedHeader([spec], 0, r2), DetailBand(r2), RunFooter(spec, recs, 2), SM, RF]
  {
    var recs := [r0, r1, r2];
    assert BreakAt(spec, recs, 0) && !BreakAt(spec, recs, 1) && BreakAt(spec, recs, 2);
    SingleLevelRender(spec, FreshEngine, recs);
    var h0, d0, d1, f1 := OpenedHeader([spec], 0, r0), DetailBand(r0), DetailBand(r1), RunFooter(spec, recs, 1);
    var h2, d2 := OpenedHeader([spec], 0, r2), DetailBand(r2);
    assert RecordBands(spec, recs, 0) == [] + [h0] + [d0];
    assert RecordBands(spec, recs, 1) == [] + [] + [d1];
    assert RecordBands(spec, recs, 2) == [f1] + [h2] + [d2];
    assert LevelBands(spec, recs, 1) == LevelBands(spec, recs, 0) + RecordBands(spec, recs, 0);
    assert LevelBands(spec, recs, 2) == LevelBands(spec, recs, 1) + RecordBands(spec, recs, 1);
    assert LevelBands(spec, recs, 3) == LevelBands(spec, recs, 2) + RecordBands(spec, recs, 2);
    Shape3(RenderSpec([spec], FreshEngine, recs).bands, FreshEngine.bands,
           LevelBands(spec, recs, 1), LevelBands(spec, recs, 2), LevelBands(spec, recs, 3),
           RH, h0, d0, d1, f1, h2, d2, RunFooter(spec, recs, 2), SM, RF);
  }

  /** The name of a group band on level 0. */
  lemma LevelZeroName(b: Band)
    requires b.level == Some(0)
    ensures BandName(b) == TypeString(b.kind) + "_0"
  {
    assert NatToString(0) == "0";
  }

  predicate LevelZero(b: Band, kind: BandType) {
    b.kind == kind && b.level == Some(0)
  }

  predicate IsDetail(b: Band) {
    b.kind == Detail && b.level.None?
  }

  /** The names of two groups of one and two details, between the report bands. */
  lemma TwoGroupsNames(bs: seq<Band>, h0: Band, d0: Band, d1: Band, f1: Band, h2: Band, d2: Band, f2: Band)
    requires bs == [RH, h0, d0, d1, f1, h2, d2, f2, SM, RF]
    requires LevelZero(h0, GroupHeader) && LevelZero(h2, GroupHeader)
    requires LevelZero(f1, GroupFooter) && LevelZero(f2, GroupFooter)
    requires IsDetail(d0) && IsDetail(d1) && IsDetail(d2)
    ensures BandNames(bs) == ["reportHeader", "groupHeader_0", "detail", "detail", "groupFooter_0",
                              "groupHeader_0", "detail", "groupFooter_0", "summary", "reportFooter"]
  {
    LevelZeroName(h0);
    LevelZeroName(f1);
    LevelZeroName(h2);
    LevelZeroName(f2);
    var names := ["reportHeader", "groupHeader_0", "detail", "detail", "groupFooter_0",
                  "groupHeader_0", "detail", "groupFooter_0", "summary", "reportFooter"];
    assert |BandNames(bs)| == |names|;
    forall i | 0 <= i < 10 ensures BandNames(bs)[i] == names[i] {
      assert BandNames(bs)[i] == BandName(bs[i]);
    }
  }

  /** The names recorded for the two groups of `TwoRunsBands`. */
  lemma TwoRunsNames(spec: GroupSpec, r0: Record, r1: Record, r2: Record)
    requires GroupKey(spec, r0) == GroupKey(spec, r1) != GroupKey(spec, r2)
    ensures BandNames(RenderSpec([spec], FreshEngine, [r0, r1, r2]).bands)
         == ["reportHeader", "groupHeader_0", "detail", "detail", "groupFooter_0",
             "groupHeader_0", "detail", "groupFooter_0", "summary", "reportFooter"]
  {
    var recs := [r0, r1, r2];
    TwoRunsBands(spec, r0, r1, r2);
    TwoGroupsNames(RenderSpec([spec], FreshEngine, recs).bands,
                   OpenedHeader([spec], 0, r0), DetailBand(r0), DetailBand(r1), RunFooter(spec, recs, 1),
                   OpenedHeader([spec], 0, r2), DetailBand(r2), RunFooter(spec, recs, 2));
  }

  /** The band names the test renderer records for the three sales. */
  lemma SalesBandNames()
    ensures BandNames(RenderSpec([ByCategory], FreshEngine, Sales).bands)
         == ["reportHeader", "groupHeader_0", "detail", "detail", "groupFooter_0",
             "groupHeader_0", "detail", "groupFooter_0", "summary", "reportFooter"]
  {
    SaleFields(1, "A", 100);
    SaleFields(2, "A", 200);
    SaleFields(3, "B", 300);
    assert [Sales[0], Sales[1], Sales[2]] == Sales;
    TwoRunsNames(ByCategory, Sales[0], Sales[1], Sales[2]);
  }

  /** With keys A, A, B the runs start at the first and at the third record. */
  lemma TwoRunsStarts(spec: GroupSpec, r0: Record, r1: Record, r2: Record)
    requires GroupKey(spec, r0) == GroupKey(spec, r1) != GroupKey(spec, r2)
    ensures RunStart(spec, [r0, r1, r2], 1) == 0 && RunStart(spec, [r0, r1, r2], 2) == 2
  {
    assert BreakAt(spec, [r0, r1, r2], 0) && !BreakAt(spec, [r0, r1, r2], 1) && BreakAt(spec, [r0, r1, r2], 2);
  }

  /**
   * The footer closing the first group of `TwoRunsBands` shows the first
   * two records, a count of 2 and every aggregate over those two.
   */
  lemma FirstRunFooter(spec: GroupSpec, r0: Record, r1: Record, r2: Record, i: nat)
    requires GroupKey(spec, r0) == GroupKey(spec, r1) != GroupKey(spec, r2) && Unshadowed(spec)
    requires i < |spec.aggregates| && NoCalculationNamed(spec.calculations, spec.aggregates[i].alias)
    requires forall t :: i < t < |spec.aggregates| ==> spec.aggregates[t].alias != spec.aggregates[i].alias
    ensures var f := RunFooter(spec, [r0, r1, r2], 1).context.entries;
            var d := spec.aggregates[i];
            "firstRecord" in f && f["firstRecord"] == DRecord(r0) &&
            "lastRecord" in f && f["lastRecord"] == DRecord(r1) &&
            "recordCount" in f && f["recordCount"] == DInt(2) &&
            d.alias in f && f[d.alias] == DNumber(ValueOf(Add(Add(Fresh(d.kind, d.field), r0), r1)))
  {
    var recs := [r0, r1, r2];
    var d := spec.aggregates[i];
    TwoRunsStarts(spec, r0, r1, r2);
    RunFooterContext(spec, recs, 1);
    RunFooterAggregate(spec, recs, 1, i);
    assert recs[0..2] == [r0, r1];
    FeedTwo(d.kind, d.field, r0, r1);
  }

  /** The footer closing the second group of `TwoRunsBands` shows the third record alone. */
  lemma SecondRunFooter(spec: GroupSpec, r0: Record, r1: Record, r2: Record, i: nat)
    requires GroupKey(spec, r0) == GroupKey(spec, r1) != GroupKey(spec, r2) && Unshadowed(spec)
    requires i < |spec.aggregates| && NoCalculationNamed(spec.calculations, spec.aggregates[i].alias)
    requires forall t :: i < t < |spec.aggregates| ==> spec.aggregates[t].alias != spec.aggregates[i].alias
    ensures var f := RunFooter(spec, [r0, r1, r2], 2).context.entries;
            var d := spec.aggregates[i];
            "firstRecord" in f && f["firstRecord"] == DRecord(r2) &&
            "lastRecord" in f && f["lastRecord"] == DRecord(r2) &&
            "recordCount" in f && f["recordCount"] == DInt(1) &&
            d.alias in f && f[d.alias] == DNumber(ValueOf(Add(Fresh(d.kind, d.field), r2)))
  {
    var recs := [r0, r1, r2];
    var d := spec.aggregates[i];
    TwoRunsStarts(spec, r0, r1, r2);
    RunFooterContext(spec, recs, 2);
    RunFooterAggregate(spec, recs, 2, i);
    assert recs[2..3] == [r2];
    FeedOne(d.kind, d.field, r2);
  }

  /**
   * The sales: the A group opens on the first sale and closes after the
   * first two with a sum of 300; the B group holds the third sale alone,
   * also summing 300.
   */
  lemma SalesContexts(spec: GroupSpec, recs: seq<Record>)
    requires spec == ByCategory && recs == Sales
    ensures var h := OpenedHeader([spec], 0, recs[0]).context.entries;
            "firstRecord" in h && h["firstRecord"] == DRecord(recs[0]) &&
            "recordCount" in h && h["recordCount"] == DInt(0)
    ensures var f := RunFooter(spec, recs, 1).context.entries;
            "firstRecord" in f && f["firstRecord"] == DRecord(recs[0]) &&
            "lastRecord" in f && f["lastRecord"] == DRecord(recs[1]) &&
            "recordCount" in f && f["recordCount"] == DInt(2) &&
            "sumAmount" in f && f["sumAmount"] == DNumber(300.0)
    ensures var h := OpenedHeader([spec], 0, recs[2]).context.entries;
            "firstRecord" in h && h["firstRecord"] == DRecord(recs[2]) &&
            "recordCount" in h && h["recordCount"] == DInt(0)
    ensures var f := RunFooter(spec, recs, 2).context.entries;
            "firstRecord" in f && f["firstRecord"] == DRecord(recs[2]) &&
            "lastRecord" in f && f["lastRecord"] == DRecord(recs[2]) &&
            "recordCount" in f && f["recordCount"] == DInt(1) &&
            "sumAmount" in f && f["sumAmount"] == DNumber(300.0)
  {
    SaleFields(1, "A", 100);
    SaleFields(2, "A", 200);
    SaleFields(3, "B", 300);
    assert recs == [recs[0], recs[1], recs[2]];
    assert Unshadowed(spec);
    RunHeaderContext(spec, recs[0]);
    RunHeaderContext(spec, recs[2]);
    FirstRunFooter(spec, recs[0], recs[1], recs[2], 0);
    SecondRunFooter(spec, recs[0], recs[1], recs[2], 0);
  }

  /** Accumulators over one, two and three records. */
  lemma FeedOne(kind: AggKind, field: Expr, r0: Record)
    ensures FeedAll(Fresh(kind, field), [r0]) == Add(Fresh(kind, field), r0)
  {
    assert [r0][..0] == [];
  }

  lemma FeedTwo(kind: AggKind, field: Expr, r0: Record, r1: Record)
    ensures FeedAll(Fresh(kind, field), [r0, r1]) == Add(Add(Fresh(kind, field), r0), r1)
  {
    assert [r0, r1][..1] == [r0];
    FeedOne(kind, field, r0);
  }

  lemma FeedThree(kind: AggKind, field: Expr, r0: Record, r1: Record, r2: Record)
    ensures FeedAll(Fresh(kind, field), [r0, r1, r2]) == Add(Add(Add(Fresh(kind, field), r0), r1), r2)
  {
    assert [r0, r1, r2][..2] == [r0, r1];
    FeedTwo(kind, field, r0, r1);
  }

  // ---------------------------------------------------------------------------
  // Two categories with every aggregate kind

  function Item(id: int, category: string, amount: int, quantity: int): Record {
    map["id" := Int(id), "category" := Str(category), "amount" := Int(amount), "quantity" := Int(quantity)]
  }

  const Items := [Item(1, "Electronics", 100, 2), Item(2, "Electronics", 200, 1), Item(3, "Electronics", 300, 5),
                  Item(4, "Books", 50, 10), Item(5, "Books", 30, 8)]

  const AllKinds := GroupSpec(Field("category"),
    [AggDef(Sum, Field("amount"), "totalAmount"), AggDef(Avg, Field("amount"), "avgAmount"),
     AggDef(Count, Field("amount"), "itemCount"), AggDef(Min, Field("amount"), "minAmount"),
     AggDef(Max, Field("amount"), "maxAmount"), AggDef(Count, Field("quantity"), "quantityCount")],
    [])

  lemma ItemFields(id: int, category: string, amount: int, quantity: int)
    ensures GroupKey(AllKinds, Item(id, category, amount, quantity)) == category
    ensures Sample(Field("amount"), Item(id, category, amount, quantity)) == amount as real
  {
  }

  lemma ItemsRuns(spec: GroupSpec, recs: seq<Record>)
    requires spec == AllKinds && recs == Items
    ensures RunStart(spec, recs, 2) == 0 && RunStart(spec, recs, 4) == 3
  {
    ItemFields(1, "Electronics", 100, 2);
    ItemFields(2, "Electronics", 200, 1);
    ItemFields(3, "Electronics", 300, 5);
    ItemFields(4, "Books", 50, 10);
    ItemFields(5, "Books", 30, 8);
    assert BreakAt(spec, recs, 0) && !BreakAt(spec, recs, 1) && !BreakAt(spec, recs, 2);
    assert BreakAt(spec, recs, 3) && !BreakAt(spec, recs, 4);
  }

  /** Electronics: 100, 200, 300. */
  lemma ElectronicsValues()
    ensures var e := Items[0..3];
            ValueOf(FeedAll(Fresh(Sum, Field("amount")), e)) == 600.0 &&
            ValueOf(FeedAll(Fresh(Avg, Field("amount")), e)) == 200.0 &&
            ValueOf(FeedAll(Fresh(Count, Field("amount")), e)) == 3.0 &&
            ValueOf(FeedAll(Fresh(Min, Field("amount")), e)) == 100.0 &&
            ValueOf(FeedAll(Fresh(Max, Field("amount")), e)) == 300.0
  {
    var amount := Field("amount");
    assert Items[0..3] == [Items[0], Items[1], Items[2]];
    ItemFields(1, "Electronics", 100, 2);
    ItemFields(2, "Electronics", 200, 1);
    ItemFields(3, "Electronics", 300, 5);
    FeedThree(Sum, amount, Items[0], Items[1], Items[2]);
    FeedThree(Avg, amount, Items[0], Items[1], Items[2]);
    FeedThree(Count, amount, Items[0], Items[1], Items[2]);
    FeedThree(Min, amount, Items[0], Items[1], Items[2]);
    FeedThree(Max, amount, Items[0], Items[1], Items[2]);
  }

  /** Books: 50, 30. */
  lemma BooksValues()
    ensures var b := Items[3..5];
            ValueOf(FeedAll(Fresh(Sum, Field("amount")), b)) == 80.0 &&
            ValueOf(FeedAll(Fresh(Avg, Field("amount")), b)) == 40.0 &&
            ValueOf(FeedAll(Fresh(Count, Field("amount")), b)) == 2.0 &&
            ValueOf(FeedAll(Fresh(Min, Field("amount")), b)) == 30.0 &&
            ValueOf(FeedAll(Fresh(Max, Field("amount")), b)) == 50.0
  {
    var amount := Field("amount");
    assert Items[3..5] == [Items[3], Items[4]];
    ItemFields(4, "Books", 50, 10);
    ItemFields(5, "Books", 30, 8);
    FeedTwo(Sum, amount, Items[3], Items[4]);
    FeedTwo(Avg, amount, Items[3], Items[4]);
    FeedTwo(Count, amount, Items[3], Items[4]);
    FeedTwo(Min, amount, Items[3], Items[4]);
    FeedTwo(Max, amount, Items[3], Items[4]);
  }

  /** Each of the five amount aggregates is the last definition of its alias, and no calculation reuses it. */
  lemma AllKindsAliases(spec: GroupSpec, i: nat)
    requires spec == AllKinds && i < 5
    ensures i < |spec.aggregates| && NoCalculationNamed(spec.calculations, spec.aggregates[i].alias)
    ensures forall t :: i < t < |spec.aggregates| ==> spec.aggregates[t].alias != spec.aggregates[i].alias
  {
  }

  /**
   * The two footers: 600, 200, 3, 100 and 300 for Electronics, and 80, 40,
   * 2, 30 and 50 for Books.
   */
  lemma ItemsFooters(spec: GroupSpec, recs: seq<Record>)
    requires spec == AllKinds && recs == Items
    ensures var e := RunFooter(spec, recs, 2).context.entries;
            "totalAmount" in e && e["totalAmount"] == DNumber(600.0) &&
            "avgAmount" in e && e["avgAmount"] == DNumber(200.0) &&
            "itemCount" in e && e["itemCount"] == DNumber(3.0) &&
            "minAmount" in e && e["minAmount"] == DNumber(100.0) &&
            "maxAmount" in e && e["maxAmount"] == DNumber(300.0)
    ensures var b := RunFooter(spec, recs, 4).context.entries;
            "totalAmount" in b && b["totalAmount"] == DNumber(80.0) &&
            "avgAmount" in b && b["avgAmount"] == DNumber(40.0) &&
            "itemCount" in b && b["itemCount"] == DNumber(2.0) &&
            "minAmount" in b && b["minAmount"] == DNumber(30.0) &&
            "maxAmount" in b && b["maxAmount"] == DNumber(50.0)
  {
    ItemsRuns(spec, recs);
    ElectronicsValues();
    BooksValues();
    assert recs[0..3] == Items[0..3] && recs[3..5] == Items[3..5];
    FooterValues(spec, recs, 0);
    FooterValues(spec, recs, 1);
    FooterValues(spec, recs, 2);
    FooterValues(spec, recs, 3);
    FooterValues(spec, recs, 4);
  }

  /** Aggregate `i` of both footers, over the run each closes. */
  lemma FooterValues(spec: GroupSpec, recs: seq<Record>, i: nat)
    requires spec == AllKinds && recs == Items && i < 5
    ensures var d := spec.aggregates[i];
            var e := RunFooter(spec, recs, 2).context.entries;
            var b := RunFooter(spec, recs, 4).context.entries;
            d.alias in e && e[d.alias] == DNumber(ValueOf(FeedAll(Fresh(d.kind, d.field), recs[0..3]))) &&
            d.alias in b && b[d.alias] == DNumber(ValueOf(FeedAll(Fresh(d.kind, d.field), recs[3..5])))
  {
    ItemsRuns(spec, recs);
    AllKindsAliases(spec, i);
    RunFooterAggregate(spec, recs, 2, i);
    RunFooterAggregate(spec, recs, 4, i);
  }

  // ---------------------------------------------------------------------------
  // A fresh report with nothing to process

  /** With no record, a fresh report emits the report header, the summary and the report footer. */
  lemma EmptyInput(specs: seq<GroupSpec>)
    ensures BandNames(RenderSpec(specs, FreshEngine, []).bands) == ["reportHeader", "summary", "reportFooter"]
  {
    RenderNothing(specs, FreshEngine);
  }
}
