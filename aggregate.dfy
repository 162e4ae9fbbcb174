/**
 * The aggregate accumulator: a running sum, average, count, minimum or
 * maximum over one field (or extractor) of the records fed to it.
 */
module Aggregates {
  import opened Wrappers
  import opened Values

  /** The five aggregate types the builders produce. */
  datatype AggKind = Sum | Avg | Count | Min | Max

  /** The type tag stored for each kind (`Aggregate::TYPE_*`). */
  function TypeName(k: AggKind): string {
    match k
    case Sum => "sum"
    case Avg => "avg"
    case Count => "count"
    case Min => "min"
    case Max => "max"
  }

  /** Recognises a type tag; any other string is an unsupported type. */
  function ParseKind(t: string): (r: Option<AggKind>)
    ensures r.Some? ==> TypeName(r.value) == t
    ensures forall k :: TypeName(k) == t ==> r == Some(k)
  {
    if t == "sum" then Some(Sum)
    else if t == "avg" then Some(Avg)
    else if t == "count" then Some(Count)
    else if t == "min" then Some(Min)
    else if t == "max" then Some(Max)
    else None
  }

  /** The state of an accumulator of a known kind: the fields of `Aggregate`. */
  datatype Acc = Acc(kind: AggKind, field: Expr, value: real, count: nat, min: Option<real>, max: Option<real>)

  /** A freshly constructed accumulator. */
  function Fresh(kind: AggKind, field: Expr): Acc {
    Acc(kind, field, 0.0, 0, None, None)
  }

  /** The coerced number one record contributes; a missing field gives 0. */
  function Sample(field: Expr, rec: Record): real {
    ToReal(Eval(field, rec))
  }

  /** `accumulate($record)` for a known kind. */
  function Add(a: Acc, rec: Record): (r: Acc)
    ensures r.kind == a.kind && r.field == a.field
    ensures a.kind in {Sum, Avg} ==> r.value == a.value + Sample(a.field, rec) && r.count == a.count + 1 && r.min == a.min && r.max == a.max
    ensures a.kind == Count ==> r.value == a.value && r.count == a.count + 1 && r.min == a.min && r.max == a.max
    ensures a.kind == Min ==> r.value == a.value && r.count == a.count && r.max == a.max
    ensures a.kind == Max ==> r.value == a.value && r.count == a.count && r.min == a.min
  {
    var x := Sample(a.field, rec);
    match a.kind
    case Sum => a.(value := a.value + x, count := a.count + 1)
    case Avg => a.(value := a.value + x, count := a.count + 1)
    case Count => a.(count := a.count + 1)
    case Min => a.(min := Some(if a.min.None? then x else if a.min.value <= x then a.min.value else x))
    case Max => a.(max := Some(if a.max.None? then x else if a.max.value >= x then a.max.value else x))
  }

  /** `getValue()` for a known kind. */
  function ValueOf(a: Acc): real {
    match a.kind
    case Sum => a.value
    case Avg => if a.count > 0 then a.value / a.count as real else 0.0
    case Count => a.count as real
    case Min => a.min.GetOr(0.0)
    case Max => a.max.GetOr(0.0)
  }

  /** The accumulator after the records of `recs`, in order. */
  function FeedAll(a: Acc, recs: seq<Record>): Acc {
    if recs == [] then a else Add(FeedAll(a, recs[..|recs| - 1]), recs[|recs| - 1])
  }

  // ---------------------------------------------------------------------------
  // Reference definitions over the coerced samples

  /** The sum of the samples of `recs`. */
  function Total(field: Expr, recs: seq<Record>): real {
    if recs == [] then 0.0 else Total(field, recs[..|recs| - 1]) + Sample(field, recs[|recs| - 1])
  }

  /** An element of `recs` whose sample is least (earliest on ties). */
  function Least(field: Expr, recs: seq<Record>): real
    requires recs != []
  {
    if |recs| == 1 then Sample(field, recs[0])
    else
      var m := Least(field, recs[..|recs| - 1]);
      var x := Sample(field, recs[|recs| - 1]);
      if m <= x then m else x
  }

  function Greatest(field: Expr, recs: seq<Record>): real
    requires recs != []
  {
    if |recs| == 1 then Sample(field, recs[0])
    else
      var m := Greatest(field, recs[..|recs| - 1]);
      var x := Sample(field, recs[|recs| - 1]);
      if m >= x then m else x
  }

  lemma {:induction false} LeastIsMinimum(field: Expr, recs: seq<Record>)
    requires recs != []
    ensures forall i :: 0 <= i < |recs| ==> Least(field, recs) <= Sample(field, recs[i])
    ensures exists i :: 0 <= i < |recs| && Least(field, recs) == Sample(field, recs[i])
  {
    if |recs| > 1 {
      var init := recs[..|recs| - 1];
      LeastIsMinimum(field, init);
      var j :| 0 <= j < |init| && Least(field, init) == Sample(field, init[j]);
      assert recs[j] == init[j];
      var last := |recs| - 1;
      if Least(field, init) <= Sample(field, recs[last]) {
        assert Least(field, recs) == Sample(field, recs[j]);
      } else {
        assert Least(field, recs) == Sample(field, recs[last]);
      }
      forall i | 0 <= i < |recs| ensures Least(field, recs) <= Sample(field, recs[i]) {
        if i < |recs| - 1 { assert recs[i] == init[i]; }
      }
    } else {
      assert Least(field, recs) == Sample(field, recs[0]);
    }
  }

  lemma {:induction false} GreatestIsMaximum(field: Expr, recs: seq<Record>)
    requires recs != []
    ensures forall i :: 0 <= i < |recs| ==> Sample(field, recs[i]) <= Greatest(field, recs)
    ensures exists i :: 0 <= i < |recs| && Greatest(field, recs) == Sample(field, recs[i])
  {
    if |recs| > 1 {
      var init := recs[..|recs| - 1];
      GreatestIsMaximum(field, init);
      var j :| 0 <= j < |init| && Greatest(field, init) == Sample(field, init[j]);
      assert recs[j] == init[j];
      var last := |recs| - 1;
      if Greatest(field, init) >= Sample(field, recs[last]) {
        assert Greatest(field, recs) == Sample(field, recs[j]);
      } else {
        assert Greatest(field, recs) == Sample(field, recs[last]);
      }
      forall i | 0 <= i < |recs| ensures Sample(field, recs[i]) <= Greatest(field, recs) {
        if i < |recs| - 1 { assert recs[i] == init[i]; }
      }
    } else {
      assert Greatest(field, recs) == Sample(field, recs[0]);
    }
  }

  /** The raw state of a fresh accumulator after a sequence of records. */
  lemma {:induction false} FeedAllState(kind: AggKind, field: Expr, recs: seq<Record>)
    ensures var a := FeedAll(Fresh(kind, field), recs);
      && a.kind == kind && a.field == field
      && (kind in {Sum, Avg} ==> a.value == Total(field, recs) && a.count == |recs|)
      && (kind == Count ==> a.count == |recs|)
      && (kind == Min ==> a.min == if recs == [] then None else Some(Least(field, recs)))
      && (kind == Max ==> a.max == if recs == [] then None else Some(Greatest(field, recs)))
  {
    if recs != [] {
      FeedAllState(kind, field, recs[..|recs| - 1]);
    }
  }

  /** SUM is the sum of the coerced field values of all accumulated records. */
  lemma SumValue(field: Expr, recs: seq<Record>)
    ensures ValueOf(FeedAll(Fresh(Sum, field), recs)) == Total(field, recs)
  {
    FeedAllState(Sum, field, recs);
  }

  /** AVG is the running sum over the number of records, and 0 for none. */
  lemma AvgValue(field: Expr, recs: seq<Record>)
    ensures ValueOf(FeedAll(Fresh(Avg, field), recs)) == if recs == [] then 0.0 else Total(field, recs) / |recs| as real
  {
    FeedAllState(Avg, field, recs);
  }

  /** COUNT is the number of records accumulated, whatever their values. */
  lemma CountValue(field: Expr, recs: seq<Record>)
    ensures ValueOf(FeedAll(Fresh(Count, field), recs)) == |recs| as real
  {
    FeedAllState(Count, field, recs);
  }

  /** MIN is the least coerced value seen, and 0 before any record. */
  lemma MinValue(field: Expr, recs: seq<Record>)
    ensures recs == [] ==> ValueOf(FeedAll(Fresh(Min, field), recs)) == 0.0
    ensures recs != [] ==>
      && (forall i :: 0 <= i < |recs| ==> ValueOf(FeedAll(Fresh(Min, field), recs)) <= Sample(field, recs[i]))
      && (exists i :: 0 <= i < |recs| && ValueOf(FeedAll(Fresh(Min, field), recs)) == Sample(field, recs[i]))
  {
    FeedAllState(Min, field, recs);
    if recs != [] { LeastIsMinimum(field, recs); }
  }

  /** MAX is the greatest coerced value seen, and 0 before any record. */
  lemma MaxValue(field: Expr, recs: seq<Record>)
    ensures recs == [] ==> ValueOf(FeedAll(Fresh(Max, field), recs)) == 0.0
    ensures recs != [] ==>
      && (forall i :: 0 <= i < |recs| ==> Sample(field, recs[i]) <= ValueOf(FeedAll(Fresh(Max, field), recs)))
      && (exists i :: 0 <= i < |recs| && ValueOf(FeedAll(Fresh(Max, field), recs)) == Sample(field, recs[i]))
  {
    FeedAllState(Max, field, recs);
    if recs != [] { GreatestIsMaximum(field, recs); }
  }

  /**
   * A record without the field is accumulated exactly like one whose field
   * holds 0: it adds 0 to SUM, counts for AVG and COUNT, and is a MIN/MAX
   * candidate.
   */
  lemma MissingFieldIsZero(a: Acc, name: string, rec: Record)
    requires a.field == Field(name) && name !in rec
    ensures Add(a, rec) == Add(a, rec[name := Int(0)])
  {
    assert Sample(a.field, rec) == 0.0 == Sample(a.field, rec[name := Int(0)]);
  }

  // ---------------------------------------------------------------------------
  // The accumulator object

  class Aggregate {
    var typeName: string
    var field: Expr
    var value: real
    var count: nat
    var min: Option<real>
    var max: Option<real>

    /** Any type string is accepted here; an unknown one fails on use. */
    constructor (t: string, field: Expr)
      ensures typeName == t && this.field == field
      ensures value == 0.0 && count == 0 && min == None && max == None
    {
      typeName := t;
      this.field := field;
      value := 0.0;
      count := 0;
      min := None;
      max := None;
    }

    /** The fields, read as an accumulator of kind `k`. */
    function Snapshot(k: AggKind): Acc
      reads this
    {
      Acc(k, field, value, count, min, max)
    }

    method Accumulate(rec: Record) returns (outcome: Outcome<Error>)
      modifies this
      ensures typeName == old(typeName) && field == old(field)
      ensures ParseKind(typeName).None? ==>
        && outcome == Fail(InvalidArgumentException("Invalid aggregate type: " + typeName))
        && value == old(value) && count == old(count) && min == old(min) && max == old(max)
      ensures ParseKind(typeName).Some? ==>
        outcome == Pass && Snapshot(ParseKind(typeName).value) == Add(old(Snapshot(ParseKind(typeName).value)), rec)
    {
      var x := ToReal(Eval(field, rec));
      if typeName == "sum" || typeName == "avg" {
        value := value + x;
        count := count + 1;
      } else if typeName == "count" {
        count := count + 1;
      } else if typeName == "min" {
        min := Some(if min.None? then x else if min.value <= x then min.value else x);
      } else if typeName == "max" {
        max := Some(if max.None? then x else if max.value >= x then max.value else x);
      } else {
        return Fail(InvalidArgumentException("Invalid aggregate type: " + typeName));
      }
      outcome := Pass;
    }

    method GetValue() returns (r: Result<real, Error>)
      ensures ParseKind(typeName).None? ==>
        r == Failure(LogicException("Unsupported aggregate type in getValue: " + typeName))
      ensures ParseKind(typeName).Some? ==> r == Success(ValueOf(Snapshot(ParseKind(typeName).value)))
    {
      if typeName == "sum" {
        r := Success(value);
      } else if typeName == "avg" {
        r := Success(if count > 0 then value / count as real else 0.0);
      } else if typeName == "count" {
        r := Success(count as real);
      } else if typeName == "min" {
        r := Success(min.GetOr(0.0));
      } else if typeName == "max" {
        r := Success(max.GetOr(0.0));
      } else {
        r := Failure(LogicException("Unsupported aggregate type in getValue: " + typeName));
      }
    }
  }
}
