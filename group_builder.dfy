/**
 * The description of one grouping level: its key expression, the aggregates
 * computed for each group instance, and the calculated fields derived from
 * them.
 */
module GroupBuilders {
  import opened Values
  import opened Aggregates

  /** `['type' => ..., 'field' => ..., 'as' => ...]` */
  datatype AggDef = AggDef(kind: AggKind, field: Expr, alias: string)

  /** `['as' => ..., 'callback' => ...]`; the callback receives the group context. */
  datatype Calculation = Calculation(alias: string, callback: map<string, Datum> -> Datum)

  /** What a builder holds, as a value. */
  datatype GroupSpec = GroupSpec(expression: Expr, aggregates: seq<AggDef>, calculations: seq<Calculation>)

  class GroupBuilder {
    var expression: Expr
    var aggregates: seq<AggDef>
    var calculations: seq<Calculation>

    constructor (expression: Expr)
      ensures this.expression == expression && aggregates == [] && calculations == []
    {
      this.expression := expression;
      aggregates := [];
      calculations := [];
    }

    /** The builder's current configuration. */
    function Spec(): GroupSpec
      reads this
    {
      GroupSpec(expression, aggregates, calculations)
    }

    method GetExpression() returns (e: Expr)
      ensures e == expression
    {
      e := expression;
    }

    method Sum(field: Expr, alias: string) returns (self: GroupBuilder)
      modifies this
      ensures self == this && expression == old(expression)
      ensures aggregates == old(aggregates) + [AggDef(AggKind.Sum, field, alias)]
      ensures calculations == old(calculations)
    {
      aggregates := aggregates + [AggDef(AggKind.Sum, field, alias)];
      self := this;
    }

    method Avg(field: Expr, alias: string) returns (self: GroupBuilder)
      modifies this
      ensures self == this && expression == old(expression)
      ensures aggregates == old(aggregates) + [AggDef(AggKind.Avg, field, alias)]
      ensures calculations == old(calculations)
    {
      aggregates := aggregates + [AggDef(AggKind.Avg, field, alias)];
      self := this;
    }

    method Count(field: Expr, alias: string) returns (self: GroupBuilder)
      modifies this
      ensures self == this && expression == old(expression)
      ensures aggregates == old(aggregates) + [AggDef(AggKind.Count, field, alias)]
      ensures calculations == old(calculations)
    {
      aggregates := aggregates + [AggDef(AggKind.Count, field, alias)];
      self := this;
    }

    method Min(field: Expr, alias: string) returns (self: GroupBuilder)
      modifies this
      ensures self == this && expression == old(expression)
      ensures aggregates == old(aggregates) + [AggDef(AggKind.Min, field, alias)]
      ensures calculations == old(calculations)
    {
      aggregates := aggregates + [AggDef(AggKind.Min, field, alias)];
      self := this;
    }

    method Max(field: Expr, alias: string) returns (self: GroupBuilder)
      modifies this
      ensures self == this && expression == old(expression)
      ensures aggregates == old(aggregates) + [AggDef(AggKind.Max, field, alias)]
      ensures calculations == old(calculations)
    {
      aggregates := aggregates + [AggDef(AggKind.Max, field, alias)];
      self := this;
    }

    method Calculate(alias: string, callback: map<string, Datum> -> Datum) returns (self: GroupBuilder)
      modifies this
      ensures self == this && expression == old(expression)
      ensures calculations == old(calculations) + [Calculation(alias, callback)]
      ensures aggregates == old(aggregates)
    {
      calculations := calculations + [Calculation(alias, callback)];
      self := this;
    }

    method GetAggregates() returns (defs: seq<AggDef>)
      ensures defs == aggregates
    {
      defs := aggregates;
    }

    method GetCalculations() returns (calcs: seq<Calculation>)
      ensures calcs == calculations
    {
      calcs := calculations;
    }
  }
}
