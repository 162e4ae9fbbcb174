/**
 * The fluent builder a client configures a report with: `groupBy` opens a
 * new grouping level and the aggregate and calculation methods describe the
 * last level opened so far.
 */
module ReportBuilders {
  import opened Wrappers
  import opened Values
  import opened Aggregates
  import opened GroupBuilders
  import opened Reports

  const NoGroupMessage := "You must call groupBy() before adding an aggregate function."

  class ReportBuilder {
    var report: Report
    var groups: seq<GroupBuilder>

    constructor (report: Report)
      ensures this.report == report && groups == []
    {
      this.report := report;
      groups := [];
    }

    /** No builder occurs twice among the levels. */
    ghost predicate Distinct()
      reads this
    {
      forall i, j :: 0 <= i < j < |groups| ==> groups[i] != groups[j]
    }

    /** The level that the aggregate and calculation methods configure. */
    function Last(): GroupBuilder
      requires groups != []
      reads this
    {
      groups[|groups| - 1]
    }

    method GroupBy(expression: Expr) returns (self: ReportBuilder)
      requires Distinct()
      modifies this
      ensures self == this && report == old(report) && Distinct()
      ensures |groups| == |old(groups)| + 1 && groups[..|old(groups)|] == old(groups)
      ensures fresh(Last()) && Last().Spec() == GroupSpec(expression, [], [])
      ensures forall i :: 0 <= i < |old(groups)| ==> groups[i].Spec() == old(groups[i].Spec())
    {
      var builder := new GroupBuilder(expression);
      groups := groups + [builder];
      self := this;
    }

    /** `checkGroupCount`: an aggregate needs a level to attach to. */
    method CheckGroupCount() returns (outcome: Outcome<Error>)
      ensures outcome.Fail? <==> groups == []
      ensures outcome.Fail? ==> outcome.error == ReportWriterException(NoGroupMessage)
    {
      if |groups| == 0 {
        return Fail(ReportWriterException(NoGroupMessage));
      }
      return Pass;
    }

    method Sum(field: Expr, alias: string) returns (r: Result<ReportBuilder, Error>)
      requires Distinct()
      modifies if groups == [] then {} else {Last()}
      ensures old(groups) == [] ==> r == Failure(ReportWriterException(NoGroupMessage))
      ensures old(groups) != [] ==> r == Success(this)
      ensures groups == old(groups) && report == old(report)
      ensures old(groups) != [] ==>
        Last().aggregates == old(Last().aggregates) + [AggDef(AggKind.Sum, field, alias)] &&
        Last().expression == old(Last().expression) && Last().calculations == old(Last().calculations)
      ensures forall i :: 0 <= i < |groups| - 1 ==> groups[i].Spec() == old(groups[i].Spec())
    {
      var outcome := CheckGroupCount();
      if outcome.Fail? {
        return Failure(outcome.error);
      }
      var last := groups[|groups| - 1];
      var _ := last.Sum(field, alias);
      return Success(this);
    }

    method Avg(field: Expr, alias: string) returns (r: Result<ReportBuilder, Error>)
      requires Distinct()
      modifies if groups == [] then {} else {Last()}
      ensures old(groups) == [] ==> r == Failure(ReportWriterException(NoGroupMessage))
      ensures old(groups) != [] ==> r == Success(this)
      ensures groups == old(groups) && report == old(report)
      ensures old(groups) != [] ==>
        Last().aggregates == old(Last().aggregates) + [AggDef(AggKind.Avg, field, alias)] &&
        Last().expression == old(Last().expression) && Last().calculations == old(Last().calculations)
      ensures forall i :: 0 <= i < |groups| - 1 ==> groups[i].Spec() == old(groups[i].Spec())
    {
      var outcome := CheckGroupCount();
      if outcome.Fail? {
        return Failure(outcome.error);
      }
      var last := groups[|groups| - 1];
      var _ := last.Avg(field, alias);
      return Success(this);
    }

    method Count(field: Expr, alias: string) returns (r: Result<ReportBuilder, Error>)
      requires Distinct()
      modifies if groups == [] then {} else {Last()}
      ensures old(groups) == [] ==> r == Failure(ReportWriterException(NoGroupMessage))
      ensures old(groups) != [] ==> r == Success(this)
      ensures groups == old(groups) && report == old(report)
      ensures old(groups) != [] ==>
        Last().aggregates == old(Last().aggregates) + [AggDef(AggKind.Count, field, alias)] &&
        Last().expression == old(Last().expression) && Last().calculations == old(Last().calculations)
      ensures forall i :: 0 <= i < |groups| - 1 ==> groups[i].Spec() == old(groups[i].Spec())
    {
      var outcome := CheckGroupCount();
      if outcome.Fail? {
        return Failure(outcome.error);
      }
      var last := groups[|groups| - 1];
      var _ := last.Count(field, alias);
      return Success(this);
    }

    method Min(field: Expr, alias: string) returns (r: Result<ReportBuilder, Error>)
      requires Distinct()
      modifies if groups == [] then {} else {Last()}
      ensures old(groups) == [] ==> r == Failure(ReportWriterException(NoGroupMessage))
      ensures old(groups) != [] ==> r == Success(this)
      ensures groups == old(groups) && report == old(report)
      ensures old(groups) != [] ==>
        Last().aggregates == old(Last().aggregates) + [AggDef(AggKind.Min, field, alias)] &&
        Last().expression == old(Last().expression) && Last().calculations == old(Last().calculations)
      ensures forall i :: 0 <= i < |groups| - 1 ==> groups[i].Spec() == old(groups[i].Spec())
    {
      var outcome := CheckGroupCount();
      if outcome.Fail? {
        return Failure(outcome.error);
      }
      var last := groups[|groups| - 1];
      var _ := last.Min(field, alias);
      return Success(this);
    }

    method Max(field: Expr, alias: string) returns (r: Result<ReportBuilder, Error>)
      requires Distinct()
      modifies if groups == [] then {} else {Last()}
      ensures old(groups) == [] ==> r == Failure(ReportWriterException(NoGroupMessage))
      ensures old(groups) != [] ==> r == Success(this)
      ensures groups == old(groups) && report == old(report)
      ensures old(groups) != [] ==>
        Last().aggregates == old(Last().aggregates) + [AggDef(AggKind.Max, field, alias)] &&
        Last().expression == old(Last().expression) && Last().calculations == old(Last().calculations)
      ensures forall i :: 0 <= i < |groups| - 1 ==> groups[i].Spec() == old(groups[i].Spec())
    {
      var outcome := CheckGroupCount();
      if outcome.Fail? {
        return Failure(outcome.error);
      }
      var last := groups[|groups| - 1];
      var _ := last.Max(field, alias);
      return Success(this);
    }

    /** `calculate` has no guard: with no level the PHP code fails on a null receiver. */
    method Calculate(alias: string, callback: map<string, Datum> -> Datum) returns (self: ReportBuilder)
      requires groups != [] && Distinct()
      modifies Last()
      ensures self == this && groups == old(groups) && report == old(report)
      ensures Last().calculations == old(Last().calculations) + [Calculation(alias, callback)]
      ensures Last().expression == old(Last().expression) && Last().aggregates == old(Last().aggregates)
      ensures forall i :: 0 <= i < |groups| - 1 ==> groups[i].Spec() == old(groups[i].Spec())
    {
      var last := groups[|groups| - 1];
      var _ := last.Calculate(alias, callback);
      self := this;
    }

    /** `build`: hands the levels, in `groupBy` order, to the report. */
    method Build() returns (r: Report)
      modifies report
      ensures r == report && r.groupBuilders == groups && r.State() == old(report.State())
    {
      var _ := report.SetGroups(groups);
      r := report;
    }
  }
}
