/**
 * How a rejected pod record reaches the client: the validation errors of
 * the pipeline rendered by the error handler.
 */
module PodErrorResponse {
  import opened Wrappers
  import opened Values
  import opened PodChecks
  import opened PodPipeline
  import opened ErrorHandler

  /** The rendered line of one validator error. */
  function Line(e: PodError): string
  {
    Field(e) + ": " + Message(e)
  }

  /** `line` renders the error of some failing check of `cs`. */
  ghost predicate LineOfFailure(line: string, cs: seq<Option<PodError>>)
  {
    exists k :: 0 <= k < |cs| && cs[k].Some? && line == Line(cs[k].value)
  }

  /** Some entry of `errs` renders as `line`. */
  ghost predicate Rendered(line: string, errs: seq<ErrorDict>)
  {
    exists i :: 0 <= i < |errs| && FormatError(errs[i]) == line
  }

  lemma LinesOfReport(errs: seq<ErrorDict>, cs: seq<Option<PodError>>)
    requires ReportsAll(errs, cs) && ReportsOnly(errs, cs)
    ensures forall k :: 0 <= k < |cs| && cs[k].Some? ==> Rendered(Line(cs[k].value), errs)
    ensures forall i :: 0 <= i < |errs| ==> LineOfFailure(FormatError(errs[i]), cs)
  {
    forall k | 0 <= k < |cs| && cs[k].Some? ensures Rendered(Line(cs[k].value), errs) {
      var e := cs[k].value;
      assert ErrorEntry(e) in errs;
      var i :| 0 <= i < |errs| && errs[i] == ErrorEntry(e);
      FormatFieldError(Field(e), Message(e));
    }
    forall i | 0 <= i < |errs| ensures LineOfFailure(FormatError(errs[i]), cs) {
      assert errs[i] in errs;
      var k :| 0 <= k < |cs| && cs[k].Some? && errs[i] == ErrorEntry(cs[k].value);
      FormatFieldError(Field(cs[k].value), Message(cs[k].value));
    }
  }

  /** Each failing validator shows up as a line "<field>: <message>", and every line is such a line. */
  lemma RejectedPodLines(p: PodRecord, ctx: Context)
    requires Validate(p, ctx).Failure?
    ensures var errs := Validate(p, ctx).error; var cs := FieldChecks(p, ctx);
      forall k :: 0 <= k < |cs| && cs[k].Some? ==> Rendered(Line(cs[k].value), errs)
    ensures var errs := Validate(p, ctx).error; var cs := FieldChecks(p, ctx);
      forall i :: 0 <= i < |errs| ==> LineOfFailure(FormatError(errs[i]), cs)
  {
    ValidateReportsEveryFailure(p, ctx);
    LinesOfReport(Validate(p, ctx).error, FieldChecks(p, ctx));
  }
}
