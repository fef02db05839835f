/**
 * The decision logic of `error_handler` in service/req_utils.py: which
 * status code and message each kind of exception is answered with.
 */
module ErrorHandler {
  import opened Wrappers
  import opened Text
  import opened Values

  /** The exception kinds the handler distinguishes. */
  datatype Exc =
    | TapisError(code: int, msg: string)                // derived from BaseTapisError
    | RequestValidationError(errors: seq<ErrorDict>)    // FastAPI request validation
    | PydanticValidationError(errors: seq<ErrorDict>)   // pydantic model validation
    | OtherError(repr: string)                          // anything else; `repr(exc)`

  /** The `msg` handed to the response envelope: one text, or one line per validation error. */
  datatype Msg = Single(text: string) | Lines(lines: seq<string>)

  const Unset: int := -1
  const TracebackPrefix: string := "conf.show_traceback = True; only for development:\n "
  const UnexpectedPrefix: string := "Unexpected. "

  function LocPartString(part: LocPart): string
  {
    match part
    case Name(n) => n
    case Index(i) => IntToString(i)
  }

  /** Each location part converted to text, in order. */
  function LocStrings(loc: seq<LocPart>): seq<string>
  {
    seq(|loc|, i requires 0 <= i < |loc| => LocPartString(loc[i]))
  }

  /** One rendered validation error: the location parts joined by ", ", then ": ", then the message. */
  function FormatError(e: ErrorDict): string
  {
    Join(LocStrings(e.loc), ", ") + ": " + e.msg
  }

  /** A field-level error renders as "<field>: <message>". */
  lemma FormatFieldError(field: string, msg: string)
    ensures FormatError(ErrorDict([Name(field)], msg)) == field + ": " + msg
  {
    assert LocStrings([Name(field)]) == [field];
  }

  /** A nested location renders its parts in order: ("body", 0, "pod_id") gives "body, 0, pod_id". */
  lemma FormatNestedError(msg: string)
    ensures FormatError(ErrorDict([Name("body"), Index(0), Name("pod_id")], msg)) == "body, 0, pod_id: " + msg
  {
    var loc := [Name("body"), Index(0), Name("pod_id")];
    var parts := LocStrings(loc);
    assert IntToString(0) == "0" by { assert DigitChar(0) == '0'; }
    assert parts == ["body", "0", "pod_id"];
    assert Join(["pod_id"], ", ") == "pod_id";
    assert Join(["0", "pod_id"], ", ") == "0, pod_id" by { assert ["0", "pod_id"][1..] == ["pod_id"]; }
    assert Join(parts, ", ") == "body, 0, pod_id" by { assert parts[1..] == ["0", "pod_id"]; }
    assert FormatError(ErrorDict(loc, msg)) == Join(parts, ", ") + ": " + msg;
  }

  /**
   * `trace` is the formatted traceback, or None when formatting it raised.
   * The locals `response` and `status_code` are updated as in the source.
   */
  method HandleError(exc: Exc, showTraceback: bool, trace: Option<string>) returns (status: int, content: Msg)
    ensures showTraceback && trace.Some? ==> status == 500 && content == Single(TracebackPrefix + trace.value)
    ensures !(showTraceback && trace.Some?) ==>
      match exc
      case TapisError(code, msg) => status == code && content == Single(msg)
      case RequestValidationError(errors) =>
        status == 400 && content.Lines? && |content.lines| == |errors|
        && forall i :: 0 <= i < |errors| ==> content.lines[i] == FormatError(errors[i])
      case PydanticValidationError(errors) =>
        status == 400 && content.Lines? && |content.lines| == |errors|
        && forall i :: 0 <= i < |errors| ==> content.lines[i] == FormatError(errors[i])
      case OtherError(repr) => status == 500 && content == Single(UnexpectedPrefix + repr)
    ensures status == Unset ==> exc.TapisError? && exc.code == Unset
  {
    var response: Option<Msg> := None;
    status := Unset;
    if showTraceback {
      match trace {
        case Some(t) =>
          response := Some(Single(TracebackPrefix + t));
          status := 500;
        case None =>
      }
    }
    if response.None? && status == Unset {
      match exc {
        case TapisError(code, msg) =>
          response := Some(Single(msg));
          status := code;
        case RequestValidationError(errors) =>
          var lines := FormatErrors(errors);
          response := Some(Lines(lines));
          status := 400;
        case PydanticValidationError(errors) =>
          var lines := FormatErrors(errors);
          response := Some(Lines(lines));
          status := 400;
        case OtherError(repr) =>
          response := Some(Single(UnexpectedPrefix + repr));
          status := 500;
      }
    }
    content := response.value;
  }

  /** Builds `error_list`: one rendered line per error, in the original order. */
  method FormatErrors(errors: seq<ErrorDict>) returns (lines: seq<string>)
    ensures |lines| == |errors|
    ensures forall i :: 0 <= i < |errors| ==> lines[i] == FormatError(errors[i])
  {
    lines := [];
    for i := 0 to |errors|
      invariant |lines| == i
      invariant forall j :: 0 <= j < i ==> lines[j] == FormatError(errors[j])
    {
      lines := lines + [FormatError(errors[i])];
    }
  }
}
