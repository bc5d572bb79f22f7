/** The button component: a format name mapped to its CSS class. */
module Button {

  import opened Wrappers
  import opened PhpValues

  datatype ButtonError =
    | FormatRequired       // InvalidArgumentException: empty format
    | UnhandledMatch       // UnhandledMatchError: no arm for the trimmed format

  /** The `match` on the trimmed format. */
  function FormatClass(trimmed: string): (r: Option<string>)
    ensures r.Some? <==> trimmed in {"inline", "block", "clean"}
    ensures r.Some? ==> r.value == "button-" + trimmed
  {
    if trimmed == "inline" then Some("button-inline")
    else if trimmed == "block" then Some("button-block")
    else if trimmed == "clean" then Some("button-clean")
    else None
  }

  /**
   * The constructor: an empty format (including "0") throws, otherwise the
   * trimmed format must be one of the three known ones. A format of spaces
   * passes the emptiness check and then has no match arm.
   */
  function NewButton(format: string): (r: Result<string, ButtonError>)
    ensures !Truthy(format) ==> r == Failure(FormatRequired)
    ensures Truthy(format) && FormatClass(Trim(format)).None? ==> r == Failure(UnhandledMatch)
    ensures r.Success? ==> Some(r.value) == FormatClass(Trim(format))
    ensures Truthy(format) && FormatClass(Trim(format)).Some? ==> r == Success(FormatClass(Trim(format)).value)
  {
    if !Truthy(format) then Failure(FormatRequired)
    else match FormatClass(Trim(format))
      case Some(c) => Success(c)
      case None => Failure(UnhandledMatch)
  }

  /** The default format when none is passed. */
  const DefaultFormat: string := "inline"

  lemma DefaultIsInline()
    ensures NewButton(DefaultFormat) == Success("button-inline")
  {
    assert Trim(DefaultFormat) == "inline" by {
      assert TrimStart(DefaultFormat) == DefaultFormat;
      assert TrimEnd(DefaultFormat) == DefaultFormat;
    }
    assert Truthy(DefaultFormat);
    assert FormatClass("inline") == Some("button-inline");
  }

  /** Distinct accepted formats give distinct classes. */
  lemma NewButtonInjective(f1: string, f2: string)
    requires NewButton(f1).Success? && NewButton(f2).Success?
    requires Trim(f1) != Trim(f2)
    ensures NewButton(f1).value != NewButton(f2).value
  {
  }

  /** A whitespace-only format is not rejected as empty but fails the match. */
  lemma BlankFormatFailsMatch(format: string)
    requires format != "" && IsBlank(format)
    ensures NewButton(format) == Failure(UnhandledMatch)
  {
    BlankIffTrimsToEmpty(format);
    assert format[0] != '0';
  }
}
