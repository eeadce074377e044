/**
 * The parameter checks of a print request, shared word for word by
 * `get_print` in atlasprintServer/atlasprintService.py and by
 * `responseComplete` in atlasprintServer/filters/atlasprintFilter.py:
 * TEMPLATE, EXP_FILTER, the parser check of the filter, the SCALE/SCALES
 * conflict, then the numbers. The first failing check gives the message.
 */
module Validation {
  import opened Wrappers
  import opened Text

  /** The request parameters, by upper-case name. */
  type Params = map<string, string>

  /** A parameter is true in Python's sense: present and not empty. */
  predicate Truthy(params: Params, key: string) {
    key in params && params[key] != ""
  }

  /**
   * A print request whose parameters passed the checks. An absent or empty
   * SCALE or SCALES is None.
   */
  datatype PrintRequest = PrintRequest(
    template: string,
    featureFilter: string,
    scale: Option<int>,
    scales: Option<seq<int>>)

  /** `[int(s) for s in pieces]`: None when one of them is not an integer. */
  function ParseInts(pieces: seq<string>): (r: Option<seq<int>>)
    ensures r.Some? <==> forall i :: 0 <= i < |pieces| ==> ParseInt(pieces[i]).Some?
    ensures r.Some? ==> (|r.value| == |pieces| &&
      forall i :: 0 <= i < |pieces| ==> r.value[i] == ParseInt(pieces[i]).value)
  {
    if |pieces| == 0 then Some([])
    else
      match (ParseInt(pieces[0]), ParseInts(pieces[1..]))
      case (Some(v), Some(vs)) =>
        assert forall i :: 1 <= i < |pieces| ==> pieces[i] == pieces[1..][i - 1];
        Some([v] + vs)
      case (None, _) => None
      case (_, None) =>
        var j :| 0 <= j < |pieces| - 1 && ParseInt(pieces[1..][j]).None?;
        assert pieces[j + 1] == pieces[1..][j];
        None
  }

  /** TEMPLATE and EXP_FILTER are given and the filter parses. */
  predicate PassesFilterChecks(params: Params, parserError: string -> Option<string>) {
    Truthy(params, "TEMPLATE") && Truthy(params, "EXP_FILTER") && parserError(params["EXP_FILTER"]).None?
  }

  /**
   * Every check passes: TEMPLATE and EXP_FILTER given, a filter that parses,
   * not both SCALE and SCALES, and each given one made of integers.
   */
  predicate PassesChecks(params: Params, parserError: string -> Option<string>) {
    PassesFilterChecks(params, parserError) &&
    !(Truthy(params, "SCALE") && Truthy(params, "SCALES")) &&
    (Truthy(params, "SCALE") ==> ParseInt(params["SCALE"]).Some?) &&
    (Truthy(params, "SCALES") ==>
      forall i :: 0 <= i < |Split(params["SCALES"], ",")| ==> ParseInt(Split(params["SCALES"], ",")[i]).Some?)
  }

  /**
   * The check chain. `parserError` stands for QGIS's expression parser: the
   * error text for a filter that does not parse, or nothing.
   */
  function ValidatePrint(params: Params, parserError: string -> Option<string>): (r: Result<PrintRequest, string>)
    ensures r.Success? ==> (Truthy(params, "TEMPLATE") && Truthy(params, "EXP_FILTER") &&
      r.value.template == params["TEMPLATE"] && r.value.featureFilter == params["EXP_FILTER"] &&
      parserError(params["EXP_FILTER"]).None?)
    ensures r.Success? ==> !(Truthy(params, "SCALE") && Truthy(params, "SCALES"))
    ensures r.Success? ==> (r.value.scale.Some? <==> Truthy(params, "SCALE"))
    ensures r.Success? && r.value.scale.Some? ==> Some(r.value.scale.value) == ParseInt(params["SCALE"])
    ensures r.Success? ==> (r.value.scales.Some? <==> Truthy(params, "SCALES"))
    ensures r.Success? && r.value.scales.Some? ==> Some(r.value.scales.value) == ParseInts(Split(params["SCALES"], ","))
    ensures r.Success? <==> PassesChecks(params, parserError)
  {
    if !Truthy(params, "TEMPLATE") then Failure("TEMPLATE is required")
    else if !Truthy(params, "EXP_FILTER") then Failure("EXP_FILTER is required")
    else if parserError(params["EXP_FILTER"]).Some? then
      Failure("Expression is invalid: " + parserError(params["EXP_FILTER"]).value)
    else if Truthy(params, "SCALE") && Truthy(params, "SCALES") then
      Failure("SCALE and SCALES can not be used together.")
    else
      var scale := if Truthy(params, "SCALE") then ParseInt(params["SCALE"]) else None;
      if Truthy(params, "SCALE") && scale.None? then Failure("Invalid number in SCALE.")
      else
        var scales := if Truthy(params, "SCALES") then ParseInts(Split(params["SCALES"], ",")) else None;
        if Truthy(params, "SCALES") && scales.None? then Failure("Invalid number in SCALES.")
        else Success(PrintRequest(params["TEMPLATE"], params["EXP_FILTER"], scale, scales))
  }

  /** Every check of the chain, each reached only when the ones before it pass. */
  lemma ValidationOrder(params: Params, parserError: string -> Option<string>)
    ensures !Truthy(params, "TEMPLATE") ==> ValidatePrint(params, parserError) == Failure("TEMPLATE is required")
    ensures Truthy(params, "TEMPLATE") && !Truthy(params, "EXP_FILTER") ==>
      ValidatePrint(params, parserError) == Failure("EXP_FILTER is required")
    ensures Truthy(params, "TEMPLATE") && Truthy(params, "EXP_FILTER") && parserError(params["EXP_FILTER"]).Some? ==>
      ValidatePrint(params, parserError) == Failure("Expression is invalid: " + parserError(params["EXP_FILTER"]).value)
    ensures PassesFilterChecks(params, parserError) && Truthy(params, "SCALE") && Truthy(params, "SCALES") ==>
      ValidatePrint(params, parserError) == Failure("SCALE and SCALES can not be used together.")
    ensures (PassesFilterChecks(params, parserError) && !Truthy(params, "SCALES") &&
             Truthy(params, "SCALE") && ParseInt(params["SCALE"]).None?) ==>
      ValidatePrint(params, parserError) == Failure("Invalid number in SCALE.")
    ensures (PassesFilterChecks(params, parserError) && !Truthy(params, "SCALE") && Truthy(params, "SCALES") &&
             exists i :: 0 <= i < |Split(params["SCALES"], ",")| && ParseInt(Split(params["SCALES"], ",")[i]).None?) ==>
      ValidatePrint(params, parserError) == Failure("Invalid number in SCALES.")
  {
  }

  /** Both scale parameters are refused before either is read as a number. */
  lemma ScaleConflictBeforeNumbers(params: Params, parserError: string -> Option<string>)
    requires Truthy(params, "TEMPLATE") && Truthy(params, "EXP_FILTER") && parserError(params["EXP_FILTER"]).None?
    requires Truthy(params, "SCALE") && Truthy(params, "SCALES")
    ensures ValidatePrint(params, parserError) == Failure("SCALE and SCALES can not be used together.")
  {
  }

  /** An empty piece in SCALES (as in `"1000,,500"`) is an invalid number. */
  lemma EmptyScalesPieceRejected(params: Params, parserError: string -> Option<string>, i: nat)
    requires Truthy(params, "TEMPLATE") && Truthy(params, "EXP_FILTER") && parserError(params["EXP_FILTER"]).None?
    requires !Truthy(params, "SCALE") && Truthy(params, "SCALES")
    requires i < |Split(params["SCALES"], ",")| && Split(params["SCALES"], ",")[i] == ""
    ensures ValidatePrint(params, parserError) == Failure("Invalid number in SCALES.")
  {
    assert ParseInt(Split(params["SCALES"], ",")[i]).None?;
  }

  /** The conflict of the unit test: SCALE=5000 with SCALES=10000,5000. */
  lemma ScaleConflictExample()
    ensures ValidatePrint(map["TEMPLATE" := "layout1-atlas", "EXP_FILTER" := "id in (1, 2)",
                              "SCALE" := "5000", "SCALES" := "10000,5000"], _ => None)
      == Failure("SCALE and SCALES can not be used together.")
  {
  }

  /** SCALE=5000n is refused (the unit test). */
  lemma InvalidScaleExample()
    ensures ValidatePrint(map["TEMPLATE" := "layout1-atlas", "EXP_FILTER" := "id in (1, 2)", "SCALE" := "5000n"], _ => None)
      == Failure("Invalid number in SCALE.")
  {
    assert !IsDigit("5000n"[4]);
  }

  /** The checks read TEMPLATE, EXP_FILTER, SCALE and SCALES and no other parameter. */
  lemma ValidateReadsItsKeys(p: Params, q: Params, parserError: string -> Option<string>)
    requires forall k :: k in {"TEMPLATE", "EXP_FILTER", "SCALE", "SCALES"} ==>
      (k in p <==> k in q) && (k in p ==> p[k] == q[k])
    ensures ValidatePrint(p, parserError) == ValidatePrint(q, parserError)
  {
    assert Truthy(p, "TEMPLATE") == Truthy(q, "TEMPLATE");
    assert Truthy(p, "EXP_FILTER") == Truthy(q, "EXP_FILTER");
    assert Truthy(p, "SCALE") == Truthy(q, "SCALE");
    assert Truthy(p, "SCALES") == Truthy(q, "SCALES");
  }
}
