/**
 * The pricing calculator form: which procedure code is submitted, when the
 * Calculate button is enabled, what a calculation does to the form's state,
 * the reset button, and the confidence band shown with a result. The
 * awaited `pricingAPI.calculate` call is the parameter `reply`.
 */
module CalculatorForm {
  import opened Wrappers
  import opened MockApi

  const CUSTOM: string := "custom"

  /** The code sent: the free-text code when "custom" is selected, else the selected code. */
  function EffectiveCode(procedureCode: string, customProcedure: string): (c: string)
    ensures procedureCode == CUSTOM ==> c == customProcedure
    ensures procedureCode != CUSTOM ==> c == procedureCode
  {
    if procedureCode == CUSTOM then customProcedure else procedureCode
  }

  /** `isCalculating || !procedureCode || !payer` */
  function ButtonDisabled(isCalculating: bool, procedureCode: string, payer: string): (d: bool)
    ensures !d <==> !isCalculating && procedureCode != "" && payer != ""
  {
    isCalculating || procedureCode == "" || payer == ""
  }

  /** The guard of `handleCalculate`: a code and a payer must both be present. */
  predicate GuardPasses(procedureCode: string, customProcedure: string, payer: string)
  {
    EffectiveCode(procedureCode, customProcedure) != "" && payer != ""
  }

  /** Whenever the guard lets a calculation through and none is running, the button is enabled. */
  lemma GuardImpliesEnabled(procedureCode: string, customProcedure: string, payer: string)
    requires GuardPasses(procedureCode, customProcedure, payer)
    ensures !ButtonDisabled(false, procedureCode, payer)
  {
  }

  /** The converse fails: "custom" with an empty code enables the button, and the guard then stops the click. */
  lemma EnabledButGuarded(payer: string)
    requires payer != ""
    ensures !ButtonDisabled(false, CUSTOM, payer)
    ensures !GuardPasses(CUSTOM, "", payer)
  {
  }

  datatype ConfidenceBand = VeryHigh | High | Moderate

  /** The band a confidence score falls in; exactly one applies. */
  function Band(confidence: real): (b: ConfidenceBand)
    ensures b == VeryHigh <==> confidence >= 0.9
    ensures b == High <==> 0.75 <= confidence < 0.9
    ensures b == Moderate <==> confidence < 0.75
  {
    if confidence >= 0.9 then VeryHigh else if confidence >= 0.75 then High else Moderate
  }

  function BandText(b: ConfidenceBand): (t: string)
    ensures b == VeryHigh ==> t == "Very high confidence based on exact contract match"
    ensures b == High ==> t == "High confidence based on similar procedures"
    ensures b == Moderate ==> t == "Moderate confidence - consider manual review"
  {
    match b
    case VeryHigh => "Very high confidence based on exact contract match"
    case High => "High confidence based on similar procedures"
    case Moderate => "Moderate confidence - consider manual review"
  }

  /** The mock calculator's confidence is at least 0.85, so its results never show the moderate band. */
  lemma MockResultNeverModerate(code: string, payer: string, random1: real, random2: real)
    requires 0.0 <= random1 < 1.0 && 0.0 <= random2 < 1.0
    ensures Band(PricingCalculate(code, payer, random1, random2).confidence) != Moderate
  {
  }

  /** How the awaited `pricingAPI.calculate(code, payer)` settles. */
  datatype CalcReply = Resolved(result: CalcResult) | Failed

  /** The form's state. */
  class CalculatorForm {
    var procedureCode: string
    var customProcedure: string
    var payer: string
    var isCalculating: bool
    var result: Option<CalcResult>

    constructor()
      ensures procedureCode == "" && customProcedure == "" && payer == ""
      ensures !isCalculating && result.None?
    {
      procedureCode := "";
      customProcedure := "";
      payer := "";
      isCalculating := false;
      result := None;
    }

    /** The procedure select's `onValueChange`. */
    method SelectProcedure(code: string)
      modifies this
      ensures procedureCode == code
      ensures customProcedure == old(customProcedure) && payer == old(payer)
      ensures isCalculating == old(isCalculating) && result == old(result)
    {
      procedureCode := code;
    }

    /** The custom code input's `onChange`. */
    method EnterCustomProcedure(text: string)
      modifies this
      ensures customProcedure == text
      ensures procedureCode == old(procedureCode) && payer == old(payer)
      ensures isCalculating == old(isCalculating) && result == old(result)
    {
      customProcedure := text;
    }

    /** The payer select's `onValueChange`. */
    method SelectPayer(p: string)
      modifies this
      ensures payer == p
      ensures procedureCode == old(procedureCode) && customProcedure == old(customProcedure)
      ensures isCalculating == old(isCalculating) && result == old(result)
    {
      payer := p;
    }

    /**
     * `handleCalculate`. When the guard fails nothing changes and no request
     * is made (`request` is None). Otherwise `request` is the (code, payer)
     * pair sent; `busy` and `cleared` record that `isCalculating` was up and
     * `result` null while the call was pending; afterwards the flag is down
     * and `result` holds the reply, or stays null on a failure.
     */
    method HandleCalculate(reply: CalcReply) returns (request: Option<(string, string)>, ghost busy: bool, ghost cleared: bool)
      modifies this
      ensures !GuardPasses(old(procedureCode), old(customProcedure), old(payer)) ==>
                request.None? && isCalculating == old(isCalculating) && result == old(result)
      ensures GuardPasses(old(procedureCode), old(customProcedure), old(payer)) ==>
                request == Some((EffectiveCode(old(procedureCode), old(customProcedure)), old(payer)))
                && busy && cleared && !isCalculating
      ensures GuardPasses(old(procedureCode), old(customProcedure), old(payer)) && reply.Resolved? ==>
                result == Some(reply.result)
      ensures GuardPasses(old(procedureCode), old(customProcedure), old(payer)) && reply.Failed? ==>
                result.None?
      ensures procedureCode == old(procedureCode) && customProcedure == old(customProcedure) && payer == old(payer)
    {
      var code := EffectiveCode(procedureCode, customProcedure);
      if code == "" || payer == "" {
        return None, false, false;
      }
      isCalculating := true;
      result := None;
      request := Some((code, payer));
      busy, cleared := isCalculating, result.None?;
      if reply.Resolved? {
        result := Some(reply.result);
      }
      isCalculating := false;
    }

    /** The Reset button. */
    method ResetForm()
      modifies this
      ensures procedureCode == "" && customProcedure == "" && payer == "" && result.None?
      ensures isCalculating == old(isCalculating)
    {
      procedureCode := "";
      customProcedure := "";
      payer := "";
      result := None;
    }
  }
}
