/** The browser-side field validator. */
module ClientValidation {
  import opened Wrappers

  /** The optional rules of one field; an absent bound is `None`. */
  datatype Rules = Rules(min: Option<real>, max: Option<real>, required: bool)

  datatype Validity = Validity(valid: bool, message: string)

  const RequiredMessage: string := "This field is required"

  /** The numeric comparisons of the validator. `value` is the field's
      string read with `parseFloat`, `None` standing for NaN; every
      comparison with NaN is false, so such a value breaks no bound. */
  predicate BelowMin(value: Option<real>, rules: Rules) {
    rules.min.Some? && value.Some? && value.value < rules.min.value
  }

  predicate AboveMax(value: Option<real>, rules: Rules) {
    rules.max.Some? && value.Some? && value.value > rules.max.value
  }

  predicate MissingRequired(raw: string, rules: Rules) {
    rules.required && raw == ""
  }

  /** Validates the raw string of one input. The checks run in order
      required, min, max, and the first that fires decides the message.
      `parseFloat` is the browser's number parser and `show` renders a bound
      inside a template string. */
  function ValidateInput(raw: string, rules: Rules, parseFloat: string -> Option<real>, show: real -> string): (r: Validity)
    ensures r.valid <==>
      !MissingRequired(raw, rules) && !BelowMin(parseFloat(raw), rules) && !AboveMax(parseFloat(raw), rules)
    ensures r.valid ==> r.message == ""
    ensures MissingRequired(raw, rules) ==> r.message == RequiredMessage
    ensures !MissingRequired(raw, rules) && BelowMin(parseFloat(raw), rules) ==>
      r.message == "Value must be at least " + show(rules.min.value)
    ensures !MissingRequired(raw, rules) && !BelowMin(parseFloat(raw), rules) && AboveMax(parseFloat(raw), rules) ==>
      r.message == "Value must be at most " + show(rules.max.value)
  {
    var value := parseFloat(raw);
    if MissingRequired(raw, rules) then
      Validity(false, RequiredMessage)
    else if BelowMin(value, rules) then
      Validity(false, "Value must be at least " + show(rules.min.value))
    else if AboveMax(value, rules) then
      Validity(false, "Value must be at most " + show(rules.max.value))
    else
      Validity(true, "")
  }

  /** Every rejection carries a non-empty message, and the message tells
      which check fired. */
  lemma RejectionsExplain(raw: string, rules: Rules, parseFloat: string -> Option<real>, show: real -> string)
    ensures var r := ValidateInput(raw, rules, parseFloat, show);
      (!r.valid <==> r.message != "")
      && (r.message == RequiredMessage <==> MissingRequired(raw, rules))
  {
    var r := ValidateInput(raw, rules, parseFloat, show);
    if !MissingRequired(raw, rules) && !r.valid {
      assert r.message[0] == 'V';
      assert RequiredMessage[0] == 'T';
    }
  }

  /** No rules, no constraint: every input is valid. */
  lemma NoRulesAcceptsAll(raw: string, parseFloat: string -> Option<real>, show: real -> string)
    ensures ValidateInput(raw, Rules(None, None, false), parseFloat, show) == Validity(true, "")
  {
  }

  /** An optional field left empty is valid whatever its bounds, since the
      empty string parses to NaN. */
  lemma EmptyOptionalFieldIsValid(rules: Rules, parseFloat: string -> Option<real>, show: real -> string)
    requires !rules.required && parseFloat("") == None
    ensures ValidateInput("", rules, parseFloat, show).valid
  {
  }

  /** A non-empty value that does not parse as a number passes both bounds:
      only the required check can reject it, and it does not. */
  lemma UnparseableValuePassesBounds(raw: string, rules: Rules, parseFloat: string -> Option<real>, show: real -> string)
    requires raw != "" && parseFloat(raw) == None
    ensures ValidateInput(raw, rules, parseFloat, show) == Validity(true, "")
  {
  }

  /** Tightening a rule never turns a rejected value into an accepted one:
      raising the minimum keeps every value already below it rejected. */
  lemma RaisingMinKeepsRejections(raw: string, rules: Rules, newMin: real, parseFloat: string -> Option<real>, show: real -> string)
    requires rules.min.Some? && rules.min.value <= newMin
    requires !ValidateInput(raw, rules, parseFloat, show).valid
    ensures !ValidateInput(raw, rules.(min := Some(newMin)), parseFloat, show).valid
  {
  }
}
