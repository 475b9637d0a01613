/**
 * The first-match colour rule evaluator `applyColorRules` (utils/api.ts): rules are
 * tried in declaration order and the first whose comparison holds gives the colour.
 */
module ColorRules {

  import opened Wrappers
  import opened Seqs
  import opened Types

  /** The colour given when no rule matches. */
  const DefaultColor := "#cccccc"

  /** `value <op> threshold`, exact, with no tolerance. */
  predicate Holds(op: Operator, value: real, threshold: real)
  {
    match op
    case Lt => value < threshold
    case Le => value <= threshold
    case Eq => value == threshold
    case Ge => value >= threshold
    case Gt => value > threshold
  }

  /** The rule's comparison against `value`; NaN matches no rule. */
  predicate Matches(rule: ColorRule, value: Number)
  {
    value.Finite? && Holds(rule.operator, value.v, rule.value)
  }

  /** The index of the first rule, in declaration order, that matches `value`. */
  function FirstMatch(value: Number, rules: seq<ColorRule>): Option<nat>
  {
    Find(rules, (rule: ColorRule) => Matches(rule, value))
  }

  /** The colour of the first matching rule, or the default colour. */
  function Classify(value: Number, rules: seq<ColorRule>): (color: string)
    ensures color == DefaultColor || exists i :: 0 <= i < |rules| && rules[i].color == color
  {
    match FirstMatch(value, rules)
    case Some(i) => rules[i].color
    case None => DefaultColor
  }

  /** `applyColorRules`: a loop over the rules with a switch on the operator and an early return. */
  method ApplyColorRules(value: Number, rules: seq<ColorRule>) returns (color: string)
    ensures color == Classify(value, rules)
  {
    for i := 0 to |rules|
      invariant forall j :: 0 <= j < i ==> !Matches(rules[j], value)
    {
      var rule := rules[i];
      var matches := false;
      match rule.operator {
        case Lt => matches := value.Finite? && value.v < rule.value;
        case Le => matches := value.Finite? && value.v <= rule.value;
        case Eq => matches := value.Finite? && value.v == rule.value;
        case Ge => matches := value.Finite? && value.v >= rule.value;
        case Gt => matches := value.Finite? && value.v > rule.value;
      }
      if matches {
        ClassifyFirstMatch(value, rules, i);
        return rule.color;
      }
    }
    return DefaultColor;
  }

  /** The first matching rule decides the colour; any later matching rule is ignored. */
  lemma ClassifyFirstMatch(value: Number, rules: seq<ColorRule>, i: nat)
    requires i < |rules| && Matches(rules[i], value)
    requires forall j :: 0 <= j < i ==> !Matches(rules[j], value)
    ensures Classify(value, rules) == rules[i].color
  {
  }

  /**
   * The default colour comes back when no rule matches, and, as long as no rule itself
   * uses the default colour, only then.
   */
  lemma ClassifyDefault(value: Number, rules: seq<ColorRule>)
    ensures (forall j :: 0 <= j < |rules| ==> !Matches(rules[j], value)) ==> Classify(value, rules) == DefaultColor
    ensures (forall j :: 0 <= j < |rules| ==> rules[j].color != DefaultColor) && Classify(value, rules) == DefaultColor
            ==> forall j :: 0 <= j < |rules| ==> !Matches(rules[j], value)
  {
  }

  /**
   * Appending rules changes nothing when an earlier rule already matches, and otherwise
   * the appended rules are evaluated as if on their own.
   */
  lemma {:induction false} ClassifyAppend(value: Number, rules: seq<ColorRule>, more: seq<ColorRule>)
    ensures FirstMatch(value, rules).Some? ==> Classify(value, rules + more) == Classify(value, rules)
    ensures FirstMatch(value, rules).None? ==> Classify(value, rules + more) == Classify(value, more)
  {
    var all := rules + more;
    match FirstMatch(value, rules)
    case Some(i) =>
      ClassifyFirstMatch(value, all, i);
    case None =>
      match FirstMatch(value, more)
      case Some(k) =>
        assert all[|rules| + k] == more[k];
        assert forall j :: |rules| <= j < |rules| + k ==> all[j] == more[j - |rules|];
        ClassifyFirstMatch(value, all, |rules| + k);
      case None =>
        assert forall j :: 0 <= j < |all| ==> all[j] == if j < |rules| then rules[j] else more[j - |rules|];
        ClassifyDefault(value, all);
  }

  /** Every comparison with NaN fails, so NaN always gets the default colour. */
  lemma ClassifyNaN(rules: seq<ColorRule>)
    ensures Classify(NaN, rules) == DefaultColor
  {
  }
}
