/**
 * Input cleaning and scoring helpers: numeric-input cleaning with the 万/千
 * multipliers, the questionnaire risk score, validation of the user profile,
 * and the value/tier choice behind currency and percentage display.
 */
module Utils {
  import opened Wrappers
  import opened PyText

  /**
   * A Python value as these helpers see it: a number (int, float or bool), a
   * str, `None`, or a container (a list or a dict). The last is the one kind
   * that is unhashable, so using it as a dictionary key raises `TypeError`.
   */
  datatype Value = Num(x: real) | Str(s: string) | Null | Container

  /** Whether the value may be used as a dictionary key. */
  predicate Hashable(v: Value)
  {
    !v.Container?
  }

  // ---------------------------------------------------------------------
  // clean_numeric_input
  // ---------------------------------------------------------------------

  /** First pass, `[岁年万千元]`. */
  predicate IsUnitChar(c: char)
  {
    c == '岁' || c == '年' || c == '万' || c == '千' || c == '元'
  }

  /**
   * Second pass, `[years$]` under IGNORECASE: both cases of y, e, a, r, s,
   * the dollar sign, and U+017F (long s), which Python folds to `s`.
   */
  predicate IsLetterNoise(c: char)
  {
    c == 'y' || c == 'e' || c == 'a' || c == 'r' || c == 's'
    || c == 'Y' || c == 'E' || c == 'A' || c == 'R' || c == 'S'
    || c == '$' || c == '\U{017F}'
  }

  /** Third pass, `[,\s]`. */
  predicate IsSeparator(c: char)
  {
    c == ',' || IsSpace(c)
  }

  /** `re.sub(class, '', s)` for a one-character class. */
  function RemoveAll(s: string, p: char -> bool): (r: string)
    ensures |r| <= |s|
    ensures forall i :: 0 <= i < |r| ==> !p(r[i])
  {
    if s == [] then [] else (if p(s[0]) then [] else [s[0]]) + RemoveAll(s[1..], p)
  }

  /** The three substitution passes, in the order the code runs them. */
  function CleanText(s: string): string
  {
    RemoveAll(RemoveAll(RemoveAll(s, IsUnitChar), IsLetterNoise), IsSeparator)
  }

  predicate Stripped(c: char)
  {
    IsUnitChar(c) || IsLetterNoise(c) || IsSeparator(c)
  }

  lemma {:induction false} RemoveAllConcat(a: string, b: string, p: char -> bool)
    ensures RemoveAll(a + b, p) == RemoveAll(a, p) + RemoveAll(b, p)
  {
    if a == [] {
      assert a + b == b;
    } else {
      assert (a + b)[0] == a[0];
      assert (a + b)[1..] == a[1..] + b;
      RemoveAllConcat(a[1..], b, p);
    }
  }

  /**
   * The passes together remove exactly the characters of one class, keeping
   * every other character in order: a character class, not the word "years".
   */
  lemma {:induction false} CleanTextIsOneFilter(s: string)
    ensures CleanText(s) == RemoveAll(s, Stripped)
  {
    if s != [] {
      CleanTextIsOneFilter(s[1..]);
      var head := [s[0]];
      assert s == head + s[1..];
      RemoveAllConcat(head, s[1..], IsUnitChar);
      var a := RemoveAll(head, IsUnitChar);
      var a' := RemoveAll(s[1..], IsUnitChar);
      RemoveAllConcat(a, a', IsLetterNoise);
      RemoveAllConcat(RemoveAll(a, IsLetterNoise), RemoveAll(a', IsLetterNoise), IsSeparator);
      assert head[1..] == [];
    }
  }

  /** Text with nothing to strip is left as it is. */
  lemma {:induction false} RemoveAllKeepsClean(s: string, p: char -> bool)
    requires forall i :: 0 <= i < |s| ==> !p(s[i])
    ensures RemoveAll(s, p) == s
  {
    if s != [] {
      RemoveAllKeepsClean(s[1..], p);
    }
  }

  predicate IsDigit(c: char) { '0' <= c <= '9' }

  predicate AllDigits(s: string) { forall i :: 0 <= i < |s| ==> IsDigit(s[i]) }

  function DigitsValue(s: string): nat
    requires AllDigits(s)
  {
    if s == [] then 0 else DigitsValue(s[..|s| - 1]) * 10 + ((s[|s| - 1] as int) - ('0' as int))
  }

  function Pow10(k: nat): (p: nat)
    ensures p >= 1
  {
    if k == 0 then 1 else 10 * Pow10(k - 1)
  }

  /** The value of the digits after the point. */
  function FracValue(frac: string): real
    requires AllDigits(frac)
  {
    if frac == [] then 0.0 else (DigitsValue(frac) as real) / (Pow10(|frac|) as real)
  }

  function IndexOfDot(s: string): (k: nat)
    ensures k <= |s|
    ensures k < |s| ==> s[k] == '.'
    ensures forall i :: 0 <= i < k ==> s[i] != '.'
  {
    if s == [] then 0 else if s[0] == '.' then 0 else 1 + IndexOfDot(s[1..])
  }

  /** Unsigned `digits[.digits]`, `digits.` or `.digits`. */
  function ParseUnsigned(s: string): Option<real>
  {
    var k := IndexOfDot(s);
    var whole := s[..k];
    var frac := if k < |s| then s[k + 1..] else [];
    if AllDigits(whole) && AllDigits(frac) && |whole| + |frac| > 0 then
      Some((DigitsValue(whole) as real) + FracValue(frac))
    else None
  }

  /** `float(s)` on the decimal forms (an optional sign, digits, at most one point). */
  function ParseFloat(s: string): Option<real>
  {
    if s != [] && (s[0] == '+' || s[0] == '-') then
      match ParseUnsigned(s[1..])
      case None => None
      case Some(v) => Some(if s[0] == '-' then -v else v)
    else ParseUnsigned(s)
  }

  lemma {:induction false} DigitsValueOfNat(n: nat)
    ensures AllDigits(NatToString(n)) && DigitsValue(NatToString(n)) == n
  {
    var s := NatToString(n);
    if n >= 10 {
      DigitsValueOfNat(n / 10);
      assert s[..|s| - 1] == NatToString(n / 10);
      assert DigitsValue(s) == (n / 10) * 10 + n % 10;
    }
  }

  /** `float(str(n))` gives `n` back. */
  lemma ParseFloatOfNat(n: nat)
    ensures ParseFloat(NatToString(n)) == Some(n as real)
  {
    DigitsValueOfNat(n);
    ParseFloatDigits(NatToString(n));
  }

  /** A non-empty run of digits parses as its decimal value. */
  lemma ParseFloatDigits(s: string)
    requires s != [] && AllDigits(s)
    ensures ParseFloat(s) == Some(DigitsValue(s) as real)
  {
    assert ParseFloat(s) == ParseUnsigned(s) by { assert IsDigit(s[0]); }
    assert IndexOfDot(s) == |s| by {
      forall i | 0 <= i < |s| ensures s[i] != '.' { assert IsDigit(s[i]); }
      IndexOfDotAbsent(s);
    }
    ParseUnsignedNoDot(s);
  }

  lemma ParseUnsignedNoDot(s: string)
    requires s != [] && AllDigits(s) && IndexOfDot(s) == |s|
    ensures ParseUnsigned(s) == Some(DigitsValue(s) as real)
  {
    assert s[..|s|] == s;
  }

  lemma {:induction false} IndexOfDotAbsent(s: string)
    requires forall i :: 0 <= i < |s| ==> s[i] != '.'
    ensures IndexOfDot(s) == |s|
  {
    if s != [] {
      IndexOfDotAbsent(s[1..]);
    }
  }

  datatype CleanError = UnsupportedType | NothingLeft | NotANumber

  /** The unit scaling: ×10000 if the original contains 万, else ×1000 if it contains 千. */
  function ApplyUnit(x: real, s: string): real
  {
    if '万' in s then x * 10000.0 else if '千' in s then x * 1000.0 else x
  }

  /**
   * `clean_numeric_input`. Numbers come back unchanged, other non-strings are
   * rejected; a string is cleaned, must leave something behind, is parsed, and
   * is scaled by the multiplier of the ORIGINAL string.
   */
  function CleanNumericInput(v: Value): Result<real, CleanError>
  {
    match v
    case Num(x) => Ok(x)
    case Null => Err(UnsupportedType)
    case Container => Err(UnsupportedType)
    case Str(s) =>
      var cleaned := CleanText(s);
      if cleaned == [] then Err(NothingLeft)
      else match ParseFloat(cleaned)
        case None => Err(NotANumber)
        case Some(x) => Ok(ApplyUnit(x, s))
  }

  /**
   * What cleaning promises: numbers unchanged, other types rejected, and a
   * string's value is the parse of what survives the stripping, times its
   * multiplier; an empty remainder is an error.
   */
  lemma CleanNumericInputSpec(v: Value)
    ensures v.Num? ==> CleanNumericInput(v) == Ok(v.x)
    ensures v.Null? || v.Container? ==> CleanNumericInput(v) == Err(UnsupportedType)
    ensures v.Str? ==>
              && (RemoveAll(v.s, Stripped) == [] <==> CleanNumericInput(v) == Err(NothingLeft))
              && (CleanNumericInput(v).Ok? ==>
                    && ParseFloat(RemoveAll(v.s, Stripped)).Some?
                    && CleanNumericInput(v).value
                       == ApplyUnit(ParseFloat(RemoveAll(v.s, Stripped)).value, v.s))
  {
    if v.Str? {
      CleanTextIsOneFilter(v.s);
    }
  }

  /** How a string that leaves a parseable remainder is read. */
  lemma CleanStringValue(s: string, x: real)
    requires RemoveAll(s, Stripped) != [] && ParseFloat(RemoveAll(s, Stripped)) == Some(x)
    ensures CleanNumericInput(Str(s)) == Ok(ApplyUnit(x, s))
  {
    CleanTextIsOneFilter(s);
  }

  lemma DigitsNotStripped(s: string)
    requires AllDigits(s)
    ensures RemoveAll(s, Stripped) == s
    ensures '万' !in s && '千' !in s
  {
    forall i | 0 <= i < |s| ensures !Stripped(s[i]) {
      assert IsDigit(s[i]);
    }
    RemoveAllKeepsClean(s, Stripped);
  }

  /** A plain number written with digits only is read back as that number. */
  lemma CleanPlainNumber(n: nat)
    ensures CleanNumericInput(Str(NatToString(n))) == Ok(n as real)
  {
    var s := NatToString(n);
    DigitsNotStripped(s);
    ParseFloatOfNat(n);
    CleanStringValue(s, n as real);
  }

  /**
   * A number followed by unit characters (岁, 年, 万, 千, 元) is that number,
   * times 10000 when 万 is among the units, else times 1000 when 千 is.
   */
  lemma CleanNumberWithUnits(n: nat, units: string)
    requires forall i :: 0 <= i < |units| ==> IsUnitChar(units[i])
    ensures CleanNumericInput(Str(NatToString(n) + units))
            == Ok(if '万' in units then (n as real) * 10000.0
                  else if '千' in units then (n as real) * 1000.0
                  else n as real)
  {
    var digits := NatToString(n);
    var s := digits + units;
    DigitsNotStripped(digits);
    RemoveAllConcat(digits, units, Stripped);
    forall i | 0 <= i < |units| ensures Stripped(units[i]) { }
    RemoveAllDropsAll(units, Stripped);
    assert RemoveAll(s, Stripped) == digits;
    ParseFloatOfNat(n);
    CleanStringValue(s, n as real);
    assert ('万' in s <==> '万' in units) && ('千' in s <==> '千' in units);
  }

  /** Text made only of stripped characters vanishes. */
  lemma {:induction false} RemoveAllDropsAll(s: string, p: char -> bool)
    requires forall i :: 0 <= i < |s| ==> p(s[i])
    ensures RemoveAll(s, p) == []
  {
    if s != [] {
      RemoveAllDropsAll(s[1..], p);
    }
  }

  /** "25岁" reads as 25. */
  lemma CleanAgeExample()
    ensures CleanNumericInput(Str("25岁")) == Ok(25.0)
  {
    assert NatToString(25) == "25";
    assert "25岁" == NatToString(25) + "岁";
    CleanNumberWithUnits(25, "岁");
  }

  /** "10万元" reads as 100000. */
  lemma CleanWanExample()
    ensures CleanNumericInput(Str("10万元")) == Ok(100000.0)
  {
    assert NatToString(10) == "10";
    assert "10万元" == NatToString(10) + "万元";
    assert "万元"[0] == '万';
    CleanNumberWithUnits(10, "万元");
  }

  /**
   * "10,0000万元" reads as 10^9: the comma goes, 100000 is left, and 万
   * multiplies it by 10000 (the docstring's 1000000.0 is not what the code does).
   */
  lemma CleanGroupedWanExample()
    ensures CleanNumericInput(Str("10,0000万元")) == Ok(1000000000.0)
  {
    GroupedWanRemainder();
    ParseFloatOfNat(100000);
    CleanStringValue("10,0000万元", 100000.0);
    assert "10,0000万元"[7] == '万';
  }

  lemma GroupedWanRemainder()
    ensures RemoveAll("10,0000万元", Stripped) == NatToString(100000)
  {
    assert "10,0000万元" == "10" + ([','] + ("0000" + "万元"));
    assert Stripped(',') && Stripped('万') && Stripped('元');
    RemoveGrouped("10", ',', "0000", "万元");
    HundredThousandDigits();
  }

  /** Digits, a separator, digits, then units: only the digits survive. */
  lemma RemoveGrouped(a: string, c: char, b: string, units: string)
    requires AllDigits(a) && AllDigits(b) && Stripped(c)
    requires forall i :: 0 <= i < |units| ==> Stripped(units[i])
    ensures RemoveAll(a + ([c] + (b + units)), Stripped) == a + b
  {
    DigitsNotStripped(a);
    DigitsNotStripped(b);
    RemoveAllConcat(a, [c] + (b + units), Stripped);
    RemoveAllConcat([c], b + units, Stripped);
    RemoveAllConcat(b, units, Stripped);
    RemoveAllDropsAll([c], Stripped);
    RemoveAllDropsAll(units, Stripped);
    assert RemoveAll(b + units, Stripped) == b;
    assert RemoveAll([c] + (b + units), Stripped) == b;
  }

  lemma HundredThousandDigits()
    ensures NatToString(100000) == "10" + "0000"
  {
    assert NatToString(10) == "10";
    assert NatToString(100) == NatToString(10) + "0";
    assert NatToString(1000) == NatToString(100) + "0";
    assert NatToString(10000) == NatToString(1000) + "0";
    assert NatToString(100000) == NatToString(10000) + "0";
    var a := "10" + "0000";
    assert |a| == 6 && a[0] == '1' && a[1] == '0' && a[2] == '0' && a[3] == '0' && a[4] == '0' && a[5] == '0';
  }

  /** "Years" is all noise and leaves nothing to parse. */
  lemma CleanNoiseExample()
    ensures CleanNumericInput(Str("Years")) == Err(NothingLeft)
  {
    CleanTextIsOneFilter("Years");
    assert "Years"[1..] == "ears";
    assert "ears"[1..] == "ars";
    assert "ars"[1..] == "rs";
    assert "rs"[1..] == "s";
  }

  // ---------------------------------------------------------------------
  // calculate_risk_score
  // ---------------------------------------------------------------------

  const RiskScenarioMapping: map<string, int> :=
    map["a) 卖出止损" := 2, "b) 继续持有" := 5, "c) 加仓买入" := 8]

  const RiskFocusMapping: map<string, int> :=
    map["a) 本金绝对安全" := 1, "b) 跑赢通胀" := 4, "c) 获得远超市场的收益，哪怕风险很高" := 9]

  const KnowledgeLevelMapping: map<string, int> :=
    map["a) 小白" := 2, "b) 略有了解" := 5, "c) 经验丰富" := 8]

  /** Score for an unrecognised answer. */
  const DefaultAnswerScore: int := 5

  /** `mapping.get(answer, 5)` for a hashable answer. */
  function AnswerScore(m: map<string, int>, answer: Value): int
    requires Hashable(answer)
  {
    if answer.Str? && answer.s in m then m[answer.s] else DefaultAnswerScore
  }

  function Clamp(x: real, lo: real, hi: real): real
  {
    if lo >= (if hi <= x then hi else x) then lo else (if hi <= x then hi else x)
  }

  function WeightedScore(scenario: int, focus: int, knowledge: int): real
  {
    (scenario as real) * 0.5 + (focus as real) * 0.2 + (knowledge as real) * 0.3
  }

  /**
   * `calculate_risk_score`: 0.5·scenario + 0.2·focus + 0.3·knowledge, clamped to
   * [1, 10]. The final `round(_, 2)` is the identity on this value (see
   * RiskScoreIsTenths). An unhashable answer makes the `.get` lookup raise
   * `TypeError`, which is `None` here.
   */
  function RiskScore(scenario: Value, focus: Value, knowledge: Value): (r: Option<real>)
    ensures r.None? <==> !Hashable(scenario) || !Hashable(focus) || !Hashable(knowledge)
    ensures r.Some? ==> 1.0 <= r.value <= 10.0
  {
    if !Hashable(scenario) || !Hashable(focus) || !Hashable(knowledge) then None
    else Some(Clamp(WeightedScore(AnswerScore(RiskScenarioMapping, scenario),
                                  AnswerScore(RiskFocusMapping, focus),
                                  AnswerScore(KnowledgeLevelMapping, knowledge)), 1.0, 10.0))
  }

  /** An answer the table does not know, but that can be looked up. */
  predicate Unknown(m: map<string, int>, answer: Value)
  {
    Hashable(answer) && (!answer.Str? || answer.s !in m)
  }

  /**
   * Three unrecognised hashable answers score exactly 5; should any of them be
   * unhashable there is no score at all.
   */
  lemma RiskScoreAllUnknown(scenario: Value, focus: Value, knowledge: Value)
    requires Unknown(RiskScenarioMapping, scenario) || !Hashable(scenario)
    requires Unknown(RiskFocusMapping, focus) || !Hashable(focus)
    requires Unknown(KnowledgeLevelMapping, knowledge) || !Hashable(knowledge)
    ensures RiskScore(scenario, focus, knowledge)
            == if Hashable(scenario) && Hashable(focus) && Hashable(knowledge) then Some(5.0) else None
  {
  }

  /**
   * With the configured tables the weighted sum already lies in [1.8, 8.2],
   * so the clamp never changes it.
   */
  lemma RiskScoreRange(scenario: Value, focus: Value, knowledge: Value)
    ensures RiskScore(scenario, focus, knowledge).Some? ==>
              var s := AnswerScore(RiskScenarioMapping, scenario);
              var f := AnswerScore(RiskFocusMapping, focus);
              var k := AnswerScore(KnowledgeLevelMapping, knowledge);
              && 1.8 <= WeightedScore(s, f, k) <= 8.2
              && RiskScore(scenario, focus, knowledge) == Some(WeightedScore(s, f, k))
  {
    if !Hashable(scenario) || !Hashable(focus) || !Hashable(knowledge) {
      return;
    }
    var s := AnswerScore(RiskScenarioMapping, scenario);
    var f := AnswerScore(RiskFocusMapping, focus);
    var k := AnswerScore(KnowledgeLevelMapping, knowledge);
    assert 2 <= s <= 8 by {
      if scenario.Str? && scenario.s in RiskScenarioMapping {
        assert scenario.s == "a) 卖出止损" || scenario.s == "b) 继续持有" || scenario.s == "c) 加仓买入";
      }
    }
    assert 1 <= f <= 9 by {
      if focus.Str? && focus.s in RiskFocusMapping {
        assert focus.s == "a) 本金绝对安全" || focus.s == "b) 跑赢通胀" || focus.s == "c) 获得远超市场的收益，哪怕风险很高";
      }
    }
    assert 2 <= k <= 8 by {
      if knowledge.Str? && knowledge.s in KnowledgeLevelMapping {
        assert knowledge.s == "a) 小白" || knowledge.s == "b) 略有了解" || knowledge.s == "c) 经验丰富";
      }
    }
  }

  /** The score is a whole number of tenths, so rounding it to two places changes nothing. */
  lemma RiskScoreIsTenths(scenario: Value, focus: Value, knowledge: Value)
    ensures RiskScore(scenario, focus, knowledge).Some? ==>
              var r := RiskScore(scenario, focus, knowledge).value; (r * 10.0).Floor as real == r * 10.0
  {
    if !Hashable(scenario) || !Hashable(focus) || !Hashable(knowledge) {
      return;
    }
    var s := AnswerScore(RiskScenarioMapping, scenario);
    var f := AnswerScore(RiskFocusMapping, focus);
    var k := AnswerScore(KnowledgeLevelMapping, knowledge);
    RiskScoreRange(scenario, focus, knowledge);
    var n := 5 * s + 2 * f + 3 * k;
    assert WeightedScore(s, f, k) * 10.0 == n as real;
  }

  /** A more adventurous answer never lowers the score. */
  lemma RiskScoreMonotone(s1: int, s2: int, f1: int, f2: int, k1: int, k2: int)
    requires s1 <= s2 && f1 <= f2 && k1 <= k2
    ensures Clamp(WeightedScore(s1, f1, k1), 1.0, 10.0) <= Clamp(WeightedScore(s2, f2, k2), 1.0, 10.0)
  {
  }

  // ---------------------------------------------------------------------
  // validate_user_data
  // ---------------------------------------------------------------------

  /** The fields `validate_user_data` requires. */
  const AgeField: string := "age"
  const AmountField: string := "annual_investment_amount"
  const LiquidityField: string := "liquidity_demand"
  const TargetReturnField: string := "target_return_description"
  const HorizonField: string := "investment_horizon"
  const ScenarioField: string := "risk_scenario_choice"
  const FocusField: string := "risk_focus_choice"
  const KnowledgeField: string := "investment_knowledge_level"

  const RequiredFields: seq<string> := [
    AgeField, AmountField, LiquidityField, TargetReturnField,
    HorizonField, ScenarioField, FocusField, KnowledgeField
  ]

  datatype ValidationError =
    | MissingFields(fields: seq<string>)
    | BadNumber(field: string, cause: CleanError)
    | AgeOutOfRange
    | NonPositiveAmount
    /** The `TypeError` of an unhashable risk answer, which the `ValueError`/`KeyError` handler lets through. */
    | UnhashableAnswer

  datatype ValidatedUser = ValidatedUser(
    age: int,
    annualInvestmentAmount: real,
    liquidityDemand: Value,
    targetReturnDescription: Value,
    investmentHorizon: Value,
    riskScenarioChoice: Value,
    riskFocusChoice: Value,
    investmentKnowledgeLevel: Value,
    riskScore: real)

  /** `[field for field in fields if field not in data]`. */
  function Missing(fields: seq<string>, data: map<string, Value>): (m: seq<string>)
    ensures forall f :: f in m <==> f in fields && f !in data
    ensures m == [] <==> forall f :: f in fields ==> f in data
  {
    if fields == [] then []
    else (if fields[0] in data then [] else [fields[0]]) + Missing(fields[1..], data)
  }

  /** The range checks and the record `validate_user_data` builds once both numbers are clean. */
  function AcceptProfile(age: real, amount: real, data: map<string, Value>): Result<ValidatedUser, ValidationError>
    requires forall f :: f in RequiredFields ==> f in data
  {
    if age < 18.0 || age > 100.0 then Err(AgeOutOfRange)
    else if amount <= 0.0 then Err(NonPositiveAmount)
    else match RiskScore(data[ScenarioField], data[FocusField], data[KnowledgeField])
      case None => Err(UnhashableAnswer)
      case Some(score) =>
        Ok(ValidatedUser(
          Trunc(age), amount,
          data[LiquidityField], data[TargetReturnField], data[HorizonField],
          data[ScenarioField], data[FocusField], data[KnowledgeField],
          score))
  }

  /** `validate_user_data`. */
  function ValidateUserData(data: map<string, Value>): Result<ValidatedUser, ValidationError>
  {
    var missing := Missing(RequiredFields, data);
    if missing != [] then Err(MissingFields(missing))
    else match CleanNumericInput(data[AgeField])
      case Err(e) => Err(BadNumber(AgeField, e))
      case Ok(age) =>
        match CleanNumericInput(data[AmountField])
        case Err(e) => Err(BadNumber(AmountField, e))
        case Ok(amount) => AcceptProfile(age, amount, data)
  }

  /** Any absent required field is reported, and the report names exactly the absent ones. */
  lemma MissingFieldsReported(data: map<string, Value>)
    ensures (exists f :: f in RequiredFields && f !in data) <==> ValidateUserData(data).Err? && ValidateUserData(data).error.MissingFields?
    ensures ValidateUserData(data).Err? && ValidateUserData(data).error.MissingFields? ==>
              forall f :: f in ValidateUserData(data).error.fields <==> f in RequiredFields && f !in data
  {
    var m := Missing(RequiredFields, data);
    if m != [] {
      assert m[0] in m;
    }
  }

  /**
   * Both numbers cleaned: the profile is accepted exactly when the age is in
   * [18, 100], the amount positive and every risk answer hashable; the checks
   * fail in that order.
   */
  lemma AcceptProfileSpec(age: real, amount: real, data: map<string, Value>)
    requires forall f :: f in RequiredFields ==> f in data
    ensures var r := AcceptProfile(age, amount, data);
            var hashable := Hashable(data[ScenarioField]) && Hashable(data[FocusField]) && Hashable(data[KnowledgeField]);
            && (r.Ok? <==> 18.0 <= age <= 100.0 && amount > 0.0 && hashable)
            && (!(18.0 <= age <= 100.0) ==> r == Err(AgeOutOfRange))
            && (18.0 <= age <= 100.0 && amount <= 0.0 ==> r == Err(NonPositiveAmount))
            && (18.0 <= age <= 100.0 && amount > 0.0 && !hashable ==> r == Err(UnhashableAnswer))
            && (r.Ok? ==>
                  && r.value.age == Trunc(age) && 18 <= r.value.age <= 100
                  && r.value.annualInvestmentAmount == amount
                  && 1.0 <= r.value.riskScore <= 10.0
                  && Some(r.value.riskScore) == RiskScore(data[ScenarioField], data[FocusField], data[KnowledgeField])
                  && r.value.liquidityDemand == data[LiquidityField]
                  && r.value.targetReturnDescription == data[TargetReturnField]
                  && r.value.investmentHorizon == data[HorizonField]
                  && r.value.riskScenarioChoice == data[ScenarioField]
                  && r.value.riskFocusChoice == data[FocusField]
                  && r.value.investmentKnowledgeLevel == data[KnowledgeField])
  {
  }

  /**
   * An accepted profile has every required field, and is what the range
   * checks make of the two cleaned numbers.
   */
  lemma ValidatedUserSpec(data: map<string, Value>)
    requires ValidateUserData(data).Ok?
    ensures forall f :: f in RequiredFields ==> f in data
    ensures && CleanNumericInput(data[AgeField]).Ok?
            && CleanNumericInput(data[AmountField]).Ok?
            && ValidateUserData(data) == AcceptProfile(CleanNumericInput(data[AgeField]).value,
                                                       CleanNumericInput(data[AmountField]).value, data)
  {
    assert Missing(RequiredFields, data) == [];
  }

  /** The range check sees the age before truncation: 100.5 is rejected although `int(100.5)` is 100. */
  lemma AgeCheckedBeforeTruncation(data: map<string, Value>)
    requires forall f :: f in RequiredFields ==> f in data
    requires data[AgeField] == Num(100.5) && data[AmountField] == Num(1.0)
    ensures ValidateUserData(data) == Err(AgeOutOfRange)
  {
  }

  /**
   * A list given as the scenario answer of an otherwise valid profile ends the
   * validation with the lookup's `TypeError`, not a validation error.
   */
  lemma UnhashableAnswerEscapes(data: map<string, Value>)
    requires forall f :: f in RequiredFields ==> f in data
    requires data[AgeField] == Num(30.0) && data[AmountField] == Num(1000.0)
    requires data[ScenarioField] == Container
    ensures ValidateUserData(data) == Err(UnhashableAnswer)
  {
    assert Missing(RequiredFields, data) == [];
  }

  // ---------------------------------------------------------------------
  // format_currency / format_percentage: value and tier only
  // ---------------------------------------------------------------------

  datatype CurrencyTier = Yi | Wan | Plain

  function TierScale(t: CurrencyTier): real
  {
    match t
    case Yi => 100000000.0
    case Wan => 10000.0
    case Plain => 1.0
  }

  function TierUnit(t: CurrencyTier): string
  {
    match t
    case Yi => "亿"
    case Wan => "万"
    case Plain => ""
  }

  /** The number shown and its tier, for `format_currency`. */
  function CurrencyDisplay(amount: real): (r: (real, CurrencyTier))
  {
    if amount >= 100000000.0 then (amount / 100000000.0, Yi)
    else if amount >= 10000.0 then (amount / 10000.0, Wan)
    else (amount, Plain)
  }

  /**
   * The displayed number times its tier's scale is the amount; 亿 is used from
   * 1e8, 万 from 1e4, and a tiered number is at least 1 (below 1e4 for 万).
   */
  lemma CurrencyDisplaySpec(amount: real)
    ensures var (v, t) := CurrencyDisplay(amount); v * TierScale(t) == amount
    ensures CurrencyDisplay(amount).1 == Yi <==> amount >= 100000000.0
    ensures CurrencyDisplay(amount).1 == Wan <==> 10000.0 <= amount < 100000000.0
    ensures CurrencyDisplay(amount).1 == Plain <==> amount < 10000.0
    ensures CurrencyDisplay(amount).1 != Plain ==> CurrencyDisplay(amount).0 >= 1.0
    ensures CurrencyDisplay(amount).1 == Wan ==> CurrencyDisplay(amount).0 < 10000.0
    ensures TierUnit(CurrencyDisplay(amount).1)
            == if amount >= 100000000.0 then "亿" else if amount >= 10000.0 then "万" else ""
  {
  }

  /** `format_percentage` shows the fraction times 100. */
  function PercentageValue(fraction: real): (p: real)
    ensures p / 100.0 == fraction
  {
    fraction * 100.0
  }
}
