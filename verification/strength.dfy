/** The strength scorer: five independent rules, each worth a fixed award,
    summed and capped at the top of the strength bar. */
module Strength {
  import opened CharClasses

  /** Points each satisfied rule adds. */
  const Award: nat := 20

  /** The cap applied to the sum, and the top of the strength bar. */
  const MaxScore: nat := 100

  /** Which of the five rules a password satisfies. */
  datatype Rules = Rules(
    atLeast8: bool,
    atLeast12: bool,
    digit: bool,
    mixedCase: bool,
    symbol: bool)
  {
    /** Number of satisfied rules. */
    function Count(): (n: nat)
      ensures n <= 5
    {
      (if atLeast8 then 1 else 0) + (if atLeast12 then 1 else 0)
      + (if digit then 1 else 0) + (if mixedCase then 1 else 0)
      + (if symbol then 1 else 0)
    }

    /** Every rule satisfied here is satisfied by `other` too. */
    predicate Below(other: Rules) {
      && (atLeast8 ==> other.atLeast8)
      && (atLeast12 ==> other.atLeast12)
      && (digit ==> other.digit)
      && (mixedCase ==> other.mixedCase)
      && (symbol ==> other.symbol)
    }
  }

  function Points(earned: bool): nat {
    if earned then Award else 0
  }

  /** The uncapped sum of the awards. */
  function Total(r: Rules): (sum: nat)
    ensures sum == Award * r.Count()
  {
    Points(r.atLeast8) + Points(r.atLeast12) + Points(r.digit)
    + Points(r.mixedCase) + Points(r.symbol)
  }

  /** Evaluates the five rules on a password, each with its own scan. */
  function EvaluateRules(password: string): (r: Rules)
    ensures r.atLeast8 <==> |password| >= 8
    ensures r.atLeast12 <==> |password| >= 12
    ensures r.digit <==> exists i :: 0 <= i < |password| && IsDigit(password[i])
    ensures r.mixedCase <==>
              (exists i :: 0 <= i < |password| && IsUpper(password[i]))
              && (exists j :: 0 <= j < |password| && IsLower(password[j]))
    ensures r.symbol <==> exists i :: 0 <= i < |password| && password[i] in Symbols
  {
    Rules(
      |password| >= 8,
      |password| >= 12,
      Any(password, IsDigit),
      Any(password, IsUpper) && Any(password, IsLower),
      Any(password, IsSymbol))
  }

  function Min(a: nat, b: nat): nat {
    if a <= b then a else b
  }

  /** The score shown on the strength bar. */
  function CalculateStrength(password: string): (score: nat)
    ensures score <= MaxScore
    ensures score % Award == 0
    ensures score == Total(EvaluateRules(password))
  {
    Min(Total(EvaluateRules(password)), MaxScore)
  }

  /** The two length rules are cumulative: a password earns nothing from its
      length below 8, one award from 8 to 11, and two from 12 on. */
  lemma LengthContribution(password: string)
    ensures var r := EvaluateRules(password);
            Points(r.atLeast8) + Points(r.atLeast12)
            == if |password| < 8 then 0
               else if |password| < 12 then Award
               else 2 * Award
  {
  }

  /** A password without an upper-case letter, or without a lower-case one,
      earns nothing from the mixed-case rule. */
  lemma SingleCaseEarnsNoCaseAward(password: string)
    requires (forall i :: 0 <= i < |password| ==> !IsUpper(password[i]))
             || (forall i :: 0 <= i < |password| ==> !IsLower(password[i]))
    ensures !EvaluateRules(password).mixedCase
    ensures CalculateStrength(password) <= 4 * Award
  {
  }

  /** Satisfying more rules never lowers the total. */
  lemma TotalMonotone(a: Rules, b: Rules)
    requires a.Below(b)
    ensures Total(a) <= Total(b)
  {
  }

  /** Appending characters to a password never lowers its score: every rule
      the prefix satisfies, the longer password satisfies too. */
  lemma {:induction false} ExtensionNeverWeakens(password: string, suffix: string)
    ensures EvaluateRules(password).Below(EvaluateRules(password + suffix))
    ensures CalculateStrength(password) <= CalculateStrength(password + suffix)
  {
    var longer := password + suffix;
    forall i | 0 <= i < |password|
      ensures longer[i] == password[i]
    {
    }
    TotalMonotone(EvaluateRules(password), EvaluateRules(longer));
  }

  /** A one-letter lower-case password satisfies no rule. */
  lemma ScenarioSingleLetter()
    ensures CalculateStrength("a") == 0
  {
  }

  /** A password made only of lower-case letters earns nothing but its
      length awards. */
  lemma AllLowercaseEarnsOnlyLength(password: string)
    requires forall i :: 0 <= i < |password| ==> IsLower(password[i])
    ensures CalculateStrength(password)
            == Points(|password| >= 8) + Points(|password| >= 12)
  {
    forall i | 0 <= i < |password|
      ensures !IsDigit(password[i]) && !IsUpper(password[i]) && password[i] !in Symbols
    {
      SymbolsAreNotAlphanumeric(password[i]);
    }
  }

  /** Eight lower-case letters earn only the first length award. */
  lemma ScenarioEightLowercase()
    ensures CalculateStrength("abcdefgh") == Award
  {
    var p := "abcdefgh";
    assert forall i :: 0 <= i < |p| ==> IsLower(p[i]);
    AllLowercaseEarnsOnlyLength(p);
  }

  /** Ten characters with both cases, a digit and a symbol earn four awards. */
  lemma ScenarioTenMixed()
    ensures CalculateStrength("Abcdefgh1!") == 4 * Award
  {
    var p := "Abcdefgh1!";
    assert IsUpper(p[0]) && IsLower(p[1]) && IsDigit(p[8]) && p[9] in Symbols;
  }

  /** Fourteen such characters earn every award. */
  lemma ScenarioFourteenMixed()
    ensures CalculateStrength("Abcdefghijkl1!") == MaxScore
  {
    var p := "Abcdefghijkl1!";
    assert IsUpper(p[0]) && IsLower(p[1]) && IsDigit(p[12]) && p[13] in Symbols;
  }
}
