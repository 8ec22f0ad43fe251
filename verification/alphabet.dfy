/** The generation options read from the checkboxes, the custom-text field
    and the length slider, and the composition of the sampling alphabet
    from them. */
module Alphabet {
  import opened CharClasses

  /** Range of the length slider. */
  const SliderMin: int := 4
  const SliderMax: int := 32

  /** A value the length slider can take. */
  type SliderValue = n: int | SliderMin <= n <= SliderMax witness 12

  /** The state of the controls at the moment a password is generated. */
  datatype Options = Options(
    letters: bool,
    digits: bool,
    symbols: bool,
    mixed: bool,
    custom: bool,
    customText: string,
    length: SliderValue)

  /** The controls as the window starts: every box but Custom checked, and
      the slider at 12. */
  const Defaults: Options := Options(true, true, true, true, false, "", 12)

  /** No checkbox contributes a character: Letters, Digits and Symbols are
      clear, and Custom is clear or its text is empty. */
  predicate NothingSelected(o: Options) {
    !o.letters && !o.digits && !o.symbols && !(o.custom && |o.customText| > 0)
  }

  /** Number of custom characters appended to the alphabet. */
  function CustomLength(o: Options): nat {
    if o.custom then |o.customText| else 0
  }

  /** Whether the options allow character `c` into the alphabet. */
  predicate Admits(o: Options, c: char) {
    || ((o.letters || NothingSelected(o)) && IsLower(c))
    || (o.letters && o.mixed && IsUpper(c))
    || (o.digits && IsDigit(c))
    || (o.symbols && IsSymbol(c))
    || (o.custom && c in o.customText)
  }

  /** Order of the character classes in the generated part of the alphabet. */
  function ClassRank(c: char): nat {
    if IsLower(c) then 0
    else if IsUpper(c) then 1
    else if IsDigit(c) then 2
    else if IsSymbol(c) then 3
    else 4
  }

  ghost predicate RankedInOrder(s: string) {
    forall i, j :: 0 <= i < j < |s| ==> ClassRank(s[i]) <= ClassRank(s[j])
  }

  ghost predicate AllOfRank(s: string, k: nat) {
    forall i :: 0 <= i < |s| ==> ClassRank(s[i]) == k
  }

  lemma {:induction false} AppendRanked(a: string, b: string, k: nat)
    requires RankedInOrder(a)
    requires forall i :: 0 <= i < |a| ==> ClassRank(a[i]) <= k
    requires AllOfRank(b, k)
    ensures RankedInOrder(a + b)
  {
    var s := a + b;
    forall i, j | 0 <= i < j < |s|
      ensures ClassRank(s[i]) <= ClassRank(s[j])
    {
      if j < |a| {
        assert s[i] == a[i] && s[j] == a[j];
      } else if i < |a| {
        assert s[i] == a[i] && s[j] == b[j - |a|];
      } else {
        assert s[i] == b[i - |a|] && s[j] == b[j - |a|];
      }
    }
  }

  lemma RangeRanks()
    ensures AllOfRank(AsciiLowercase, 0)
    ensures AllOfRank(AsciiUppercase, 1)
    ensures AllOfRank(Digits, 2)
    ensures AllOfRank(Symbols, 3)
  {
    forall i | 0 <= i < |AsciiLowercase|
      ensures ClassRank(AsciiLowercase[i]) == 0
    {
      LowercaseRange(AsciiLowercase[i]);
    }
    forall i | 0 <= i < |AsciiUppercase|
      ensures ClassRank(AsciiUppercase[i]) == 1
    {
      UppercaseRange(AsciiUppercase[i]);
    }
    forall i | 0 <= i < |Digits|
      ensures ClassRank(Digits[i]) == 2
    {
      DigitRange(Digits[i]);
    }
    forall i | 0 <= i < |Symbols|
      ensures ClassRank(Symbols[i]) == 3
    {
      SymbolsAreNotAlphanumeric(Symbols[i]);
    }
  }

  function LettersPart(o: Options): string {
    if !o.letters then ""
    else if o.mixed then AsciiLowercase + AsciiUppercase
    else AsciiLowercase
  }

  function DigitsPart(o: Options): string {
    if o.digits then Digits else ""
  }

  function SymbolsPart(o: Options): string {
    if o.symbols then Symbols else ""
  }

  function CustomPart(o: Options): string {
    if o.custom && |o.customText| > 0 then o.customText else ""
  }

  /** The parts selected by the checkboxes other than Custom, in order. */
  function GeneratedPart(o: Options): (s: string)
    ensures |s| == (if o.letters then 26 else 0)
                   + (if o.letters && o.mixed then 26 else 0)
                   + (if o.digits then 10 else 0)
                   + (if o.symbols then 27 else 0)
    ensures RankedInOrder(s)
  {
    RangeRanks();
    var letters := LettersPart(o);
    assert RankedInOrder(letters) by {
      if o.letters && o.mixed {
        AppendRanked(AsciiLowercase, AsciiUppercase, 1);
      }
    }
    var withDigits := letters + DigitsPart(o);
    assert RankedInOrder(withDigits) by {
      if o.digits {
        AppendRanked(letters, Digits, 2);
      }
    }
    var withSymbols := withDigits + SymbolsPart(o);
    assert RankedInOrder(withSymbols) by {
      if o.symbols {
        AppendRanked(withDigits, Symbols, 3);
      }
    }
    withSymbols
  }

  lemma GeneratedMembership(o: Options, c: char)
    ensures c in GeneratedPart(o) <==>
              || (o.letters && IsLower(c))
              || (o.letters && o.mixed && IsUpper(c))
              || (o.digits && IsDigit(c))
              || (o.symbols && IsSymbol(c))
  {
    LowercaseRange(c);
    UppercaseRange(c);
    DigitRange(c);
  }

  /** The alphabet the sampler draws from: lower-case letters (followed by
      upper-case ones when Mixed is also checked) if Letters is checked, then
      the digits, then the symbols, then the custom text verbatim; the
      lower-case letters alone when that leaves nothing. */
  function ComposeAlphabet(o: Options): (alphabet: string)
    ensures |alphabet| > 0
    ensures NothingSelected(o) ==> alphabet == AsciiLowercase
    ensures !NothingSelected(o) ==>
              |alphabet| == (if o.letters then 26 else 0)
                            + (if o.letters && o.mixed then 26 else 0)
                            + (if o.digits then 10 else 0)
                            + (if o.symbols then 27 else 0)
                            + CustomLength(o)
  {
    var charSet := GeneratedPart(o) + CustomPart(o);
    if |charSet| == 0 then AsciiLowercase else charSet
  }

  /** A character is in the alphabet exactly when the options admit it: no
      flag adds anything another flag does not account for. */
  lemma AlphabetMembership(o: Options, c: char)
    ensures c in ComposeAlphabet(o) <==> Admits(o, c)
  {
    LowercaseRange(c);
    GeneratedMembership(o, c);
  }

  /** The custom text, when Custom is checked, ends the alphabet verbatim;
      everything before it is exactly the ranges the other checkboxes
      select, running lower-case letters, upper-case letters, digits,
      symbols, in that order. */
  lemma AlphabetLayout(o: Options)
    ensures CustomLength(o) <= |ComposeAlphabet(o)|
    ensures var a := ComposeAlphabet(o);
            a[|a| - CustomLength(o)..] == (if o.custom then o.customText else "")
    ensures var a := ComposeAlphabet(o);
            RankedInOrder(a[..|a| - CustomLength(o)])
    ensures var a := ComposeAlphabet(o);
            !NothingSelected(o) ==> a[..|a| - CustomLength(o)] == GeneratedPart(o)
  {
    var a := ComposeAlphabet(o);
    var generated := GeneratedPart(o);
    if |generated + CustomPart(o)| == 0 {
      RangeRanks();
      assert a[..|a|] == a;
    } else {
      assert a[..|generated|] == generated;
    }
  }

  /** Mixed adds upper-case letters only together with Letters: with Letters
      clear, checking Mixed changes nothing. */
  lemma MixedWithoutLettersAddsNothing(o: Options)
    requires !o.letters
    ensures ComposeAlphabet(o.(mixed := true)) == ComposeAlphabet(o.(mixed := false))
  {
  }

  /** Checking Custom with an empty text field changes nothing. */
  lemma EmptyCustomAddsNothing(o: Options)
    requires o.customText == ""
    ensures ComposeAlphabet(o.(custom := true)) == ComposeAlphabet(o.(custom := false))
  {
  }

  /** Upper-case letters reach the alphabet only through Letters together
      with Mixed, or through the custom text. */
  lemma UppercaseNeedsLettersAndMixed(o: Options)
    ensures (exists i :: 0 <= i < |ComposeAlphabet(o)| && IsUpper(ComposeAlphabet(o)[i]))
            <==> (o.letters && o.mixed)
                 || (o.custom && exists j :: 0 <= j < |o.customText| && IsUpper(o.customText[j]))
  {
    var a := ComposeAlphabet(o);
    if o.letters && o.mixed {
      AlphabetMembership(o, 'A');
      var i :| 0 <= i < |a| && a[i] == 'A';
      assert IsUpper(a[i]);
    } else if o.custom && exists j :: 0 <= j < |o.customText| && IsUpper(o.customText[j]) {
      var j :| 0 <= j < |o.customText| && IsUpper(o.customText[j]);
      AlphabetMembership(o, o.customText[j]);
      var i :| 0 <= i < |a| && a[i] == o.customText[j];
      assert IsUpper(a[i]);
    } else {
      forall i | 0 <= i < |a|
        ensures !IsUpper(a[i])
      {
        AlphabetMembership(o, a[i]);
        SymbolsAreNotAlphanumeric(a[i]);
        if o.custom && a[i] in o.customText {
          var j :| 0 <= j < |o.customText| && o.customText[j] == a[i];
        }
      }
    }
  }

  /** The default options give lower- and upper-case letters, digits and
      symbols: 89 characters, lower-case first. */
  lemma DefaultAlphabet()
    ensures ComposeAlphabet(Defaults) == AsciiLowercase + AsciiUppercase + Digits + Symbols
    ensures |ComposeAlphabet(Defaults)| == 89
  {
  }
}
