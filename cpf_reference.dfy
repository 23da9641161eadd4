/**
 * A concrete stand-in for the external CPF check, NOT taken from the
 * Certobot sources (which delegate it to the `validate_docbr` library):
 * the Receita Federal rule of two mod-11 check digits, with numbers made
 * of one repeated digit rejected. It shows that `DependsOnlyOnDigits` can
 * be met, and proves what `format` returns on concrete numbers.
 */
module CpfReference {
  import opened Wrappers
  import opened CpfValidator

  function DigitValue(c: char): (v: nat)
    requires IsDigit(c)
    ensures v <= 9
  {
    c as int - '0' as int
  }

  /** The sum of each digit `d[i]` times the weight `top - i`. */
  function WeightedSum(d: string, top: int): int
    requires AllDigits(d)
  {
    if d == [] then 0 else DigitValue(d[0]) * top + WeightedSum(d[1..], top - 1)
  }

  /** The check digit over `d` with weights counting down from `top`. */
  function CheckDigit(d: string, top: int): (v: nat)
    requires AllDigits(d)
    ensures v <= 9
  {
    var rem := WeightedSum(d, top) % 11;
    if rem < 2 then 0 else 11 - rem
  }

  predicate AllSame(c: string) {
    forall i :: 0 <= i < |c| ==> c[i] == c[0]
  }

  /** The Receita Federal validity rule, on the digits of `s`. */
  predicate ReceitaValid(s: string) {
    ReceitaValidDigits(Clean(s))
  }

  /** The rule itself, on a string of digits. */
  predicate ReceitaValidDigits(c: string)
    requires AllDigits(c)
  {
    |c| == 11 && !AllSame(c) &&
    CheckDigit(c[..9], 10) == DigitValue(c[9]) &&
    CheckDigit(c[..10], 11) == DigitValue(c[10])
  }

  /** The reference rule as a library that never raises. */
  function ReceitaLibrary(): Library {
    s => Returned(ReceitaValid(s))
  }

  /** The reference library meets the assumption the validator relies on. */
  lemma ReceitaDependsOnlyOnDigits()
    ensures DependsOnlyOnDigits(ReceitaLibrary())
  {
    forall s: string ensures Accepts(ReceitaLibrary(), s) <==> Accepts(ReceitaLibrary(), Clean(s)) {
      CleanIdempotent(s);
      assert ReceitaValid(Clean(s)) == ReceitaValid(s);
    }
  }

  /**
   * With the reference library, validation fails unless there are
   * exactly 11 digits, so `format` answers exactly when `validate` accepts.
   */
  lemma ReceitaFormatIffValid(cpf: Option<string>)
    ensures Validate(cpf, ReceitaLibrary()).valid ==> |Clean(cpf.value)| == 11
    ensures Format(cpf, ReceitaLibrary()).Some? <==> Validate(cpf, ReceitaLibrary()).valid
  {
  }

  function Repeat(ch: char, n: nat): (r: string)
    ensures |r| == n && forall i :: 0 <= i < n ==> r[i] == ch
  {
    if n == 0 then [] else [ch] + Repeat(ch, n - 1)
  }

  /** The sum of the weights `top, top - 1, …` of `n` digits. */
  function WeightTotal(n: nat, top: int): int {
    if n == 0 then 0 else top + WeightTotal(n - 1, top - 1)
  }

  lemma {:induction false} WeightedSumRepeat(ch: char, n: nat, top: int)
    requires IsDigit(ch)
    ensures AllDigits(Repeat(ch, n))
    ensures WeightedSum(Repeat(ch, n), top) == DigitValue(ch) * WeightTotal(n, top)
  {
    if n > 0 {
      WeightedSumRepeat(ch, n - 1, top - 1);
      assert Repeat(ch, n)[1..] == Repeat(ch, n - 1);
    }
  }

  /** The weights 10..2 add up to 54 and 11..2 to 65, both -1 modulo 11. */
  lemma RepeatedCheckDigit(v: nat)
    requires v <= 9
    ensures (v * 54) % 11 == (11 - v) % 11 && (v * 65) % 11 == (11 - v) % 11
  {
    assert v == 0 || v == 1 || v == 2 || v == 3 || v == 4 || v == 5 || v == 6 || v == 7 || v == 8 || v == 9;
  }

  /**
   * Every number made of one repeated digit passes both check-digit tests,
   * which is why the rule has to reject such numbers explicitly.
   */
  lemma RepeatedDigitsPassChecksum(ch: char)
    requires IsDigit(ch)
    ensures var c := Repeat(ch, 11);
      AllDigits(c) &&
      CheckDigit(c[..9], 10) == DigitValue(c[9]) &&
      CheckDigit(c[..10], 11) == DigitValue(c[10]) &&
      !ReceitaValid(c)
  {
    var c := Repeat(ch, 11);
    assert c[..9] == Repeat(ch, 9);
    assert c[..10] == Repeat(ch, 10);
    WeightedSumRepeat(ch, 9, 10);
    WeightedSumRepeat(ch, 10, 11);
    assert WeightTotal(9, 10) == 54;
    assert WeightTotal(10, 11) == 65;
    RepeatedCheckDigit(DigitValue(ch));
    CleanOfDigits(c);
  }

  /** The first check digit of the sample number 529.982.247-25. */
  lemma SampleFirstCheckDigit()
    ensures AllDigits("529982247") && CheckDigit("529982247", 10) == 2
  {
  }

  /** The second check digit of the sample number 529.982.247-25. */
  lemma SampleSecondCheckDigit()
    ensures AllDigits("5299822472") && CheckDigit("5299822472", 11) == 5
  {
  }

  /** The punctuated sample is the layout of the bare one, so it strips back to it. */
  lemma CleanSample()
    ensures Clean("529.982.247-25") == "52998224725"
  {
    assert AllDigits("52998224725");
    SampleLayout();
  }

  /** The check digits of the sample number are right. */
  lemma SampleDigitsValid()
    ensures AllDigits("52998224725") && ReceitaValidDigits("52998224725")
  {
    var good := "52998224725";
    SampleFirstCheckDigit();
    SampleSecondCheckDigit();
    assert good[..9] == "529982247" && good[..10] == "5299822472";
    assert good[1] != good[0];
  }

  /** With the last digit mistyped, the second check digit no longer matches. */
  lemma MistypedDigitsInvalid()
    ensures AllDigits("52998224726") && !ReceitaValidDigits("52998224726")
  {
    var bad := "52998224726";
    SampleSecondCheckDigit();
    assert bad[..10] == "5299822472";
  }

  /** A known valid number. */
  lemma ReceitaAcceptsSample()
    ensures ReceitaValid("52998224725")
  {
    SampleDigitsValid();
    CleanOfDigits("52998224725");
  }

  /** The number with its last digit mistyped is rejected. */
  lemma ReceitaRejectsMistyped()
    ensures !ReceitaValid("52998224726")
  {
    MistypedDigitsInvalid();
    CleanOfDigits("52998224726");
  }

  lemma SampleLayout()
    ensures Layout("52998224725") == "529.982.247-25"
  {
    var good := "52998224725";
    assert good[..3] == "529" && good[3..6] == "982" && good[6..9] == "247" && good[9..] == "25";
  }

  /**
   * With the reference library, a non-empty input whose digits `c` are a
   * valid CPF is formatted as the layout of `c`.
   */
  lemma ReceitaFormatsValidDigits(s: string, c: string)
    requires s != "" && Clean(s) == c && ReceitaValidDigits(c)
    ensures Format(Some(s), ReceitaLibrary()) == Some(Layout(c))
  {
  }

  /** `format` with the reference library, on the bare sample number. */
  lemma FormatSample()
    ensures Format(Some("52998224725"), ReceitaLibrary()) == Some("529.982.247-25")
  {
    SampleDigitsValid();
    CleanOfDigits("52998224725");
    ReceitaFormatsValidDigits("52998224725", "52998224725");
    SampleLayout();
  }

  /** `format` with the reference library, on the punctuated sample number. */
  lemma FormatPunctuatedSample()
    ensures Format(Some("529.982.247-25"), ReceitaLibrary()) == Some("529.982.247-25")
  {
    SampleDigitsValid();
    CleanSample();
    ReceitaFormatsValidDigits("529.982.247-25", "52998224725");
    SampleLayout();
  }

  /** `format` with the reference library rejects a mistyped or empty number. */
  lemma FormatRejects()
    ensures Format(Some("52998224726"), ReceitaLibrary()) == None
    ensures Format(Some(""), ReceitaLibrary()) == None && Format(None, ReceitaLibrary()) == None
  {
    ReceitaRejectsMistyped();
  }

  /** The log mask of the sample number. */
  lemma MaskSample()
    ensures Mask("529.982.247-25") == "529****25"
  {
    MaskSampleText();
    SampleMaskShape();
  }

  lemma SampleMaskShape()
    ensures Mask("529.982.247-25") == "52998224725"[..3] + "****" + "52998224725"[9..]
  {
    CleanSample();
    MaskOfDigits("529.982.247-25", "52998224725");
  }

  lemma MaskSampleText()
    ensures "52998224725"[..3] + "****" + "52998224725"[9..] == "529****25"
  {
  }

  lemma MaskOfDigits(s: string, c: string)
    requires Clean(s) == c && |c| >= 5
    ensures Mask(s) == c[..3] + "****" + c[|c| - 2..]
  {
  }
}
