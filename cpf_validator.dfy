/**
 * The CPF validator service of Certobot (`CPFValidator` in
 * backend/modules/validation/cpf_validator.py): digit stripping, the
 * fail-closed `validate` around the external `validate_docbr` check,
 * the canonical `XXX.XXX.XXX-XX` layout and the log mask.
 *
 * The external library is not modelled: it is a parameter `lib` of type
 * `Library`, whose outcome is either a verdict or a raised exception.
 */
module CpfValidator {
  import opened Wrappers

  // ---------------------------------------------------------------------
  // Digits and `_clean_cpf`
  // ---------------------------------------------------------------------

  /** An ASCII decimal digit (the model of `str.isdigit`). */
  predicate IsDigit(c: char) {
    '0' <= c <= '9'
  }

  predicate AllDigits(s: string) {
    forall i :: 0 <= i < |s| ==> IsDigit(s[i])
  }

  /** `_clean_cpf`: the digits of `s`, in their original order. */
  function Clean(s: string): (r: string)
    ensures AllDigits(r)
    ensures |r| <= |s|
  {
    if s == [] then []
    else (if IsDigit(s[0]) then [s[0]] else []) + Clean(s[1..])
  }

  /**
   * Independent description of which characters `Clean` keeps: the
   * positions of the digits of `s` from index `from` on, in increasing order.
   */
  function DigitPositionsFrom(s: string, from: nat): seq<nat>
    decreases |s| - from
  {
    if from >= |s| then []
    else (if IsDigit(s[from]) then [from] else []) + DigitPositionsFrom(s, from + 1)
  }

  lemma {:induction false} CleanSelectsDigitPositionsFrom(s: string, from: nat)
    requires from <= |s|
    ensures var c, p := Clean(s[from..]), DigitPositionsFrom(s, from);
      |p| == |c| &&
      (forall k :: 0 <= k < |p| ==> from <= p[k] < |s| && IsDigit(s[p[k]]) && c[k] == s[p[k]]) &&
      (forall k, l :: 0 <= k < l < |p| ==> p[k] < p[l]) &&
      (forall j :: from <= j < |s| && IsDigit(s[j]) ==> j in p)
    decreases |s| - from
  {
    if from < |s| {
      CleanSelectsDigitPositionsFrom(s, from + 1);
      assert s[from..][1..] == s[from + 1..];
    }
  }

  /**
   * `Clean(s)` is exactly `s` read at the positions of its digits: an
   * order-preserving subsequence of `s` that keeps every digit and
   * nothing else.
   */
  lemma CleanIsDigitSubsequence(s: string)
    ensures var c, p := Clean(s), DigitPositionsFrom(s, 0);
      |p| == |c| &&
      (forall k :: 0 <= k < |p| ==> p[k] < |s| && c[k] == s[p[k]]) &&
      (forall k, l :: 0 <= k < l < |p| ==> p[k] < p[l]) &&
      (forall j :: 0 <= j < |s| && IsDigit(s[j]) ==> j in p)
  {
    CleanSelectsDigitPositionsFrom(s, 0);
    assert s[0..] == s;
  }

  /** Stripping distributes over concatenation. */
  lemma {:induction false} CleanConcat(a: string, b: string)
    ensures Clean(a + b) == Clean(a) + Clean(b)
  {
    if a == [] {
      assert a + b == b;
    } else {
      assert (a + b)[1..] == a[1..] + b;
      CleanConcat(a[1..], b);
    }
  }

  /** A string of digits only is left unchanged. */
  lemma {:induction false} CleanOfDigits(s: string)
    requires AllDigits(s)
    ensures Clean(s) == s
  {
    if s != [] {
      CleanOfDigits(s[1..]);
    }
  }

  lemma CleanIdempotent(s: string)
    ensures Clean(Clean(s)) == Clean(s)
  {
    CleanOfDigits(Clean(s));
  }

  // ---------------------------------------------------------------------
  // `_mask_cpf`
  // ---------------------------------------------------------------------

  /** `_mask_cpf`: first three and last two digits around `****`, or `***`. */
  function Mask(cpf: string): (r: string)
    ensures var c := Clean(cpf);
      |c| >= 5 ==> |r| == 9 && r[..3] == c[..3] && r[3..7] == "****" && r[7..] == c[|c| - 2..]
    ensures |Clean(cpf)| < 5 ==> r == "***"
  {
    var c := Clean(cpf);
    if |c| >= 5 then c[..3] + "****" + c[|c| - 2..] else "***"
  }

  /**
   * The mask never reveals more than five digits, and those it reveals
   * are the first three and last two digits of the number.
   */
  lemma MaskRevealsAtMostFiveDigits(cpf: string)
    ensures var c := Clean(cpf);
      Clean(Mask(cpf)) == (if |c| >= 5 then c[..3] + c[|c| - 2..] else [])
    ensures |Clean(Mask(cpf))| <= 5
    ensures forall i :: 0 <= i < |Mask(cpf)| ==> IsDigit(Mask(cpf)[i]) || Mask(cpf)[i] == '*'
  {
    var c := Clean(cpf);
    if |c| >= 5 {
      CleanConcat(c[..3], "****");
      CleanConcat(c[..3] + "****", c[|c| - 2..]);
      CleanOfDigits(c[..3]);
      CleanOfDigits(c[|c| - 2..]);
      assert Clean("****") == [];
    } else {
      assert Clean("***") == [];
    }
  }

  // ---------------------------------------------------------------------
  // `validate`
  // ---------------------------------------------------------------------

  /** What a call of `validate_docbr.CPF().validate` can do: answer, or raise. */
  datatype LibOutcome = Returned(verdict: bool) | Raised(error: string)

  /** The external check-digit validator, not part of this model. */
  type Library = string -> LibOutcome

  /** The library accepts `s`: it returns the verdict `true`. */
  predicate Accepts(lib: Library, s: string) {
    lib(s) == Returned(true)
  }

  /**
   * The assumption the source states in its comments: whether the
   * library accepts a number depends only on its digits ("can include
   * formatting", "handles formatting automatically"). Nothing is assumed
   * about whether, or with what text, it raises.
   */
  ghost predicate DependsOnlyOnDigits(lib: Library) {
    forall s :: Accepts(lib, s) <==> Accepts(lib, Clean(s))
  }

  /** The diagnostic record `validate` hands to its logger. */
  datatype Diagnostic =
    | Debug(message: string, cpfMasked: string, isValid: bool)
    | Error(message: string, cpfMasked: string, error: string)

  /** The answer of `validate`, with the diagnostic it emitted, if any. */
  datatype Validation = Validation(valid: bool, log: Option<Diagnostic>)

  /** Python falsiness of an `Optional[str]`: `None` or the empty string. */
  predicate Blank(cpf: Option<string>) {
    cpf == None || cpf == Some("")
  }

  /** `CPFValidator.validate`. */
  function Validate(cpf: Option<string>, lib: Library): (r: Validation)
    ensures r.valid ==> !Blank(cpf)
  {
    if Blank(cpf) then Validation(false, None)
    else
      match lib(cpf.value)
      case Returned(b) => Validation(b, Some(Debug("CPF validation performed", Mask(cpf.value), b)))
      case Raised(e) => Validation(false, Some(Error("Error during CPF validation", Mask(cpf.value), e)))
  }

  /** Empty or absent input is rejected without consulting the library. */
  lemma ValidateBlankIgnoresLibrary(cpf: Option<string>, lib: Library, other: Library)
    requires Blank(cpf)
    ensures Validate(cpf, lib) == Validate(cpf, other) == Validation(false, None)
  {
  }

  /**
   * On non-empty input the answer is the library's verdict when it
   * returns one, and `false` when it raises; the exception never escapes,
   * it is reported in an error diagnostic.
   */
  lemma ValidateFollowsLibrary(cpf: string, lib: Library)
    requires cpf != ""
    ensures Validate(Some(cpf), lib).valid <==> lib(cpf) == Returned(true)
    ensures lib(cpf).Returned? ==> Validate(Some(cpf), lib).valid == lib(cpf).verdict
    ensures lib(cpf).Raised? ==>
      !Validate(Some(cpf), lib).valid &&
      Validate(Some(cpf), lib).log == Some(Error("Error during CPF validation", Mask(cpf), lib(cpf).error))
  {
  }

  /**
   * Whatever the library does, the `cpf_masked` field of the diagnostic
   * holds the number only as `Mask` (at most five of its digits), and a
   * debug record reports the verdict that is returned. The error text of
   * an error record is the library's own and is not constrained.
   */
  lemma ValidateLogsOnlyMasked(cpf: Option<string>, lib: Library)
    ensures var r := Validate(cpf, lib);
      (r.log == None <==> Blank(cpf)) &&
      (r.log.Some? ==> r.log.value.cpfMasked == Mask(cpf.value) && |Clean(r.log.value.cpfMasked)| <= 5) &&
      (r.log.Some? && r.log.value.Debug? ==> r.log.value.isValid == r.valid)
  {
    if !Blank(cpf) {
      MaskRevealsAtMostFiveDigits(cpf.value);
    }
  }

  // ---------------------------------------------------------------------
  // `format`
  // ---------------------------------------------------------------------

  /** The slicing `XXX.XXX.XXX-XX` of an 11-character string. */
  function Layout(c: string): (r: string)
    requires |c| == 11
    ensures |r| == 14 && r[3] == '.' && r[7] == '.' && r[11] == '-'
    ensures r[..3] == c[..3] && r[4..7] == c[3..6] && r[8..11] == c[6..9] && r[12..] == c[9..]
    ensures AllDigits(c) ==> Clean(r) == c
  {
    var r := c[..3] + "." + c[3..6] + "." + c[6..9] + "-" + c[9..];
    assert AllDigits(c) ==> Clean(r) == c by {
      if AllDigits(c) {
        LayoutCleansBack(c);
      }
    }
    r
  }

  lemma LayoutCleansBack(c: string)
    requires |c| == 11 && AllDigits(c)
    ensures Clean(c[..3] + "." + c[3..6] + "." + c[6..9] + "-" + c[9..]) == c
  {
    var p1 := c[..3] + ".";
    CleanAppendSeparator(c[..3], '.');
    var p2 := p1 + c[3..6];
    CleanAppendDigits(p1, c[3..6]);
    var p3 := p2 + ".";
    CleanAppendSeparator(p2, '.');
    var p4 := p3 + c[6..9];
    CleanAppendDigits(p3, c[6..9]);
    var p5 := p4 + "-";
    CleanAppendSeparator(p4, '-');
    var p6 := p5 + c[9..];
    CleanAppendDigits(p5, c[9..]);
    CleanOfDigits(c[..3]);
    assert c[..3] + c[3..6] + c[6..9] + c[9..] == c;
  }

  lemma CleanAppendSeparator(s: string, p: char)
    requires !IsDigit(p)
    ensures Clean(s + [p]) == Clean(s)
  {
    CleanConcat(s, [p]);
  }

  lemma CleanAppendDigits(s: string, d: string)
    requires AllDigits(d)
    ensures Clean(s + d) == Clean(s) + d
  {
    CleanConcat(s, d);
    CleanOfDigits(d);
  }

  /** `CPFValidator.format`. */
  function Format(cpf: Option<string>, lib: Library): (r: Option<string>)
    ensures r.Some? <==> Validate(cpf, lib).valid && |Clean(cpf.value)| == 11
  {
    if !Validate(cpf, lib).valid then None
    else
      var c := Clean(cpf.value);
      if |c| == 11 then Some(Layout(c)) else None
  }

  /**
   * A formatted CPF is the digits of the input, laid out as
   * `XXX.XXX.XXX-XX`: 14 characters, dots at 3 and 7, hyphen at 11, and
   * stripping its punctuation gives back the digits of the input.
   */
  lemma FormatShape(cpf: Option<string>, lib: Library)
    requires Format(cpf, lib).Some?
    ensures var f, c := Format(cpf, lib).value, Clean(cpf.value);
      |c| == 11 &&
      f == c[..3] + "." + c[3..6] + "." + c[6..9] + "-" + c[9..] &&
      |f| == 14 && f[3] == '.' && f[7] == '.' && f[11] == '-' &&
      Clean(f) == c
  {
  }

  /**
   * When the library looks only at digits, punctuated and bare forms of
   * the same number are validated and formatted alike.
   */
  lemma FormatDependsOnlyOnDigits(a: string, b: string, lib: Library)
    requires DependsOnlyOnDigits(lib)
    requires a != "" && b != "" && Clean(a) == Clean(b)
    ensures Validate(Some(a), lib).valid == Validate(Some(b), lib).valid
    ensures Format(Some(a), lib) == Format(Some(b), lib)
  {
    assert Accepts(lib, a) <==> Accepts(lib, Clean(a));
    assert Accepts(lib, b) <==> Accepts(lib, Clean(b));
  }

  /** When the library looks only at digits, formatting is idempotent. */
  lemma FormatIdempotent(cpf: Option<string>, lib: Library)
    requires DependsOnlyOnDigits(lib)
    requires Format(cpf, lib).Some?
    ensures Format(Format(cpf, lib), lib) == Format(cpf, lib)
  {
    var f := Format(cpf, lib).value;
    assert Clean(f) == Clean(cpf.value);
    FormatDependsOnlyOnDigits(f, cpf.value, lib);
  }
}
