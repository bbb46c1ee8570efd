/** The CPF value object (GerenciamentoDeVendas/Domain/ValueObjects/CPF.cs): the
    eleven-digit tax number of a person, validated with the two mod-11 check
    digits of the Receita Federal. */
module CpfValue {

  import opened Common
  import opened Text

  /** A CPF, holding its digits without the mask. */
  datatype Cpf = Cpf(value: string)

  /** Σ_{i<k} d_i·(w − i): the sum `IsValid` accumulates with the weights w, w − 1, … */
  function WeightedSum(s: string, w: int, k: nat): (sum: int)
    requires k <= |s| && k <= w && AllDigits(s)
    ensures sum >= 0
  {
    if k == 0 then 0 else WeightedSum(s, w, k - 1) + DigitValue(s[k - 1]) * (w - (k - 1))
  }

  /** The check digit of a weighted sum: `(sum * 10) % 11`, with 10 read as 0. */
  function CheckDigit(sum: int): (d: int)
    requires sum >= 0
    ensures 0 <= d <= 9
  {
    var x := (sum * 10) % 11;
    if x == 10 then 0 else x
  }

  /** The acceptance rule of `IsValid`, on an already cleaned string. */
  predicate ValidDigits(s: string)
    requires AllDigits(s)
  {
    && |s| == 11
    && !AllSame(s)
    && CheckDigit(WeightedSum(s, 10, 9)) == DigitValue(s[9])
    && CheckDigit(WeightedSum(s, 11, 10)) == DigitValue(s[10])
  }

  /** What every constructed CPF satisfies. */
  predicate Valid(c: Cpf)
  {
    AllDigits(c.value) && ValidDigits(c.value)
  }

  /** `IsValid`: the two check-digit loops. Its callers pass cleaned strings. */
  method IsValid(cpf: string) returns (ok: bool)
    requires AllDigits(cpf)
    ensures ok == ValidDigits(cpf)
  {
    if |cpf| != 11 {
      return false;
    }
    if AllSame(cpf) {
      return false;
    }

    var sum := 0;
    for i := 0 to 9
      invariant sum == WeightedSum(cpf, 10, i)
    {
      sum := sum + DigitValue(cpf[i]) * (10 - i);
    }
    var firstDigit := (sum * 10) % 11;
    if firstDigit == 10 {
      firstDigit := 0;
    }
    if firstDigit != DigitValue(cpf[9]) {
      return false;
    }

    sum := 0;
    for i := 0 to 10
      invariant sum == WeightedSum(cpf, 11, i)
    {
      sum := sum + DigitValue(cpf[i]) * (11 - i);
    }
    var secondDigit := (sum * 10) % 11;
    if secondDigit == 10 {
      secondDigit := 0;
    }
    return secondDigit == DigitValue(cpf[10]);
  }

  /** `new CPF(cpf)`: cleans the input and keeps the digits when they pass the checks. */
  function Create(cpf: string): (r: Result<Cpf>)
    ensures r.Ok? <==> ValidDigits(OnlyDigits(cpf))
    ensures r.Ok? ==> r.value.value == OnlyDigits(cpf) && Valid(r.value)
    ensures r.Err? ==> r.error == ArgumentError("cpf")
  {
    var cleaned := OnlyDigits(cpf);
    if !ValidDigits(cleaned) then Err(ArgumentError("cpf")) else Ok(Cpf(cleaned))
  }

  /** `FormataCPF`: the `DDD.DDD.DDD-DD` mask applied to an eleven-digit
      string. .NET's `$` also matches before a final line feed, so eleven
      digits followed by '\n' are masked too and keep the '\n'; any other
      string is returned as it is (the pattern does not match). */
  function FormataCpf(s: string): (r: string)
    ensures |s| == 11 && AllDigits(s) ==>
              |r| == 14 && r[3] == '.' && r[7] == '.' && r[11] == '-' && OnlyDigits(r) == s
    ensures DigitsThenLineFeed(s, 11) ==>
              |r| == 15 && r[3] == '.' && r[7] == '.' && r[11] == '-' && r[14] == '\n' && OnlyDigits(r) == s[..11]
    ensures !(|s| == 11 && AllDigits(s)) && !DigitsThenLineFeed(s, 11) ==> r == s
  {
    if |s| == 11 && AllDigits(s) then Mask(s)
    else if DigitsThenLineFeed(s, 11) then
      OnlyDigitsLineFeed(Mask(s[..11]));
      Mask(s[..11]) + "\n"
    else s
  }

  /** The replacement `$1.$2.$3-$4` of the eleven digits. */
  function Mask(s: string): (r: string)
    requires |s| == 11 && AllDigits(s)
    ensures |r| == 14 && r[3] == '.' && r[7] == '.' && r[11] == '-' && OnlyDigits(r) == s
  {
    MaskDigits(s);
    s[..3] + "." + s[3..6] + "." + s[6..9] + "-" + s[9..]
  }

  lemma MaskDigits(s: string)
    requires |s| == 11 && AllDigits(s)
    ensures OnlyDigits(s[..3] + "." + s[3..6] + "." + s[6..9] + "-" + s[9..]) == s
  {
    var a, b, c, d := s[..3], s[3..6], s[6..9], s[9..];
    OnlyDigitsOfDigits(a);
    OnlyDigitsSeparated(a, '.', b);
    OnlyDigitsSeparated(a + "." + b, '.', c);
    OnlyDigitsSeparated(a + "." + b + "." + c, '-', d);
    assert a + b + c + d == s;
  }

  /** `GetFormatted` (and `ToString`, which returns it). */
  function GetFormatted(c: Cpf): (r: string)
    ensures Valid(c) ==> |r| == 14 && OnlyDigits(r) == c.value
  {
    FormataCpf(c.value)
  }

  /** `Equals(CPF? other)`: by digits only, so it is equality of values. */
  function Equals(c: Cpf, other: Option<Cpf>): (r: bool)
    ensures r <==> other == Some(c)
  {
    other.Some? && c.value == other.value.value
  }

  /** The formatted CPF carries the mask, and constructing a CPF from it gives
      back the same CPF. */
  lemma FormattedRoundTrip(c: Cpf)
    requires Valid(c)
    ensures var f := GetFormatted(c);
            |f| == 14 && f[3] == '.' && f[7] == '.' && f[11] == '-' &&
            Create(f) == Ok(c)
  {
  }

  /** Masked and unmasked input build the same CPF. */
  lemma CleanedInputDecides(a: string, b: string)
    requires OnlyDigits(a) == OnlyDigits(b)
    ensures Create(a) == Create(b)
  {
  }

  function WeightTotal(w: int, k: nat): int
  {
    if k == 0 then 0 else WeightTotal(w, k - 1) + (w - (k - 1))
  }

  lemma {:induction false} WeightedSumOfRepdigit(s: string, w: int, k: nat)
    requires k <= |s| && k <= w && AllDigits(s) && |s| > 0 && AllSame(s)
    ensures WeightedSum(s, w, k) == DigitValue(s[0]) * WeightTotal(w, k)
  {
    if k > 0 {
      WeightedSumOfRepdigit(s, w, k - 1);
      assert s[k - 1] == s[0];
    }
  }

  /** Eleven equal digits satisfy both check-digit equations, so the
      all-equal test is the only thing that rejects them. */
  lemma RepdigitPassesChecksums(s: string)
    requires |s| == 11 && AllDigits(s) && AllSame(s)
    ensures CheckDigit(WeightedSum(s, 10, 9)) == DigitValue(s[9])
    ensures CheckDigit(WeightedSum(s, 11, 10)) == DigitValue(s[10])
    ensures !ValidDigits(s) && Create(s).Err?
  {
    WeightedSumOfRepdigit(s, 10, 9);
    WeightedSumOfRepdigit(s, 11, 10);
    assert WeightTotal(10, 9) == 54;
    assert WeightTotal(11, 10) == 65;
    assert s[9] == s[0] && s[10] == s[0];
    RepdigitResidues(DigitValue(s[0]));
    OnlyDigitsOfDigits(s);
  }

  /** For a digit d, 540 * d and 650 * d leave d modulo 11. */
  lemma RepdigitResidues(d: int)
    requires 0 <= d <= 9
    ensures (540 * d) % 11 == d && (650 * d) % 11 == d
  {
    assert d == 0 || d == 1 || d == 2 || d == 3 || d == 4 || d == 5 || d == 6 || d == 7 || d == 8 || d == 9;
  }

  /** A string of digits that passes the checks is its own CPF. */
  lemma CreateOfDigits(s: string)
    requires AllDigits(s) && ValidDigits(s)
    ensures Create(s) == Ok(Cpf(s))
  {
    OnlyDigitsOfDigits(s);
  }

  lemma ExampleFirstSum()
    ensures AllDigits("45502905870") && WeightedSum("45502905870", 10, 9) == 213
  {
  }

  lemma ExampleSecondSum()
    ensures AllDigits("45502905870") && WeightedSum("45502905870", 11, 10) == 265
  {
  }

  lemma ExampleDigitsValid()
    ensures ValidDigits("45502905870")
  {
    var s := "45502905870";
    assert s[1] != s[0];
    ExampleFirstSum();
    ExampleSecondSum();
    assert CheckDigit(213) == 7;
    assert CheckDigit(265) == 0;
  }

  /** CPFTest: "45502905870" is accepted as it is. */
  lemma ExampleAccepted()
    ensures Create("45502905870") == Ok(Cpf("45502905870"))
  {
    ExampleDigitsValid();
    CreateOfDigits("45502905870");
  }

  /** The mask of "45502905870" is "455.029.058-70", and cleaning undoes it. */
  lemma ExampleMask()
    ensures FormataCpf("45502905870") == "455.029.058-70"
    ensures OnlyDigits("455.029.058-70") == "45502905870"
  {
    var s := "45502905870";
    MaskDigits(s);
    assert s[..3] == "455" && s[3..6] == "029" && s[6..9] == "058" && s[9..] == "70";
    assert s[..3] + "." + s[3..6] + "." + s[6..9] + "-" + s[9..] == "455.029.058-70";
  }

  /** A final line feed does not stop the mask. */
  lemma ExampleMaskLineFeed()
    ensures FormataCpf("45502905870" + "\n") == "455.029.058-70" + "\n"
  {
    ExampleMask();
    MaskLineFeed("45502905870");
  }

  /** Eleven digits and a final line feed format as the mask followed by the line feed. */
  lemma MaskLineFeed(d: string)
    requires |d| == 11 && AllDigits(d)
    ensures FormataCpf(d + "\n") == FormataCpf(d) + "\n"
  {
    assert (d + "\n")[..11] == d;
    assert DigitsThenLineFeed(d + "\n", 11);
  }

  /** Any input whose digits pass the checks builds the CPF of those digits. */
  lemma CreateOfMasked(a: string, s: string)
    requires OnlyDigits(a) == s && ValidDigits(s)
    ensures Create(a) == Ok(Cpf(s))
  {
  }

  /** CPFTest: the masked form gives the same CPF. */
  lemma ExampleMasked()
    ensures Create("455.029.058-70") == Ok(Cpf("45502905870"))
  {
    ExampleMask();
    ExampleDigitsValid();
    CreateOfMasked("455.029.058-70", "45502905870");
  }

  lemma ExampleWrongSecondSum()
    ensures AllDigits("12345678901") && WeightedSum("12345678901", 11, 10) == 255
  {
  }

  lemma ExampleSecondDigitWrong()
    ensures AllDigits("12345678901") && !ValidDigits("12345678901")
  {
    ExampleWrongSecondSum();
    assert CheckDigit(255) == 9;
    assert DigitValue("12345678901"[10]) == 1;
  }

  /** A string of digits that fails the checks builds no CPF. */
  lemma CreateOfBadDigits(s: string)
    requires AllDigits(s) && !ValidDigits(s)
    ensures Create(s).Err?
  {
    OnlyDigitsOfDigits(s);
  }

  /** CPFTest: "12345678901" fails its second check digit. */
  lemma ExampleWrongCheckDigit()
    ensures Create("12345678901").Err?
  {
    ExampleSecondDigitWrong();
    CreateOfBadDigits("12345678901");
  }

  /** CPFTest: a wrong length is rejected. */
  lemma ExampleWrongLength()
    ensures Create("123456789").Err?
  {
    CreateOfBadDigits("123456789");
  }

  /** CPFTest: a repeated digit is rejected. */
  lemma ExampleRepeatedDigit()
    ensures Create("11111111111").Err?
  {
    RepdigitPassesChecksums("11111111111");
  }
}
