/** The CNPJ value object (GerenciamentoDeVendas/Domain/ValueObjects/CNPJ.cs): the
    fourteen-digit tax number of a company, validated with two mod-11 check digits
    whose weights run 5,4,3,2,9,…,2 and 6,5,4,3,2,9,…,2. */
module CnpjValue {

  import opened Common
  import opened Text
  import CpfValue

  /** A CNPJ, holding its digits without the mask. */
  datatype Cnpj = Cnpj(value: string)

  /** `pos = pos == 2 ? 9 : pos - 1`: the weight of the next digit. */
  function NextPos(p: int): int
  {
    if p == 2 then 9 else p - 1
  }

  /** The weight `IsValid` gives to digit i when the first weight is `start`:
      the weights count down from `start` to 2 and wrap around to 9 (stated for
      the first two turns, more than the fourteen digits need). */
  function PosAt(start: int, i: nat): (p: int)
    requires 2 <= start <= 9 && i <= start + 14
    ensures 2 <= p <= 9
  {
    if i <= start - 2 then start - i
    else if i <= start + 6 then start + 8 - i
    else start + 16 - i
  }

  /** `PosAt` follows the update of `pos` in the loops of `IsValid`. */
  lemma PosAtStep(start: int, i: nat)
    requires 2 <= start <= 9 && i + 1 <= start + 14
    ensures PosAt(start, i + 1) == NextPos(PosAt(start, i))
  {
  }

  /** The weight tables of the Receita Federal for the two check digits. */
  const FirstWeights: seq<int> := [5, 4, 3, 2, 9, 8, 7, 6, 5, 4, 3, 2]
  const SecondWeights: seq<int> := [6, 5, 4, 3, 2, 9, 8, 7, 6, 5, 4, 3, 2]

  /** The rotating weight of `IsValid` is exactly the published weight table. */
  lemma WeightsMatchTables()
    ensures forall i :: 0 <= i < 12 ==> PosAt(5, i) == FirstWeights[i]
    ensures forall i :: 0 <= i < 13 ==> PosAt(6, i) == SecondWeights[i]
  {
    assert PosAt(5, 11) == 2;
    assert PosAt(6, 12) == 2;
  }

  /** Σ_{i<k} d_i·PosAt(start, i): the sum `IsValid` accumulates. */
  function CnpjSum(s: string, start: int, k: nat): (sum: int)
    requires k <= |s| && AllDigits(s) && 2 <= start <= 9 && k <= start + 15
    ensures sum >= 0
  {
    if k == 0 then 0
    else
      CnpjSum(s, start, k - 1) + DigitValue(s[k - 1]) * PosAt(start, k - 1)
  }

  /** `sum % 11 < 2 ? 0 : 11 - (sum % 11)`. */
  function Mod11Digit(sum: int): (d: int)
    requires sum >= 0
    ensures 0 <= d <= 9
  {
    if sum % 11 < 2 then 0 else 11 - sum % 11
  }

  /** The acceptance rule of `IsValid`, on an already cleaned string. */
  predicate ValidDigits(s: string)
    requires AllDigits(s)
  {
    && |s| == 14
    && !AllSame(s)
    && Mod11Digit(CnpjSum(s, 5, 12)) == DigitValue(s[12])
    && Mod11Digit(CnpjSum(s, 6, 13)) == DigitValue(s[13])
  }

  /** What every constructed CNPJ satisfies. */
  predicate Valid(c: Cnpj)
  {
    AllDigits(c.value) && ValidDigits(c.value)
  }

  /** `IsValid`: the two check-digit loops with their rotating weight. */
  method IsValid(cnpj: string) returns (ok: bool)
    requires AllDigits(cnpj)
    ensures ok == ValidDigits(cnpj)
  {
    if |cnpj| != 14 {
      return false;
    }
    if AllSame(cnpj) {
      return false;
    }

    var sum := 0;
    var pos := 5;
    for i := 0 to 12
      invariant pos == PosAt(5, i)
      invariant sum == CnpjSum(cnpj, 5, i)
    {
      PosAtStep(5, i);
      sum := sum + DigitValue(cnpj[i]) * pos;
      pos := if pos == 2 then 9 else pos - 1;
    }
    var digit := if sum % 11 < 2 then 0 else 11 - sum % 11;
    if digit != DigitValue(cnpj[12]) {
      return false;
    }

    sum := 0;
    pos := 6;
    for i := 0 to 13
      invariant pos == PosAt(6, i)
      invariant sum == CnpjSum(cnpj, 6, i)
    {
      PosAtStep(6, i);
      sum := sum + DigitValue(cnpj[i]) * pos;
      pos := if pos == 2 then 9 else pos - 1;
    }
    digit := if sum % 11 < 2 then 0 else 11 - sum % 11;
    return digit == DigitValue(cnpj[13]);
  }

  /** `new CNPJ(cnpj)`: cleans the input and keeps the digits when they pass the checks. */
  function Create(cnpj: string): (r: Result<Cnpj>)
    ensures r.Ok? <==> ValidDigits(OnlyDigits(cnpj))
    ensures r.Ok? ==> r.value.value == OnlyDigits(cnpj) && Valid(r.value)
    ensures r.Err? ==> r.error == ArgumentError("cnpj")
  {
    var cleaned := OnlyDigits(cnpj);
    if !ValidDigits(cleaned) then Err(ArgumentError("cnpj")) else Ok(Cnpj(cleaned))
  }

  /** The `DD.DDD.DDD/DDDD-DD` mask applied to a fourteen-digit string. As
      for the CPF, fourteen digits followed by a final '\n' are masked too and
      keep the '\n'; any other string is returned as it is (the pattern does
      not match). */
  function FormataCnpj(s: string): (r: string)
    ensures |s| == 14 && AllDigits(s) ==>
              |r| == 18 && r[2] == '.' && r[6] == '.' && r[10] == '/' && r[15] == '-' &&
              OnlyDigits(r) == s
    ensures DigitsThenLineFeed(s, 14) ==>
              |r| == 19 && r[2] == '.' && r[6] == '.' && r[10] == '/' && r[15] == '-' && r[18] == '\n' &&
              OnlyDigits(r) == s[..14]
    ensures !(|s| == 14 && AllDigits(s)) && !DigitsThenLineFeed(s, 14) ==> r == s
  {
    if |s| == 14 && AllDigits(s) then Mask(s)
    else if DigitsThenLineFeed(s, 14) then
      OnlyDigitsLineFeed(Mask(s[..14]));
      Mask(s[..14]) + "\n"
    else s
  }

  /** The replacement `$1.$2.$3/$4-$5` of the fourteen digits. */
  function Mask(s: string): (r: string)
    requires |s| == 14 && AllDigits(s)
    ensures |r| == 18 && r[2] == '.' && r[6] == '.' && r[10] == '/' && r[15] == '-' && OnlyDigits(r) == s
  {
    MaskDigits(s);
    s[..2] + "." + s[2..5] + "." + s[5..8] + "/" + s[8..12] + "-" + s[12..]
  }

  lemma MaskDigits(s: string)
    requires |s| == 14 && AllDigits(s)
    ensures OnlyDigits(s[..2] + "." + s[2..5] + "." + s[5..8] + "/" + s[8..12] + "-" + s[12..]) == s
  {
    var a, b, c, d, e := s[..2], s[2..5], s[5..8], s[8..12], s[12..];
    OnlyDigitsOfDigits(a);
    OnlyDigitsSeparated(a, '.', b);
    OnlyDigitsSeparated(a + "." + b, '.', c);
    OnlyDigitsSeparated(a + "." + b + "." + c, '/', d);
    OnlyDigitsSeparated(a + "." + b + "." + c + "/" + d, '-', e);
    assert a + b + c + d + e == s;
  }

  /** `GetFormatted` (and `ToString`, which returns it). */
  function GetFormatted(c: Cnpj): (r: string)
    ensures Valid(c) ==> |r| == 18 && OnlyDigits(r) == c.value
  {
    FormataCnpj(c.value)
  }

  /** `Equals(CNPJ other)`: by digits only, so it is equality of values. */
  function Equals(c: Cnpj, other: Option<Cnpj>): (r: bool)
    ensures r <==> other == Some(c)
  {
    other.Some? && c.value == other.value.value
  }

  /** The formatted CNPJ carries the mask, and constructing a CNPJ from it gives
      back the same CNPJ. */
  lemma FormattedRoundTrip(c: Cnpj)
    requires Valid(c)
    ensures var f := GetFormatted(c);
            |f| == 18 && f[2] == '.' && f[6] == '.' && f[10] == '/' && f[15] == '-' &&
            Create(f) == Ok(c)
  {
  }

  /** Masked and unmasked input build the same CNPJ. */
  lemma CleanedInputDecides(a: string, b: string)
    requires OnlyDigits(a) == OnlyDigits(b)
    ensures Create(a) == Create(b)
  {
  }

  /** The CPF digit rule `(sum * 10) % 11` (10 read as 0) and the CNPJ rule
      `sum % 11 < 2 ? 0 : 11 - sum % 11` compute the same digit. */
  lemma CheckDigitRulesAgree(sum: int)
    requires sum >= 0
    ensures CpfValue.CheckDigit(sum) == Mod11Digit(sum)
  {
    var q, r := sum / 11, sum % 11;
    assert sum * 10 == 11 * (10 * q) + 10 * r;
    assert (sum * 10) % 11 == (10 * r) % 11;
    assert 0 <= r < 11;
    if r == 0 {
    } else if r == 1 {
    } else {
      assert (10 * r) % 11 == 11 - r by {
        assert r == 2 || r == 3 || r == 4 || r == 5 || r == 6 || r == 7 || r == 8 || r == 9 || r == 10;
      }
    }
  }

  /** The mask of "11222333000181" is "11.222.333/0001-81". */
  lemma ExampleFirstMask()
    ensures FormataCnpj("11222333000181") == "11.222.333/0001-81"
  {
    var s := "11222333000181";
    assert AllDigits(s);
    assert s[..2] == "11" && s[2..5] == "222" && s[5..8] == "333" && s[8..12] == "0001" && s[12..] == "81";
    assert s[..2] + "." + s[2..5] + "." + s[5..8] + "/" + s[8..12] + "-" + s[12..] == "11.222.333/0001-81";
  }

  /** A string of digits that passes the checks is its own CNPJ. */
  lemma CreateOfDigits(s: string)
    requires AllDigits(s) && ValidDigits(s)
    ensures Create(s) == Ok(Cnpj(s))
  {
    OnlyDigitsOfDigits(s);
  }

  /** The two sums of `IsValid` written out with the weight tables. */
  lemma SumsExpandedFirst(s: string)
    requires AllDigits(s) && |s| >= 12
    ensures CnpjSum(s, 5, 12) ==
              5 * DigitValue(s[0]) + 4 * DigitValue(s[1]) + 3 * DigitValue(s[2]) + 2 * DigitValue(s[3]) +
              9 * DigitValue(s[4]) + 8 * DigitValue(s[5]) + 7 * DigitValue(s[6]) + 6 * DigitValue(s[7]) +
              5 * DigitValue(s[8]) + 4 * DigitValue(s[9]) + 3 * DigitValue(s[10]) + 2 * DigitValue(s[11])
  {
    assert CnpjSum(s, 5, 1) == 5 * DigitValue(s[0]);
    assert CnpjSum(s, 5, 2) == 5 * DigitValue(s[0]) + 4 * DigitValue(s[1]);
    assert CnpjSum(s, 5, 3) == 5 * DigitValue(s[0]) + 4 * DigitValue(s[1]) + 3 * DigitValue(s[2]);
    assert CnpjSum(s, 5, 4) == 5 * DigitValue(s[0]) + 4 * DigitValue(s[1]) + 3 * DigitValue(s[2]) + 2 * DigitValue(s[3]);
    assert CnpjSum(s, 5, 5) == 5 * DigitValue(s[0]) + 4 * DigitValue(s[1]) + 3 * DigitValue(s[2]) + 2 * DigitValue(s[3]) + 9 * DigitValue(s[4]);
    assert CnpjSum(s, 5, 6) == 5 * DigitValue(s[0]) + 4 * DigitValue(s[1]) + 3 * DigitValue(s[2]) + 2 * DigitValue(s[3]) + 9 * DigitValue(s[4]) + 8 * DigitValue(s[5]);
    assert CnpjSum(s, 5, 7) == 5 * DigitValue(s[0]) + 4 * DigitValue(s[1]) + 3 * DigitValue(s[2]) + 2 * DigitValue(s[3]) + 9 * DigitValue(s[4]) + 8 * DigitValue(s[5]) + 7 * DigitValue(s[6]);
    assert CnpjSum(s, 5, 8) == 5 * DigitValue(s[0]) + 4 * DigitValue(s[1]) + 3 * DigitValue(s[2]) + 2 * DigitValue(s[3]) + 9 * DigitValue(s[4]) + 8 * DigitValue(s[5]) + 7 * DigitValue(s[6]) + 6 * DigitValue(s[7]);
    assert CnpjSum(s, 5, 9) == 5 * DigitValue(s[0]) + 4 * DigitValue(s[1]) + 3 * DigitValue(s[2]) + 2 * DigitValue(s[3]) + 9 * DigitValue(s[4]) + 8 * DigitValue(s[5]) + 7 * DigitValue(s[6]) + 6 * DigitValue(s[7]) + 5 * DigitValue(s[8]);
    assert CnpjSum(s, 5, 10) == 5 * DigitValue(s[0]) + 4 * DigitValue(s[1]) + 3 * DigitValue(s[2]) + 2 * DigitValue(s[3]) + 9 * DigitValue(s[4]) + 8 * DigitValue(s[5]) + 7 * DigitValue(s[6]) + 6 * DigitValue(s[7]) + 5 * DigitValue(s[8]) + 4 * DigitValue(s[9]);
    assert CnpjSum(s, 5, 11) == 5 * DigitValue(s[0]) + 4 * DigitValue(s[1]) + 3 * DigitValue(s[2]) + 2 * DigitValue(s[3]) + 9 * DigitValue(s[4]) + 8 * DigitValue(s[5]) + 7 * DigitValue(s[6]) + 6 * DigitValue(s[7]) + 5 * DigitValue(s[8]) + 4 * DigitValue(s[9]) + 3 * DigitValue(s[10]);
    assert CnpjSum(s, 5, 12) == 5 * DigitValue(s[0]) + 4 * DigitValue(s[1]) + 3 * DigitValue(s[2]) + 2 * DigitValue(s[3]) + 9 * DigitValue(s[4]) + 8 * DigitValue(s[5]) + 7 * DigitValue(s[6]) + 6 * DigitValue(s[7]) + 5 * DigitValue(s[8]) + 4 * DigitValue(s[9]) + 3 * DigitValue(s[10]) + 2 * DigitValue(s[11]);
  }

  lemma SumsExpandedSecond(s: string)
    requires AllDigits(s) && |s| >= 13
    ensures CnpjSum(s, 6, 13) ==
              6 * DigitValue(s[0]) + 5 * DigitValue(s[1]) + 4 * DigitValue(s[2]) + 3 * DigitValue(s[3]) +
              2 * DigitValue(s[4]) + 9 * DigitValue(s[5]) + 8 * DigitValue(s[6]) + 7 * DigitValue(s[7]) +
              6 * DigitValue(s[8]) + 5 * DigitValue(s[9]) + 4 * DigitValue(s[10]) + 3 * DigitValue(s[11]) +
              2 * DigitValue(s[12])
  {
    assert CnpjSum(s, 6, 1) == 6 * DigitValue(s[0]);
    assert CnpjSum(s, 6, 2) == 6 * DigitValue(s[0]) + 5 * DigitValue(s[1]);
    assert CnpjSum(s, 6, 3) == 6 * DigitValue(s[0]) + 5 * DigitValue(s[1]) + 4 * DigitValue(s[2]);
    assert CnpjSum(s, 6, 4) == 6 * DigitValue(s[0]) + 5 * DigitValue(s[1]) + 4 * DigitValue(s[2]) + 3 * DigitValue(s[3]);
    assert CnpjSum(s, 6, 5) == 6 * DigitValue(s[0]) + 5 * DigitValue(s[1]) + 4 * DigitValue(s[2]) + 3 * DigitValue(s[3]) + 2 * DigitValue(s[4]);
    assert CnpjSum(s, 6, 6) == 6 * DigitValue(s[0]) + 5 * DigitValue(s[1]) + 4 * DigitValue(s[2]) + 3 * DigitValue(s[3]) + 2 * DigitValue(s[4]) + 9 * DigitValue(s[5]);
    assert CnpjSum(s, 6, 7) == 6 * DigitValue(s[0]) + 5 * DigitValue(s[1]) + 4 * DigitValue(s[2]) + 3 * DigitValue(s[3]) + 2 * DigitValue(s[4]) + 9 * DigitValue(s[5]) + 8 * DigitValue(s[6]);
    assert CnpjSum(s, 6, 8) == 6 * DigitValue(s[0]) + 5 * DigitValue(s[1]) + 4 * DigitValue(s[2]) + 3 * DigitValue(s[3]) + 2 * DigitValue(s[4]) + 9 * DigitValue(s[5]) + 8 * DigitValue(s[6]) + 7 * DigitValue(s[7]);
    assert CnpjSum(s, 6, 9) == 6 * DigitValue(s[0]) + 5 * DigitValue(s[1]) + 4 * DigitValue(s[2]) + 3 * DigitValue(s[3]) + 2 * DigitValue(s[4]) + 9 * DigitValue(s[5]) + 8 * DigitValue(s[6]) + 7 * DigitValue(s[7]) + 6 * DigitValue(s[8]);
    assert CnpjSum(s, 6, 10) == 6 * DigitValue(s[0]) + 5 * DigitValue(s[1]) + 4 * DigitValue(s[2]) + 3 * DigitValue(s[3]) + 2 * DigitValue(s[4]) + 9 * DigitValue(s[5]) + 8 * DigitValue(s[6]) + 7 * DigitValue(s[7]) + 6 * DigitValue(s[8]) + 5 * DigitValue(s[9]);
    assert CnpjSum(s, 6, 11) == 6 * DigitValue(s[0]) + 5 * DigitValue(s[1]) + 4 * DigitValue(s[2]) + 3 * DigitValue(s[3]) + 2 * DigitValue(s[4]) + 9 * DigitValue(s[5]) + 8 * DigitValue(s[6]) + 7 * DigitValue(s[7]) + 6 * DigitValue(s[8]) + 5 * DigitValue(s[9]) + 4 * DigitValue(s[10]);
    assert CnpjSum(s, 6, 12) == 6 * DigitValue(s[0]) + 5 * DigitValue(s[1]) + 4 * DigitValue(s[2]) + 3 * DigitValue(s[3]) + 2 * DigitValue(s[4]) + 9 * DigitValue(s[5]) + 8 * DigitValue(s[6]) + 7 * DigitValue(s[7]) + 6 * DigitValue(s[8]) + 5 * DigitValue(s[9]) + 4 * DigitValue(s[10]) + 3 * DigitValue(s[11]);
    assert CnpjSum(s, 6, 13) == 6 * DigitValue(s[0]) + 5 * DigitValue(s[1]) + 4 * DigitValue(s[2]) + 3 * DigitValue(s[3]) + 2 * DigitValue(s[4]) + 9 * DigitValue(s[5]) + 8 * DigitValue(s[6]) + 7 * DigitValue(s[7]) + 6 * DigitValue(s[8]) + 5 * DigitValue(s[9]) + 4 * DigitValue(s[10]) + 3 * DigitValue(s[11]) + 2 * DigitValue(s[12]);
  }

  lemma ExampleFirstSums()
    ensures CnpjSum("11222333000181", 5, 12) == 102
    ensures CnpjSum("11222333000181", 6, 13) == 120
  {
    ExampleFirstSumsFirst();
    ExampleFirstSumsSecond();
  }

  lemma ExampleFirstSumsFirst()
    ensures AllDigits("11222333000181") && CnpjSum("11222333000181", 5, 12) == 102
  {
    var s := "11222333000181";
    assert AllDigits(s);
    SumsExpandedFirst(s);
  }

  lemma ExampleFirstSumsSecond()
    ensures AllDigits("11222333000181") && CnpjSum("11222333000181", 6, 13) == 120
  {
    var s := "11222333000181";
    assert AllDigits(s);
    SumsExpandedSecond(s);
  }

  lemma ExampleSecondSums()
    ensures CnpjSum("21328384000146", 5, 12) == 205
    ensures CnpjSum("21328384000146", 6, 13) == 181
  {
    ExampleSecondSumsFirst();
    ExampleSecondSumsSecond();
  }

  lemma ExampleSecondSumsFirst()
    ensures AllDigits("21328384000146") && CnpjSum("21328384000146", 5, 12) == 205
  {
    var s := "21328384000146";
    assert AllDigits(s);
    SumsExpandedFirst(s);
  }

  lemma ExampleSecondSumsSecond()
    ensures AllDigits("21328384000146") && CnpjSum("21328384000146", 6, 13) == 181
  {
    var s := "21328384000146";
    assert AllDigits(s);
    SumsExpandedSecond(s);
  }

  lemma ExampleFirstDigitsValid()
    ensures ValidDigits("11222333000181")
  {
    var s := "11222333000181";
    assert s[2] != s[0];
    ExampleFirstSums();
    assert Mod11Digit(102) == 8;
    assert Mod11Digit(120) == 1;
  }

  lemma ExampleSecondDigitsValid()
    ensures ValidDigits("21328384000146")
  {
    var t := "21328384000146";
    assert t[1] != t[0];
    ExampleSecondSums();
    assert Mod11Digit(205) == 4;
    assert Mod11Digit(181) == 6;
  }

  /** CNPJTest: "11222333000181" is accepted as it is. */
  lemma ExampleAccepted()
    ensures Create("11222333000181") == Ok(Cnpj("11222333000181"))
  {
    ExampleFirstDigitsValid();
    CreateOfDigits("11222333000181");
  }

  /** The mask of "21328384000146" is "21.328.384/0001-46", and cleaning undoes it. */
  lemma ExampleMaskCleans()
    ensures OnlyDigits("21.328.384/0001-46") == "21328384000146"
    ensures FormataCnpj("21328384000146") == "21.328.384/0001-46"
  {
    var s := "21328384000146";
    MaskDigits(s);
    assert s[..2] == "21" && s[2..5] == "328" && s[5..8] == "384" && s[8..12] == "0001" && s[12..] == "46";
    assert s[..2] + "." + s[2..5] + "." + s[5..8] + "/" + s[8..12] + "-" + s[12..] == "21.328.384/0001-46";
  }

  /** Any input whose digits pass the checks builds the CNPJ of those digits. */
  lemma CreateOfMasked(a: string, s: string)
    requires OnlyDigits(a) == s && ValidDigits(s)
    ensures Create(a) == Ok(Cnpj(s))
  {
  }

  /** CNPJTest: the masked "21.328.384/0001-46" is accepted and keeps its digits. */
  lemma ExampleMasked()
    ensures Create("21.328.384/0001-46") == Ok(Cnpj("21328384000146"))
  {
    ExampleMaskCleans();
    ExampleSecondDigitsValid();
    CreateOfMasked("21.328.384/0001-46", "21328384000146");
  }

  lemma ExampleWrongDigits()
    ensures AllDigits("12345678901234")
  {
  }

  lemma ExampleWrongSecondSum()
    ensures CnpjSum("12345678901234", 6, 13) == 286
  {
    ExampleWrongDigits();
    SumsExpandedSecond("12345678901234");
  }

  lemma ExampleSecondDigitWrong()
    ensures AllDigits("12345678901234") && !ValidDigits("12345678901234")
  {
    ExampleWrongDigits();
    ExampleWrongSecondSum();
    assert Mod11Digit(286) == 0;
    assert DigitValue("12345678901234"[13]) == 4;
  }

  /** A string of digits that fails the checks builds no CNPJ. */
  lemma CreateOfBadDigits(s: string)
    requires AllDigits(s) && !ValidDigits(s)
    ensures Create(s).Err?
  {
    OnlyDigitsOfDigits(s);
  }

  /** "12345678901234" passes the first check digit and fails the second. */
  lemma ExampleWrongCheckDigit()
    ensures Create("12345678901234").Err?
  {
    ExampleSecondDigitWrong();
    CreateOfBadDigits("12345678901234");
  }
}
