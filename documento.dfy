/** The Documento value object (GerenciamentoDeVendas/Domain/ValueObjects/Documento.cs):
    a CPF or a CNPJ, chosen by the number of digits of the input. */
module DocumentoValue {

  import opened Common
  import opened Text
  import CpfValue
  import CnpjValue

  datatype TipoDocumento = CPF | CNPJ

  /** `Tipo`, `Numero` (the digits) and the private `_cpf` / `_cnpj` it was built from. */
  datatype Documento = Documento(
    tipo: TipoDocumento,
    numero: string,
    cpf: Option<CpfValue.Cpf>,
    cnpj: Option<CnpjValue.Cnpj>)

  /** What every constructed document satisfies: exactly the value object of its
      kind is kept, and `Numero` is that value's digits. */
  predicate Valid(d: Documento)
  {
    match d.tipo
    case CPF =>
      d.cpf == Some(CpfValue.Cpf(d.numero)) && CpfValue.Valid(d.cpf.value) && d.cnpj.None?
    case CNPJ =>
      d.cnpj == Some(CnpjValue.Cnpj(d.numero)) && CnpjValue.Valid(d.cnpj.value) && d.cpf.None?
  }

  /** `new Documento(numero)` (and `FromCPF` / `FromCNPJ`, which call it): eleven
      digits make a CPF, fourteen a CNPJ, any other count is refused. */
  function Create(numero: string): (r: Result<Documento>)
    ensures var cleaned := OnlyDigits(numero);
            && (r.Ok? <==>
                  (|cleaned| == 11 && CpfValue.ValidDigits(cleaned)) ||
                  (|cleaned| == 14 && CnpjValue.ValidDigits(cleaned)))
            && (r.Ok? ==> Valid(r.value) && r.value.numero == cleaned &&
                          (r.value.tipo == CPF <==> |cleaned| == 11))
            && (r.Err? ==> r.error == ArgumentError(
                  if |cleaned| == 11 then "cpf" else if |cleaned| == 14 then "cnpj" else "numero"))
  {
    var cleaned := OnlyDigits(numero);
    if |cleaned| == 11 then
      var c :- CpfValue.Create(numero);
      Ok(Documento(CPF, c.value, Some(c), None))
    else if |cleaned| == 14 then
      var c :- CnpjValue.Create(numero);
      Ok(Documento(CNPJ, c.value, None, Some(c)))
    else
      Err(ArgumentError("numero"))
  }

  predicate IsCpf(d: Documento) { d.tipo == CPF }

  predicate IsCnpj(d: Documento) { d.tipo == CNPJ }

  /** `GetCPF()`. */
  function GetCpf(d: Documento): (r: Option<CpfValue.Cpf>)
    ensures Valid(d) ==> (r.Some? <==> d.tipo == CPF) && (r.Some? ==> r.value.value == d.numero)
  {
    d.cpf
  }

  /** `GetCNPJ()`. */
  function GetCnpj(d: Documento): (r: Option<CnpjValue.Cnpj>)
    ensures Valid(d) ==> (r.Some? <==> d.tipo == CNPJ) && (r.Some? ==> r.value.value == d.numero)
  {
    d.cnpj
  }

  /** `GetFormatado()`: the mask of the document's kind. */
  function GetFormatado(d: Documento): (r: string)
    ensures Valid(d) ==> |r| == (if d.tipo == CPF then 14 else 18) && OnlyDigits(r) == d.numero
  {
    match d.tipo
    case CPF => CpfValue.FormataCpf(d.numero)
    case CNPJ => CnpjValue.FormataCnpj(d.numero)
  }

  /** `ToString()`: the kind's name, a colon and the formatted number. */
  function ToString(d: Documento): (r: string)
    ensures d.tipo == CPF ==> r == "CPF: " + GetFormatado(d)
    ensures d.tipo == CNPJ ==> r == "CNPJ: " + GetFormatado(d)
  {
    (if d.tipo == CPF then "CPF" else "CNPJ") + ": " + GetFormatado(d)
  }

  /** Reading a printed document back: its first five characters are "CPF: "
      exactly for a CPF, a CNPJ's start with "CNPJ: ", and the digits of the
      whole text are the document's number. */
  lemma ToStringReadBack(d: Documento)
    requires Valid(d)
    ensures var r := ToString(d);
            && |r| >= 6
            && (r[..5] == "CPF: " <==> d.tipo == CPF)
            && (d.tipo == CNPJ ==> r[..6] == "CNPJ: ")
            && OnlyDigits(r) == d.numero
  {
    var prefix := if d.tipo == CPF then "CPF: " else "CNPJ: ";
    assert ToString(d) == prefix + GetFormatado(d);
    OnlyDigitsOfLabel(prefix);
    OnlyDigitsAppend(prefix, GetFormatado(d));
    if d.tipo == CNPJ {
      assert ToString(d)[..5] == "CNPJ:";
    }
  }

  /** `Equals(Documento? other)`: same kind and same digits. */
  function Equals(d: Documento, other: Option<Documento>): (r: bool)
    ensures r <==> other.Some? && other.value.tipo == d.tipo && other.value.numero == d.numero
  {
    other.Some? && d.tipo == other.value.tipo && d.numero == other.value.numero
  }

  /** On constructed documents `Equals` is equality of values: the private
      value objects are determined by the kind and the digits. */
  lemma EqualsIsEquality(d: Documento, e: Documento)
    requires Valid(d) && Valid(e)
    ensures Equals(d, Some(e)) <==> d == e
  {
  }

  /** The kind of a constructed document answers exactly one of `IsCPF`,
      `IsCNPJ`, and only the matching `GetCPF` / `GetCNPJ` is non-null. */
  lemma KindsExclusive(d: Documento)
    requires Valid(d)
    ensures IsCpf(d) != IsCnpj(d)
    ensures GetCpf(d).Some? <==> IsCpf(d)
    ensures GetCnpj(d).Some? <==> IsCnpj(d)
  {
  }

  /** Printing a document with `GetFormatado` and reading it back gives the
      same document. */
  lemma FormattedRoundTrip(d: Documento)
    requires Valid(d)
    ensures Create(GetFormatado(d)) == Ok(d)
  {
    match d.tipo
    case CPF =>
      CpfValue.FormattedRoundTrip(d.cpf.value);
    case CNPJ =>
      CnpjValue.FormattedRoundTrip(d.cnpj.value);
  }

  /** Masked and unmasked input build the same document. */
  lemma CleanedInputDecides(a: string, b: string)
    requires OnlyDigits(a) == OnlyDigits(b)
    ensures Create(a) == Create(b)
  {
    CpfValue.CleanedInputDecides(a, b);
    CnpjValue.CleanedInputDecides(a, b);
  }

  /** A valid CPF input makes a CPF document. */
  lemma CreateOfCpf(numero: string, c: CpfValue.Cpf)
    requires CpfValue.Create(numero) == Ok(c)
    ensures Create(numero) == Ok(Documento(CPF, c.value, Some(c), None))
  {
  }

  /** A valid CNPJ input makes a CNPJ document. */
  lemma CreateOfCnpj(numero: string, c: CnpjValue.Cnpj)
    requires CnpjValue.Create(numero) == Ok(c)
    ensures Create(numero) == Ok(Documento(CNPJ, c.value, None, Some(c)))
  {
  }

  /** DocumentTest: "45502905870" makes a CPF document. */
  lemma ExampleCpf()
    ensures Create("45502905870") == Ok(Documento(CPF, "45502905870", Some(CpfValue.Cpf("45502905870")), None))
  {
    CpfValue.ExampleAccepted();
    CreateOfCpf("45502905870", CpfValue.Cpf("45502905870"));
  }

  /** DocumentTest: the masked "455.029.058-70" makes the same document. */
  lemma ExampleCpfMasked()
    ensures Create("455.029.058-70") == Ok(Documento(CPF, "45502905870", Some(CpfValue.Cpf("45502905870")), None))
  {
    CpfValue.ExampleMasked();
    CreateOfCpf("455.029.058-70", CpfValue.Cpf("45502905870"));
  }

  /** DocumentTest: a CPF document prints as "CPF: " followed by "455.029.058-70". */
  lemma ExampleCpfToString()
    ensures ToString(Documento(CPF, "45502905870", Some(CpfValue.Cpf("45502905870")), None)) ==
            "CPF: " + "455.029.058-70"
  {
    CpfValue.ExampleMask();
  }

  /** DocumentTest: "11222333000181" makes a CNPJ document. */
  lemma ExampleCnpj()
    ensures Create("11222333000181") == Ok(Documento(CNPJ, "11222333000181", None, Some(CnpjValue.Cnpj("11222333000181"))))
  {
    CnpjValue.ExampleAccepted();
    CreateOfCnpj("11222333000181", CnpjValue.Cnpj("11222333000181"));
  }

  /** DocumentTest: a CNPJ document prints as "CNPJ: 11.222.333/0001-81". */
  lemma ExampleCnpjToString()
    ensures ToString(Documento(CNPJ, "11222333000181", None, Some(CnpjValue.Cnpj("11222333000181")))) == "CNPJ: 11.222.333/0001-81"
  {
    CnpjValue.ExampleFirstMask();
  }

  /** A count of digits other than 11 and 14 is refused before any check digit. */
  lemma CreateOfWrongLength(numero: string)
    requires |OnlyDigits(numero)| != 11 && |OnlyDigits(numero)| != 14
    ensures Create(numero) == Err(ArgumentError("numero"))
  {
  }

  /** Eleven digits that are no CPF are refused by the CPF. */
  lemma CreateOfBadCpf(numero: string)
    requires |OnlyDigits(numero)| == 11 && CpfValue.Create(numero).Err?
    ensures Create(numero) == Err(ArgumentError("cpf"))
  {
  }

  /** Fourteen digits that are no CNPJ are refused by the CNPJ. */
  lemma CreateOfBadCnpj(numero: string)
    requires |OnlyDigits(numero)| == 14 && CnpjValue.Create(numero).Err?
    ensures Create(numero) == Err(ArgumentError("cnpj"))
  {
  }

  /** DocumentTest: nine digits are refused. */
  lemma ExampleWrongLength()
    ensures Create("123456789") == Err(ArgumentError("numero"))
  {
    OnlyDigitsOfDigits("123456789");
    CreateOfWrongLength("123456789");
  }

  /** DocumentTest: eleven digits with a wrong check digit are refused. */
  lemma ExampleBadCpf()
    ensures Create("12345678901") == Err(ArgumentError("cpf"))
  {
    ExampleBadCpfDigits();
    CreateOfBadCpf("12345678901");
  }

  lemma ExampleBadCpfDigits()
    ensures |OnlyDigits("12345678901")| == 11
    ensures CpfValue.Create("12345678901").Err?
  {
    CpfValue.ExampleSecondDigitWrong();
    OnlyDigitsOfDigits("12345678901");
    CpfValue.ExampleWrongCheckDigit();
  }

  lemma ExampleBadCnpjDigits()
    ensures |OnlyDigits("12345678901234")| == 14
    ensures CnpjValue.Create("12345678901234").Err?
  {
    CnpjValue.ExampleWrongDigits();
    OnlyDigitsOfDigits("12345678901234");
    CnpjValue.ExampleWrongCheckDigit();
  }

  /** DocumentTest: fourteen digits with a wrong check digit are refused. */
  lemma ExampleBadCnpj()
    ensures Create("12345678901234") == Err(ArgumentError("cnpj"))
  {
    ExampleBadCnpjDigits();
    CreateOfBadCnpj("12345678901234");
  }
}
