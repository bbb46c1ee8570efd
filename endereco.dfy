/** The Endereco value object (GerenciamentoDeVendas/Domain/ValueObjects/Endereco.cs):
    a Brazilian postal address with a cleaned CEP and a checked state code. */
module EnderecoValue {

  import opened Common
  import opened Text

  /** `CEP` (eight digits), `Logradouro`, `Numero`, `Complemento` (null when
      blank), `Bairro`, `Cidade` and `UF`, all trimmed. */
  datatype Endereco = Endereco(
    cep: string,
    logradouro: string,
    numero: string,
    complemento: Option<string>,
    bairro: string,
    cidade: string,
    uf: string)

  /** `UFsValidas`: the 27 federative units. */
  const UFsValidas: seq<string> := [
    "AC", "AL", "AP", "AM", "BA", "CE", "DF", "ES", "GO", "MA",
    "MT", "MS", "MG", "PA", "PB", "PR", "PE", "PI", "RJ", "RN",
    "RS", "RO", "RR", "SC", "SP", "SE", "TO"]

  /** Every state code is two upper-case letters. */
  lemma UFsAreUpperPairs()
    ensures forall i :: 0 <= i < |UFsValidas| ==>
              |UFsValidas[i]| == 2 && IsUpperLetter(UFsValidas[i][0]) && IsUpperLetter(UFsValidas[i][1])
  {
  }

  /** `CEPValido`: exactly eight digits. */
  predicate CepValido(cep: string)
  {
    |cep| == 8 && AllDigits(cep)
  }

  /** `UFValida`: `UFsValidas.Contains(uf)`, some position of the array holds `uf`. */
  predicate UfValida(uf: string)
  {
    exists i :: 0 <= i < |UFsValidas| && UFsValidas[i] == uf
  }

  /** `ToUpper().Trim()` of the state argument. */
  function NormalizeUf(uf: string): string
  {
    Trim(ToUpper(uf))
  }

  /** `string.IsNullOrWhiteSpace(complemento) ? null : complemento.Trim()`. */
  function NormalizeComplemento(complemento: Option<string>): (r: Option<string>)
    ensures r.None? <==> IsNullOrWhiteSpace(complemento)
    ensures r.Some? ==> r.value == Trim(complemento.value) && r.value != [] && Trim(r.value) == r.value
  {
    if IsNullOrWhiteSpace(complemento) then None
    else
      TrimIdempotent(complemento.value);
      Some(Trim(complemento.value))
  }

  /** A field as the constructor stores it: not blank and already trimmed. */
  predicate Filled(s: string)
  {
    !IsBlank(s) && Trim(s) == s
  }

  /** What every constructed address satisfies. */
  predicate Valid(e: Endereco)
  {
    && (e.complemento.Some? ==> Filled(e.complemento.value))
    && CepValido(e.cep)
    && Filled(e.logradouro) && Filled(e.numero) && Filled(e.bairro) && Filled(e.cidade)
    && UfValida(e.uf)
  }

  /** `new Endereco(...)`: the checks run in the order cep, logradouro, numero,
      bairro, cidade, uf, and the first one that fails names its parameter. */
  function Create(cep: string, logradouro: string, numero: string, complemento: Option<string>,
                  bairro: string, cidade: string, uf: string): (r: Result<Endereco>)
    ensures r.Ok? <==>
              CepValido(OnlyDigits(cep)) && !IsBlank(logradouro) && !IsBlank(numero) &&
              !IsBlank(bairro) && !IsBlank(cidade) && UfValida(NormalizeUf(uf))
    ensures r.Ok? ==>
              && Valid(r.value)
              && r.value == Endereco(OnlyDigits(cep), Trim(logradouro), Trim(numero),
                                     NormalizeComplemento(complemento), Trim(bairro), Trim(cidade),
                                     NormalizeUf(uf))
    ensures !CepValido(OnlyDigits(cep)) ==> r == Err(ArgumentError("cep"))
    ensures CepValido(OnlyDigits(cep)) && IsBlank(logradouro) ==> r == Err(ArgumentError("logradouro"))
    ensures CepValido(OnlyDigits(cep)) && !IsBlank(logradouro) && IsBlank(numero) ==>
              r == Err(ArgumentError("numero"))
    ensures CepValido(OnlyDigits(cep)) && !IsBlank(logradouro) && !IsBlank(numero) && IsBlank(bairro) ==>
              r == Err(ArgumentError("bairro"))
    ensures (CepValido(OnlyDigits(cep)) && !IsBlank(logradouro) && !IsBlank(numero) && !IsBlank(bairro) &&
             IsBlank(cidade)) ==> r == Err(ArgumentError("cidade"))
    ensures (CepValido(OnlyDigits(cep)) && !IsBlank(logradouro) && !IsBlank(numero) && !IsBlank(bairro) &&
             !IsBlank(cidade) && !UfValida(NormalizeUf(uf))) ==> r == Err(ArgumentError("uf"))
  {
    var cepLimpo := OnlyDigits(cep);
    if !CepValido(cepLimpo) then Err(ArgumentError("cep"))
    else if IsBlank(logradouro) then Err(ArgumentError("logradouro"))
    else if IsBlank(numero) then Err(ArgumentError("numero"))
    else if IsBlank(bairro) then Err(ArgumentError("bairro"))
    else if IsBlank(cidade) then Err(ArgumentError("cidade"))
    else
      var ufUpper := NormalizeUf(uf);
      if !UfValida(ufUpper) then Err(ArgumentError("uf"))
      else
        TrimIdempotent(logradouro);
        TrimIdempotent(numero);
        TrimIdempotent(bairro);
        TrimIdempotent(cidade);
        Ok(Endereco(cepLimpo, Trim(logradouro), Trim(numero), NormalizeComplemento(complemento),
                    Trim(bairro), Trim(cidade), ufUpper))
  }

  /** An address passed back through the constructor comes out unchanged: the
      constructor's normalisation is idempotent. */
  lemma CreateOfValid(e: Endereco)
    requires Valid(e)
    ensures Create(e.cep, e.logradouro, e.numero, e.complemento, e.bairro, e.cidade, e.uf) == Ok(e)
  {
    OnlyDigitsOfDigits(e.cep);
    ValidUfIsNormal(e.uf);
  }

  /** A listed state code is already upper-case and trimmed. */
  lemma ValidUfIsNormal(uf: string)
    requires UfValida(uf)
    ensures NormalizeUf(uf) == uf
  {
    UFsAreUpperPairs();
    var i :| 0 <= i < |UFsValidas| && UFsValidas[i] == uf;
    UpperLettersNormal(uf);
  }

  /** `GetCEPFormatado`: the `DDDDD-DDD` mask of an eight-digit CEP. .NET's
      `$` also matches before a final line feed, so eight digits followed by
      '\n' are masked too and keep the '\n'; anything else is returned as it is. */
  function FormataCep(cep: string): (r: string)
    ensures CepValido(cep) ==> |r| == 9 && r[5] == '-' && OnlyDigits(r) == cep
    ensures DigitsThenLineFeed(cep, 8) ==> |r| == 10 && r[5] == '-' && r[9] == '\n' && OnlyDigits(r) == cep[..8]
    ensures !CepValido(cep) && !DigitsThenLineFeed(cep, 8) ==> r == cep
  {
    if CepValido(cep) then CepMask(cep)
    else if DigitsThenLineFeed(cep, 8) then
      OnlyDigitsLineFeed(CepMask(cep[..8]));
      CepMask(cep[..8]) + "\n"
    else cep
  }

  /** The replacement `$1-$2` of the eight digits. */
  function CepMask(cep: string): (r: string)
    requires CepValido(cep)
    ensures |r| == 9 && r[5] == '-' && OnlyDigits(r) == cep
  {
    OnlyDigitsOfDigits(cep[..5]);
    OnlyDigitsSeparated(cep[..5], '-', cep[5..]);
    assert cep[..5] + cep[5..] == cep;
    cep[..5] + "-" + cep[5..]
  }

  function GetCepFormatado(e: Endereco): (r: string)
    ensures CepValido(e.cep) ==> |r| == 9 && r[5] == '-' && OnlyDigits(r) == e.cep
  {
    FormataCep(e.cep)
  }

  /** `GetEnderecoCompleto` (and `ToString`, which returns it):
      "Logradouro, Numero[ - Complemento], Bairro, Cidade - UF, CEP-formatado". */
  function GetEnderecoCompleto(e: Endereco): string
  {
    var head := e.logradouro + ", " + e.numero;
    var withComplement :=
      if !IsNullOrWhiteSpace(e.complemento) then head + " - " + e.complemento.value else head;
    withComplement + ", " + e.bairro + ", " + e.cidade + " - " + e.uf + ", " + GetCepFormatado(e)
  }

  /** The complete address is "Logradouro, Numero", then " - Complemento"
      exactly when the complement has some non-blank text, then
      ", Bairro, Cidade - UF, " and the CEP; a valid CEP closes it in its
      masked form, whose digits are the stored CEP. */
  lemma EnderecoCompletoShape(e: Endereco)
    ensures var s := GetEnderecoCompleto(e);
            var head := e.logradouro + ", " + e.numero;
            var rest := ", " + e.bairro + ", " + e.cidade + " - " + e.uf + ", " + GetCepFormatado(e);
            && (IsNullOrWhiteSpace(e.complemento) ==> s == head + rest)
            && (!IsNullOrWhiteSpace(e.complemento) ==> s == head + " - " + e.complemento.value + rest)
            && (CepValido(e.cep) ==> |s| >= 9 && s[|s| - 9..] == GetCepFormatado(e) &&
                                     s[|s| - 4] == '-' && OnlyDigits(s[|s| - 9..]) == e.cep)
  {
    var head := e.logradouro + ", " + e.numero;
    var cep := GetCepFormatado(e);
    var rest0 := ", " + e.bairro + ", " + e.cidade + " - " + e.uf + ", ";
    var w := if !IsNullOrWhiteSpace(e.complemento) then head + " - " + e.complemento.value else head;
    var s := w + rest0 + cep;
    assert GetEnderecoCompleto(e) == s;
    assert head + (rest0 + cep) == head + rest0 + cep;
    if CepValido(e.cep) {
      assert s[|s| - 9..] == cep;
    }
  }

  /** `Equals(Endereco? other)`: all seven fields, that is, equality of values. */
  function Equals(e: Endereco, other: Option<Endereco>): (r: bool)
    ensures r <==> other == Some(e)
  {
    && other.Some?
    && e.cep == other.value.cep
    && e.logradouro == other.value.logradouro
    && e.numero == other.value.numero
    && e.complemento == other.value.complemento
    && e.bairro == other.value.bairro
    && e.cidade == other.value.cidade
    && e.uf == other.value.uf
  }

  lemma ExampleCepDigits()
    ensures CepValido(OnlyDigits("01310100"))
    ensures OnlyDigits("01310-100") == "01310100"
  {
    OnlyDigitsOfDigits("01310100");
    ExampleCepMaskCleans();
  }

  lemma ExampleCepMaskCleans()
    ensures OnlyDigits("01310-100") == "01310100"
  {
    ExampleCepMask();
    assert CepValido("01310100");
  }

  lemma ExampleFieldsFilled()
    ensures !IsBlank("Rua Teste") && !IsBlank("100") && !IsBlank("Centro") && !IsBlank("São Paulo")
    ensures !IsBlank("Avenida Paulista") && !IsBlank("1000") && !IsBlank("Bela Vista")
  {
    assert !IsWhiteSpace("Rua Teste"[0]);
    assert !IsWhiteSpace("100"[0]);
    assert !IsWhiteSpace("Centro"[0]);
    assert !IsWhiteSpace("São Paulo"[0]);
    assert !IsWhiteSpace("Avenida Paulista"[0]);
    assert !IsWhiteSpace("1000"[0]);
    assert !IsWhiteSpace("Bela Vista"[0]);
  }

  lemma ExampleUfs()
    ensures UfValida(NormalizeUf("SP"))
    ensures !UfValida(NormalizeUf("XX"))
  {
    ExampleUfSp();
    ExampleUfXx();
  }

  lemma ExampleUfSp()
    ensures UfValida(NormalizeUf("SP"))
  {
    UpperLettersNormal("SP");
    assert UFsValidas[24] == "SP";
  }

  lemma ExampleUfXx()
    ensures !UfValida(NormalizeUf("XX"))
  {
    UpperLettersNormal("XX");
    NoUfStartsWithX();
  }

  /** No state code starts with 'X'. */
  lemma NoUfStartsWithX()
    ensures forall i :: 0 <= i < |UFsValidas| ==> UFsValidas[i][0] != 'X'
  {
  }

  /** EnderecoTest: a CEP of three digits is refused. */
  lemma ExampleCepInvalid()
    ensures Create("123", "Rua Teste", "100", None, "Centro", "São Paulo", "SP") == Err(ArgumentError("cep"))
  {
  }

  /** EnderecoTest: an empty street is refused. */
  lemma ExampleLogradouroVazio()
    ensures Create("01310100", "", "100", None, "Centro", "São Paulo", "SP") == Err(ArgumentError("logradouro"))
  {
    ExampleCepDigits();
  }

  /** EnderecoTest: "XX" is no state code. */
  lemma ExampleUfInvalida()
    ensures Create("01310100", "Rua Teste", "100", None, "Centro", "São Paulo", "XX") == Err(ArgumentError("uf"))
  {
    ExampleCepDigits();
    ExampleFieldsFilled();
    ExampleUfs();
  }

  /** EnderecoTest: the masked CEP "01310-100" is stored as its eight digits. */
  lemma ExampleCepComMascara()
    ensures var r := Create("01310-100", "Avenida Paulista", "1000", None, "Bela Vista", "São Paulo", "SP");
            r.Ok? && r.value.cep == "01310100"
  {
    ExampleCepDigits();
    ExampleFieldsFilled();
    ExampleUfs();
  }

  lemma ExampleCepMask()
    ensures FormataCep("01310100") == "01310-100"
  {
  }

  /** EnderecoTest: the complete address with a complement. */
  lemma ExampleCompletoComComplemento()
    ensures GetEnderecoCompleto(Endereco("01310100", "Avenida Paulista", "1000", Some("Sala 101"),
                                         "Bela Vista", "São Paulo", "SP")) ==
            "Avenida Paulista" + ", " + "1000" + " - " + "Sala 101" + ", " + "Bela Vista" + ", " +
            "São Paulo" + " - " + "SP" + ", " + "01310-100"
  {
    assert !IsWhiteSpace("Sala 101"[0]);
    ExampleCepMask();
  }

  /** EnderecoTest: the complete address without a complement. */
  lemma ExampleCompletoSemComplemento()
    ensures GetEnderecoCompleto(Endereco("01310100", "Avenida Paulista", "1000", None,
                                         "Bela Vista", "São Paulo", "SP")) ==
            "Avenida Paulista" + ", " + "1000" + ", " + "Bela Vista" + ", " +
            "São Paulo" + " - " + "SP" + ", " + "01310-100"
  {
    ExampleCepMask();
  }
}
