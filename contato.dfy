/** The Contato value object (GerenciamentoDeVendas/Domain/ValueObjects/Contato.cs):
    at least one of a landline, a mobile number and an e-mail address, each
    cleaned and checked when given. */
module ContatoValue {

  import opened Common
  import opened Text

  /** `Telefone`, `Celular` and `Email`; null when not given. */
  datatype Contato = Contato(telefone: Option<string>, celular: Option<string>, email: Option<string>)

  /** `ValidarTelefone`: ten digits (area code and eight digits). */
  predicate ValidarTelefone(telefone: string)
  {
    |telefone| == 10 && AllDigits(telefone)
  }

  /** `ValidarCelular`: eleven digits whose third is the mobile prefix 9. */
  predicate ValidarCelular(celular: string)
  {
    |celular| == 11 && AllDigits(celular) && celular[2] == '9'
  }

  // The character classes of the pattern ^[a-zA-Z0-9._%+-]+@[a-zA-Z0-9.-]+\.[a-zA-Z]{2,}$

  predicate IsLocalChar(c: char)
  {
    IsLetter(c) || IsDigit(c) || c == '.' || c == '_' || c == '%' || c == '+' || c == '-'
  }

  predicate IsDomainChar(c: char)
  {
    IsLetter(c) || IsDigit(c) || c == '.' || c == '-'
  }

  predicate LocalChars(s: string) { forall i :: 0 <= i < |s| ==> IsLocalChar(s[i]) }

  predicate DomainChars(s: string) { forall i :: 0 <= i < |s| ==> IsDomainChar(s[i]) }

  predicate Letters(s: string) { forall i :: 0 <= i < |s| ==> IsLetter(s[i]) }

  /** `s` matches the pattern with its '@' at `at` and the '.' before the
      top-level domain at `dot`. */
  predicate EmailSplit(s: string, at: int, dot: int)
  {
    && 0 < at && at + 1 < dot && dot + 3 <= |s|
    && s[at] == '@' && s[dot] == '.'
    && LocalChars(s[..at]) && DomainChars(s[at + 1..dot]) && Letters(s[dot + 1..])
  }

  /** The language of the e-mail pattern: some way of reading `s` as local part,
      '@', domain, '.', and a top-level domain of at least two letters. */
  ghost predicate MatchesEmailPattern(s: string)
  {
    exists at, dot :: EmailSplit(s, at, dot)
  }

  /** The index of the first `c` in `s`. */
  function IndexOf(s: string, c: char): (r: Option<nat>)
    ensures r.Some? ==> r.value < |s| && s[r.value] == c && forall i :: 0 <= i < r.value ==> s[i] != c
    ensures r.None? ==> forall i :: 0 <= i < |s| ==> s[i] != c
  {
    if s == [] then None
    else if s[0] == c then Some(0)
    else match IndexOf(s[1..], c)
      case None => None
      case Some(k) => Some(k + 1)
  }

  /** The index of the last `c` in `s`. */
  function LastIndexOf(s: string, c: char): (r: Option<nat>)
    ensures r.Some? ==> r.value < |s| && s[r.value] == c && forall i :: r.value < i < |s| ==> s[i] != c
    ensures r.None? ==> forall i :: 0 <= i < |s| ==> s[i] != c
  {
    if s == [] then None
    else if s[|s| - 1] == c then Some(|s| - 1)
    else LastIndexOf(s[..|s| - 1], c)
  }

  /** A decision procedure for the pattern: neither class of the local part
      and domain holds '@', so the '@' is the first one; the top-level domain
      holds no '.', so its '.' is the last one. */
  predicate EmailShape(s: string)
  {
    match (IndexOf(s, '@'), LastIndexOf(s, '.'))
    case (Some(at), Some(dot)) => EmailSplit(s, at, dot)
    case _ => false
  }

  /** The decision procedure accepts exactly the strings of the pattern. */
  lemma EmailShapeIsPattern(s: string)
    ensures EmailShape(s) <==> MatchesEmailPattern(s)
  {
    if MatchesEmailPattern(s) {
      var at, dot :| EmailSplit(s, at, dot);
      forall i | 0 <= i < at
        ensures s[i] != '@'
      {
        assert s[..at][i] == s[i];
      }
      forall i | dot < i < |s|
        ensures s[i] != '.'
      {
        assert s[dot + 1..][i - dot - 1] == s[i];
      }
      assert IndexOf(s, '@') == Some(at);
      assert LastIndexOf(s, '.') == Some(dot);
    }
  }

  /** `ValidarEmail`: not blank and matching the pattern. */
  predicate ValidarEmail(email: string)
  {
    !IsBlank(email) && EmailShape(email)
  }

  /** The pattern alone already excludes blank strings. */
  lemma PatternIsNotBlank(s: string)
    requires EmailShape(s)
    ensures ValidarEmail(s)
  {
    var at :| at == IndexOf(s, '@').value;
    assert !IsWhiteSpace(s[at]);
  }

  /** `email.Trim().ToLower()`. */
  function NormalizeEmail(email: string): string
  {
    ToLower(Trim(email))
  }

  /** A normalised address is its own normal form. */
  lemma NormalizeEmailIdempotent(email: string)
    ensures NormalizeEmail(NormalizeEmail(email)) == NormalizeEmail(email)
  {
    var t := Trim(email);
    ToLowerOfTrimmed(t);
    ToLowerIdempotent(t);
  }

  /** The landline as the constructor stores it: null when blank, otherwise
      its digits, which must be ten. */
  function CleanTelefone(telefone: Option<string>): (r: Result<Option<string>>)
    ensures IsNullOrWhiteSpace(telefone) ==> r == Ok(None)
    ensures !IsNullOrWhiteSpace(telefone) ==>
              r == (if ValidarTelefone(OnlyDigits(telefone.value)) then Ok(Some(OnlyDigits(telefone.value)))
                    else Err(ArgumentError("telefone")))
  {
    if IsNullOrWhiteSpace(telefone) then Ok(None)
    else
      var limpo := OnlyDigits(telefone.value);
      if !ValidarTelefone(limpo) then Err(ArgumentError("telefone")) else Ok(Some(limpo))
  }

  /** The mobile number as the constructor stores it. */
  function CleanCelular(celular: Option<string>): (r: Result<Option<string>>)
    ensures IsNullOrWhiteSpace(celular) ==> r == Ok(None)
    ensures !IsNullOrWhiteSpace(celular) ==>
              r == (if ValidarCelular(OnlyDigits(celular.value)) then Ok(Some(OnlyDigits(celular.value)))
                    else Err(ArgumentError("celular")))
  {
    if IsNullOrWhiteSpace(celular) then Ok(None)
    else
      var limpo := OnlyDigits(celular.value);
      if !ValidarCelular(limpo) then Err(ArgumentError("celular")) else Ok(Some(limpo))
  }

  /** The e-mail address as the constructor stores it. */
  function CleanEmail(email: Option<string>): (r: Result<Option<string>>)
    ensures IsNullOrWhiteSpace(email) ==> r == Ok(None)
    ensures !IsNullOrWhiteSpace(email) ==>
              r == (if ValidarEmail(NormalizeEmail(email.value)) then Ok(Some(NormalizeEmail(email.value)))
                    else Err(ArgumentError("email")))
  {
    if IsNullOrWhiteSpace(email) then Ok(None)
    else
      var limpo := NormalizeEmail(email.value);
      if !ValidarEmail(limpo) then Err(ArgumentError("email")) else Ok(Some(limpo))
  }

  /** What every constructed contact satisfies. */
  predicate Valid(c: Contato)
  {
    && (c.telefone.Some? || c.celular.Some? || c.email.Some?)
    && (c.telefone.Some? ==> ValidarTelefone(c.telefone.value))
    && (c.celular.Some? ==> ValidarCelular(c.celular.value))
    && (c.email.Some? ==> ValidarEmail(c.email.value) && NormalizeEmail(c.email.value) == c.email.value)
  }

  /** `new Contato(telefone, celular, email)`: refuses three blank arguments
      (the exception names no parameter), then checks the landline, the
      mobile number and the e-mail address, in that order. */
  function Create(telefone: Option<string>, celular: Option<string>, email: Option<string>): (r: Result<Contato>)
    ensures IsNullOrWhiteSpace(telefone) && IsNullOrWhiteSpace(celular) && IsNullOrWhiteSpace(email) ==>
              r == Err(ArgumentError(""))
    ensures r.Ok? <==>
              && !(IsNullOrWhiteSpace(telefone) && IsNullOrWhiteSpace(celular) && IsNullOrWhiteSpace(email))
              && CleanTelefone(telefone).Ok? && CleanCelular(celular).Ok? && CleanEmail(email).Ok?
    ensures r.Ok? ==>
              && Valid(r.value)
              && r.value == Contato(CleanTelefone(telefone).value, CleanCelular(celular).value,
                                    CleanEmail(email).value)
    ensures r.Err? && !(IsNullOrWhiteSpace(telefone) && IsNullOrWhiteSpace(celular) && IsNullOrWhiteSpace(email)) ==>
              r.error == (if CleanTelefone(telefone).Err? then CleanTelefone(telefone).error
                          else if CleanCelular(celular).Err? then CleanCelular(celular).error
                          else CleanEmail(email).error)
  {
    if IsNullOrWhiteSpace(telefone) && IsNullOrWhiteSpace(celular) && IsNullOrWhiteSpace(email) then
      Err(ArgumentError(""))
    else
      var tel :- CleanTelefone(telefone);
      var cel :- CleanCelular(celular);
      var mail :- CleanEmail(email);
      if mail.Some? then
        NormalizeEmailIdempotent(email.value);
        Ok(Contato(tel, cel, mail))
      else
        Ok(Contato(tel, cel, mail))
  }

  lemma CleanTelefoneOfDigits(t: string)
    requires ValidarTelefone(t)
    ensures !IsNullOrWhiteSpace(Some(t)) && CleanTelefone(Some(t)) == Ok(Some(t))
  {
    OnlyDigitsOfDigits(t);
    assert !IsWhiteSpace(t[0]);
  }

  lemma CleanCelularOfDigits(t: string)
    requires ValidarCelular(t)
    ensures !IsNullOrWhiteSpace(Some(t)) && CleanCelular(Some(t)) == Ok(Some(t))
  {
    OnlyDigitsOfDigits(t);
    assert !IsWhiteSpace(t[0]);
  }

  lemma CleanEmailOfNormal(e: string)
    requires ValidarEmail(e) && NormalizeEmail(e) == e
    ensures !IsNullOrWhiteSpace(Some(e)) && CleanEmail(Some(e)) == Ok(Some(e))
  {
  }

  /** A contact passed back through the constructor comes out unchanged. */
  lemma CreateOfValid(c: Contato)
    requires Valid(c)
    ensures Create(c.telefone, c.celular, c.email) == Ok(c)
  {
    if c.telefone.Some? {
      CleanTelefoneOfDigits(c.telefone.value);
    }
    if c.celular.Some? {
      CleanCelularOfDigits(c.celular.value);
    }
    if c.email.Some? {
      CleanEmailOfNormal(c.email.value);
    }
  }

  /** The `(DD) DDDD-DDDD` mask of a ten-digit landline. .NET's `$` also
      matches before a final line feed, so ten digits followed by '\n' are
      masked too and keep the '\n'; any other string is returned as it is. */
  function FormataTelefone(t: string): (r: string)
    ensures ValidarTelefone(t) ==> |r| == 14 && r[0] == '(' && r[3] == ')' && r[4] == ' ' && r[9] == '-' &&
                                   OnlyDigits(r) == t
    ensures DigitsThenLineFeed(t, 10) ==>
              |r| == 15 && r[0] == '(' && r[3] == ')' && r[4] == ' ' && r[9] == '-' && r[14] == '\n' &&
              OnlyDigits(r) == t[..10]
    ensures !ValidarTelefone(t) && !DigitsThenLineFeed(t, 10) ==> r == t
  {
    if ValidarTelefone(t) then PhoneMask(t, 4)
    else if DigitsThenLineFeed(t, 10) then
      OnlyDigitsLineFeed(PhoneMask(t[..10], 4));
      PhoneMask(t[..10], 4) + "\n"
    else t
  }

  /** The `(DD) DDDDD-DDDD` mask of an eleven-digit mobile number, with the
      same final line feed case. */
  function FormataCelular(t: string): (r: string)
    ensures |t| == 11 && AllDigits(t) ==>
              |r| == 15 && r[0] == '(' && r[3] == ')' && r[4] == ' ' && r[10] == '-' && OnlyDigits(r) == t
    ensures DigitsThenLineFeed(t, 11) ==>
              |r| == 16 && r[0] == '(' && r[3] == ')' && r[4] == ' ' && r[10] == '-' && r[15] == '\n' &&
              OnlyDigits(r) == t[..11]
    ensures !(|t| == 11 && AllDigits(t)) && !DigitsThenLineFeed(t, 11) ==> r == t
  {
    if |t| == 11 && AllDigits(t) then PhoneMask(t, 5)
    else if DigitsThenLineFeed(t, 11) then
      OnlyDigitsLineFeed(PhoneMask(t[..11], 5));
      PhoneMask(t[..11], 5) + "\n"
    else t
  }

  /** The replacement `($1) $2-$3`, the middle group `n` digits long. */
  function PhoneMask(t: string, n: nat): (r: string)
    requires AllDigits(t) && |t| == 6 + n
    ensures |r| == |t| + 4 && r[0] == '(' && r[3] == ')' && r[4] == ' ' && r[5 + n] == '-' && OnlyDigits(r) == t
  {
    MaskDigits(t, n);
    "(" + t[..2] + ") " + t[2..2 + n] + "-" + t[2 + n..]
  }

  /** Removing the mask `(AA) B-C` with |B| = n gives back the digits. */
  lemma MaskDigits(t: string, n: nat)
    requires AllDigits(t) && 2 + n <= |t|
    ensures OnlyDigits("(" + t[..2] + ") " + t[2..2 + n] + "-" + t[2 + n..]) == t
  {
    var a := t[..2];
    var b := t[2..2 + n];
    var c := t[2 + n..];
    MaskHead(a);
    MaskTail(b, c);
    assert "(" + a + ") " + b + "-" + c == ("(" + a + ") ") + (b + "-" + c);
    OnlyDigitsAppend("(" + a + ") ", b + "-" + c);
    assert a + (b + c) == t;
  }

  lemma MaskHead(a: string)
    requires AllDigits(a)
    ensures OnlyDigits("(" + a + ") ") == a
  {
    OnlyDigitsAppend("(", a);
    OnlyDigitsAppend("(" + a, ") ");
    OnlyDigitsOfDigits(a);
    assert OnlyDigits("(") == [];
    assert OnlyDigits(") ") == [];
  }

  lemma MaskTail(b: string, c: string)
    requires AllDigits(b) && AllDigits(c)
    ensures OnlyDigits(b + "-" + c) == b + c
  {
    OnlyDigitsAppend(b, "-");
    assert OnlyDigits("-") == [];
    OnlyDigitsOfDigits(b);
    assert OnlyDigits(b + "-") == b;
    OnlyDigitsAppend(b + "-", c);
    OnlyDigitsOfDigits(c);
  }

  /** `GetTelefoneFormatado`: empty when there is no landline. */
  function GetTelefoneFormatado(c: Contato): (r: string)
    ensures IsNullOrWhiteSpace(c.telefone) ==> r == ""
    ensures Valid(c) && c.telefone.Some? ==> |r| == 14 && OnlyDigits(r) == c.telefone.value
  {
    assert Valid(c) && c.telefone.Some? ==> !IsWhiteSpace(c.telefone.value[0]);
    if IsNullOrWhiteSpace(c.telefone) then "" else FormataTelefone(c.telefone.value)
  }

  /** `GetCelularFormatado`: empty when there is no mobile number. */
  function GetCelularFormatado(c: Contato): (r: string)
    ensures IsNullOrWhiteSpace(c.celular) ==> r == ""
    ensures Valid(c) && c.celular.Some? ==> |r| == 15 && OnlyDigits(r) == c.celular.value
  {
    if IsNullOrWhiteSpace(c.celular) then "" else FormataCelular(c.celular.value)
  }

  lemma CleanTelefoneOfFormatted(t: string)
    requires ValidarTelefone(t)
    ensures !IsNullOrWhiteSpace(Some(FormataTelefone(t))) && CleanTelefone(Some(FormataTelefone(t))) == Ok(Some(t))
  {
    assert !IsWhiteSpace(FormataTelefone(t)[0]);
  }

  lemma CleanCelularOfFormatted(t: string)
    requires ValidarCelular(t)
    ensures !IsNullOrWhiteSpace(Some(FormataCelular(t))) && CleanCelular(Some(FormataCelular(t))) == Ok(Some(t))
  {
    assert !IsWhiteSpace(FormataCelular(t)[0]);
  }

  /** The formatted numbers read back into the same contact. */
  lemma FormattedRoundTrip(c: Contato)
    requires Valid(c)
    ensures var t := if c.telefone.Some? then Some(GetTelefoneFormatado(c)) else None;
            var m := if c.celular.Some? then Some(GetCelularFormatado(c)) else None;
            Create(t, m, c.email) == Ok(c)
  {
    if c.telefone.Some? {
      CleanTelefoneOfDigits(c.telefone.value);
      CleanTelefoneOfFormatted(c.telefone.value);
    }
    if c.celular.Some? {
      CleanCelularOfDigits(c.celular.value);
      CleanCelularOfFormatted(c.celular.value);
    }
    if c.email.Some? {
      CleanEmailOfNormal(c.email.value);
    }
  }

  /** The parts `ToString` joins with " | ". */
  function Partes(c: Contato): seq<string>
  {
    (if !IsNullOrWhiteSpace(c.telefone) then ["Tel: " + GetTelefoneFormatado(c)] else []) +
    (if !IsNullOrWhiteSpace(c.celular) then ["Cel: " + GetCelularFormatado(c)] else []) +
    (if !IsNullOrWhiteSpace(c.email) then ["Email: " + c.email.value] else [])
  }

  /** `ToString()`. */
  function ToString(c: Contato): string
  {
    Join(Partes(c), " | ")
  }

  /** A constructed contact never prints as the empty string, and prints one
      part per means of contact it holds. */
  lemma ToStringShape(c: Contato)
    requires Valid(c)
    ensures |Partes(c)| == (if c.telefone.Some? then 1 else 0) + (if c.celular.Some? then 1 else 0) +
                           (if c.email.Some? then 1 else 0)
    ensures |Partes(c)| >= 1 && ToString(c) != ""
  {
    if c.telefone.Some? {
      assert !IsWhiteSpace(c.telefone.value[0]);
    }
    if c.celular.Some? {
      assert !IsWhiteSpace(c.celular.value[0]);
    }
    if c.email.Some? {
      PatternIsNotBlank(c.email.value);
    }
    var p := Partes(c);
    assert p[0][0] == (if c.telefone.Some? then 'T' else if c.celular.Some? then 'C' else 'E');
    JoinStartsWithFirst(p, " | ");
  }

  lemma {:induction false} JoinStartsWithFirst(parts: seq<string>, sep: string)
    requires |parts| > 0
    ensures parts[0] <= Join(parts, sep)
  {
  }

  /** `Equals(Contato? other)`: the three fields, that is, equality of values. */
  function Equals(c: Contato, other: Option<Contato>): (r: bool)
    ensures r <==> other == Some(c)
  {
    other.Some? && c.telefone == other.value.telefone && c.celular == other.value.celular &&
    c.email == other.value.email
  }

  /** Any split that fits the pattern makes the address acceptable. */
  lemma SplitAccepted(s: string, at: int, dot: int)
    requires EmailSplit(s, at, dot)
    ensures ValidarEmail(s)
  {
    EmailShapeIsPattern(s);
    PatternIsNotBlank(s);
  }

  /** A string without '@' is refused. */
  lemma NoAtRefused(s: string)
    requires forall i :: 0 <= i < |s| ==> s[i] != '@'
    ensures !ValidarEmail(s)
  {
    EmailShapeIsPattern(s);
  }

  /** A string whose only '@' sits at `a` and whose last '.' sits at `b` is
      refused unless the local part and the domain both fit between them. */
  lemma PositionsRefused(s: string, a: int, b: int)
    requires forall i :: 0 <= i < |s| && s[i] == '@' ==> i == a
    requires 0 <= b < |s| && s[b] == '.' && forall i :: b < i < |s| ==> s[i] != '.'
    requires !(0 < a && a + 1 < b && b + 3 <= |s|)
    ensures !ValidarEmail(s)
  {
    EmailShapeIsPattern(s);
  }

  /** An address assembled from a local part, a domain and a top-level domain
      in the pattern's classes splits at its joints. */
  lemma SplitOfParts(l: string, d: string, t: string)
    requires |l| > 0 && LocalChars(l) && |d| > 0 && DomainChars(d) && |t| >= 2 && Letters(t)
    ensures EmailSplit(l + "@" + d + "." + t, |l|, |l| + 1 + |d|)
  {
    var s := l + "@" + d + "." + t;
    assert s[..|l|] == l;
    assert s[|l| + 1..|l| + 1 + |d|] == d;
    assert s[|l| + 1 + |d| + 1..] == t;
  }

  lemma ExampleSplitPlain()
    ensures EmailSplit("teste@email.com", 5, 11)
  {
    SplitOfParts("teste", "email", "com");
    assert "teste" + "@" + "email" + "." + "com" == "teste@email.com";
  }

  lemma ExampleSplitSubdomain()
    ensures EmailSplit("usuario.nome@empresa.com.br", 12, 24)
  {
    SplitOfParts("usuario.nome", "empresa.com", "br");
    assert "usuario.nome" + "@" + "empresa.com" + "." + "br" == "usuario.nome@empresa.com.br";
  }

  lemma ExampleSplitTag()
    ensures EmailSplit("nome+tag@gmail.com", 8, 14)
  {
    SplitOfParts("nome+tag", "gmail", "com");
    assert "nome+tag" + "@" + "gmail" + "." + "com" == "nome+tag@gmail.com";
  }

  /** ContatoTest: addresses the pattern accepts. */
  lemma ExampleEmailsAccepted()
    ensures ValidarEmail("teste@email.com")
    ensures ValidarEmail("usuario.nome@empresa.com.br")
    ensures ValidarEmail("nome+tag@gmail.com")
  {
    ExampleSplitPlain();
    ExampleSplitSubdomain();
    ExampleSplitTag();
    SplitAccepted("teste@email.com", 5, 11);
    SplitAccepted("usuario.nome@empresa.com.br", 12, 24);
    SplitAccepted("nome+tag@gmail.com", 8, 14);
  }

  /** ContatoTest: no '@', an empty local part, and an empty domain are refused. */
  lemma ExampleEmailsRefused()
    ensures !ValidarEmail("emailsemarroba")
    ensures !ValidarEmail("@semdominio.com")
    ensures !ValidarEmail("email@.com")
  {
    var s := "emailsemarroba";
    assert forall i :: 0 <= i < |s| ==> s[i] != '@';
    NoAtRefused(s);
    var t := "@semdominio.com";
    assert forall i :: 0 <= i < |t| && t[i] == '@' ==> i == 0;
    assert forall i :: 11 < i < |t| ==> t[i] != '.';
    PositionsRefused(t, 0, 11);
    var u := "email@.com";
    assert forall i :: 0 <= i < |u| && u[i] == '@' ==> i == 5;
    assert forall i :: 6 < i < |u| ==> u[i] != '.';
    PositionsRefused(u, 5, 6);
  }

  /** ContatoTest: no means of contact at all is refused. */
  lemma ExampleSemContato()
    ensures Create(None, None, None) == Err(ArgumentError(""))
  {
  }

  lemma ExampleNumbersNotBlank()
    ensures !IsBlank("123456") && !IsBlank("11887654321") && !IsBlank("(11) 3222-3333")
  {
    assert !IsWhiteSpace("123456"[0]);
    assert !IsWhiteSpace("11887654321"[0]);
    assert !IsWhiteSpace("(11) 3222-3333"[0]);
  }

  /** ContatoTest: six digits are no landline. */
  lemma ExampleTelefoneInvalido()
    ensures Create(Some("123456"), None, None) == Err(ArgumentError("telefone"))
  {
    ExampleNumbersNotBlank();
    assert AllDigits("123456");
    OnlyDigitsOfDigits("123456");
  }

  /** A mobile number given alone is refused when its digits do not fit. */
  lemma CelularRefused(celular: string)
    requires !IsBlank(celular) && !ValidarCelular(OnlyDigits(celular))
    ensures Create(None, Some(celular), None) == Err(ArgumentError("celular"))
  {
  }

  lemma ExampleCelularDigits()
    ensures OnlyDigits("11887654321") == "11887654321"
    ensures !ValidarCelular("11887654321")
  {
    assert AllDigits("11887654321");
    OnlyDigitsOfDigits("11887654321");
  }

  /** ContatoTest: a mobile number whose third digit is not 9 is refused. */
  lemma ExampleCelularInvalido()
    ensures Create(None, Some("11887654321"), None) == Err(ArgumentError("celular"))
  {
    ExampleNumbersNotBlank();
    ExampleCelularDigits();
    CelularRefused("11887654321");
  }

  lemma TelefoneMaskOfParts(a: string, b: string, c: string)
    requires |a| == 2 && |b| == 4 && |c| == 4 && AllDigits(a + b + c)
    ensures FormataTelefone(a + b + c) == "(" + a + ") " + b + "-" + c
  {
    var t := a + b + c;
    assert t[..2] == a && t[2..6] == b && t[6..] == c;
  }

  lemma ExampleTelefoneMask()
    ensures FormataTelefone("1132223333") == "(11) 3222-3333"
  {
    assert "11" + "3222" + "3333" == "1132223333";
    assert AllDigits("1132223333");
    TelefoneMaskOfParts("11", "3222", "3333");
    assert "(" + "11" + ") " + "3222" + "-" + "3333" == "(11) 3222-3333";
  }

  /** A landline given alone is kept as its digits when they fit. */
  lemma TelefoneAccepted(telefone: string)
    requires !IsBlank(telefone) && ValidarTelefone(OnlyDigits(telefone))
    ensures Create(Some(telefone), None, None) == Ok(Contato(Some(OnlyDigits(telefone)), None, None))
  {
  }

  lemma ExampleTelefoneDigits()
    ensures ValidarTelefone("1132223333")
    ensures OnlyDigits("(11) 3222-3333") == "1132223333"
  {
    assert ValidarTelefone("1132223333");
    ExampleTelefoneMask();
  }

  /** ContatoTest: the masked landline "(11) 3222-3333" is stored as its digits. */
  lemma ExampleTelefoneComMascara()
    ensures Create(Some("(11) 3222-3333"), None, None) == Ok(Contato(Some("1132223333"), None, None))
  {
    ExampleNumbersNotBlank();
    ExampleTelefoneDigits();
    TelefoneAccepted("(11) 3222-3333");
  }

  lemma ExampleTrimmed()
    ensures Trim("TESTE@EMAIL.COM") == "TESTE@EMAIL.COM"
  {
    var s := "TESTE@EMAIL.COM";
    assert !IsWhiteSpace(s[0]) && !IsWhiteSpace(s[|s| - 1]);
    TrimOfTrimmed(s);
  }

  lemma ExampleLowered()
    ensures ToLower("TESTE@EMAIL.COM") == "teste@email.com"
  {
    var s := "TESTE@EMAIL.COM";
    var l := ToLower(s);
    assert |l| == 15;
    assert forall i :: 0 <= i < 15 ==> l[i] == LowerChar(s[i]);
  }

  lemma ExampleLowerCase()
    ensures NormalizeEmail("TESTE@EMAIL.COM") == "teste@email.com"
  {
    ExampleTrimmed();
    ExampleLowered();
  }

  /** An address given alone is judged and stored by its normal form only. */
  lemma EmailByNormalForm(a: string, b: string)
    requires !IsBlank(a) && !IsBlank(b) && NormalizeEmail(a) == NormalizeEmail(b)
    ensures Create(None, None, Some(a)) == Create(None, None, Some(b))
  {
  }

  lemma ExampleLowerIsNormal()
    ensures NormalizeEmail("teste@email.com") == "teste@email.com"
  {
    var s := "teste@email.com";
    assert !IsWhiteSpace(s[0]) && !IsWhiteSpace(s[|s| - 1]);
    TrimOfTrimmed(s);
    ExampleLowered();
    ToLowerIdempotent("TESTE@EMAIL.COM");
  }

  /** ContatoTest: an upper-case address is stored in lower case, so both
      spellings give equal contacts. */
  lemma ExampleEmailMaiusculo()
    ensures Create(None, None, Some("TESTE@EMAIL.COM")) == Create(None, None, Some("teste@email.com"))
  {
    ExampleLowerCase();
    ExampleLowerIsNormal();
    assert !IsWhiteSpace("TESTE@EMAIL.COM"[0]);
    assert !IsWhiteSpace("teste@email.com"[0]);
    EmailByNormalForm("TESTE@EMAIL.COM", "teste@email.com");
  }
}
