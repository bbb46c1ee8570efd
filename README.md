# GerenciamentoDeVendas — a verified model of the sales core

GerenciamentoDeVendas is a small sales-management back end. This project models its domain layer and three of its application services in Dafny.

- **Value objects:** the Brazilian tax numbers CPF and CNPJ, the `Documento` that holds either one, the postal address `Endereco`, and the contact `Contato`.
- **Entities:** `ItemVenda` (a sale line), `Venda` (the sale), `Estoque` (a product's stock record), `Produto` and `Cliente`.
- **Services:** the sale, stock and product use cases, run over a unit of work.

How the model is organised:

- **Errors.** An operation that can throw returns a `Result`. An `ArgumentError` carries the `nameof` parameter. An `InvalidOperation` carries a `Reason` that names the failure, not its message text.
- **Value objects** are datatypes with a validating `Create` function. The check-digit loops of CPF and CNPJ are methods, proved equal to the digit rules they implement.
- **Entities** are classes with the source's fields. Each mutator is a method that changes the fields in place. Its contract says:
  - the exception it throws equals the error of a transition function on the entity's `State()` snapshot;
  - the new state is that function's result;
  - a rejected call changes nothing.

  The properties of each entity are proved about those transition functions.
- **The sale's list of lines** is a `seq` of `ItemVenda` objects. Merging a repeated product mutates the existing object in place. Adding a new product appends a fresh object.
- **The unit of work** holds one committed `Store`: customers, products and sales as maps keyed by id, and the stock table as a sequence of rows. Each service method:
  1. materialises the entities it needs from the committed store;
  2. changes them step by step through the entity methods;
  3. commits the new store once, at the end. The commit throws `DbUpdateException` when the new store breaks one of the database's unique indexes.

  A service method's contract ties its exception and its commit to a specification function on the store, passed through the commit's index check (`Saved`). A failure commits nothing.
- **An inconsistency in the code:** Documento.cs calls a `CNPJ.FormataCNPJ` that CNPJ.cs lacks. The model uses the mask of `CNPJ.GetFormatted` instead, which is what DocumentTest.cs expects (see "Left out").

## Model

| member | source | states |
|---|---|---|
| Text.OnlyDigits | GerenciamentoDeVendas/Domain/ValueObjects/CPF.cs:28-31 | Removing the non-digits leaves only digits and never lengthens the string. |
| Text.OnlyDigitsOfDigits | GerenciamentoDeVendas/Domain/ValueObjects/CPF.cs:28-31 | Cleaning a string of digits leaves it unchanged. |
| Text.OnlyDigitsAppend | GerenciamentoDeVendas/Domain/ValueObjects/CPF.cs:28-31 | Cleaning distributes over concatenation. |
| Text.OnlyDigitsIdempotent | GerenciamentoDeVendas/Domain/ValueObjects/CPF.cs:28-31 | Cleaning twice is cleaning once. |
| Text.Trim | GerenciamentoDeVendas/Domain/Entities/Produto.cs:39-40 | The result is empty exactly for blank input; otherwise it has no white space at either end. |
| Text.TrimIsCut | GerenciamentoDeVendas/Domain/Entities/Produto.cs:39-40 | The result is a slice of the input, with only white space before it and only white space after it: the input with its leading and trailing white space removed. |
| Text.TrimIdempotent | GerenciamentoDeVendas/Domain/Entities/Produto.cs:39-40 | Trimming twice is trimming once. |
| Text.TrimOfNonBlank | GerenciamentoDeVendas/Domain/Entities/Produto.cs:29-40 | Trimming a non-blank string gives a non-blank, trimmed string. |
| Text.TrimOpt | GerenciamentoDeVendas/Domain/Entities/Produto.cs:76 | Null stays null; present text is trimmed. |
| Text.ToLowerIdempotent | GerenciamentoDeVendas/Domain/ValueObjects/Contato.cs:44 | Lower-casing twice is lower-casing once. |
| Text.ToLowerOfTrimmed | GerenciamentoDeVendas/Domain/ValueObjects/Contato.cs:44 | Lower-casing keeps a trimmed string trimmed. |
| Text.UpperLettersNormal | GerenciamentoDeVendas/Domain/ValueObjects/Endereco.cs:47-49 | A string of upper-case letters is its own trimmed upper case. |
| CpfValue.IsValid | GerenciamentoDeVendas/Domain/ValueObjects/CPF.cs:33-61 | The two weighted-sum loops accept a cleaned string exactly when it has length 11, is not one repeated digit, and both check digits match (10 read as 0). |
| CpfValue.Create | GerenciamentoDeVendas/Domain/ValueObjects/CPF.cs:18-31 | Accepted exactly when the cleaned input passes the digit rules. The stored value is the cleaned input; otherwise ArgumentException("cpf"). |
| CpfValue.FormataCpf | GerenciamentoDeVendas/Domain/ValueObjects/CPF.cs:103-107 | Eleven digits get the DDD.DDD.DDD-DD mask, whose digits are the input. Eleven digits and a final '\n', which .NET's `$` also matches, get the mask followed by the '\n'. Anything else is returned unchanged. |
| CpfValue.Mask | GerenciamentoDeVendas/Domain/ValueObjects/CPF.cs:105-106 | The replacement `$1.$2.$3-$4`: 14 characters, dots at 3 and 7, '-' at 11, and the input's digits. |
| CpfValue.GetFormatted | GerenciamentoDeVendas/Domain/ValueObjects/CPF.cs:65-69 | For a valid CPF, 14 characters whose digits are the CPF; `ToString` (CPF.cs:88-91) returns the same. |
| CpfValue.Equals | GerenciamentoDeVendas/Domain/ValueObjects/CPF.cs:71-75 | Equal exactly when the other CPF is present and holds the same value. |
| CpfValue.FormattedRoundTrip | GerenciamentoDeVendas/Domain/ValueObjects/CPF.cs:65-69 | The formatted CPF carries the mask, and constructing a CPF from it gives back the same CPF. |
| CpfValue.CleanedInputDecides | GerenciamentoDeVendas/Domain/ValueObjects/CPF.cs:20-21 | Two inputs with the same digits build the same CPF or fail alike. |
| CpfValue.WeightedSumOfRepdigit | GerenciamentoDeVendas/Domain/ValueObjects/CPF.cs:40-43 | For a repeated digit, the weighted sum is the digit times the sum of the weights. |
| CpfValue.RepdigitPassesChecksums | GerenciamentoDeVendas/Domain/ValueObjects/CPF.cs:36-60 | Eleven equal digits satisfy both check-digit equations, so only the all-equal test rejects them. |
| CpfValue.CreateOfDigits | GerenciamentoDeVendas/Domain/ValueObjects/CPF.cs:18-26 | A digit string that passes the rules is its own CPF. |
| CpfValue.CreateOfMasked | GerenciamentoDeVendas/Domain/ValueObjects/CPF.cs:18-26 | Any input whose digits pass the rules builds the CPF of those digits. |
| CpfValue.CreateOfBadDigits | GerenciamentoDeVendas/Domain/ValueObjects/CPF.cs:23-24 | A digit string that fails the rules is rejected. |
| CpfValue.ExampleAccepted | GerenciamentoDeVendas/Teste.Domain/CPFTest.cs:12-21 | "45502905870" is accepted as it is. |
| CpfValue.ExampleMasked | GerenciamentoDeVendas/Teste.Domain/CPFTest.cs:23-32 | "455.029.058-70" builds the CPF "45502905870". |
| CpfValue.ExampleMask | GerenciamentoDeVendas/Teste.Domain/CPFTest.cs:55-66 | The mask of "45502905870" is "455.029.058-70", and cleaning undoes it. |
| CpfValue.ExampleMaskLineFeed | GerenciamentoDeVendas/Domain/ValueObjects/CPF.cs:103-107 | "45502905870" followed by '\n' is formatted "455.029.058-70" followed by '\n'. |
| CpfValue.MaskLineFeed | GerenciamentoDeVendas/Domain/ValueObjects/CPF.cs:103-107 | Eleven digits followed by '\n' format as the eleven digits' mask followed by '\n'. |
| CpfValue.ExampleWrongCheckDigit | GerenciamentoDeVendas/Teste.Domain/CPFTest.cs:34-39 | "12345678901" is rejected by its second check digit. |
| CpfValue.ExampleRepeatedDigit | GerenciamentoDeVendas/Teste.Domain/CPFTest.cs:41-46 | "11111111111" is rejected. |
| CpfValue.ExampleWrongLength | GerenciamentoDeVendas/Teste.Domain/CPFTest.cs:48-53 | "123456789" is rejected. |
| CnpjValue.PosAt | GerenciamentoDeVendas/Domain/ValueObjects/CNPJ.cs:35-41 | The cycling weight stays within 2..9 on every turn of both loops. |
| CnpjValue.WeightsMatchTables | GerenciamentoDeVendas/Domain/ValueObjects/CNPJ.cs:35-53 | Starting from 5 the weights are 5,4,3,2,9,…,2, and starting from 6 they are 6,5,4,3,2,9,…,2. |
| CnpjValue.Mod11Digit | GerenciamentoDeVendas/Domain/ValueObjects/CNPJ.cs:43 | A remainder below 2 gives 0, otherwise 11 minus the remainder; the digit is always 0..9. |
| CnpjValue.IsValid | GerenciamentoDeVendas/Domain/ValueObjects/CNPJ.cs:29-57 | The two loops over `sum` and `pos` accept a cleaned string exactly when it has length 14, is not one repeated digit, and both check digits match. |
| CnpjValue.Create | GerenciamentoDeVendas/Domain/ValueObjects/CNPJ.cs:14-27 | Accepted exactly when the cleaned input passes the digit rules. The stored value is the cleaned input; otherwise ArgumentException("cnpj"). |
| CnpjValue.FormataCnpj | GerenciamentoDeVendas/Domain/ValueObjects/CNPJ.cs:61-65 | Fourteen digits get the DD.DDD.DDD/DDDD-DD mask, whose digits are the input. Fourteen digits and a final '\n' get the mask followed by the '\n'. Anything else is returned unchanged. |
| CnpjValue.Mask | GerenciamentoDeVendas/Domain/ValueObjects/CNPJ.cs:63-64 | The replacement `$1.$2.$3/$4-$5`: 18 characters with the separators in place and the input's digits. |
| CnpjValue.GetFormatted | GerenciamentoDeVendas/Domain/ValueObjects/CNPJ.cs:61-65 | For a valid CNPJ, 18 characters whose digits are the CNPJ. |
| CnpjValue.Equals | GerenciamentoDeVendas/Domain/ValueObjects/CNPJ.cs:67-71 | Equal exactly when the other CNPJ is present and holds the same value. |
| CnpjValue.FormattedRoundTrip | GerenciamentoDeVendas/Domain/ValueObjects/CNPJ.cs:61-65 | The formatted CNPJ carries the mask, and constructing a CNPJ from it gives back the same CNPJ. |
| CnpjValue.CleanedInputDecides | GerenciamentoDeVendas/Domain/ValueObjects/CNPJ.cs:16-17 | Two inputs with the same digits build the same CNPJ or fail alike. |
| CnpjValue.CheckDigitRulesAgree | GerenciamentoDeVendas/Domain/ValueObjects/CNPJ.cs:43 | The CNPJ rule and the CPF rule `(10·sum) mod 11` (with 10 read as 0) give the same digit for every sum. |
| CnpjValue.CreateOfDigits | GerenciamentoDeVendas/Domain/ValueObjects/CNPJ.cs:14-22 | A digit string that passes the rules is its own CNPJ. |
| CnpjValue.CreateOfMasked | GerenciamentoDeVendas/Domain/ValueObjects/CNPJ.cs:14-22 | Any input whose digits pass the rules builds the CNPJ of those digits. |
| CnpjValue.CreateOfBadDigits | GerenciamentoDeVendas/Domain/ValueObjects/CNPJ.cs:18-19 | A digit string that fails the rules is rejected. |
| CnpjValue.ExampleAccepted | GerenciamentoDeVendas/Teste.Domain/CNPJTest.cs:16-17 | "11222333000181" is accepted as it is. |
| CnpjValue.ExampleMasked | GerenciamentoDeVendas/Teste.Domain/CNPJTest.cs:18 | "21.328.384/0001-46" builds the CNPJ "21328384000146". |
| CnpjValue.ExampleFirstMask | GerenciamentoDeVendas/Teste.Domain/DocumentTest.cs:125-136 | The mask of "11222333000181" is "11.222.333/0001-81". |
| CnpjValue.ExampleWrongCheckDigit | GerenciamentoDeVendas/Teste.Domain/DocumentTest.cs:164-169 | "12345678901234" is rejected. |
| DocumentoValue.Create | GerenciamentoDeVendas/Domain/ValueObjects/Documento.cs:31-51 | 11 cleaned digits give a CPF document and 14 give a CNPJ document, each accepted exactly when that value object accepts the input. The number is the cleaned digits. Any other length throws ArgumentException("numero"). |
| DocumentoValue.ToString | GerenciamentoDeVendas/Domain/ValueObjects/Documento.cs:86-89 | The type name, ": ", then the formatted number. |
| DocumentoValue.ToStringReadBack | GerenciamentoDeVendas/Domain/ValueObjects/Documento.cs:86-89 | The printed text starts with "CPF: " exactly for a CPF and with "CNPJ: " for a CNPJ, and its digits are the document's number. |
| DocumentoValue.GetFormatado | GerenciamentoDeVendas/Domain/ValueObjects/Documento.cs:59-68 | On a constructed document, 14 characters for a CPF and 18 for a CNPJ, whose digits are the number. |
| DocumentoValue.IsCpf | GerenciamentoDeVendas/Domain/ValueObjects/Documento.cs:53 | The type is CPF. `KindsExclusive` proves that it excludes `IsCnpj`. |
| DocumentoValue.IsCnpj | GerenciamentoDeVendas/Domain/ValueObjects/Documento.cs:54 | The type is CNPJ. |
| DocumentoValue.GetCpf | GerenciamentoDeVendas/Domain/ValueObjects/Documento.cs:56 | On a constructed document, present exactly for a CPF, and then holding the document's number. |
| DocumentoValue.GetCnpj | GerenciamentoDeVendas/Domain/ValueObjects/Documento.cs:57 | On a constructed document, present exactly for a CNPJ, and then holding the document's number. |
| DocumentoValue.Equals | GerenciamentoDeVendas/Domain/ValueObjects/Documento.cs:70-74 | Equal exactly when the other document is present and has the same type and number. |
| DocumentoValue.EqualsIsEquality | GerenciamentoDeVendas/Domain/ValueObjects/Documento.cs:70-74 | On constructed documents, `Equals` is value equality, so documents of different types are never equal. |
| DocumentoValue.KindsExclusive | GerenciamentoDeVendas/Domain/ValueObjects/Documento.cs:53-57 | `IsCPF` and `IsCNPJ` exclude each other. Exactly one of `GetCPF`/`GetCNPJ` is present, and it matches the type. |
| DocumentoValue.FormattedRoundTrip | GerenciamentoDeVendas/Domain/ValueObjects/Documento.cs:59-68 | Constructing a document from its formatted form gives back the same document. |
| DocumentoValue.CleanedInputDecides | GerenciamentoDeVendas/Domain/ValueObjects/Documento.cs:33 | Masked and unmasked inputs give equal documents. |
| DocumentoValue.CreateOfCpf | GerenciamentoDeVendas/Domain/ValueObjects/Documento.cs:35-40 | An input the CPF accepts gives the CPF document holding that CPF; this is what `FromCPF` returns. |
| DocumentoValue.CreateOfCnpj | GerenciamentoDeVendas/Domain/ValueObjects/Documento.cs:41-46 | An input the CNPJ accepts gives the CNPJ document holding that CNPJ; this is what `FromCNPJ` returns. |
| DocumentoValue.CreateOfWrongLength | GerenciamentoDeVendas/Domain/ValueObjects/Documento.cs:47-50 | A cleaned length other than 11 or 14 throws ArgumentException("numero"). |
| DocumentoValue.CreateOfBadCpf | GerenciamentoDeVendas/Domain/ValueObjects/Documento.cs:37 | With 11 digits, the CPF's rejection is the document's rejection. |
| DocumentoValue.CreateOfBadCnpj | GerenciamentoDeVendas/Domain/ValueObjects/Documento.cs:43 | With 14 digits, the CNPJ's rejection is the document's rejection. |
| DocumentoValue.ExampleCpf | GerenciamentoDeVendas/Teste.Domain/DocumentTest.cs:12-22 | "45502905870" is a CPF document. |
| DocumentoValue.ExampleCpfMasked | GerenciamentoDeVendas/Teste.Domain/DocumentTest.cs:36-45 | "455.029.058-70" is the same CPF document. |
| DocumentoValue.ExampleCnpj | GerenciamentoDeVendas/Teste.Domain/DocumentTest.cs:24-34 | "11222333000181" is a CNPJ document. |
| DocumentoValue.ExampleCpfToString | GerenciamentoDeVendas/Teste.Domain/DocumentTest.cs:138-146 | The CPF document prints as "CPF: 455.029.058-70". |
| DocumentoValue.ExampleCnpjToString | GerenciamentoDeVendas/Teste.Domain/DocumentTest.cs:138-147 | The CNPJ document prints as "CNPJ: 11.222.333/0001-81". |
| DocumentoValue.ExampleWrongLength | GerenciamentoDeVendas/Teste.Domain/DocumentTest.cs:150-155 | "123456789" is rejected for its length. |
| DocumentoValue.ExampleBadCpf | GerenciamentoDeVendas/Teste.Domain/DocumentTest.cs:157-162 | "12345678901" is rejected by the CPF. |
| DocumentoValue.ExampleBadCnpj | GerenciamentoDeVendas/Teste.Domain/DocumentTest.cs:164-169 | "12345678901234" is rejected by the CNPJ. |
| EnderecoValue.UFsAreUpperPairs | GerenciamentoDeVendas/Domain/ValueObjects/Endereco.cs:20-25 | Every listed UF is two upper-case letters. |
| EnderecoValue.NoUfStartsWithX | GerenciamentoDeVendas/Domain/ValueObjects/Endereco.cs:20-25 | No listed UF starts with 'X'. |
| EnderecoValue.NormalizeComplemento | GerenciamentoDeVendas/Domain/ValueObjects/Endereco.cs:54 | A blank or null complement becomes null; otherwise the trimmed, non-blank text is kept. |
| EnderecoValue.Create | GerenciamentoDeVendas/Domain/ValueObjects/Endereco.cs:27-58 | Accepted exactly when the CEP has 8 digits, the four named fields are non-blank and the upper-cased UF is listed. The stored fields are normalised. Each failure names its parameter, checked in source order. |
| EnderecoValue.CreateOfValid | GerenciamentoDeVendas/Domain/ValueObjects/Endereco.cs:27-58 | Constructing from the fields of a valid address gives the same address, so the normalisation is idempotent. |
| EnderecoValue.ValidUfIsNormal | GerenciamentoDeVendas/Domain/ValueObjects/Endereco.cs:47-49 | A listed UF is left as it is by `ToUpper().Trim()`. |
| EnderecoValue.FormataCep | GerenciamentoDeVendas/Domain/ValueObjects/Endereco.cs:75-78 | A valid CEP gets a '-' after its fifth digit and keeps its digits. Eight digits and a final '\n' get the mask followed by the '\n'. Anything else is returned unchanged. |
| EnderecoValue.CepMask | GerenciamentoDeVendas/Domain/ValueObjects/Endereco.cs:77 | The replacement `$1-$2`: 9 characters, '-' at 5, and the CEP's digits. |
| EnderecoValue.GetCepFormatado | GerenciamentoDeVendas/Domain/ValueObjects/Endereco.cs:75-78 | For a valid CEP, 9 characters with '-' at 5, whose digits are the CEP. |
| EnderecoValue.GetEnderecoCompleto | GerenciamentoDeVendas/Domain/ValueObjects/Endereco.cs:80-90 | The complete address; `EnderecoCompletoShape` states its layout. |
| EnderecoValue.EnderecoCompletoShape | GerenciamentoDeVendas/Domain/ValueObjects/Endereco.cs:80-90 | The text is "L, N", then " - C" exactly when the complement has non-blank text, then ", Bairro, Cidade - UF, " and the formatted CEP. A valid CEP ends it as 9 characters whose digits are the CEP. |
| EnderecoValue.Equals | GerenciamentoDeVendas/Domain/ValueObjects/Endereco.cs:92-102 | Equal exactly when all seven normalised fields agree. |
| EnderecoValue.ExampleCepComMascara | GerenciamentoDeVendas/Teste.Domain/EnderecoTest.cs:37-53 | "01310-100" is stored as "01310100". |
| EnderecoValue.ExampleCepInvalid | GerenciamentoDeVendas/Teste.Domain/EnderecoTest.cs:55-68 | CEP "123" is rejected. |
| EnderecoValue.ExampleLogradouroVazio | GerenciamentoDeVendas/Teste.Domain/EnderecoTest.cs:70-83 | An empty street is rejected. |
| EnderecoValue.ExampleUfInvalida | GerenciamentoDeVendas/Teste.Domain/EnderecoTest.cs:85-98 | UF "XX" is rejected. |
| EnderecoValue.ExampleUfs | GerenciamentoDeVendas/Teste.Domain/EnderecoTest.cs:204-217 | "SP" is a valid UF and "XX" is not. |
| EnderecoValue.ExampleUfSp | GerenciamentoDeVendas/Teste.Domain/EnderecoTest.cs:204-217 | "SP" is a valid UF. |
| EnderecoValue.ExampleUfXx | GerenciamentoDeVendas/Teste.Domain/EnderecoTest.cs:204-217 | "XX" is not a valid UF. |
| EnderecoValue.ExampleCepMask | GerenciamentoDeVendas/Teste.Domain/EnderecoTest.cs:100-119 | "01310100" is formatted "01310-100". |
| EnderecoValue.ExampleCompletoComComplemento | GerenciamentoDeVendas/Teste.Domain/EnderecoTest.cs:121-140 | The full address with a complement. |
| EnderecoValue.ExampleCompletoSemComplemento | GerenciamentoDeVendas/Teste.Domain/EnderecoTest.cs:142-161 | The full address without a complement. |
| ContatoValue.IndexOf | GerenciamentoDeVendas/Domain/ValueObjects/Contato.cs:70-73 | The first position of a character, or none when it is absent. |
| ContatoValue.LastIndexOf | GerenciamentoDeVendas/Domain/ValueObjects/Contato.cs:70-73 | The last position of a character, or none when it is absent. |
| ContatoValue.EmailShapeIsPattern | GerenciamentoDeVendas/Domain/ValueObjects/Contato.cs:70-73 | The executable e-mail test matches `[a-zA-Z0-9._%+-]+@[a-zA-Z0-9.-]+\.[a-zA-Z]{2,}` exactly. |
| ContatoValue.PatternIsNotBlank | GerenciamentoDeVendas/Domain/ValueObjects/Contato.cs:68-74 | A string matching the pattern passes `ValidarEmail`. |
| ContatoValue.NormalizeEmailIdempotent | GerenciamentoDeVendas/Domain/ValueObjects/Contato.cs:44 | Trimming and lower-casing twice is doing it once. |
| ContatoValue.CleanTelefone | GerenciamentoDeVendas/Domain/ValueObjects/Contato.cs:26-32 | A blank phone stays null. Otherwise its digits are kept when there are 10 of them, else ArgumentException("telefone"). |
| ContatoValue.CleanCelular | GerenciamentoDeVendas/Domain/ValueObjects/Contato.cs:34-40 | A blank mobile stays null. Otherwise its digits are kept when there are 11 with '9' at index 2, else ArgumentException("celular"). |
| ContatoValue.CleanEmail | GerenciamentoDeVendas/Domain/ValueObjects/Contato.cs:42-48 | A blank e-mail stays null. Otherwise the trimmed, lower-cased text is kept when it matches the pattern, else ArgumentException("email"). |
| ContatoValue.Create | GerenciamentoDeVendas/Domain/ValueObjects/Contato.cs:21-49 | All three blank throws. Otherwise a contact is built exactly when every field is valid, holding the normalised fields, and the first invalid field names the error. |
| ContatoValue.CleanTelefoneOfDigits | GerenciamentoDeVendas/Domain/ValueObjects/Contato.cs:26-32 | Ten digits are kept as they are. |
| ContatoValue.CleanCelularOfDigits | GerenciamentoDeVendas/Domain/ValueObjects/Contato.cs:34-40 | A valid mobile number is kept as it is. |
| ContatoValue.CleanEmailOfNormal | GerenciamentoDeVendas/Domain/ValueObjects/Contato.cs:42-48 | A valid e-mail in normal form is kept as it is. |
| ContatoValue.CreateOfValid | GerenciamentoDeVendas/Domain/ValueObjects/Contato.cs:21-49 | Constructing from a valid contact's fields gives the same contact. |
| ContatoValue.FormataTelefone | GerenciamentoDeVendas/Domain/ValueObjects/Contato.cs:76-80 | Ten digits get "(DD) DDDD-DDDD", whose digits are the number. Ten digits and a final '\n' get the mask followed by the '\n'. Anything else is returned unchanged. |
| ContatoValue.FormataCelular | GerenciamentoDeVendas/Domain/ValueObjects/Contato.cs:82-86 | Eleven digits get "(DD) DDDDD-DDDD", whose digits are the number. Eleven digits and a final '\n' get the mask followed by the '\n'. Anything else is returned unchanged. |
| ContatoValue.PhoneMask | GerenciamentoDeVendas/Domain/ValueObjects/Contato.cs:79 | The replacement `($1) $2-$3`: four characters longer than the digits, with the separators in place and the input's digits. |
| ContatoValue.GetTelefoneFormatado | GerenciamentoDeVendas/Domain/ValueObjects/Contato.cs:76-80 | Empty without a landline. For a constructed contact, 14 characters whose digits are the landline. |
| ContatoValue.GetCelularFormatado | GerenciamentoDeVendas/Domain/ValueObjects/Contato.cs:82-86 | Empty without a mobile number. For a constructed contact, 15 characters whose digits are the mobile number. |
| ContatoValue.ValidarTelefone | GerenciamentoDeVendas/Domain/ValueObjects/Contato.cs:56-60 | Ten digits. `CleanTelefone` and `Create` are stated in its terms. |
| ContatoValue.ValidarCelular | GerenciamentoDeVendas/Domain/ValueObjects/Contato.cs:62-66 | Eleven digits with '9' third. |
| ContatoValue.ValidarEmail | GerenciamentoDeVendas/Domain/ValueObjects/Contato.cs:68-74 | Not blank and of the pattern's shape. `EmailShapeIsPattern` ties the shape to the pattern, and `PatternIsNotBlank` shows the blank test is implied. |
| ContatoValue.CleanTelefoneOfFormatted | GerenciamentoDeVendas/Domain/ValueObjects/Contato.cs:76-80 | The formatted phone cleans back to the stored digits. |
| ContatoValue.CleanCelularOfFormatted | GerenciamentoDeVendas/Domain/ValueObjects/Contato.cs:82-86 | The formatted mobile cleans back to the stored digits. |
| ContatoValue.FormattedRoundTrip | GerenciamentoDeVendas/Domain/ValueObjects/Contato.cs:76-86 | Constructing from the formatted phone and mobile gives back the same contact. |
| ContatoValue.ToStringShape | GerenciamentoDeVendas/Domain/ValueObjects/Contato.cs:104-111 | One part per present field, at least one, so the text is never empty. |
| ContatoValue.Partes | GerenciamentoDeVendas/Domain/ValueObjects/Contato.cs:106-109 | One labelled part per non-blank field, in the order Tel, Cel, Email; `ToStringShape` counts them. |
| ContatoValue.ToString | GerenciamentoDeVendas/Domain/ValueObjects/Contato.cs:104-111 | The parts joined with " | "; `ToStringShape` and `JoinStartsWithFirst` show it is never empty and starts with the first part. |
| ContatoValue.JoinStartsWithFirst | GerenciamentoDeVendas/Domain/ValueObjects/Contato.cs:110 | The joined text starts with its first part. |
| ContatoValue.Equals | GerenciamentoDeVendas/Domain/ValueObjects/Contato.cs:88-92 | Equal exactly when the other contact is present with the same three normalised fields. |
| ContatoValue.SplitAccepted | GerenciamentoDeVendas/Domain/ValueObjects/Contato.cs:70-73 | A local part, '@', a domain, '.' and a top-level domain of 2 or more letters is accepted. |
| ContatoValue.NoAtRefused | GerenciamentoDeVendas/Domain/ValueObjects/Contato.cs:70-73 | Text without '@' is refused. |
| ContatoValue.PositionsRefused | GerenciamentoDeVendas/Domain/ValueObjects/Contato.cs:70-73 | An empty local part, an empty domain or a short top-level domain is refused. |
| ContatoValue.TelefoneAccepted | GerenciamentoDeVendas/Domain/ValueObjects/Contato.cs:26-32 | A phone alone whose digits are valid builds the contact of those digits. |
| ContatoValue.CelularRefused | GerenciamentoDeVendas/Domain/ValueObjects/Contato.cs:34-40 | A mobile alone with invalid digits throws ArgumentException("celular"). |
| ContatoValue.EmailByNormalForm | GerenciamentoDeVendas/Domain/ValueObjects/Contato.cs:42-48 | Two e-mails with one normal form build the same contact, so case does not matter. |
| ContatoValue.ExampleSemContato | GerenciamentoDeVendas/Teste.Domain/ContatoTest.cs:93-98 | No field given throws. |
| ContatoValue.ExampleTelefoneComMascara | GerenciamentoDeVendas/Teste.Domain/ContatoTest.cs:63-71 | "(11) 3222-3333" is stored as "1132223333". |
| ContatoValue.ExampleTelefoneInvalido | GerenciamentoDeVendas/Teste.Domain/ContatoTest.cs:100-105 | "123456" is rejected. |
| ContatoValue.ExampleCelularInvalido | GerenciamentoDeVendas/Teste.Domain/ContatoTest.cs:107-112 | "11887654321" is rejected, having no '9' at index 2. |
| ContatoValue.ExampleTelefoneMask | GerenciamentoDeVendas/Teste.Domain/ContatoTest.cs:121-133 | "1132223333" is formatted "(11) 3222-3333". |
| ContatoValue.ExampleEmailMaiusculo | GerenciamentoDeVendas/Teste.Domain/ContatoTest.cs:83-91 | An upper-case e-mail builds the same contact as its lower case. |
| ContatoValue.ExampleEmailsAccepted | GerenciamentoDeVendas/Teste.Domain/ContatoTest.cs:180-190 | The three listed e-mails are accepted. |
| ContatoValue.ExampleEmailsRefused | GerenciamentoDeVendas/Teste.Domain/ContatoTest.cs:192-201 | The three listed e-mails are refused. |
| ItemVendaEntity.NewItem | GerenciamentoDeVendas/Domain/Entities/ItemVenda.cs:19-42 | Succeeds exactly when the ids are set, the name is non-blank, the quantity is positive and the price is non-negative, in that order of checks. The line is stored with the trimmed name. |
| ItemVendaEntity.ItemState.AtualizarQuantidade | GerenciamentoDeVendas/Domain/Entities/ItemVenda.cs:44-50 | Rejects a quantity ≤ 0; otherwise only the quantity changes. |
| ItemVendaEntity.ItemState.AssociarVenda | GerenciamentoDeVendas/Domain/Entities/ItemVenda.cs:52-58 | Rejects an empty id; otherwise only the sale id changes. |
| ItemVendaEntity.OperationsPreserveValid | GerenciamentoDeVendas/Domain/Entities/ItemVenda.cs:30-34 | Quantity > 0, price ≥ 0 and the other guards hold after every successful operation. |
| ItemVendaEntity.SubtotalBounds | GerenciamentoDeVendas/Domain/Entities/ItemVenda.cs:17 | The subtotal is non-negative and grows with the quantity. |
| ItemVendaEntity.ItemState.Subtotal | GerenciamentoDeVendas/Domain/Entities/ItemVenda.cs:17 | Quantity times unit price; `SubtotalBounds` proves it non-negative and monotone in the quantity. |
| ItemVendaEntity.ItemVenda.New | GerenciamentoDeVendas/Domain/Entities/ItemVenda.cs:19-42 | The constructor throws as `NewItem` does, and otherwise builds its state. |
| ItemVendaEntity.ItemVenda.AtualizarQuantidade | GerenciamentoDeVendas/Domain/Entities/ItemVenda.cs:44-50 | In place, as the transition function says; a rejected call changes nothing. |
| ItemVendaEntity.ItemVenda.AssociarVenda | GerenciamentoDeVendas/Domain/Entities/ItemVenda.cs:52-58 | In place, as the transition function says; a rejected call changes nothing. |
| VendaEntity.IndexOfProduto | GerenciamentoDeVendas/Domain/Entities/Venda.cs:55 | The first line of the product, or none. |
| VendaEntity.IndexOfItem | GerenciamentoDeVendas/Domain/Entities/Venda.cs:73 | The first line with the item id, or none. |
| VendaEntity.RemoveAt | GerenciamentoDeVendas/Domain/Entities/Venda.cs:78 | `List.Remove` drops exactly that element and keeps the order of the rest. |
| VendaEntity.NovaVenda | GerenciamentoDeVendas/Domain/Entities/Venda.cs:37-48 | An empty customer id throws. Otherwise the new sale is Pendente and valid, with no lines, total 0, no payment method and the trimmed note. |
| VendaEntity.VendaState.AdicionarItem | GerenciamentoDeVendas/Domain/Entities/Venda.cs:50-66 | Throws unless Pendente. On success only the lines change, and the product then has a line. |
| VendaEntity.VendaState.RemoverItem | GerenciamentoDeVendas/Domain/Entities/Venda.cs:68-79 | Throws unless Pendente; on success only the lines change. |
| VendaEntity.VendaState.AtualizarQuantidadeItem | GerenciamentoDeVendas/Domain/Entities/Venda.cs:81-92 | Throws unless Pendente; on success only the lines change. |
| VendaEntity.VendaState.Confirmar | GerenciamentoDeVendas/Domain/Entities/Venda.cs:94-104 | Succeeds exactly when Pendente with at least one line, then sets the payment method and Confirmada. Status is checked before emptiness. |
| VendaEntity.VendaState.Cancelar | GerenciamentoDeVendas/Domain/Entities/Venda.cs:106-112 | Throws exactly when already Cancelada; otherwise only the status changes, to Cancelada. |
| VendaEntity.VendaState.AtualizarObservacao | GerenciamentoDeVendas/Domain/Entities/Venda.cs:114-117 | Stores the trimmed note and changes nothing else. |
| VendaEntity.TotalAppend | GerenciamentoDeVendas/Domain/Entities/Venda.cs:32 | Appending a line adds its subtotal to the total. |
| VendaEntity.TotalUpdate | GerenciamentoDeVendas/Domain/Entities/Venda.cs:32 | Replacing a line replaces its subtotal in the total. |
| VendaEntity.TotalRemove | GerenciamentoDeVendas/Domain/Entities/Venda.cs:32 | Removing a line subtracts its subtotal. |
| VendaEntity.TotalNonNegative | GerenciamentoDeVendas/Domain/Entities/Venda.cs:32 | The total of valid lines is non-negative. |
| VendaEntity.VendaState.ValorTotal | GerenciamentoDeVendas/Domain/Entities/Venda.cs:32 | The sum of the lines' subtotals; `TotalAppend`, `TotalUpdate`, `TotalRemove` and `TotalNonNegative` state how it moves. |
| VendaEntity.VendaState.PodeSerEditada | GerenciamentoDeVendas/Domain/Entities/Venda.cs:119-122 | The sale is Pendente; `EditingNeedsPendente` proves every edit refused otherwise. |
| VendaEntity.MergeShape | GerenciamentoDeVendas/Domain/Entities/Venda.cs:55-60 | With the product present, its line's quantity becomes the sum, which must stay positive. The name and price are kept. |
| VendaEntity.AdicionarMerges | GerenciamentoDeVendas/Domain/Entities/Venda.cs:55-60 | With distinct products, the line holding the product is the one merged into. |
| VendaEntity.AppendShape | GerenciamentoDeVendas/Domain/Entities/Venda.cs:61-65 | With the product absent, the new line's constructor decides, and the line is appended at the end. |
| VendaEntity.AdicionarAppends | GerenciamentoDeVendas/Domain/Entities/Venda.cs:61-65 | The appended line holds the given product, quantity, price and trimmed name. |
| VendaEntity.AdicionarQuantityAsymmetry | GerenciamentoDeVendas/Domain/Entities/Venda.cs:55-64 | A quantity ≤ 0 is refused for a new product but accepted when merging keeps the sum positive. |
| VendaEntity.MergedLineFacts | GerenciamentoDeVendas/Domain/Entities/Venda.cs:59 | Merging adds quantity × price to the total and keeps the line's position. |
| VendaEntity.AdicionarTotalOnMerge | GerenciamentoDeVendas/Domain/Entities/Venda.cs:55-60 | After a merge, the total grows by the added quantity at the existing line's price. |
| VendaEntity.AdicionarTotalOnAppend | GerenciamentoDeVendas/Domain/Entities/Venda.cs:61-65 | After an append, the total grows by quantity × price. |
| VendaEntity.RemoverSemantics | GerenciamentoDeVendas/Domain/Entities/Venda.cs:68-79 | Succeeds exactly when Pendente and the item exists; an unknown item throws. Exactly that line is removed, and the total drops by its subtotal. |
| VendaEntity.AtualizarQuantidadeItemSemantics | GerenciamentoDeVendas/Domain/Entities/Venda.cs:81-92 | Succeeds exactly when Pendente, the item exists and the quantity is positive. Only that line's quantity changes, and the total moves by the difference × price. |
| VendaEntity.EditingNeedsPendente | GerenciamentoDeVendas/Domain/Entities/Venda.cs:119-122 | When `PodeSerEditada` is false, adding, removing and updating all throw; after a successful edit the sale is still editable. |
| VendaEntity.CanceladaIsFinal | GerenciamentoDeVendas/Domain/Entities/Venda.cs:106-112 | AdicionarItem, RemoverItem, AtualizarQuantidadeItem, Confirmar and Cancelar each throw on a cancelled sale. AtualizarObservacao, which has no guard, still succeeds. |
| VendaEntity.StatusTransitions | GerenciamentoDeVendas/Domain/Entities/Venda.cs:94-112 | Pendente→Confirmada by `Confirmar`, Pendente or Confirmada→Cancelada by `Cancelar`, and a confirmed sale can be cancelled. |
| VendaEntity.AdicionarPreservesValid | GerenciamentoDeVendas/Domain/Entities/Venda.cs:55-65 | Adding keeps the invariant: the lines belong to the sale, are valid, and never repeat a product. |
| VendaEntity.RemoverPreservesValid | GerenciamentoDeVendas/Domain/Entities/Venda.cs:68-79 | Removing keeps the invariant. |
| VendaEntity.AtualizarQuantidadeItemPreservesValid | GerenciamentoDeVendas/Domain/Entities/Venda.cs:81-92 | Updating a quantity keeps the invariant. |
| VendaEntity.StatusChangesPreserveValid | GerenciamentoDeVendas/Domain/Entities/Venda.cs:94-117 | Confirming, cancelling and changing the note keep the invariant. |
| VendaEntity.Venda.New | GerenciamentoDeVendas/Domain/Entities/Venda.cs:37-48 | The constructor throws as `NovaVenda` does, and otherwise builds a fresh sale with no line objects. |
| VendaEntity.Venda.AdicionarItem | GerenciamentoDeVendas/Domain/Entities/Venda.cs:50-66 | In place: the existing line object is mutated or a fresh one appended, as the transition function says. A rejected call changes nothing, and the invariant is kept. |
| VendaEntity.Venda.AppendLine | GerenciamentoDeVendas/Domain/Entities/Venda.cs:63-64 | Constructs the new line and appends it, or throws as its constructor does. |
| VendaEntity.Venda.SetLineQuantity | GerenciamentoDeVendas/Domain/Entities/Venda.cs:59 | Updates one line object's quantity, leaving the other lines alone. |
| VendaEntity.Venda.RemoverItem | GerenciamentoDeVendas/Domain/Entities/Venda.cs:68-79 | In place, as the transition function says; the invariant is kept. |
| VendaEntity.Venda.AtualizarQuantidadeItem | GerenciamentoDeVendas/Domain/Entities/Venda.cs:81-92 | In place, as the transition function says; the invariant is kept. |
| VendaEntity.Venda.Confirmar | GerenciamentoDeVendas/Domain/Entities/Venda.cs:94-104 | In place, as the transition function says. |
| VendaEntity.Venda.Cancelar | GerenciamentoDeVendas/Domain/Entities/Venda.cs:106-112 | In place, as the transition function says. |
| VendaEntity.Venda.AtualizarObservacao | GerenciamentoDeVendas/Domain/Entities/Venda.cs:114-117 | In place, as the transition function says. |
| VendaEntity.Venda.PodeSerEditada | GerenciamentoDeVendas/Domain/Entities/Venda.cs:119-122 | True exactly when the sale is Pendente. |
| EstoqueEntity.NewEstoque | GerenciamentoDeVendas/Domain/Entities/Estoque.cs:21-38 | Rejects an empty product id, a negative initial quantity or a negative minimum, in that order. Otherwise builds a valid record with the trimmed location. |
| EstoqueEntity.EstoqueState.AdicionarQuantidade | GerenciamentoDeVendas/Domain/Entities/Estoque.cs:40-47 | Rejects q ≤ 0; otherwise the quantity rises by exactly q and the date is refreshed. |
| EstoqueEntity.EstoqueState.RemoverQuantidade | GerenciamentoDeVendas/Domain/Entities/Estoque.cs:49-59 | q ≤ 0 throws ArgumentException and q above the quantity throws InvalidOperationException. Otherwise the quantity drops by exactly q and the date is refreshed. |
| EstoqueEntity.EstoqueState.AtualizarQuantidadeMinima | GerenciamentoDeVendas/Domain/Entities/Estoque.cs:71-78 | Rejects a negative minimum; otherwise sets it and refreshes the date. |
| EstoqueEntity.EstoqueState.AtualizarLocalizacao | GerenciamentoDeVendas/Domain/Entities/Estoque.cs:80-84 | Stores the trimmed location, refreshes the date, and changes nothing else. |
| EstoqueEntity.OperationsPreserveValid | GerenciamentoDeVendas/Domain/Entities/Estoque.cs:26-30 | Quantity ≥ 0 and minimum ≥ 0 hold after every operation. |
| EstoqueEntity.RemoverFailsIffUnavailable | GerenciamentoDeVendas/Domain/Entities/Estoque.cs:54-57 | For q > 0, removal fails exactly when `TemEstoqueDisponivel(q)` is false, and then with insufficient stock. |
| EstoqueEntity.EstoqueState.TemEstoqueDisponivel | GerenciamentoDeVendas/Domain/Entities/Estoque.cs:66-69 | The quantity covers the amount asked for; `RemoverFailsIffUnavailable` ties it to removal. |
| EstoqueEntity.EstoqueState.EstaAbaixoDoMinimo | GerenciamentoDeVendas/Domain/Entities/Estoque.cs:61-64 | The quantity is below the minimum; `Estoque.EstaAbaixoDoMinimo` returns it. |
| EstoqueEntity.RemoverThenAdicionarRestores | GerenciamentoDeVendas/Domain/Entities/Estoque.cs:45-58 | Removing q then adding q restores the record, apart from the date. |
| EstoqueEntity.AdicionarThenRemoverRestores | GerenciamentoDeVendas/Domain/Entities/Estoque.cs:45-58 | Adding q then removing q restores the record, apart from the date. |
| EstoqueEntity.IdentityIsFixed | GerenciamentoDeVendas/Domain/Entities/Estoque.cs:40-84 | No operation changes the id or the product id. |
| EstoqueEntity.Estoque.New | GerenciamentoDeVendas/Domain/Entities/Estoque.cs:21-38 | The constructor throws as `NewEstoque` does, and otherwise builds its state. |
| EstoqueEntity.Estoque.AdicionarQuantidade | GerenciamentoDeVendas/Domain/Entities/Estoque.cs:40-47 | In place, as the transition function says; a rejected call changes nothing. |
| EstoqueEntity.Estoque.RemoverQuantidade | GerenciamentoDeVendas/Domain/Entities/Estoque.cs:49-59 | In place, as the transition function says; a rejected call changes nothing. |
| EstoqueEntity.Estoque.EstaAbaixoDoMinimo | GerenciamentoDeVendas/Domain/Entities/Estoque.cs:61-64 | True exactly when the quantity is below the minimum. |
| EstoqueEntity.Estoque.TemEstoqueDisponivel | GerenciamentoDeVendas/Domain/Entities/Estoque.cs:66-69 | True exactly when the quantity is at least the amount asked for. |
| EstoqueEntity.Estoque.AtualizarQuantidadeMinima | GerenciamentoDeVendas/Domain/Entities/Estoque.cs:71-78 | In place, as the transition function says; a rejected call changes nothing. |
| EstoqueEntity.Estoque.AtualizarLocalizacao | GerenciamentoDeVendas/Domain/Entities/Estoque.cs:80-84 | In place, as the transition function says. |
| ProdutoEntity.NewProduto | GerenciamentoDeVendas/Domain/Entities/Produto.cs:27-46 | Rejects a blank code, a blank name or a negative price, in that order. Otherwise builds an active, valid product with trimmed text. |
| ProdutoEntity.ProdutoState.Ativar | GerenciamentoDeVendas/Domain/Entities/Produto.cs:48-51 | Sets Ativo and changes nothing else. |
| ProdutoEntity.ProdutoState.Inativar | GerenciamentoDeVendas/Domain/Entities/Produto.cs:53-56 | Clears Ativo and changes nothing else. |
| ProdutoEntity.ProdutoState.AtualizarPreco | GerenciamentoDeVendas/Domain/Entities/Produto.cs:58-64 | Rejects a negative price; otherwise only the price changes. |
| ProdutoEntity.ProdutoState.AtualizarNome | GerenciamentoDeVendas/Domain/Entities/Produto.cs:66-72 | Rejects a blank name; otherwise only the name changes, to its trimmed form. |
| ProdutoEntity.ProdutoState.AtualizarDescricao | GerenciamentoDeVendas/Domain/Entities/Produto.cs:74-77 | Stores the trimmed description, null included, and changes nothing else. |
| ProdutoEntity.ProdutoState.AtualizarCategoria | GerenciamentoDeVendas/Domain/Entities/Produto.cs:79-82 | Stores the trimmed category, null included, and changes nothing else. |
| ProdutoEntity.ActivationFlags | GerenciamentoDeVendas/Domain/Entities/Produto.cs:48-56 | `Ativar` and `Inativar` are idempotent, each undoes the other, and each is a no-op on a product already in its state. |
| ProdutoEntity.OperationsPreserveValid | GerenciamentoDeVendas/Domain/Entities/Produto.cs:29-36 | Price ≥ 0 and a non-blank, trimmed name and code hold after every operation, and the code never changes. |
| ProdutoEntity.Produto.New | GerenciamentoDeVendas/Domain/Entities/Produto.cs:27-46 | The constructor throws as `NewProduto` does, and otherwise builds its state. |
| ProdutoEntity.Produto.Ativar | GerenciamentoDeVendas/Domain/Entities/Produto.cs:48-51 | In place, as the transition function says. |
| ProdutoEntity.Produto.Inativar | GerenciamentoDeVendas/Domain/Entities/Produto.cs:53-56 | In place, as the transition function says. |
| ProdutoEntity.Produto.AtualizarPreco | GerenciamentoDeVendas/Domain/Entities/Produto.cs:58-64 | In place, as the transition function says; a rejected call changes nothing. |
| ProdutoEntity.Produto.AtualizarNome | GerenciamentoDeVendas/Domain/Entities/Produto.cs:66-72 | In place, as the transition function says; a rejected call changes nothing. |
| ProdutoEntity.Produto.AtualizarDescricao | GerenciamentoDeVendas/Domain/Entities/Produto.cs:74-77 | In place, as the transition function says. |
| ProdutoEntity.Produto.AtualizarCategoria | GerenciamentoDeVendas/Domain/Entities/Produto.cs:79-82 | In place, as the transition function says. |
| ClienteEntity.ClienteState.Ativa | GerenciamentoDeVendas/Domain/Entities/Cliente.cs:20-23 | Clears Inativo and changes nothing else. |
| ClienteEntity.ClienteState.Inativa | GerenciamentoDeVendas/Domain/Entities/Cliente.cs:24-27 | Sets Inativo and changes nothing else. |
| ClienteEntity.ClienteState.SetEnderecoPrincipal | GerenciamentoDeVendas/Domain/Entities/Cliente.cs:29-32 | Stores the given address, null included, and changes nothing else. |
| ClienteEntity.ActivationFlags | GerenciamentoDeVendas/Domain/Entities/Cliente.cs:20-32 | Both flags are idempotent, `Ativa` after `Inativa` restores an active customer, and the address setter commutes with both. |
| ClienteEntity.Cliente.constructor | GerenciamentoDeVendas/Domain/Entities/Cliente.cs:10-18 | The implicit constructor leaves every reference null and Inativo false. |
| ClienteEntity.Cliente.Ativa | GerenciamentoDeVendas/Domain/Entities/Cliente.cs:20-23 | In place, as the transition function says. |
| ClienteEntity.Cliente.Inativa | GerenciamentoDeVendas/Domain/Entities/Cliente.cs:24-27 | In place, as the transition function says. |
| ClienteEntity.Cliente.SetEnderecoPrincipal | GerenciamentoDeVendas/Domain/Entities/Cliente.cs:29-32 | In place, as the transition function says. |
| UnitOfWorkStore.IndexOfEstoqueProduto | GerenciamentoDeVendas/Infrastructure/Repositories/EstoqueRepository.cs:18-42 | The first stock row of the product, or none. |
| UnitOfWorkStore.IndexOfEstoqueId | GerenciamentoDeVendas/Application/Services/EstoqueService.cs:104-105 | The first stock row with the id, or none. |
| UnitOfWorkStore.LookupStable | GerenciamentoDeVendas/Infrastructure/Repositories/EstoqueRepository.cs:18-42 | Changing rows without changing their products keeps every lookup by product. |
| UnitOfWorkStore.UnitOfWork.Commit | GerenciamentoDeVendas/Infrastructure/UnitOfWork.cs:36-39 | `CommitAsync` replaces the committed store with the staged one in one step when the staged store keeps both unique indexes. Otherwise it throws `DbUpdateException` for the broken index and nothing is written. |
| UnitOfWorkStore.IndexViolation | GerenciamentoDeVendas/Infrastructure/Data/Configurations/ProdutoConfiguration.cs:19-20 | None exactly when no two products share a code and no product has two stock records (EstoqueConfiguration.cs:18-19); otherwise the index broken, codes first. |
| UnitOfWorkStore.Saved | GerenciamentoDeVendas/Infrastructure/UnitOfWork.cs:36-39 | A use case's exception stays; a staged store that breaks an index becomes that `DbUpdateException`; otherwise the staged store is the result. |
| UnitOfWorkStore.SameProductsKeepOneRecord | GerenciamentoDeVendas/Infrastructure/Data/Configurations/EstoqueConfiguration.cs:18-19 | Rewriting rows without changing their products keeps one record per product. |
| UnitOfWorkStore.SavedWhenKeyed | GerenciamentoDeVendas/Infrastructure/UnitOfWork.cs:36-39 | A change that keeps the products and each row's product commits on a store that kept the indexes. |
| EstoqueServiceOps.CriarSpec | GerenciamentoDeVendas/Application/Services/EstoqueService.cs:81-100 | A missing product fails first, then a product that already has a stock record; success changes only the stock table. |
| EstoqueServiceOps.CriarSemantics | GerenciamentoDeVendas/Application/Services/EstoqueService.cs:81-100 | Succeeds exactly when the product exists, has no record yet and the entity constructor accepts; the new row is appended. |
| EstoqueServiceOps.CriarKeepsOneRecordPerProduct | GerenciamentoDeVendas/Application/Services/EstoqueService.cs:86-87 | Creation keeps at most one stock record per product. |
| EstoqueServiceOps.AtualizarSpec | GerenciamentoDeVendas/Application/Services/EstoqueService.cs:102-115 | An unknown id fails; success changes only the stock table. |
| EstoqueServiceOps.AtualizarSemantics | GerenciamentoDeVendas/Application/Services/EstoqueService.cs:102-115 | Succeeds exactly when the record exists and the minimum is non-negative. Only that row changes, with the minimum, the trimmed location and the date. |
| EstoqueServiceOps.AdicionarQuantidadeSpec | GerenciamentoDeVendas/Application/Services/EstoqueService.cs:117-129 | A product without a record fails; success changes only the stock table. |
| EstoqueServiceOps.AdicionarQuantidadeSemantics | GerenciamentoDeVendas/Application/Services/EstoqueService.cs:117-129 | Succeeds exactly when the record exists and q > 0; only that row's quantity rises by q. |
| EstoqueServiceOps.RemoverQuantidadeSpec | GerenciamentoDeVendas/Application/Services/EstoqueService.cs:131-143 | A product without a record fails; success changes only the stock table. |
| EstoqueServiceOps.RemoverQuantidadeSemantics | GerenciamentoDeVendas/Application/Services/EstoqueService.cs:131-143 | Succeeds exactly when the record exists and 0 < q ≤ its quantity; only that row drops by q, never below 0. |
| EstoqueServiceOps.TemEstoqueDisponivelSemantics | GerenciamentoDeVendas/Application/Services/EstoqueService.cs:145-149 | False without a record; for n > 0, true exactly when removing n would succeed. |
| EstoqueServiceOps.TemEstoqueDisponivelSpec | GerenciamentoDeVendas/Application/Services/EstoqueService.cs:145-149 | False without a record, otherwise the record's `TemEstoqueDisponivel`; `TemEstoqueDisponivelSemantics` states its meaning. |
| EstoqueServiceOps.MovementsKeepProducts | GerenciamentoDeVendas/Application/Services/EstoqueService.cs:102-143 | Updates and movements never change which product a row belongs to. |
| EstoqueServiceOps.RemoverThenAdicionarRestores | GerenciamentoDeVendas/Application/Services/EstoqueService.cs:117-143 | Removing q then adding q restores the stock table, apart from the date. |
| EstoqueServiceOps.UseCasesSaved | GerenciamentoDeVendas/Application/Services/EstoqueService.cs:81-143 | On a store that keeps the unique indexes, every stock use case commits whenever its own checks pass: creation's record check and the movements keep one record per product. |
| EstoqueServiceOps.CriarAsync | GerenciamentoDeVendas/Application/Services/EstoqueService.cs:81-100 | Throws as the specification does, or with `DbUpdateException` when the staged store breaks a unique index, commits its result only on success, and returns the new record. |
| EstoqueServiceOps.AtualizarAsync | GerenciamentoDeVendas/Application/Services/EstoqueService.cs:102-115 | Throws as the specification does, or with `DbUpdateException` when the staged store breaks a unique index, and commits its result only on success. |
| EstoqueServiceOps.AdicionarQuantidadeAsync | GerenciamentoDeVendas/Application/Services/EstoqueService.cs:117-129 | Throws as the specification does, or with `DbUpdateException` when the staged store breaks a unique index, and commits its result only on success. |
| EstoqueServiceOps.RemoverQuantidadeAsync | GerenciamentoDeVendas/Application/Services/EstoqueService.cs:131-143 | Throws as the specification does, or with `DbUpdateException` when the staged store breaks a unique index, and commits its result only on success. |
| EstoqueServiceOps.TemEstoqueDisponivelAsync | GerenciamentoDeVendas/Application/Services/EstoqueService.cs:145-149 | Answers false without a record, and otherwise whether the quantity covers n. |
| ProdutoServiceOps.CodigoLookupIsExact | GerenciamentoDeVendas/Infrastructure/Repositories/ProdutoRepository.cs:45-49 | The code lookup is an exact, untrimmed comparison: a stored code is found, and the same code with a leading space is not, since stored codes are trimmed. |
| ProdutoServiceOps.CriarSpec | GerenciamentoDeVendas/Application/Services/ProdutoService.cs:57-74 | The store the service stages: a code already registered, compared untrimmed, fails; success changes only the product table. Whether the commit then accepts it is `CriarSaved`. |
| ProdutoServiceOps.CriarSemantics | GerenciamentoDeVendas/Application/Services/ProdutoService.cs:57-74 | The staged result succeeds exactly when the code is free and the constructor accepts; the new product is active, valid and stored under its id. |
| ProdutoServiceOps.CriarStores | GerenciamentoDeVendas/Application/Services/ProdutoService.cs:62-71 | The stored product is the constructor's product, with the trimmed code. |
| ProdutoServiceOps.UniqueCodesInsert | GerenciamentoDeVendas/Application/Services/ProdutoService.cs:59-60 | Inserting a product whose code is free keeps codes unique. |
| ProdutoServiceOps.CriarKeepsUniqueCodes | GerenciamentoDeVendas/Application/Services/ProdutoService.cs:59-71 | When the code is given already trimmed, creation keeps codes unique. |
| ProdutoServiceOps.PaddedCodeStagesDuplicate | GerenciamentoDeVendas/Application/Services/ProdutoService.cs:59-68 | An existing code given with a leading space passes the service's own check and is staged trimmed, next to the product that already has it. |
| ProdutoServiceOps.PaddedCodeIsRefused | GerenciamentoDeVendas/Application/Services/ProdutoService.cs:59-71 | The database then refuses that commit: creation ends in `DbUpdateException` on the code index and no second product is stored. |
| ProdutoServiceOps.CriarSaved | GerenciamentoDeVendas/Application/Services/ProdutoService.cs:57-74 | On a store that keeps the indexes and for a fresh id, creation is committed exactly when neither the code as given nor the trimmed code is in use and the constructor accepts; a staged product refused at commit fails on the code index. |
| ProdutoServiceOps.InsertSaved | GerenciamentoDeVendas/Application/Services/ProdutoService.cs:57-74 | For any staged store that adds one product with the trimmed code to a store that keeps the indexes: the commit goes through exactly when neither the raw nor the trimmed code is in use and the product was built; a staged store that fails, fails on the code index. |
| ProdutoServiceOps.CollisionRefused | GerenciamentoDeVendas/Infrastructure/Data/Configurations/ProdutoConfiguration.cs:19-20 | Two products with one code make the commit fail on the code index. |
| ProdutoServiceOps.SavedWhenIndexed | GerenciamentoDeVendas/Infrastructure/UnitOfWork.cs:36-39 | A product table with unique codes next to an accepted stock table commits. |
| ProdutoServiceOps.AtualizarSpec | GerenciamentoDeVendas/Application/Services/ProdutoService.cs:76-90 | An unknown id fails; success changes only the product table. |
| ProdutoServiceOps.AtualizarSemantics | GerenciamentoDeVendas/Application/Services/ProdutoService.cs:76-90 | Succeeds exactly when the product exists and the name and price are valid. The name is checked before the price, and all four fields are set. |
| ProdutoServiceOps.AtualizarPreservesValid | GerenciamentoDeVendas/Application/Services/ProdutoService.cs:80-87 | The updated product stays valid and keeps its code. |
| ProdutoServiceOps.AtivarSpec | GerenciamentoDeVendas/Application/Services/ProdutoService.cs:92-100 | An unknown id fails; otherwise the product is activated. |
| ProdutoServiceOps.InativarSpec | GerenciamentoDeVendas/Application/Services/ProdutoService.cs:102-110 | An unknown id fails; otherwise the product is deactivated. |
| ProdutoServiceOps.ActivationIdempotent | GerenciamentoDeVendas/Application/Services/ProdutoService.cs:92-110 | Activating twice is activating once, and likewise for deactivating; activating after deactivating is just activating. |
| ProdutoServiceOps.EditsSaved | GerenciamentoDeVendas/Application/Services/ProdutoService.cs:76-110 | Updating, activating and deactivating keep every code, so on a store that keeps the indexes their commit goes through. |
| ProdutoServiceOps.SameCodeKeepsUnique | GerenciamentoDeVendas/Infrastructure/Data/Configurations/ProdutoConfiguration.cs:19-20 | Replacing a product by one with the same code keeps codes unique. |
| ProdutoServiceOps.CriarAsync | GerenciamentoDeVendas/Application/Services/ProdutoService.cs:57-74 | Throws as the specification does, or with `DbUpdateException` when the staged store breaks a unique index, commits only on success, and returns the stored product. |
| ProdutoServiceOps.AtualizarAsync | GerenciamentoDeVendas/Application/Services/ProdutoService.cs:76-90 | Throws as the specification does, or with `DbUpdateException` when the staged store breaks a unique index, and commits only on success. |
| ProdutoServiceOps.AtivarAsync | GerenciamentoDeVendas/Application/Services/ProdutoService.cs:92-100 | Throws as the specification does, or with `DbUpdateException` when the staged store breaks a unique index, and commits only on success. |
| ProdutoServiceOps.InativarAsync | GerenciamentoDeVendas/Application/Services/ProdutoService.cs:102-110 | Throws as the specification does, or with `DbUpdateException` when the staged store breaks a unique index, and commits only on success. |
| ProdutoServiceOps.CodigoJaCadastradoAsync | GerenciamentoDeVendas/Application/Services/ProdutoService.cs:117-120 | True exactly when some committed product has this code, compared as given; nothing is committed. |
| VendaServiceOps.CriarSpec | GerenciamentoDeVendas/Application/Services/VendaService.cs:55-77 | A missing customer fails; success changes only the sale table. |
| VendaServiceOps.CriarSemantics | GerenciamentoDeVendas/Application/Services/VendaService.cs:55-77 | Any requested product missing or inactive fails. On success the customer exists and only the new sale is added: pending, valid, no payment method, each line holding its product's current name and price. |
| VendaServiceOps.AddLinesNeedsActiveProducts | GerenciamentoDeVendas/Application/Services/VendaService.cs:62-71 | One missing or inactive product anywhere in the request makes the loop fail. |
| VendaServiceOps.AddLinesSnapshots | GerenciamentoDeVendas/Application/Services/VendaService.cs:62-71 | After the loop the sale is still valid and pending, and each line snapshots its product's name and price. |
| VendaServiceOps.AdicionarKeepsSnapshot | GerenciamentoDeVendas/Application/Services/VendaService.cs:70 | Adding an active product's line, merged or appended, keeps the snapshots. |
| VendaServiceOps.MergeKeepsSnapshot | GerenciamentoDeVendas/Domain/Entities/Venda.cs:55-60 | Merging keeps the existing line's name and price. |
| VendaServiceOps.AppendKeepsSnapshot | GerenciamentoDeVendas/Domain/Entities/Venda.cs:61-65 | An appended line takes the product's current name and price. |
| VendaServiceOps.AdicionarPedido | GerenciamentoDeVendas/Application/Services/VendaService.cs:64-70 | One turn of the loop on the in-memory sale: a missing or inactive product throws, otherwise the line is added in place. |
| VendaServiceOps.CriarAsync | GerenciamentoDeVendas/Application/Services/VendaService.cs:55-77 | Throws as the specification does, or with `DbUpdateException` when the staged store breaks a unique index, commits the new sale only on success, and returns it. |
| VendaServiceOps.AdicionarItemSpec | GerenciamentoDeVendas/Application/Services/VendaService.cs:79-97 | A missing sale, a missing product and an inactive product fail in that order; success changes only the sale table. |
| VendaServiceOps.AdicionarItemSemantics | GerenciamentoDeVendas/Application/Services/VendaService.cs:79-97 | On success the product exists and is active, only that sale changes, and its lines keep snapshotting the products. |
| VendaServiceOps.AdicionarItemAsync | GerenciamentoDeVendas/Application/Services/VendaService.cs:79-97 | Throws as the specification does, or with `DbUpdateException` when the staged store breaks a unique index, and commits only on success. |
| VendaServiceOps.AddLine | GerenciamentoDeVendas/Application/Services/VendaService.cs:64-70 | One turn of the creation loop; `AddLinesNeedsActiveProducts` and `AddLinesSnapshots` state what the loop does. |
| VendaServiceOps.AddLines | GerenciamentoDeVendas/Application/Services/VendaService.cs:62-71 | The creation loop, stopping at the first failure. |
| VendaServiceOps.RemoverItemSpec | GerenciamentoDeVendas/Application/Services/VendaService.cs:99-111 | A missing sale fails; otherwise it fails or succeeds as the sale's `RemoverItem`, storing that result. |
| VendaServiceOps.RemoverItemAsync | GerenciamentoDeVendas/Application/Services/VendaService.cs:99-111 | Throws as the specification does, or with `DbUpdateException` when the staged store breaks a unique index, and commits only on success. |
| VendaServiceOps.AtualizarQuantidadeItemSpec | GerenciamentoDeVendas/Application/Services/VendaService.cs:113-125 | A missing sale fails; otherwise it fails or succeeds as the sale's `AtualizarQuantidadeItem`, storing that result. |
| VendaServiceOps.AtualizarQuantidadeItemAsync | GerenciamentoDeVendas/Application/Services/VendaService.cs:113-125 | Throws as the specification does, or with `DbUpdateException` when the staged store breaks a unique index, and commits only on success. |
| VendaServiceOps.ConfirmarSpec | GerenciamentoDeVendas/Application/Services/VendaService.cs:127-156 | A missing sale fails; success never touches customers or products. |
| VendaServiceOps.BaixarSucceeded | GerenciamentoDeVendas/Application/Services/VendaService.cs:135-147 | When the stock loop succeeds, every line had a record, a positive quantity and enough stock in total. Each record drops by exactly its lines' quantities. |
| VendaServiceOps.BaixarSucceedsWhenCovered | GerenciamentoDeVendas/Application/Services/VendaService.cs:135-147 | When every line has a record and the records cover the total demand, the stock loop succeeds. |
| VendaServiceOps.BaixarItem | GerenciamentoDeVendas/Application/Services/VendaService.cs:137-145 | One turn of the loop: a missing record or insufficient stock throws, otherwise the record drops by the line's quantity. |
| VendaServiceOps.BaixarLinha | GerenciamentoDeVendas/Application/Services/VendaService.cs:137-146 | One turn of the confirmation loop; `BaixarItem` is proved equal to it. |
| VendaServiceOps.BaixarEstoque | GerenciamentoDeVendas/Application/Services/VendaService.cs:135-147 | The confirmation loop; `BaixarSucceeded` and `BaixarSucceedsWhenCovered` give it in closed form. |
| VendaServiceOps.ConfirmarSemantics | GerenciamentoDeVendas/Application/Services/VendaService.cs:127-156 | Succeeds exactly when every line has a record, the records cover the demand, and the sale is pending and non-empty. On success every record drops by its lines' quantities and stays ≥ 0, and the sale is Confirmada with the payment method. |
| VendaServiceOps.ConfirmarAsync | GerenciamentoDeVendas/Application/Services/VendaService.cs:127-156 | Throws as the specification does, or with `DbUpdateException` when the staged store breaks a unique index, and commits the lowered stock and the confirmed sale together, only on success. |
| VendaServiceOps.BaixarItens | GerenciamentoDeVendas/Application/Services/VendaService.cs:135-147 | The loop over the sale's line objects returns what `BaixarEstoque` gives for their states. |
| VendaServiceOps.CancelarSpec | GerenciamentoDeVendas/Application/Services/VendaService.cs:158-184 | A missing sale fails; success never touches customers or products. |
| VendaServiceOps.DevolverShifts | GerenciamentoDeVendas/Application/Services/VendaService.cs:166-174 | The restocking loop always succeeds. It raises each existing record by its lines' quantities and skips missing records. |
| VendaServiceOps.DevolverItem | GerenciamentoDeVendas/Application/Services/VendaService.cs:166-174 | One turn of the restocking loop: a missing record is skipped, otherwise it rises by the line's quantity. |
| VendaServiceOps.DevolverLinha | GerenciamentoDeVendas/Application/Services/VendaService.cs:168-173 | One turn of the restocking loop; `DevolverItem` is proved equal to it. |
| VendaServiceOps.DevolverEstoque | GerenciamentoDeVendas/Application/Services/VendaService.cs:166-174 | The restocking loop; `DevolverShifts` gives it in closed form. |
| VendaServiceOps.DevolverKeepsProducts | GerenciamentoDeVendas/Application/Services/VendaService.cs:166-174 | A restocking loop that succeeds keeps every row's product. |
| VendaServiceOps.CancelarSemantics | GerenciamentoDeVendas/Application/Services/VendaService.cs:158-184 | An already cancelled sale fails with nothing restocked. A pending sale is cancelled without touching stock. A confirmed sale is restocked and cancelled. |
| VendaServiceOps.CancelarAsync | GerenciamentoDeVendas/Application/Services/VendaService.cs:158-184 | Throws as the specification does, or with `DbUpdateException` when the staged store breaks a unique index, and commits the restocked records and the cancelled sale together, only on success. |
| VendaServiceOps.DevolverItens | GerenciamentoDeVendas/Application/Services/VendaService.cs:166-174 | The loop over the sale's line objects returns what `DevolverEstoque` gives for their states. |
| VendaServiceOps.ConfirmThenCancelRestoresStock | GerenciamentoDeVendas/Application/Services/VendaService.cs:145-171 | Confirming a sale and then cancelling it succeeds, restores every stock quantity (the dates aside) and leaves the sale Cancelada with its lines. |
| VendaServiceOps.SaleEditsSaved | GerenciamentoDeVendas/Application/Services/VendaService.cs:55-125 | On a store that keeps the unique indexes, creating a sale and adding, removing or re-counting a line commit whenever their own checks pass: none of them touches the products or the stock table. |
| VendaServiceOps.StockMovesSaved | GerenciamentoDeVendas/Application/Services/VendaService.cs:127-184 | On such a store, confirming and cancelling commit whenever their own checks pass: they change stock quantities but keep each row's product. |

## Left out

- Async, EF Core and the database: each service call is one atomic step over the committed store. Two requests running at once, and the missing locking between two confirmations of one stock record, are not modelled.
- VendaServiceOps.AdicionarItemAsync: commit failures that come from EF Core change tracking are not modelled. When the product is new to the sale, the appended `ItemVenda` already carries the key its constructor set (ItemVenda.cs:36), that key is left convention-generated (ItemVendaConfiguration.cs:13), and `Atualizar` calls `_dbSet.Update` on the sale (RepositoryBase.cs:45). EF Core would then treat the new line as an existing, modified row, and the commit could throw `DbUpdateConcurrencyException`. The model commits the appended line. The merge case changes an existing row and is not affected.
- The database schema is modelled only through its two unique indexes, `Produtos.Codigo` (ProdutoConfiguration.cs:19-20) and `Estoques.ProdutoId` (EstoqueConfiguration.cs:18-19), which `UnitOfWork.Commit` checks. Foreign keys are not checked: every row a modelled use case writes refers to a customer, sale or product it has just looked up, and the only row removed, a sale line, is referred to by nothing. Column lengths are not checked either, since SQLite does not enforce them. When both indexes are broken at once, the model reports the code index; which one the database reports is not modelled.
- API controllers, DTOs, the `MapToDTO` projections, the read-only `Obter*` listing methods and `ProdutoService.ExisteAsync`: they are data shapes, projections and key lookups, not rules.
- ClienteService.cs is not part of this model. It calls Cliente and Contato members that Cliente.cs and Contato.cs do not declare, so it cannot be checked against visible code.
- `Dispose`, `RollbackAsync` and the date-range total query are not modelled. An exception is modelled as committing nothing, which is what discarding the unit of work achieves.
- Clock and identifiers: `DateTime.Now` is an `Instant` parameter, and `Guid.NewGuid()` is an id the caller passes in. Freshness of those ids is not checked, so adding a sale or product under an existing key overwrites it in the map.
- Integer width: quantities are mathematical integers. The int32 wrap-around of `AdicionarQuantidade` (Estoque.cs:45) and of the merged line quantity (Venda.cs:59) is not modelled, and neither is `decimal` overflow in `Subtotal`. Money is `real`: `decimal` rounding beyond its 28 significant digits is not modelled.
- Characters are ASCII only:
  - `\d` and `char.IsDigit` mean '0'..'9';
  - `char.IsWhiteSpace` means the six ASCII white-space characters;
  - `ToUpper`/`ToLower` map only the ASCII letters;
  - culture-specific casing and Unicode digits are not modelled.
- Text.Trim: its own contract gives only emptiness and the two end characters. That the result is the input with a white-space prefix and suffix cut off is stated by the lemma Text.TrimIsCut instead. Every member that mentions a trimmed field would otherwise carry that fact, and several proofs become too expensive.
- ContatoValue.EmailShapeIsPattern: the e-mail pattern is matched against the whole string. A trailing newline, which `$` in .NET would also accept, cannot reach it because the address is trimmed first.
- The masks of CPF, CNPJ, CEP and the phone numbers do model `$` matching before a final '\n'. Every caller in the program passes them a stored value of digits only, so that case never arises there.
- Non-nullable `string` parameters are never null in the model. `numero ?? string.Empty` in the CPF, CNPJ and Documento constructors therefore has no case of its own.
- Error messages: an `InvalidOperationException` is represented by a `Reason` naming the failure, not by its text.
- `GetHashCode` and the `==`/`!=` operators: the model's `Equals` functions are proved to be equality of the normalised values, and any function of a value gives equal results on equal values.
- DocumentoValue.GetFormatado: Documento.cs calls `CNPJ.FormataCNPJ`, which CNPJ.cs does not declare. The model uses the CNPJ mask of `GetFormatted` for it.
- `FromCPF`/`FromCNPJ` are the plain constructor, as in the source. DocumentoValue.CreateOfCpf and DocumentoValue.CreateOfCnpj state what they return, with no separate member.
- `Enum.Parse` of status and payment strings: the parsed enum is an input, so case-insensitive and numeric parsing are not modelled.
- The EF-only private constructors and the parameterless `CPF()` are not modelled. Stored entities are rebuilt with `FromState` constructors.
- Cliente's public setters for `Nome`, `Documento`, `Contatos` and `EnderecoSecundarios` are not modelled as operations; only `Ativa`, `Inativa` and `SetEnderecoPrincipal` are.
- Repository lookups return the first matching row (`FirstOrDefault`). The stock table is a sequence; a second record for one product is kept out by `CriarAsync`'s guard and, behind it, by the unique index on `ProdutoId`, which `Commit` enforces.
- VendaServiceOps.CriarSemantics and VendaServiceOps.AdicionarItemSemantics assume every product is stored under its own id, as the repository guarantees. The snapshot properties also assume the sale's existing lines already snapshot the products.
