/**
 * The new-collaborator form (`NovoColaboradorForm`): a record of six text
 * fields updated one field at a time, the CPF field kept formatted as it
 * is typed, and `validateForm`, four checks in a fixed order whose first
 * failure decides the message.
 */
module NovoColaboradorForm {
  import opened JsText
  import opened Cpf

  datatype FormData = FormData(nome: string, cpf: string, cargo: string, email: string, tipo: string, senha: string)

  /** The keys `handleInputChange` is called with. */
  datatype Campo = Nome | CpfCampo | Cargo | Email | Tipo | Senha

  function Ler(f: FormData, c: Campo): string {
    match c
    case Nome => f.nome
    case CpfCampo => f.cpf
    case Cargo => f.cargo
    case Email => f.email
    case Tipo => f.tipo
    case Senha => f.senha
  }

  /** `{ ...prev, [field]: field === 'cpf' ? formatCPF(value) : value }`: the named field
      changes, a CPF is stored formatted, and every other field is kept. */
  function ComEntrada(f: FormData, campo: Campo, value: string): (r: FormData)
    ensures Ler(r, campo) == if campo == CpfCampo then FormatCPF(value) else value
    ensures forall c :: c != campo ==> Ler(r, c) == Ler(f, c)
  {
    match campo
    case Nome => f.(nome := value)
    case CpfCampo => f.(cpf := FormatCPF(value))
    case Cargo => f.(cargo := value)
    case Email => f.(email := value)
    case Tipo => f.(tipo := value)
    case Senha => f.(senha := value)
  }

  datatype Validacao = Valido | Invalido(mensagem: string)

  const NomeObrigatorio := "Nome é obrigatório"
  const EmailObrigatorio := "Email válido é obrigatório"
  const CpfOnzeDigitos := "CPF deve ter 11 dígitos"
  const SenhaCurta := "Senha deve ter pelo menos 4 caracteres"

  predicate NomeOk(f: FormData) { Trim(f.nome) != "" }
  predicate EmailOk(f: FormData) { Trim(f.email) != "" && '@' in f.email }
  /** The lengths are JavaScript's, counted in UTF-16 code units. */
  predicate CpfOk(f: FormData) { Utf16Length(StripNonDigits(f.cpf)) == 11 }
  predicate SenhaOk(f: FormData) { Utf16Length(f.senha) >= 4 }

  /** `validateForm`: valid exactly when all four checks pass; otherwise the message of the
      first check that fails, in the order name, e-mail, CPF, password. */
  function ValidateForm(f: FormData): (v: Validacao)
    ensures v == Valido <==> NomeOk(f) && EmailOk(f) && CpfOk(f) && SenhaOk(f)
    ensures v == Invalido(NomeObrigatorio) <==> !NomeOk(f)
    ensures v == Invalido(EmailObrigatorio) <==> NomeOk(f) && !EmailOk(f)
    ensures v == Invalido(CpfOnzeDigitos) <==> NomeOk(f) && EmailOk(f) && !CpfOk(f)
    ensures v == Invalido(SenhaCurta) <==> NomeOk(f) && EmailOk(f) && CpfOk(f) && !SenhaOk(f)
  {
    if Trim(f.nome) == "" then Invalido(NomeObrigatorio)
    else if Trim(f.email) == "" || '@' !in f.email then Invalido(EmailObrigatorio)
    else if Utf16Length(StripNonDigits(f.cpf)) != 11 then Invalido(CpfOnzeDigitos)
    else if Utf16Length(f.senha) < 4 then Invalido(SenhaCurta)
    else Valido
  }

  /** The blank test on the e-mail is implied by the '@' test: an address with an '@' is never blank. */
  lemma ArrobaNaoEhBranco(email: string)
    requires '@' in email
    ensures Trim(email) != ""
  {
    var i :| 0 <= i < |email| && email[i] == '@';
    assert !IsJsWhitespace(email[i]);
  }

  /** A form that passes validation, with its CPF field as `handleInputChange` leaves it,
      holds a CPF of the form ddd.ddd.ddd-dd. */
  lemma ValidoTemCpfFormatado(f: FormData, digitado: string)
    requires f.cpf == FormatCPF(digitado)
    requires ValidateForm(f) == Valido
    ensures IsCpfPattern(f.cpf)
  {
    FormatCPFKeepsDigits(digitado);
    DigitsUtf16Length(StripNonDigits(f.cpf));
    FormatCPFElevenDigits(digitado);
  }

  /** The CPF check counts digits, one code unit each: it asks for exactly eleven of them. */
  lemma CpfOkOnzeDigitos(f: FormData)
    ensures CpfOk(f) <==> |StripNonDigits(f.cpf)| == 11
  {
    DigitsUtf16Length(StripNonDigits(f.cpf));
  }

  /** The password length is counted in code units: two characters outside the Basic
      Multilingual Plane already make four, while three ordinary characters are too short. */
  lemma SenhaContaUnidadesUtf16(f: FormData)
    ensures f.senha == "\U{1F600}\U{1F600}" ==> SenhaOk(f)
    ensures f.senha == "abc" ==> !SenhaOk(f)
  {
    if f.senha == "\U{1F600}\U{1F600}" {
      assert f.senha[..1] == "\U{1F600}";
      assert IsAstral(f.senha[0]) && IsAstral(f.senha[1]);
    }
  }

  /** The form's state: `formData`, whose CPF field is always formatted. */
  class Formulario {
    var formData: FormData

    predicate Valid()
      reads this
    {
      FormatCPF(formData.cpf) == formData.cpf
    }

    constructor ()
      ensures Valid()
      ensures formData == FormData("", "", "", "", "colaborador", "")
    {
      formData := FormData("", "", "", "", "colaborador", "");
    }

    /** `handleInputChange`. */
    method HandleInputChange(campo: Campo, value: string)
      requires Valid()
      modifies this
      ensures Valid()
      ensures formData == ComEntrada(old(formData), campo, value)
    {
      formData := ComEntrada(formData, campo, value);
      FormatCPFIdempotent(value);
    }
  }
}
