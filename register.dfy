/** src/app/register/page.tsx: the sign-up form. Four required fields, the
    e-mail and password patterns, and a submit that refuses mismatched
    passwords before calling `register`. */
module Register {
  import opened Wrappers
  import opened Text
  import opened Patterns
  import opened Formulario

  const MensagemSenha := "A senha deve ter pelo menos 8 caracteres, uma maiúscula, uma minúscula, um número e um caractere especial."
  const SenhasDiferentes := "As senhas não coincidem."
  const RotaConfirmacao := "/confirm-email"

  /** The four fields of the form. */
  const CamposRegistro: seq<FormField> := [
    FormField("username", true, None, false, []),
    FormField("email", true, Some(Validacao(Some(Email), "Digite um email válido")), false, []),
    FormField("password", true, Some(Validacao(Some(StrongPassword), MensagemSenha)), false, []),
    FormField("confirmPassword", true, None, false, [])
  ]

  /** What `register` rejected with: an object with a string `message`, or
      any other value, shown as `String(err)`. */
  datatype Rejeicao = ComMensagem(message: string) | OutroValor(texto: string)

  /** The arguments of the `register` call: `data.username`, `data.email`,
      `data.password` (undefined when the key is missing). */
  datatype Credenciais = Credenciais(username: Option<string>, email: Option<string>, password: Option<string>)

  /** What one submission did: the `register` call made, the `alert` shown,
      the route pushed. */
  datatype Desfecho = Desfecho(chamada: Option<Credenciais>, alerta: Option<string>, rota: Option<string>)

  /** The alert text for a failed registration. */
  function MensagemErro(r: Rejeicao): string {
    "Erro ao registrar: " + (match r case ComMensagem(m) => m case OutroValor(t) => t)
  }

  /** `handleSubmit(data)`, with `register`'s answer for these credentials as
      a parameter (`None` when it resolves). */
  function Submeter(data: map<string, string>, register: Credenciais -> Option<Rejeicao>): (d: Desfecho)
    ensures d.chamada.Some? <==> Lookup(data, "password") == Lookup(data, "confirmPassword")
    ensures d.chamada.None? ==> d == Desfecho(None, Some(SenhasDiferentes), None)
    ensures d.chamada.Some? ==>
      && d.chamada.value == Credenciais(Lookup(data, "username"), Lookup(data, "email"), Lookup(data, "password"))
      && (d.rota.Some? <==> register(d.chamada.value).None?)
      && (d.rota.Some? ==> d.rota.value == RotaConfirmacao && d.alerta.None?)
      && (d.rota.None? ==> d.alerta == Some(MensagemErro(register(d.chamada.value).value)))
  {
    if Lookup(data, "password") != Lookup(data, "confirmPassword") then
      Desfecho(None, Some(SenhasDiferentes), None)
    else
      var c := Credenciais(Lookup(data, "username"), Lookup(data, "email"), Lookup(data, "password"));
      match register(c)
      case None => Desfecho(Some(c), None, Some(RotaConfirmacao))
      case Some(r) => Desfecho(Some(c), Some(MensagemErro(r)), None)
  }

  /** Everything `register` is called with, from a form that passed
      validation: a non-empty user name, an e-mail the pattern accepts, and
      a strong password confirmed by an identical second entry. */
  lemma RegistroValidado(data: map<string, string>, register: Credenciais -> Option<Rejeicao>)
    requires TodosValidos(CamposRegistro, data)
    ensures var d := Submeter(data, register);
      d.chamada.Some? ==>
        && d.chamada.value.username.Some? && d.chamada.value.username.value != ""
        && d.chamada.value.email.Some? && IsEmail(d.chamada.value.email.value)
        && d.chamada.value.password.Some? && |d.chamada.value.password.value| >= 8
        && IsStrongPassword(d.chamada.value.password.value)
        && Lookup(data, "confirmPassword") == d.chamada.value.password
  {
    SubmittedField(CamposRegistro, data, 0);
    SubmittedField(CamposRegistro, data, 1);
    SubmittedField(CamposRegistro, data, 2);
  }

  /** The confirmation field is required but has no pattern of its own: only
      the submit's comparison ties it to the password. */
  lemma ConfirmacaoSemPadrao(value: string)
    requires value != ""
    ensures ValidateField(value, CamposRegistro[3]) == ""
  {
  }

  /** A password breaking the policy is refused with the policy's message. */
  lemma SenhaFracaRecusada(value: string)
    requires value != "" && !IsStrongPassword(value)
    ensures ValidateField(value, CamposRegistro[2]) == MensagemSenha
  {
  }

  /** An empty field is reported as required before any pattern is tried. */
  lemma VazioObrigatorio(i: nat)
    requires i < |CamposRegistro|
    ensures ValidateField("", CamposRegistro[i]) == Obrigatorio
  {
  }
}
