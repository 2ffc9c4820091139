/** src/app/components/Map/AddAlerta/AddAlerta.tsx: the form for reporting a
    new alert at a point picked on the map. Submitting checks the position
    and the stored identity token, finds (or creates) the user record for the
    token's e-mail, and sends the alert with a four-hour validity window.
    The services, the token decoding and the clock are parameters. */
module AddAlerta {
  import opened Wrappers
  import opened Text
  import opened Types
  import opened Patterns
  import opened Formulario
  import AuthContext

  const SemLocalizacao := "Por favor, selecione uma localização no mapa."
  const NaoAutenticado := "Usuário não autenticado. Por favor, faça login."
  const TokenInvalido := "Token inválido. Por favor, faça login novamente."
  const ErroCriarUsuario := "Erro ao criar usuário. Por favor, tente novamente."
  const SemUsuario := "Não foi possível identificar o usuário."
  const ErroAdicionar := "Erro ao adicionar alerta. Por favor, tente novamente."

  /** The storage key this component reads the token from. */
  const ChaveToken := "idToken"

  /** `4 * 60 * 60 * 1000`: the alert's validity, in milliseconds. */
  const QuatroHoras := 4 * 60 * 60 * 1000

  /** The five fields of the form. */
  const CamposAlerta: seq<FormField> := [
    FormField("titulo", true, Some(Validacao(Some(OneLine(1, 100)), "O título deve ter no máximo 100 caracteres")), false, []),
    FormField("descricao", true, Some(Validacao(Some(OneLine(1, 500)), "A descrição deve ter no máximo 500 caracteres")), false, []),
    FormField("nivel_risco", true, None, true, ["ALTO", "MEDIO", "BAIXO"]),
    FormField("uf", true, Some(Validacao(Some(TwoCapitals), "A UF deve ter 2 caracteres maiúsculos")), false, []),
    FormField("municipio", true, Some(Validacao(Some(OneLine(1, 100)), "O nome do município deve ter no máximo 100 caracteres")), false, [])
  ]

  /** The `response` of an HTTP error: its `status` and the `message` of its
      `data`, when present. */
  datatype RespostaHttp = RespostaHttp(status: Option<int>, dataMessage: Option<string>)

  /** A thrown value: whether it is an `Error` (and its `message`), whether it
      is an axios error, and its `response`. */
  datatype Erro = Erro(isError: bool, message: string, isAxiosError: bool, response: Option<RespostaHttp>)

  /** A user record; an `id` of 0 stands for a missing one (both are falsy). */
  datatype Usuario = Usuario(id: int)

  /** The body of `createUser`. */
  datatype NovoUsuario = NovoUsuario(nomeUsuario: string, email: string, tipoUsuario: string)

  /** The body of `createAlerta`. Times are milliseconds since the epoch
      (the source sends their `toISOString()`). */
  datatype AlertaPayload = AlertaPayload(
    titulo: string,
    descricao: string,
    nivelRisco: string,
    dataInicio: int,
    dataFim: int,
    latitude: real,
    longitude: real,
    uf: string,
    municipio: string,
    usuarioId: int)

  /** What the services answer: the decoded token payload (`JSON.parse(atob(…))`,
      or what it throws), `findByEmail`, `createUser` and `createAlerta`
      (`None` when it resolves). A `None` user is `null`. */
  datatype Servicos = Servicos(
    decodificar: string -> Result<map<string, string>, Erro>,
    findByEmail: string -> Result<Option<Usuario>, Erro>,
    createUser: NovoUsuario -> Result<Option<Usuario>, Erro>,
    createAlerta: AlertaPayload -> Option<Erro>)

  /** How a submission ends: refused before the `try` (the submitting flag is
      left alone), failed inside it with a message, or done. */
  datatype Fim = Recusado(mensagem: string) | Falhou(mensagem: string) | Concluido

  /** The end of a submission and the service calls it made. */
  datatype Desfecho = Desfecho(fim: Fim, criado: Option<NovoUsuario>, enviado: Option<AlertaPayload>)

  /** The outer `catch`: an `Error`'s message, else a generic one. */
  function MensagemDe(e: Erro): string {
    if e.isError then e.message else ErroAdicionar
  }

  /** The lookup's `catch` rethrows only an axios error whose response has a
      status other than 404; everything else counts as "not found". */
  predicate DeveRelancar(e: Erro) {
    e.isAxiosError && e.response.Some? && e.response.value.status.Some? && e.response.value.status.value != 404
  }

  /** The creation's `catch` turns the error into an `Error` carrying the
      server's message when there is one. */
  function MensagemCriacao(e: Erro): string {
    if e.isAxiosError && e.response.Some? && e.response.value.dataMessage.Some? then e.response.value.dataMessage.value
    else ErroCriarUsuario
  }

  /** `payload['custom:role'] || 'user'` */
  function Papel(claims: map<string, string>): (r: string)
    ensures r != ""
    ensures Valor(claims, "custom:role") == "" ==> r == "user"
    ensures Valor(claims, "custom:role") != "" ==> r == claims["custom:role"]
  {
    if Valor(claims, "custom:role") != "" then claims["custom:role"] else "user"
  }

  /** A validated form holds every field, within its rule. */
  lemma CamposAlertaValidos(data: map<string, string>)
    requires TodosValidos(CamposAlerta, data)
    ensures "titulo" in data && IsOneLine(data["titulo"]) && 1 <= |data["titulo"]| <= 100
    ensures "descricao" in data && IsOneLine(data["descricao"]) && 1 <= |data["descricao"]| <= 500
    ensures "nivel_risco" in data && data["nivel_risco"] != ""
    ensures "uf" in data && Matches(TwoCapitals, data["uf"])
    ensures "municipio" in data && IsOneLine(data["municipio"]) && 1 <= |data["municipio"]| <= 100
  {
    SubmittedField(CamposAlerta, data, 0);
    SubmittedField(CamposAlerta, data, 1);
    SubmittedField(CamposAlerta, data, 2);
    SubmittedField(CamposAlerta, data, 3);
    SubmittedField(CamposAlerta, data, 4);
  }

  /** With the select holding one of its options, the risk level is one of the three. */
  lemma NivelDoFormulario(data: map<string, string>)
    requires TodosValidos(CamposAlerta, data) && SelecoesValidas(CamposAlerta, data)
    ensures "nivel_risco" in data && data["nivel_risco"] in ["ALTO", "MEDIO", "BAIXO"]
  {
    SubmittedSelect(CamposAlerta, data, 2);
  }

  /** The description is a `textarea`, but its pattern's `.` refuses a line
      break: a two-line description gets the length message. */
  lemma DescricaoDeDuasLinhas()
    ensures ValidateField("Chuva\nforte", CamposAlerta[1]) == "A descrição deve ter no máximo 500 caracteres"
  {
    OneLineRejectsBreak(1, 500, "Chuva\nforte", 5);
  }

  /** The alert sent for a user with the given id. */
  function Payload(data: map<string, string>, pos: LatLng, usuarioId: int, agora: int): (p: AlertaPayload)
    requires TodosValidos(CamposAlerta, data)
    ensures p.dataFim == p.dataInicio + QuatroHoras && p.dataInicio == agora
    ensures p.latitude == pos.lat && p.longitude == pos.lng
    ensures Lookup(data, "uf") == Some(p.uf) && Lookup(data, "nivel_risco") == Some(p.nivelRisco)
    ensures Lookup(data, "titulo") == Some(p.titulo) && Lookup(data, "descricao") == Some(p.descricao)
    ensures Lookup(data, "municipio") == Some(p.municipio)
    ensures p.usuarioId == usuarioId
  {
    CamposAlertaValidos(data);
    TwoCapitalsUpper(data["uf"]);
    AlertaPayload(data["titulo"], data["descricao"], data["nivel_risco"], agora, agora + QuatroHoras,
                  pos.lat, pos.lng, ToUpper(data["uf"]), data["municipio"], usuarioId)
  }

  /** From the user record found or created on: refuse a record without an id,
      else send the alert. */
  function Enviar(usuario: Option<Usuario>, criado: Option<NovoUsuario>, data: map<string, string>, pos: LatLng,
                  s: Servicos, agora: int): (d: Desfecho)
    requires TodosValidos(CamposAlerta, data)
    ensures d.criado == criado && !d.fim.Recusado?
    ensures d.enviado.Some? <==> usuario.Some? && usuario.value.id != 0
    ensures d.enviado.Some? ==> d.enviado.value == Payload(data, pos, usuario.value.id, agora)
    ensures d.fim == Concluido <==> d.enviado.Some? && s.createAlerta(d.enviado.value).None?
  {
    if usuario.None? || usuario.value.id == 0 then Desfecho(Falhou(SemUsuario), criado, None)
    else
      var p := Payload(data, pos, usuario.value.id, agora);
      match s.createAlerta(p)
      case None => Desfecho(Concluido, criado, Some(p))
      case Some(e) => Desfecho(Falhou(MensagemDe(e)), criado, Some(p))
  }

  /** `handleSubmit(data)` as a function of the state it reads. */
  function Submeter(position: Option<LatLng>, data: map<string, string>, storage: map<string, string>,
                    s: Servicos, agora: int): (d: Desfecho)
    requires TodosValidos(CamposAlerta, data)
    ensures position.None? ==> d == Desfecho(Recusado(SemLocalizacao), None, None)
    ensures position.Some? && Valor(storage, ChaveToken) == "" ==> d == Desfecho(Recusado(NaoAutenticado), None, None)
    ensures d.fim.Recusado? ==> d.criado.None? && d.enviado.None?
    ensures d.criado.Some? ==>
      && Valor(storage, ChaveToken) != ""
      && s.decodificar(storage[ChaveToken]).Success?
      && var claims := s.decodificar(storage[ChaveToken]).value;
      && Lookup(claims, "cognito:username") == Some(d.criado.value.nomeUsuario)
      && Lookup(claims, "email") == Some(d.criado.value.email)
      && d.criado.value.tipoUsuario == Papel(claims)
      && d.criado.value.nomeUsuario != "" && d.criado.value.email != ""
      && var busca := s.findByEmail(d.criado.value.email);
      && (busca == Success(None) || (busca.Failure? && !DeveRelancar(busca.error)))
    ensures position.Some? && Valor(storage, ChaveToken) != "" && s.decodificar(storage[ChaveToken]).Failure? ==>
      d == Desfecho(Falhou(MensagemDe(s.decodificar(storage[ChaveToken]).error)), None, None)
    ensures position.Some? && Valor(storage, ChaveToken) != "" && s.decodificar(storage[ChaveToken]).Success? ==>
      var claims := s.decodificar(storage[ChaveToken]).value;
      Valor(claims, "cognito:username") == "" || Valor(claims, "email") == "" ==>
        d == Desfecho(Falhou(TokenInvalido), None, None)
    ensures d.enviado.Some? ==>
      && position.Some? && Valor(storage, ChaveToken) != ""
      && d.enviado.value.usuarioId != 0
      && d.enviado.value == Payload(data, position.value, d.enviado.value.usuarioId, agora)
      && s.decodificar(storage[ChaveToken]).Success?
      && var claims := s.decodificar(storage[ChaveToken]).value;
      && Valor(claims, "email") != ""
      && var busca := s.findByEmail(claims["email"]);
      && (if busca.Success? && busca.value.Some?
          then d.criado.None? && d.enviado.value.usuarioId == busca.value.value.id
          else d.criado.Some? && s.createUser(d.criado.value) == Success(Some(Usuario(d.enviado.value.usuarioId))))
    ensures position.Some? && Valor(storage, ChaveToken) != "" && s.decodificar(storage[ChaveToken]).Success? ==>
      var claims := s.decodificar(storage[ChaveToken]).value;
      Valor(claims, "cognito:username") != "" && Valor(claims, "email") != "" ==>
        var busca := s.findByEmail(claims["email"]);
        && (busca == Success(None) || (busca.Failure? && !DeveRelancar(busca.error)) ==>
              d.criado == Some(NovoUsuario(claims["cognito:username"], claims["email"], Papel(claims))))
        && (busca.Success? && busca.value.Some? ==>
              d.criado.None? && (d.enviado.Some? <==> busca.value.value.id != 0))
        && (busca.Failure? && DeveRelancar(busca.error) ==>
              d == Desfecho(Falhou(MensagemDe(busca.error)), None, None))
    ensures d.fim == Concluido <==> d.enviado.Some? && s.createAlerta(d.enviado.value).None?
  {
    if position.None? then Desfecho(Recusado(SemLocalizacao), None, None)
    else if Valor(storage, ChaveToken) == "" then Desfecho(Recusado(NaoAutenticado), None, None)
    else match s.decodificar(storage[ChaveToken])
      case Failure(e) => Desfecho(Falhou(MensagemDe(e)), None, None)
      case Success(claims) =>
        if Valor(claims, "cognito:username") == "" || Valor(claims, "email") == "" then
          Desfecho(Falhou(TokenInvalido), None, None)
        else Buscar(claims, data, position.value, s, agora)
  }

  /** With valid claims: look the user up by e-mail, create one when there
      is none, then send. */
  function Buscar(claims: map<string, string>, data: map<string, string>, pos: LatLng, s: Servicos, agora: int): (d: Desfecho)
    requires TodosValidos(CamposAlerta, data)
    requires Valor(claims, "cognito:username") != "" && Valor(claims, "email") != ""
    ensures !d.fim.Recusado?
    ensures var busca := s.findByEmail(claims["email"]);
      d.criado.Some? ==>
        && d.criado.value == NovoUsuario(claims["cognito:username"], claims["email"], Papel(claims))
        && (busca == Success(None) || (busca.Failure? && !DeveRelancar(busca.error)))
    ensures var busca := s.findByEmail(claims["email"]);
      d.enviado.Some? ==>
        && d.enviado.value.usuarioId != 0
        && d.enviado.value == Payload(data, pos, d.enviado.value.usuarioId, agora)
        && (if busca.Success? && busca.value.Some?
            then d.criado.None? && d.enviado.value.usuarioId == busca.value.value.id
            else d.criado.Some? && s.createUser(d.criado.value) == Success(Some(Usuario(d.enviado.value.usuarioId))))
    ensures var busca := s.findByEmail(claims["email"]);
      busca == Success(None) || (busca.Failure? && !DeveRelancar(busca.error)) ==>
        d.criado == Some(NovoUsuario(claims["cognito:username"], claims["email"], Papel(claims)))
    ensures var busca := s.findByEmail(claims["email"]);
      busca.Success? && busca.value.Some? ==> d.criado.None? && (d.enviado.Some? <==> busca.value.value.id != 0)
    ensures var busca := s.findByEmail(claims["email"]);
      busca.Failure? && DeveRelancar(busca.error) ==> d == Desfecho(Falhou(MensagemDe(busca.error)), None, None)
    ensures d.fim == Concluido <==> d.enviado.Some? && s.createAlerta(d.enviado.value).None?
  {
    match s.findByEmail(claims["email"])
    case Success(Some(u)) => Enviar(Some(u), None, data, pos, s, agora)
    case Failure(e) =>
      if DeveRelancar(e) then Desfecho(Falhou(MensagemDe(e)), None, None)
      else Criar(claims, data, pos, s, agora)
    case Success(None) => Criar(claims, data, pos, s, agora)
  }

  /** No user was found: create one from the token's claims, then go on. */
  function Criar(claims: map<string, string>, data: map<string, string>, pos: LatLng, s: Servicos, agora: int): (d: Desfecho)
    requires TodosValidos(CamposAlerta, data)
    requires "cognito:username" in claims && "email" in claims
    ensures d.criado == Some(NovoUsuario(claims["cognito:username"], claims["email"], Papel(claims)))
    ensures !d.fim.Recusado?
    ensures d.enviado.Some? ==>
      && d.enviado.value.usuarioId != 0
      && d.enviado.value == Payload(data, pos, d.enviado.value.usuarioId, agora)
      && s.createUser(d.criado.value) == Success(Some(Usuario(d.enviado.value.usuarioId)))
    ensures d.fim == Concluido <==> d.enviado.Some? && s.createAlerta(d.enviado.value).None?
  {
    var novo := NovoUsuario(claims["cognito:username"], claims["email"], Papel(claims));
    match s.createUser(novo)
    case Failure(e) => Desfecho(Falhou(MensagemCriacao(e)), Some(novo), None)
    case Success(u) => Enviar(u, Some(novo), data, pos, s, agora)
  }

  /** A lookup that fails in any way the `catch` swallows (a 404, or any
      error that is not an axios error with another status) is "no user
      yet": the user is created. */
  lemma NaoEncontradoCria(position: LatLng, data: map<string, string>, storage: map<string, string>,
                          s: Servicos, agora: int, claims: map<string, string>, e: Erro)
    requires TodosValidos(CamposAlerta, data)
    requires Valor(storage, ChaveToken) != "" && s.decodificar(storage[ChaveToken]) == Success(claims)
    requires Valor(claims, "cognito:username") != "" && Valor(claims, "email") != ""
    requires s.findByEmail(claims["email"]) == Failure(e) && !DeveRelancar(e)
    ensures Submeter(Some(position), data, storage, s, agora).criado ==
      Some(NovoUsuario(claims["cognito:username"], claims["email"], Papel(claims)))
  {
  }

  /** A lookup that fails with another status ends the submission with that
      error's message, and nothing is created or sent. */
  lemma OutroStatusFalha(position: LatLng, data: map<string, string>, storage: map<string, string>,
                         s: Servicos, agora: int, claims: map<string, string>, e: Erro)
    requires TodosValidos(CamposAlerta, data)
    requires Valor(storage, ChaveToken) != "" && s.decodificar(storage[ChaveToken]) == Success(claims)
    requires Valor(claims, "cognito:username") != "" && Valor(claims, "email") != ""
    requires s.findByEmail(claims["email"]) == Failure(e) && e.isError && DeveRelancar(e)
    ensures Submeter(Some(position), data, storage, s, agora) == Desfecho(Falhou(e.message), None, None)
  {
  }

  /** The named imports `findByEmail` and `createUser` of AddAlerta.tsx:9 have
      no matching export in userService.ts, which exports only the object
      `userService`. Both bindings are `undefined`, and calling one throws a
      `TypeError`, which is not an axios error. The lookup's `catch` swallows
      it, the creation's `catch` turns it into the generic message, and so,
      for valid claims, the submission fails there and sends nothing. */
  lemma ImportacoesAusentes(position: LatLng, data: map<string, string>, storage: map<string, string>,
                            s: Servicos, agora: int, claims: map<string, string>, typeError: Erro)
    requires TodosValidos(CamposAlerta, data)
    requires Valor(storage, ChaveToken) != "" && s.decodificar(storage[ChaveToken]) == Success(claims)
    requires Valor(claims, "cognito:username") != "" && Valor(claims, "email") != ""
    requires typeError.isError && !typeError.isAxiosError
    requires s.findByEmail(claims["email"]) == Failure(typeError)
    requires s.createUser(NovoUsuario(claims["cognito:username"], claims["email"], Papel(claims))) == Failure(typeError)
    ensures Submeter(Some(position), data, storage, s, agora) ==
      Desfecho(Falhou(ErroCriarUsuario), Some(NovoUsuario(claims["cognito:username"], claims["email"], Papel(claims))), None)
  {
  }

  /** With the services bound to `userService`'s methods, as intended: a user
      found by e-mail, with an id, and an accepted alert complete the
      submission, with the alert sent for that user and no user created. */
  lemma UsuarioEncontradoConclui(position: LatLng, data: map<string, string>, storage: map<string, string>,
                                 s: Servicos, agora: int, claims: map<string, string>, u: Usuario)
    requires TodosValidos(CamposAlerta, data)
    requires Valor(storage, ChaveToken) != "" && s.decodificar(storage[ChaveToken]) == Success(claims)
    requires Valor(claims, "cognito:username") != "" && Valor(claims, "email") != ""
    requires s.findByEmail(claims["email"]) == Success(Some(u)) && u.id != 0
    requires s.createAlerta(Payload(data, position, u.id, agora)).None?
    ensures Submeter(Some(position), data, storage, s, agora) ==
      Desfecho(Concluido, None, Some(Payload(data, position, u.id, agora)))
  {
  }

  /** Every alert sent satisfies the form's field rules, with the state code
      sent exactly as typed. */
  lemma EnviadoValido(position: Option<LatLng>, data: map<string, string>, storage: map<string, string>,
                      s: Servicos, agora: int)
    requires TodosValidos(CamposAlerta, data)
    ensures var d := Submeter(position, data, storage, s, agora);
      d.enviado.Some? ==>
        && UfTable.IsUfCode(d.enviado.value.uf)
        && 1 <= |d.enviado.value.titulo| <= 100 && 1 <= |d.enviado.value.municipio| <= 100
        && 1 <= |d.enviado.value.descricao| <= 500
        && d.enviado.value.dataFim - d.enviado.value.dataInicio == 14400000
  {
    CamposAlertaValidos(data);
  }

  /** The lookup, the creation and the sending, for valid claims. */
  method BuscarEEnviar(claims: map<string, string>, data: map<string, string>, pos: LatLng, s: Servicos, agora: int)
      returns (fim: Fim, criado: Option<NovoUsuario>, enviado: Option<AlertaPayload>)
    requires TodosValidos(CamposAlerta, data)
    requires Valor(claims, "cognito:username") != "" && Valor(claims, "email") != ""
    ensures Desfecho(fim, criado, enviado) == Buscar(claims, data, pos, s, agora)
  {
    criado, enviado := None, None;
    var usuario: Option<Usuario> := None;
    var busca := s.findByEmail(claims["email"]);
    if busca.Success? {
      usuario := busca.value;
    } else if DeveRelancar(busca.error) {
      return Falhou(MensagemDe(busca.error)), None, None;
    }
    if usuario.None? {
      var novo := NovoUsuario(claims["cognito:username"], claims["email"], Papel(claims));
      criado := Some(novo);
      var criacao := s.createUser(novo);
      if criacao.Failure? {
        return Falhou(MensagemCriacao(criacao.error)), criado, None;
      }
      usuario := criacao.value;
    }
    if usuario.None? || usuario.value.id == 0 {
      return Falhou(SemUsuario), criado, None;
    }
    CamposAlertaValidos(data);
    var alertaData := AlertaPayload(
      data["titulo"], data["descricao"], data["nivel_risco"], agora, agora + QuatroHoras,
      pos.lat, pos.lng, ToUpper(data["uf"]), data["municipio"], usuario.value.id);
    enviado := Some(alertaData);
    var falha := s.createAlerta(alertaData);
    fim := if falha.None? then Concluido else Falhou(MensagemDe(falha.value));
  }

  /** The component's state. */
  class AddAlertaState {
    var isModalOpen: bool
    var isSubmitting: bool
    var error: string
    var position: Option<LatLng>

    constructor ()
      ensures !isModalOpen && !isSubmitting && error == "" && position.None?
    {
      isModalOpen, isSubmitting, error, position := false, false, "", None;
    }

    /** A click on the map picks the position. */
    method SelecionarPosicao(p: LatLng)
      modifies this
      ensures position == Some(p)
      ensures isModalOpen == old(isModalOpen) && isSubmitting == old(isSubmitting) && error == old(error)
    {
      position := Some(p);
    }

    /** `handleAddAlerta`: send a signed-out user to the login page, else open the form. */
    method HandleAddAlerta(isAuthenticated: bool) returns (rota: Option<string>)
      modifies this
      ensures !isAuthenticated ==> rota == Some("/login") && isModalOpen == old(isModalOpen)
      ensures isAuthenticated ==> rota.None? && isModalOpen
      ensures isSubmitting == old(isSubmitting) && error == old(error) && position == old(position)
    {
      if !isAuthenticated {
        rota := Some("/login");
        return;
      }
      rota := None;
      isModalOpen := true;
    }

    /** `handleSubmit(data)`, called by the form with its validated values.
        Returns what was passed to `createUser` and to `createAlerta`. */
    method HandleSubmit(data: map<string, string>, storage: map<string, string>, s: Servicos, agora: int)
        returns (criado: Option<NovoUsuario>, enviado: Option<AlertaPayload>)
      requires TodosValidos(CamposAlerta, data)
      modifies this
      ensures var d := Submeter(old(position), data, storage, s, agora);
        && criado == d.criado && enviado == d.enviado
        && (d.fim.Recusado? ==> error == d.fim.mensagem && isSubmitting == old(isSubmitting))
        && (d.fim.Falhou? ==> error == d.fim.mensagem && !isSubmitting)
        && (d.fim.Concluido? ==> error == "" && !isSubmitting && !isModalOpen && position.None?)
        && (!d.fim.Concluido? ==> isModalOpen == old(isModalOpen) && position == old(position))
    {
      criado, enviado := None, None;
      if position.None? {
        error := SemLocalizacao;
        return;
      }
      var idToken := Valor(storage, ChaveToken);
      if idToken == "" {
        error := NaoAutenticado;
        return;
      }
      var pos := position.value;
      var lancado: Option<string> := None;   // the message the outer `catch` shows
      var decodificado := s.decodificar(idToken);
      if decodificado.Failure? {
        lancado := Some(MensagemDe(decodificado.error));
      } else {
        var claims := decodificado.value;
        var username := Valor(claims, "cognito:username");
        var userEmail := Valor(claims, "email");
        if username == "" || userEmail == "" {
          error := TokenInvalido;
        } else {
          isSubmitting := true;
          error := "";
          var fim;
          fim, criado, enviado := BuscarEEnviar(claims, data, pos, s, agora);
          assert Submeter(old(position), data, storage, s, agora) == Desfecho(fim, criado, enviado);
          match fim
          case Concluido =>
            isModalOpen := false;
            position := None;
          case Falhou(m) =>
            lancado := Some(m);
          case Recusado(_) =>
        }
      }
      if lancado.Some? {
        error := lancado.value;
      }
      isSubmitting := false;   // `finally`
    }
  }

  /** The session writes its token under 'token', but this form reads
      'idToken': a user who has just signed in, on a browser with no
      'idToken' stored, is signed in and still refused as not authenticated. */
  method LoginThenSubmit(storage: map<string, string>, parseJwt: string -> Option<map<string, string>>,
                         username: string, password: string,
                         authLogin: (string, string) -> Result<Option<string>, string>,
                         ponto: LatLng, data: map<string, string>, s: Servicos, agora: int)
      returns (autenticado: bool, erro: string, enviado: Option<AlertaPayload>)
    requires ChaveToken !in storage
    requires authLogin(username, password).Success?
    requires authLogin(username, password).value.Some? && authLogin(username, password).value.value != ""
    requires TodosValidos(CamposAlerta, data)
    ensures autenticado && erro == NaoAutenticado && enviado.None?
  {
    var sessao := new AuthContext.AuthState(storage, parseJwt);
    var falha := sessao.Login(username, password, authLogin);
    var form := new AddAlertaState();
    form.SelecionarPosicao(ponto);
    var criado;
    criado, enviado := form.HandleSubmit(data, sessao.storage, s, agora);
    autenticado, erro := sessao.isAuthenticated, form.error;
  }
}
