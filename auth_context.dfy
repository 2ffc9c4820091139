/** src/app/context/AuthContext.tsx: the session. It keeps `isAuthenticated`
    and `user`, and the access token under the storage key 'token'; mount
    restores the session from that key, login writes it, logout removes it.
    The auth service's answers and the token decoding (`parseJwt`) are
    parameters; `localStorage` is the `storage` map. */
module AuthContext {
  import opened Wrappers

  /** The key the session is stored under. */
  const ChaveToken := "token"

  const SemAccessToken := "Token de acesso não encontrado na resposta da API."

  /** `{ username, email }`; either may be `undefined`. */
  datatype UsuarioSessao = UsuarioSessao(username: Option<string>, email: Option<string>)

  /** A string claim that is present and not empty (JavaScript truthiness). */
  predicate Presente(m: map<string, string>, k: string) {
    k in m && m[k] != ""
  }

  /** The user built from a decoded token, or `null` when decoding failed:
      `payload.username || payload.sub` and `payload.email`. */
  function UsuarioDe(payload: Option<map<string, string>>): (u: Option<UsuarioSessao>)
    ensures u.Some? <==> payload.Some?
    ensures payload.Some? && Presente(payload.value, "username") ==> u.value.username == Some(payload.value["username"])
    ensures payload.Some? && !Presente(payload.value, "username") ==> u.value.username == Lookup(payload.value, "sub")
    ensures payload.Some? ==> u.value.email == Lookup(payload.value, "email")
  {
    match payload
    case None => None
    case Some(p) =>
      Some(UsuarioSessao(if Presente(p, "username") then Some(p["username"]) else Lookup(p, "sub"), Lookup(p, "email")))
  }

  /** The session state of `AuthProvider` together with `localStorage`. */
  class AuthState {
    var isAuthenticated: bool
    var user: Option<UsuarioSessao>
    var storage: map<string, string>
    /** `parseJwt`: the token's payload, or `None` where it returns null. */
    const parseJwt: string -> Option<map<string, string>>

    /** A fresh provider over what the browser has stored. */
    constructor (storage: map<string, string>, parseJwt: string -> Option<map<string, string>>)
      ensures !isAuthenticated && user.None?
      ensures this.storage == storage && this.parseJwt == parseJwt
    {
      isAuthenticated := false;
      user := None;
      this.storage := storage;
      this.parseJwt := parseJwt;
    }

    /** The mount effect: a stored token signs the user in. */
    method Mount()
      modifies this
      ensures storage == old(storage)
      ensures Presente(storage, ChaveToken) ==> isAuthenticated && user == UsuarioDe(parseJwt(storage[ChaveToken]))
      ensures !Presente(storage, ChaveToken) ==> isAuthenticated == old(isAuthenticated) && user == old(user)
    {
      var token := Lookup(storage, ChaveToken);
      if token.Some? && token.value != "" {
        isAuthenticated := true;
        var payload := parseJwt(token.value);
        user := UsuarioDe(payload);
      }
    }

    /** `login(username, password)`: `authLogin` is the service's answer, the
        response's `tokens?.AccessToken` or a rejection. Returns what `login`
        throws, if anything. */
    method Login(username: string, password: string, authLogin: (string, string) -> Result<Option<string>, string>)
        returns (erro: Option<string>)
      modifies this
      ensures var r := authLogin(username, password);
        && (r.Success? && r.value.Some? && r.value.value != "" ==>
              && erro.None? && isAuthenticated
              && storage == old(storage)[ChaveToken := r.value.value]
              && user == UsuarioDe(parseJwt(r.value.value)))
        && (r.Success? && (r.value.None? || r.value.value == "") ==> erro == Some(SemAccessToken))
        && (r.Failure? ==> erro == Some(r.error))
        && (erro.Some? ==> storage == old(storage) && isAuthenticated == old(isAuthenticated) && user == old(user))
    {
      var response := authLogin(username, password);
      if response.Failure? {
        return Some(response.error);
      }
      var accessToken := response.value;
      if accessToken.Some? && accessToken.value != "" {
        storage := storage[ChaveToken := accessToken.value];
        isAuthenticated := true;
        var payload := parseJwt(accessToken.value);
        user := UsuarioDe(payload);
        erro := None;
      } else {
        erro := Some(SemAccessToken);
      }
    }

    /** `logout()`: `authLogout` is `None` when the service resolves, else
        its rejection, which is rethrown with nothing changed. */
    method Logout(authLogout: Option<string>) returns (erro: Option<string>)
      modifies this
      ensures erro == authLogout
      ensures authLogout.None? ==> !isAuthenticated && user.None? && storage == old(storage) - {ChaveToken}
      ensures authLogout.Some? ==> storage == old(storage) && isAuthenticated == old(isAuthenticated) && user == old(user)
    {
      if authLogout.Some? {
        return authLogout;
      }
      storage := storage - {ChaveToken};
      isAuthenticated := false;
      user := None;
      erro := None;
    }

    /** `register(...)` and `confirm(...)` only pass the service's rejection
        on; they touch no state (no `modifies`). */
    method Register(authRegister: Option<string>) returns (erro: Option<string>)
      ensures erro == authRegister
    {
      erro := authRegister;
    }

    method Confirm(authConfirm: Option<string>) returns (erro: Option<string>)
      ensures erro == authConfirm
    {
      erro := authConfirm;
    }
  }

  /** A login followed by a reload (a new provider over the same storage,
      mounted) gives back the same signed-in user. */
  method ReloadKeepsSession(storage: map<string, string>, parseJwt: string -> Option<map<string, string>>,
                            username: string, password: string,
                            authLogin: (string, string) -> Result<Option<string>, string>)
      returns (antes: Option<UsuarioSessao>, depois: Option<UsuarioSessao>, autenticado: bool)
    requires authLogin(username, password).Success?
    requires authLogin(username, password).value.Some? && authLogin(username, password).value.value != ""
    ensures autenticado && antes == depois
    ensures antes == UsuarioDe(parseJwt(authLogin(username, password).value.value))
  {
    var sessao := new AuthState(storage, parseJwt);
    var erro := sessao.Login(username, password, authLogin);
    antes := sessao.user;
    var recarregada := new AuthState(sessao.storage, parseJwt);
    recarregada.Mount();
    depois, autenticado := recarregada.user, recarregada.isAuthenticated;
  }

  /** After a logout a reload finds no session. */
  method ReloadAfterLogout(storage: map<string, string>, parseJwt: string -> Option<map<string, string>>)
      returns (autenticado: bool, user: Option<UsuarioSessao>)
    ensures !autenticado && user.None?
  {
    var sessao := new AuthState(storage, parseJwt);
    sessao.Mount();
    var erro := sessao.Logout(None);
    var recarregada := new AuthState(sessao.storage, parseJwt);
    recarregada.Mount();
    autenticado, user := recarregada.isAuthenticated, recarregada.user;
  }

  /** The user name falls back to the `sub` claim. */
  lemma UsernameFallsBackToSub(sub: string, email: string)
    ensures UsuarioDe(Some(map["sub" := sub, "email" := email])) == Some(UsuarioSessao(Some(sub), Some(email)))
    ensures UsuarioDe(Some(map["username" := "", "sub" := sub])) == Some(UsuarioSessao(Some(sub), None))
  {
  }
}
