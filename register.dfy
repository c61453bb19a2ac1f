/** The sign-up page (pages/register.js): the field hints, the validity of
    the form, and the submit that registers the user, logs in and stores the
    session. */
module Register {
  import opened Common
  import opened Api

  const MinSenha: nat := 4
  const MsgCamposInvalidos: string := "Preencha todos os campos corretamente."
  const MsgContaCriada: string := "Conta criada com sucesso! Redirecionando..."
  const MsgErroCriar: string := "Erro ao criar conta."

  /** `senhaInvalida`: the "too short" hint. */
  predicate SenhaInvalida(senha: string) {
    senha != "" && Utf16Length(senha) < MinSenha
  }

  /** `senhasDiferentes`: the "passwords differ" hint. */
  predicate SenhasDiferentes(senha: string, confirmarSenha: string) {
    senha != "" && confirmarSenha != "" && senha != confirmarSenha
  }

  /** `isFormValid`. */
  predicate IsFormValid(nome: string, email: string, senha: string, confirmarSenha: string) {
    if nome == "" || email == "" || senha == "" || confirmarSenha == "" then false
    else if Utf16Length(senha) < MinSenha then false
    else if senha != confirmarSenha then false
    else true
  }

  /** The form is valid exactly when every field is filled and neither hint
      is showing. */
  lemma ValidIffFilledAndNoHint(nome: string, email: string, senha: string, confirmarSenha: string)
    ensures IsFormValid(nome, email, senha, confirmarSenha) <==>
      nome != "" && email != "" && senha != "" && confirmarSenha != ""
      && !SenhaInvalida(senha) && !SenhasDiferentes(senha, confirmarSenha)
  {
  }

  /** A password of four or more characters passes the length rule whatever
      the characters, and one of three or fewer never does. */
  lemma LengthRuleByCharacters(senha: string)
    ensures |senha| >= 4 ==> Utf16Length(senha) >= MinSenha
    ensures Utf16Length(senha) >= MinSenha ==> |senha| >= 2
  {
  }

  /** What the login reply holds: the token and the user under `usuario` or
      `user` (None when absent). */
  datatype LoginReply = LoginReply(token: Option<string>, usuario: Option<JsonObject>, user: Option<JsonObject>)

  /** `loginResponse.usuario || loginResponse.user`. */
  function SessionUser(r: LoginReply): (u: Option<JsonObject>)
    ensures r.usuario.Some? ==> u == r.usuario
    ensures r.usuario.None? ==> u == r.user
  {
    if r.usuario.Some? then r.usuario else r.user
  }

  /** The entries of the sign-up `FormData`, in the order they are appended. */
  function RegisterFields(nome: string, email: string, senha: string, avatarFile: Option<string>): seq<FormEntry> {
    [FormEntry("nome", Text(nome)), FormEntry("email", Text(email)), FormEntry("senha", Text(senha))]
    + (if avatarFile.Some? then [FormEntry("file", File(avatarFile.value))] else [])
  }

  /** The `FormData` of the sign-up, appended field by field; the avatar goes
      under `file` only when one was chosen. */
  method BuildRegisterForm(nome: string, email: string, senha: string, avatarFile: Option<string>)
    returns (form: seq<FormEntry>)
    ensures form == RegisterFields(nome, email, senha, avatarFile)
    ensures |form| == if avatarFile.Some? then 4 else 3
    ensures form[..3] == [FormEntry("nome", Text(nome)), FormEntry("email", Text(email)), FormEntry("senha", Text(senha))]
    ensures avatarFile.Some? ==> form[3] == FormEntry("file", File(avatarFile.value))
    ensures forall k :: 0 <= k < |form| ==> form[k].name != "confirmarSenha"
  {
    form := [];
    form := form + [FormEntry("nome", Text(nome))];
    form := form + [FormEntry("email", Text(email))];
    form := form + [FormEntry("senha", Text(senha))];
    if avatarFile.Some? {
      form := form + [FormEntry("file", File(avatarFile.value))];
    }
  }

  /** What the submit leaves behind outside the page: the calls made, what
      went to storage, and where the router was sent. */
  datatype SubmitEffects = SubmitEffects(
    registerCall: Option<Request>,
    loginCall: Option<Request>,
    savedToken: Option<string>,
    savedUser: Option<JsonObject>,
    route: Option<string>)

  class RegisterPage {
    var nome: string
    var email: string
    var senha: string
    var confirmarSenha: string
    var avatarFile: Option<string>
    var loading: bool
    var erro: string
    var sucesso: string

    constructor ()
      ensures nome == "" && email == "" && senha == "" && confirmarSenha == ""
      ensures avatarFile == None && !loading && erro == "" && sucesso == ""
    {
      nome, email, senha, confirmarSenha := "", "", "", "";
      avatarFile, loading, erro, sucesso := None, false, "", "";
    }

    /** `handleSubmit`. An invalid form sets the error and calls nothing;
        otherwise it registers, logs in with the same e-mail and password,
        stores the token and the user only when present, and goes home. */
    method Submit(registerResp: Outcome<()>, loginResp: Outcome<LoginReply>) returns (fx: SubmitEffects)
      modifies this
      ensures nome == old(nome) && email == old(email) && senha == old(senha)
      ensures confirmarSenha == old(confirmarSenha) && avatarFile == old(avatarFile)
      ensures !old(IsFormValid(nome, email, senha, confirmarSenha)) ==>
        fx == SubmitEffects(None, None, None, None, None) && erro == MsgCamposInvalidos
        && sucesso == "" && loading == old(loading)
      ensures fx.registerCall.Some? <==> old(IsFormValid(nome, email, senha, confirmarSenha))
      ensures fx.registerCall.Some? ==>
        fx.registerCall == Some(RegisterUser(RegisterFields(nome, email, senha, avatarFile))) && !loading
      ensures fx.registerCall.Some? ==>
        forall e :: e in fx.registerCall.value.body.entries ==> e.name != "confirmarSenha"
      ensures fx.loginCall.Some? <==> fx.registerCall.Some? && registerResp.Ok?
      ensures fx.loginCall.Some? ==> fx.loginCall == Some(LoginUser(email, senha))
      ensures fx.route.Some? <==> fx.loginCall.Some? && loginResp.Ok?
      ensures fx.route.Some? ==>
        fx.route == Some("/") && sucesso == MsgContaCriada && erro == ""
        && (fx.savedToken.Some? <==> Truthy(loginResp.value.token))
        && (fx.savedToken.Some? ==> fx.savedToken == loginResp.value.token)
        && fx.savedUser == SessionUser(loginResp.value)
      ensures fx.route.None? ==> fx.savedToken.None? && fx.savedUser.None? && sucesso == ""
      ensures fx.registerCall.Some? && registerResp.Failed? ==> erro == ErrorText(registerResp.error, MsgErroCriar)
      ensures fx.loginCall.Some? && loginResp.Failed? ==> erro == ErrorText(loginResp.error, MsgErroCriar)
    {
      fx := SubmitEffects(None, None, None, None, None);
      erro := "";
      sucesso := "";
      if !IsFormValid(nome, email, senha, confirmarSenha) {
        erro := MsgCamposInvalidos;
        return;
      }
      loading := true;
      var form := BuildRegisterForm(nome, email, senha, avatarFile);
      fx := fx.(registerCall := Some(RegisterUser(form)));
      match registerResp {
        case Failed(e) =>
          erro := ErrorText(e, MsgErroCriar);
        case Ok(_) =>
          fx := fx.(loginCall := Some(LoginUser(email, senha)));
          match loginResp {
            case Failed(e) =>
              erro := ErrorText(e, MsgErroCriar);
            case Ok(reply) =>
              if Truthy(reply.token) {
                fx := fx.(savedToken := reply.token);
              }
              var usuario := SessionUser(reply);
              if usuario.Some? {
                fx := fx.(savedUser := usuario);
              }
              sucesso := MsgContaCriada;
              fx := fx.(route := Some("/"));
          }
      }
      loading := false;
    }
  }
}
