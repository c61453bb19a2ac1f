/** The password-reset page (pages/reset-password.js): reading the e-mail and
    token from the link, and the chain of checks before the reset call. */
module ResetPassword {
  import opened Common
  import opened Api
  import Uri
  import Register

  const MsgPreencha: string := "Preencha todos os campos."
  const MsgSenhaCurta: string := "A senha deve ter pelo menos 4 caracteres."
  const MsgNaoConferem: string := "As senhas não conferem."
  const MsgLinkInvalido: string := "Link inválido ou incompleto."
  const MsgRedefinida: string := "Senha redefinida com sucesso!"
  const MsgErroRedefinir: string := "Erro ao redefinir senha."

  /** A value of `router.query`: absent, one string, or several (a repeated
      parameter). */
  datatype QueryValue = Absent | Single(s: string) | Many(values: seq<string>)

  /** The checks of `handleSubmit`, in order: the error of the first that
      fails, None when all pass. */
  function FirstFailure(novaSenha: string, confirmarSenha: string, email: string, token: string): Option<string> {
    if novaSenha == "" || confirmarSenha == "" then Some(MsgPreencha)
    else if Utf16Length(novaSenha) < Register.MinSenha then Some(MsgSenhaCurta)
    else if novaSenha != confirmarSenha then Some(MsgNaoConferem)
    else if email == "" || token == "" then Some(MsgLinkInvalido)
    else None
  }

  /** The reset goes ahead exactly when both passwords are filled, long
      enough and equal, and the link gave both an e-mail and a token. */
  lemma AcceptedIff(novaSenha: string, confirmarSenha: string, email: string, token: string)
    ensures FirstFailure(novaSenha, confirmarSenha, email, token) == None <==>
      novaSenha != "" && confirmarSenha != "" && Utf16Length(novaSenha) >= 4
      && novaSenha == confirmarSenha && email != "" && token != ""
  {
  }

  /** Each error is reported only when every earlier check passed: a short
      password is reported only for filled fields, a mismatch only for a long
      enough password, a bad link only for a good password pair. */
  lemma ErrorsInOrder(novaSenha: string, confirmarSenha: string, email: string, token: string)
    ensures var f := FirstFailure(novaSenha, confirmarSenha, email, token);
      (f == Some(MsgSenhaCurta) ==> novaSenha != "" && confirmarSenha != "")
      && (f == Some(MsgNaoConferem) ==> novaSenha != "" && confirmarSenha != "" && Utf16Length(novaSenha) >= 4)
      && (f == Some(MsgLinkInvalido) ==> FirstFailure(novaSenha, confirmarSenha, "x", "x") == None)
      && ((email == "" || token == "") && f != Some(MsgLinkInvalido) ==> f.Some?)
  {
  }

  /** The password rules are those of sign-up: a pair passes here exactly
      when a sign-up form with that pair (and some name and e-mail) is valid. */
  lemma SameRulesAsSignUp(novaSenha: string, confirmarSenha: string, email: string, token: string)
    requires email != "" && token != ""
    ensures FirstFailure(novaSenha, confirmarSenha, email, token) == None <==>
      Register.IsFormValid("nome", email, novaSenha, confirmarSenha)
  {
  }

  class ResetPasswordPage {
    var email: string
    var token: string
    var novaSenha: string
    var confirmarSenha: string
    var erro: string
    var mensagem: string
    var loading: bool

    constructor ()
      ensures email == "" && token == "" && novaSenha == "" && confirmarSenha == ""
      ensures erro == "" && mensagem == "" && !loading
    {
      email, token, novaSenha, confirmarSenha := "", "", "", "";
      erro, mensagem, loading := "", "", false;
    }

    /** The effect that reads the link: a string token is kept as is, a
        string e-mail is URI-decoded; anything else leaves the field alone.
        An e-mail that does not decode throws, so it is not set either. */
    method ReadQuery(isReady: bool, qToken: QueryValue, qEmail: QueryValue)
      modifies this
      ensures novaSenha == old(novaSenha) && confirmarSenha == old(confirmarSenha)
      ensures erro == old(erro) && mensagem == old(mensagem) && loading == old(loading)
      ensures token == if isReady && qToken.Single? then qToken.s else old(token)
      ensures isReady && qEmail.Single? && Uri.DecodeURIComponent(qEmail.s).Some? ==>
        email == Uri.DecodeURIComponent(qEmail.s).value
      ensures !(isReady && qEmail.Single? && Uri.DecodeURIComponent(qEmail.s).Some?) ==> email == old(email)
    {
      if !isReady {
        return;
      }
      if qToken.Single? {
        token := qToken.s;
      }
      if qEmail.Single? {
        var decoded := Uri.DecodeURIComponent(qEmail.s);
        if decoded.Some? {
          email := decoded.value;
        }
      }
    }

    /** `handleSubmit`: the checks run in order and the first failure is
        reported; only when all pass is the reset requested. The server's
        `msg` is shown on success, and the user is then sent to the login. */
    method Submit(resp: Outcome<Option<string>>) returns (call: Option<Request>, route: Option<string>)
      modifies this
      ensures email == old(email) && token == old(token)
      ensures novaSenha == old(novaSenha) && confirmarSenha == old(confirmarSenha)
      ensures call.Some? <==> FirstFailure(novaSenha, confirmarSenha, email, token) == None
      ensures call.None? ==>
        erro == FirstFailure(novaSenha, confirmarSenha, email, token).value && mensagem == ""
        && route == None && loading == old(loading)
      ensures call.Some? ==> call == Some(Api.ResetPassword(email, token, novaSenha)) && !loading
      ensures call.Some? && resp.Ok? ==>
        erro == "" && mensagem == (if Truthy(resp.value) then resp.value.value else MsgRedefinida)
        && route == Some("/login")
      ensures call.Some? && resp.Failed? ==>
        erro == ErrorText(resp.error, MsgErroRedefinir) && mensagem == "" && route == None
    {
      call, route := None, None;
      erro := "";
      mensagem := "";
      if novaSenha == "" || confirmarSenha == "" {
        erro := MsgPreencha;
        return;
      }
      if Utf16Length(novaSenha) < Register.MinSenha {
        erro := MsgSenhaCurta;
        return;
      }
      if novaSenha != confirmarSenha {
        erro := MsgNaoConferem;
        return;
      }
      if email == "" || token == "" {
        erro := MsgLinkInvalido;
        return;
      }
      loading := true;
      call := Some(Api.ResetPassword(email, token, novaSenha));
      match resp {
        case Ok(msg) =>
          mensagem := if Truthy(msg) then msg.value else MsgRedefinida;
          route := Some("/login");
        case Failed(e) =>
          erro := ErrorText(e, MsgErroRedefinir);
      }
      loading := false;
    }
  }

  /** The router hands the page query values it has already decoded once, and
      the page decodes the e-mail a second time: a query value that is still
      encoded (an e-mail encoded twice in the link) fills the e-mail in clear. */
  method LinkEmailIsDecoded() {
    var page := new ResetPasswordPage();
    Uri.DecodeFormEncode("ana@x.com");
    page.ReadQuery(true, Single("abc"), Single(Uri.FormEncode("ana@x.com")));
    assert page.email == "ana@x.com" && page.token == "abc";
  }
}
