/** The account page (pages/usuario.js): loading the user, normalising the
    record the backend returns, editing and saving the profile, and
    cancelling an edit. */
module Usuario {
  import opened Common
  import opened Api

  const MsgErroCarregar: string := "Erro ao carregar dados do usuário."
  const MsgAtualizado: string := "Dados atualizados com sucesso!"
  const MsgErroAtualizar: string := "Erro ao atualizar seus dados."

  /** The user as the backend returns it (None for an absent field). */
  datatype RawUser = RawUser(
    mongoId: Option<string>, id: Option<string>, nome: Option<string>, email: Option<string>,
    avatar: Option<string>, role: Option<string>, telefone: Option<string>, endereco: Option<string>,
    cep: Option<string>)

  /** The normalised user the page keeps and stores. */
  datatype User = User(
    id: Option<string>, nome: Option<string>, email: Option<string>, avatar: Option<string>,
    role: Option<string>, telefone: string, endereco: string, cep: string)

  /** `usuarioNormalizado`: the id from `_id`, else `id`; no avatar as null;
      an absent telephone, address or CEP as ''. Name, e-mail and role are
      copied as they are. */
  function Normalize(d: RawUser): (u: User)
    ensures Truthy(d.mongoId) ==> u.id == d.mongoId
    ensures !Truthy(d.mongoId) ==> u.id == d.id
    ensures u.avatar.None? || Truthy(u.avatar)
    ensures Truthy(d.avatar) ==> u.avatar == d.avatar
    ensures u.telefone == OrEmpty(d.telefone) && u.endereco == OrEmpty(d.endereco) && u.cep == OrEmpty(d.cep)
    ensures u.nome == d.nome && u.email == d.email && u.role == d.role
  {
    User(if Truthy(d.mongoId) then d.mongoId else d.id, d.nome, d.email,
         if Truthy(d.avatar) then d.avatar else None, d.role,
         OrEmpty(d.telefone), OrEmpty(d.endereco), OrEmpty(d.cep))
  }

  /** A stored user read back as a backend record. */
  function AsRaw(u: User): RawUser {
    RawUser(None, u.id, u.nome, u.email, u.avatar, u.role, Some(u.telefone), Some(u.endereco), Some(u.cep))
  }

  /** Normalising is idempotent: a normalised record normalises to itself. */
  lemma NormalizeIdempotent(d: RawUser)
    ensures Normalize(AsRaw(Normalize(d))) == Normalize(d)
  {
  }

  /** One text field of an update: appended only when it is filled. */
  function Filled(name: string, value: string): seq<FormEntry> {
    if value != "" then [FormEntry(name, Text(value))] else []
  }

  /** The avatar entry of an update: appended only when a file was chosen. */
  function Chosen(avatarFile: Option<string>): seq<FormEntry> {
    if avatarFile.Some? then [FormEntry("file", File(avatarFile.value))] else []
  }

  /** The entries of an update, in the order `handleSubmit` appends them. */
  function UpdateFields(nome: string, telefone: string, endereco: string, cep: string,
                        avatarFile: Option<string>): seq<FormEntry>
  {
    Filled("nome", nome) + Filled("telefone", telefone) + Filled("endereco", endereco) + Filled("cep", cep)
    + Chosen(avatarFile)
  }

  lemma InUpdateFields(x: FormEntry, nome: string, telefone: string, endereco: string, cep: string,
                       avatarFile: Option<string>)
    ensures x in UpdateFields(nome, telefone, endereco, cep, avatarFile) <==>
      (nome != "" && x == FormEntry("nome", Text(nome)))
      || (telefone != "" && x == FormEntry("telefone", Text(telefone)))
      || (endereco != "" && x == FormEntry("endereco", Text(endereco)))
      || (cep != "" && x == FormEntry("cep", Text(cep)))
      || (avatarFile.Some? && x == FormEntry("file", File(avatarFile.value)))
  {
    var a, b, c, d, f := Filled("nome", nome), Filled("telefone", telefone), Filled("endereco", endereco),
                         Filled("cep", cep), Chosen(avatarFile);
    assert UpdateFields(nome, telefone, endereco, cep, avatarFile) == a + b + c + d + f;
    assert x in a + b + c + d + f <==> x in a || x in b || x in c || x in d || x in f;
  }

  /** An update carries each text field exactly when it is filled, and the
      avatar exactly when one was chosen. */
  lemma UpdateFieldsSendsTheFilled(nome: string, telefone: string, endereco: string, cep: string,
                                   avatarFile: Option<string>)
    ensures FormEntry("nome", Text(nome)) in UpdateFields(nome, telefone, endereco, cep, avatarFile) <==> nome != ""
    ensures FormEntry("telefone", Text(telefone)) in UpdateFields(nome, telefone, endereco, cep, avatarFile)
      <==> telefone != ""
    ensures FormEntry("endereco", Text(endereco)) in UpdateFields(nome, telefone, endereco, cep, avatarFile)
      <==> endereco != ""
    ensures FormEntry("cep", Text(cep)) in UpdateFields(nome, telefone, endereco, cep, avatarFile) <==> cep != ""
    ensures FormEntry("file", File(OrEmpty(avatarFile))) in UpdateFields(nome, telefone, endereco, cep, avatarFile)
      <==> avatarFile.Some?
  {
    InUpdateFields(FormEntry("nome", Text(nome)), nome, telefone, endereco, cep, avatarFile);
    InUpdateFields(FormEntry("telefone", Text(telefone)), nome, telefone, endereco, cep, avatarFile);
    InUpdateFields(FormEntry("endereco", Text(endereco)), nome, telefone, endereco, cep, avatarFile);
    InUpdateFields(FormEntry("cep", Text(cep)), nome, telefone, endereco, cep, avatarFile);
    InUpdateFields(FormEntry("file", File(OrEmpty(avatarFile))), nome, telefone, endereco, cep, avatarFile);
  }

  /** Every entry of an update is one of the five the page may send, so the
      e-mail is never among them. */
  lemma UpdateFieldsNeverSendEmail(nome: string, telefone: string, endereco: string, cep: string,
                                   avatarFile: Option<string>)
    ensures forall e :: e in UpdateFields(nome, telefone, endereco, cep, avatarFile) ==>
      e.name in {"nome", "telefone", "endereco", "cep", "file"} && e.name != "email"
  {
    forall e | e in UpdateFields(nome, telefone, endereco, cep, avatarFile)
      ensures e.name in {"nome", "telefone", "endereco", "cep", "file"} && e.name != "email"
    {
      InUpdateFields(e, nome, telefone, endereco, cep, avatarFile);
    }
  }

  /** One entry per filled field, plus one for a chosen avatar. */
  lemma UpdateFieldsCount(nome: string, telefone: string, endereco: string, cep: string,
                          avatarFile: Option<string>)
    ensures |UpdateFields(nome, telefone, endereco, cep, avatarFile)| ==
      (if nome != "" then 1 else 0) + (if telefone != "" then 1 else 0)
      + (if endereco != "" then 1 else 0) + (if cep != "" then 1 else 0) + (if avatarFile.Some? then 1 else 0)
  {
  }

  /** The update `FormData`: only the filled fields among name, telephone,
      address and CEP, in that order, then the avatar when chosen. */
  method BuildUpdateForm(nome: string, telefone: string, endereco: string, cep: string, avatarFile: Option<string>)
    returns (form: seq<FormEntry>)
    ensures form == UpdateFields(nome, telefone, endereco, cep, avatarFile)
  {
    form := [];
    if nome != "" { form := form + [FormEntry("nome", Text(nome))]; }
    assert form == Filled("nome", nome);
    if telefone != "" { form := form + [FormEntry("telefone", Text(telefone))]; }
    assert form == Filled("nome", nome) + Filled("telefone", telefone);
    if endereco != "" { form := form + [FormEntry("endereco", Text(endereco))]; }
    assert form == Filled("nome", nome) + Filled("telefone", telefone) + Filled("endereco", endereco);
    if cep != "" { form := form + [FormEntry("cep", Text(cep))]; }
    assert form == Filled("nome", nome) + Filled("telefone", telefone) + Filled("endereco", endereco)
                   + Filled("cep", cep);
    if avatarFile.Some? { form := form + [FormEntry("file", File(avatarFile.value))]; }
  }

  datatype UserState = UserState(
    usuario: Option<User>,
    nome: string,
    email: string,
    telefone: string,
    endereco: string,
    cep: string,
    avatarPreview: Option<string>,
    avatarFile: Option<string>,
    loading: bool,
    mensagem: string,
    erro: string,
    isEditMode: bool)

  /** The form fields filled from a user. */
  function ShowingUser(s: UserState, u: User): UserState {
    s.(nome := OrEmpty(u.nome), email := OrEmpty(u.email), telefone := u.telefone,
       endereco := u.endereco, cep := u.cep, avatarPreview := u.avatar)
  }

  /** What a load or a save may leave outside the page. */
  datatype Effects = Effects(route: Option<string>, signedOut: bool, savedUser: Option<User>)

  class UserPage {
    var usuario: Option<User>
    var nome: string
    var email: string
    var telefone: string
    var endereco: string
    var cep: string
    var avatarPreview: Option<string>
    var avatarFile: Option<string>
    var loading: bool
    var mensagem: string
    var erro: string
    var isEditMode: bool

    function State(): UserState
      reads this
    {
      UserState(usuario, nome, email, telefone, endereco, cep, avatarPreview, avatarFile, loading, mensagem,
                erro, isEditMode)
    }

    /** The form shows exactly the fields of `u`. */
    predicate Shows(u: User)
      reads this
    {
      nome == OrEmpty(u.nome) && email == OrEmpty(u.email) && telefone == u.telefone
      && endereco == u.endereco && cep == u.cep && avatarPreview == u.avatar
    }

    constructor ()
      ensures State() == UserState(None, "", "", "", "", "", None, None, false, "", "", false)
    {
      usuario, nome, email, telefone, endereco, cep := None, "", "", "", "", "";
      avatarPreview, avatarFile, loading, mensagem, erro, isEditMode := None, None, false, "", "", false;
    }

    /** Fills the form fields from a user (the `set...` calls shared by the
        load, the save and the cancel). */
    method ShowUser(u: User)
      modifies this
      ensures State() == ShowingUser(old(State()), u) && Shows(u)
    {
      nome := OrEmpty(u.nome);
      email := OrEmpty(u.email);
      telefone := u.telefone;
      endereco := u.endereco;
      cep := u.cep;
      avatarPreview := u.avatar;
    }

    /** After a save: the refetched user is kept and shown, the chosen file
        dropped and edit mode left. */
    method ShowSaved(u: User)
      modifies this
      ensures State() == ShowingUser(old(State()).(usuario := Some(u), avatarFile := None,
                                                   mensagem := MsgAtualizado, isEditMode := false), u)
      ensures Shows(u)
    {
      usuario := Some(u);
      ShowUser(u);
      avatarFile := None;
      mensagem := MsgAtualizado;
      isEditMode := false;
    }

    /** The loading effect: without a token or a stored user the page goes to
        the login and fetches nothing. A 401 signs out and goes to the login;
        another failure only sets the error. */
    method Load(token: Option<string>, hasStoredUser: bool, resp: Outcome<RawUser>)
      returns (fetchCall: Option<Request>, fx: Effects)
      modifies this
      ensures fetchCall.Some? <==> Truthy(token) && hasStoredUser
      ensures fetchCall.None? ==> fx == Effects(Some("/login"), false, None) && State() == old(State())
      ensures fetchCall.Some? ==> fetchCall == Some(GetUsuario(token))
      ensures fetchCall.Some? && resp.Ok? ==>
        fx == Effects(None, false, Some(Normalize(resp.value)))
        && State() == ShowingUser(old(State()).(usuario := Some(Normalize(resp.value))), Normalize(resp.value))
        && Shows(Normalize(resp.value))
      ensures fetchCall.Some? && resp.Failed? && IsStatus(resp.error, 401) ==>
        fx == Effects(Some("/login"), true, None) && State() == old(State())
      ensures fetchCall.Some? && resp.Failed? && !IsStatus(resp.error, 401) ==>
        fx == Effects(None, false, None) && State() == old(State()).(erro := ErrorText(resp.error, MsgErroCarregar))
    {
      fx := Effects(None, false, None);
      if !Truthy(token) || !hasStoredUser {
        fx := fx.(route := Some("/login"));
        return None, fx;
      }
      fetchCall := Some(GetUsuario(token));
      match resp {
        case Ok(dados) =>
          var u := Normalize(dados);
          usuario := Some(u);
          ShowUser(u);
          fx := fx.(savedUser := Some(u));
        case Failed(e) =>
          if IsStatus(e, 401) {
            fx := fx.(signedOut := true, route := Some("/login"));
          } else {
            erro := ErrorText(e, MsgErroCarregar);
          }
      }
    }

    /** `handleAvatarChange`: a chosen file becomes the avatar and its
        preview; no file clears the file but keeps the preview. */
    method AvatarChange(file: Option<string>, previewUrl: string)
      modifies this
      ensures file.None? ==> State() == old(State()).(avatarFile := None)
      ensures file.Some? ==> State() == old(State()).(avatarFile := file, avatarPreview := Some(previewUrl))
    {
      if file.None? {
        avatarFile := None;
        return;
      }
      avatarFile := file;
      avatarPreview := Some(previewUrl);
    }

    /** `handleEditClick`. */
    method EditClick()
      modifies this
      ensures State() == old(State()).(erro := "", mensagem := "", isEditMode := true)
    {
      erro := "";
      mensagem := "";
      isEditMode := true;
    }

    /** `handleCancelEdit`: every field back to the stored user, the chosen
        file dropped, the messages cleared, and out of edit mode. */
    method CancelEdit()
      modifies this
      ensures usuario.Some? ==>
        Shows(usuario.value)
        && State() == ShowingUser(old(State()), usuario.value).(avatarFile := None, erro := "", mensagem := "",
                                                               isEditMode := false)
      ensures usuario.None? ==> State() == old(State()).(erro := "", mensagem := "", isEditMode := false)
    {
      if usuario.Some? {
        ShowUser(usuario.value);
        avatarFile := None;
      }
      erro := "";
      mensagem := "";
      isEditMode := false;
    }

    /** The update call of `handleSubmit` for the current fields. */
    method UpdateRequest(token: Option<string>) returns (request: Request)
      ensures request.endpoint == GetUsuario(token).endpoint && request.verb == "PUT" && request.token == token
      ensures request.body == FormBody(UpdateFields(nome, telefone, endereco, cep, avatarFile))
      ensures forall e :: e in request.body.entries ==> e.name != "email"
    {
      var form := BuildUpdateForm(nome, telefone, endereco, cep, avatarFile);
      request := UpdateUsuario(form, token);
      UpdateFieldsNeverSendEmail(nome, telefone, endereco, cep, avatarFile);
    }

    /** `handleSubmit`: without a token the page goes to the login. Otherwise
        it sends the filled fields, fetches the user again and shows it,
        drops the chosen file and leaves edit mode; a failure of either call
        only sets the error. */
    method Submit(token: Option<string>, updateResp: Outcome<()>, refetchResp: Outcome<RawUser>)
      returns (updateCall: Option<Request>, fetchCall: Option<Request>, fx: Effects)
      modifies this
      ensures !Truthy(token) ==>
        updateCall == None && fx == Effects(Some("/login"), false, None)
        && State() == old(State()).(erro := "", mensagem := "")
      ensures updateCall.Some? <==> Truthy(token)
      ensures updateCall.Some? ==>
        updateCall == Some(UpdateUsuario(UpdateFields(old(nome), old(telefone), old(endereco), old(cep),
                                                      old(avatarFile)), token))
        && updateCall.value.endpoint == GetUsuario(token).endpoint
        && (forall e :: e in updateCall.value.body.entries ==> e.name != "email")
        && !loading
      ensures fetchCall.Some? <==> updateCall.Some? && updateResp.Ok?
      ensures fetchCall.Some? ==> fetchCall == Some(GetUsuario(token))
      ensures fetchCall.Some? && refetchResp.Ok? ==>
        var u := Normalize(refetchResp.value);
        fx == Effects(None, false, Some(u)) && usuario == Some(u) && Shows(u)
        && avatarFile == None && mensagem == MsgAtualizado && !isEditMode && erro == ""
      ensures updateCall.Some? && updateResp.Failed? ==>
        fx == Effects(None, false, None)
        && State() == old(State()).(erro := ErrorText(updateResp.error, MsgErroAtualizar), mensagem := "",
                                    loading := false)
      ensures fetchCall.Some? && refetchResp.Failed? ==>
        fx == Effects(None, false, None)
        && State() == old(State()).(erro := ErrorText(refetchResp.error, MsgErroAtualizar), mensagem := "",
                                    loading := false)
    {
      updateCall, fetchCall, fx := None, None, Effects(None, false, None);
      erro := "";
      mensagem := "";
      if !Truthy(token) {
        fx := fx.(route := Some("/login"));
        return;
      }
      loading := true;
      var request := UpdateRequest(token);
      updateCall := Some(request);
      match updateResp {
        case Failed(e) =>
          erro := ErrorText(e, MsgErroAtualizar);
        case Ok(_) =>
          fetchCall := Some(GetUsuario(token));
          match refetchResp {
            case Failed(e) =>
              erro := ErrorText(e, MsgErroAtualizar);
            case Ok(dados) =>
              var u := Normalize(dados);
              fx := fx.(savedUser := Some(u));
              ShowSaved(u);
          }
      }
      loading := false;
    }
  }
}
