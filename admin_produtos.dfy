/** The administrator's catalogue page (pages/admin/produtos.js): the access
    guard, the product form with its closed / new / editing modes, the
    required-field check and decimal-comma normalisation before saving, and
    the confirmed deletion. */
module AdminProdutos {
  import opened Common
  import opened Api

  const MsgObrigatorios: string := "Preencha todos os campos obrigatórios."
  const MsgAtualizado: string := "Produto atualizado com sucesso!"
  const MsgCriado: string := "Produto criado com sucesso!"
  const MsgErroSalvar: string := "Erro ao salvar produto."
  const MsgExcluido: string := "Produto excluído com sucesso."
  const MsgErroExcluir: string := "Erro ao excluir produto."
  const MsgErroCarregar: string := "Erro ao carregar produtos."

  // --------------------------------------------------- decimal commas

  /** `String.prototype.replace(',', '.')`: only the first comma becomes a
      point; every other character, later commas included, is kept. */
  function ReplaceFirstComma(s: string): (r: string)
    ensures |r| == |s|
    ensures forall k :: 0 <= k < |s| ==> (r[k] != s[k] <==> s[k] == ',' && ',' !in s[..k])
    ensures forall k :: 0 <= k < |s| && r[k] != s[k] ==> r[k] == '.'
  {
    if s == [] then []
    else if s[0] == ',' then ['.'] + s[1..]
    else
      var rest := ReplaceFirstComma(s[1..]);
      assert forall k :: 1 <= k < |s| ==> s[..k] == [s[0]] + s[1..][..k - 1];
      [s[0]] + rest
  }

  /** A value typed with at most one (decimal) comma is sent with none. */
  lemma SingleCommaIsNormalised(s: string)
    requires forall i, j :: 0 <= i < j < |s| ==> !(s[i] == ',' && s[j] == ',')
    ensures ',' !in ReplaceFirstComma(s)
  {
    var r := ReplaceFirstComma(s);
    forall k | 0 <= k < |r|
      ensures r[k] != ','
    {
      assert s[k] == ',' ==> ',' !in s[..k];
    }
  }

  /** "12,50" is sent as "12.50"; "1,2,3" as "1.2,3". */
  lemma ReplaceFirstCommaExamples()
    ensures ReplaceFirstComma("12,50") == "12.50"
    ensures ReplaceFirstComma("1,2,3") == "1.2,3"
  {
    assert ReplaceFirstComma("12,50")[2] == '.';
    assert ReplaceFirstComma("1,2,3")[1] == '.';
    assert "1,2,3"[..3] == "1,2";
  }

  // -------------------------------------------------------- the form

  /** The twelve text fields of the form, as typed. */
  datatype Campos = Campos(
    codigo: string, nome: string, descricao: string, preco: string, estoque: string,
    categoria: string, cor: string, modelo: string, peso: string, largura: string,
    altura: string, comprimento: string)

  const EmptyCampos: Campos := Campos("", "", "", "", "", "", "", "", "", "", "", "")

  /** The fields in the order they are checked and sent. */
  function Values(c: Campos): (vs: seq<string>)
    ensures |vs| == 12
  {
    [c.codigo, c.nome, c.descricao, c.preco, c.estoque, c.categoria,
     c.cor, c.modelo, c.peso, c.largura, c.altura, c.comprimento]
  }

  const FieldNames: seq<string> :=
    ["codigo", "nome", "descricao", "preco", "estoque", "categoria",
     "cor", "modelo", "peso", "largura", "altura", "comprimento"]

  /** The positions of preco, peso, largura, altura and comprimento. */
  predicate IsDecimalField(k: int) {
    k == 3 || k == 8 || k == 9 || k == 10 || k == 11
  }

  /** The validation of `handleSubmit`: every one of the twelve is filled. */
  predicate RequiredFilled(c: Campos) {
    c.codigo != "" && c.nome != "" && c.descricao != "" && c.preco != "" && c.estoque != ""
    && c.categoria != "" && c.cor != "" && c.modelo != "" && c.peso != "" && c.largura != ""
    && c.altura != "" && c.comprimento != ""
  }

  /** The check fails exactly when some field is empty, whichever it is. */
  lemma RequiredFilledIff(c: Campos)
    ensures RequiredFilled(c) <==> forall k :: 0 <= k < 12 ==> Values(c)[k] != ""
    ensures !RequiredFilled(EmptyCampos)
  {
    if !RequiredFilled(c) {
      var vs := Values(c);
      assert vs[0] == "" || vs[1] == "" || vs[2] == "" || vs[3] == "" || vs[4] == "" || vs[5] == ""
        || vs[6] == "" || vs[7] == "" || vs[8] == "" || vs[9] == "" || vs[10] == "" || vs[11] == "";
    }
  }

  /** The twelve text fields of a save, in the order they are appended. */
  function ProductFields(c: Campos): seq<FormEntry> {
    [FormEntry("codigo", Text(c.codigo)), FormEntry("nome", Text(c.nome)),
     FormEntry("descricao", Text(c.descricao)), FormEntry("preco", Text(ReplaceFirstComma(c.preco))),
     FormEntry("estoque", Text(c.estoque)), FormEntry("categoria", Text(c.categoria)),
     FormEntry("cor", Text(c.cor)), FormEntry("modelo", Text(c.modelo)),
     FormEntry("peso", Text(ReplaceFirstComma(c.peso))), FormEntry("largura", Text(ReplaceFirstComma(c.largura))),
     FormEntry("altura", Text(ReplaceFirstComma(c.altura))),
     FormEntry("comprimento", Text(ReplaceFirstComma(c.comprimento)))]
  }

  /** Each field goes under its own name, the decimal ones with their first
      comma turned into a point and the others as typed. */
  lemma ProductFieldsInOrder(c: Campos)
    ensures |ProductFields(c)| == 12
    ensures forall k :: 0 <= k < 12 ==> ProductFields(c)[k].name == FieldNames[k]
    ensures forall k :: 0 <= k < 12 && IsDecimalField(k) ==>
      ProductFields(c)[k].value == Text(ReplaceFirstComma(Values(c)[k]))
    ensures forall k :: 0 <= k < 12 && !IsDecimalField(k) ==> ProductFields(c)[k].value == Text(Values(c)[k])
  {
  }

  /** The image entry of a save: under `file` when one was chosen. */
  function ImageEntry(imagemFile: Option<string>): seq<FormEntry> {
    if imagemFile.Some? then [FormEntry("file", File(imagemFile.value))] else []
  }

  /** Every entry of a save: the twelve fields, then the image. */
  function ProductForm(c: Campos, imagemFile: Option<string>): seq<FormEntry> {
    ProductFields(c) + ImageEntry(imagemFile)
  }

  /** The `FormData` of a save, appended field by field: the decimal fields
      with their first comma turned into a point, the others as typed, then
      the image under `file` when one was chosen. */
  method BuildProductForm(c: Campos, imagemFile: Option<string>) returns (form: seq<FormEntry>)
    ensures form == ProductForm(c, imagemFile)
    ensures |form| == if imagemFile.Some? then 13 else 12
    ensures forall k :: 0 <= k < 12 ==> form[k].name == FieldNames[k]
    ensures forall k :: 0 <= k < 12 && IsDecimalField(k) ==> form[k].value == Text(ReplaceFirstComma(Values(c)[k]))
    ensures forall k :: 0 <= k < 12 && !IsDecimalField(k) ==> form[k].value == Text(Values(c)[k])
    ensures imagemFile.Some? ==> form[12] == FormEntry("file", File(imagemFile.value))
  {
    form := [];
    form := form + [FormEntry("codigo", Text(c.codigo))];
    form := form + [FormEntry("nome", Text(c.nome))];
    form := form + [FormEntry("descricao", Text(c.descricao))];
    form := form + [FormEntry("preco", Text(ReplaceFirstComma(c.preco)))];
    form := form + [FormEntry("estoque", Text(c.estoque))];
    form := form + [FormEntry("categoria", Text(c.categoria))];
    form := form + [FormEntry("cor", Text(c.cor))];
    form := form + [FormEntry("modelo", Text(c.modelo))];
    form := form + [FormEntry("peso", Text(ReplaceFirstComma(c.peso)))];
    form := form + [FormEntry("largura", Text(ReplaceFirstComma(c.largura)))];
    form := form + [FormEntry("altura", Text(ReplaceFirstComma(c.altura)))];
    form := form + [FormEntry("comprimento", Text(ReplaceFirstComma(c.comprimento)))];
    assert form == ProductFields(c);
    ProductFieldsInOrder(c);
    if imagemFile.Some? {
      form := form + [FormEntry("file", File(imagemFile.value))];
    }
  }

  // ------------------------------------------------------ products

  /** A product of the catalogue. Numeric fields hold the text `String()`
      gives them, None when null. */
  datatype Produto = Produto(
    id: string, codigo: Option<string>, nome: Option<string>, descricao: Option<string>,
    preco: Option<string>, estoque: Option<string>, categoria: Option<string>, cor: Option<string>,
    modelo: Option<string>, peso: Option<string>, largura: Option<string>, altura: Option<string>,
    comprimento: Option<string>, imagem: Option<string>)

  /** The stored fields of a product, in the order of the form. */
  function Stored(p: Produto): (vs: seq<Option<string>>)
    ensures |vs| == 12
  {
    [p.codigo, p.nome, p.descricao, p.preco, p.estoque, p.categoria,
     p.cor, p.modelo, p.peso, p.largura, p.altura, p.comprimento]
  }

  /** The fields `preencherFormularioParaEdicao` puts in the form: each value
      as stored, and '' for a missing one. */
  function CamposOf(p: Produto): (c: Campos)
    ensures forall k :: 0 <= k < 12 ==> Values(c)[k] == OrEmpty(Stored(p)[k])
  {
    Campos(OrEmpty(p.codigo), OrEmpty(p.nome), OrEmpty(p.descricao), OrEmpty(p.preco),
           OrEmpty(p.estoque), OrEmpty(p.categoria), OrEmpty(p.cor), OrEmpty(p.modelo),
           OrEmpty(p.peso), OrEmpty(p.largura), OrEmpty(p.altura), OrEmpty(p.comprimento))
  }

  /** A product opened for editing can be saved again unchanged exactly
      when every one of its twelve fields is stored and not empty. */
  lemma ResavableIffComplete(p: Produto)
    ensures RequiredFilled(CamposOf(p)) <==>
      Truthy(p.codigo) && Truthy(p.nome) && Truthy(p.descricao) && Truthy(p.preco)
      && Truthy(p.estoque) && Truthy(p.categoria) && Truthy(p.cor) && Truthy(p.modelo)
      && Truthy(p.peso) && Truthy(p.largura) && Truthy(p.altura) && Truthy(p.comprimento)
  {
  }

  /** The stored user the guard looks at. */
  datatype StoredUser = StoredUser(role: Option<string>)

  /** The guard of the page: a token, a stored user, and the admin role. */
  predicate IsAdmin(token: Option<string>, user: Option<StoredUser>) {
    Truthy(token) && user.Some? && user.value.role == Some("admin")
  }

  /** The three modes of the product form. */
  datatype FormMode = Closed | NewProduct | Editing(id: string)

  datatype ProductsState = ProductsState(
    isAuthorized: bool,
    produtos: seq<Produto>,
    showForm: bool,
    editandoId: Option<string>,
    campos: Campos,
    imagemFile: Option<string>,
    imagemPreview: Option<string>,
    loading: bool,
    loadingProdutos: bool,
    erro: string,
    mensagem: string,
    showDeleteModal: bool,
    produtoParaExcluir: Option<Produto>)

  /** The state `carregarProdutos` leaves: the list (`lista || []`) or the
      error text, and the list no longer loading. */
  function AfterList(s: ProductsState, resp: Outcome<Option<seq<Produto>>>): ProductsState {
    match resp
    case Ok(lista) => s.(produtos := if lista.Some? then lista.value else [], loadingProdutos := false)
    case Failed(e) => s.(erro := ErrorText(e, MsgErroCarregar), loadingProdutos := false)
  }

  /** The state a successful save leaves before the reload: the message for
      its kind, and the form emptied and closed. */
  function SavedAndClosed(s: ProductsState, wasEditing: Option<string>): ProductsState {
    s.(mensagem := if Truthy(wasEditing) then MsgAtualizado else MsgCriado, campos := EmptyCampos,
       imagemFile := None, imagemPreview := None, editandoId := None, showForm := false)
  }

  /** The state a successful save leaves: the message for its kind, the form
      emptied and closed, then the list reloaded. */
  function AfterSave(s: ProductsState, wasEditing: Option<string>, listResp: Outcome<Option<seq<Produto>>>)
    : ProductsState
  {
    AfterList(SavedAndClosed(s, wasEditing), listResp)
  }

  /** After a save the form is closed and empty and says what was saved; the
      list is the reloaded one, or is kept with the load error shown; the
      delete dialog, the access flag and the busy flag are untouched. */
  lemma AfterSaveClosesTheForm(s: ProductsState, wasEditing: Option<string>,
                               listResp: Outcome<Option<seq<Produto>>>)
    ensures var t := AfterSave(s, wasEditing, listResp);
      !t.showForm && t.editandoId == None && t.campos == EmptyCampos
      && t.imagemFile == None && t.imagemPreview == None
      && t.mensagem == (if Truthy(wasEditing) then MsgAtualizado else MsgCriado)
      && (listResp.Ok? ==>
            t.produtos == (if listResp.value.Some? then listResp.value.value else []) && t.erro == s.erro)
      && (listResp.Failed? ==> t.produtos == s.produtos && t.erro == ErrorText(listResp.error, MsgErroCarregar))
      && !t.loadingProdutos && t.loading == s.loading && t.isAuthorized == s.isAuthorized
      && t.showDeleteModal == s.showDeleteModal && t.produtoParaExcluir == s.produtoParaExcluir
  {
  }

  /** A save and its reload leave the busy flag as they found it. */
  lemma AfterSaveKeepsLoading(s: ProductsState, b: bool, wasEditing: Option<string>,
                              listResp: Outcome<Option<seq<Produto>>>)
    ensures AfterSave(s.(loading := b), wasEditing, listResp) == AfterSave(s, wasEditing, listResp).(loading := b)
  {
  }

  /** The state an accepted delete leaves: the message, the dialog closed
      and the product forgotten, then the list reloaded. */
  function AfterDelete(s: ProductsState, listResp: Outcome<Option<seq<Produto>>>): ProductsState {
    AfterList(s.(mensagem := MsgExcluido, showDeleteModal := false, produtoParaExcluir := None), listResp)
  }

  /** After a delete the dialog is closed and the product forgotten, the
      message says so, and the list is the reloaded one or is kept with the
      load error shown; the form, access and busy flag are untouched. */
  lemma AfterDeleteClosesTheDialog(s: ProductsState, listResp: Outcome<Option<seq<Produto>>>)
    ensures var t := AfterDelete(s, listResp);
      !t.showDeleteModal && t.produtoParaExcluir == None && t.mensagem == MsgExcluido
      && (listResp.Ok? ==>
            t.produtos == (if listResp.value.Some? then listResp.value.value else []) && t.erro == s.erro)
      && (listResp.Failed? ==> t.produtos == s.produtos && t.erro == ErrorText(listResp.error, MsgErroCarregar))
      && !t.loadingProdutos && t.loading == s.loading && t.isAuthorized == s.isAuthorized
      && t.showForm == s.showForm && t.editandoId == s.editandoId && t.campos == s.campos
      && t.imagemFile == s.imagemFile && t.imagemPreview == s.imagemPreview
  {
  }

  /** A delete and its reload leave the busy flag as they found it. */
  lemma AfterDeleteKeepsLoading(s: ProductsState, b: bool, listResp: Outcome<Option<seq<Produto>>>)
    ensures AfterDelete(s.(loading := b), listResp) == AfterDelete(s, listResp).(loading := b)
  {
  }

  class AdminProductsPage {
    var isAuthorized: bool
    var produtos: seq<Produto>
    var showForm: bool
    var editandoId: Option<string>
    var campos: Campos
    var imagemFile: Option<string>
    var imagemPreview: Option<string>
    var loading: bool
    var loadingProdutos: bool
    var erro: string
    var mensagem: string
    var showDeleteModal: bool
    var produtoParaExcluir: Option<Produto>

    function State(): ProductsState
      reads this
    {
      ProductsState(isAuthorized, produtos, showForm, editandoId, campos, imagemFile, imagemPreview,
                    loading, loadingProdutos, erro, mensagem, showDeleteModal, produtoParaExcluir)
    }

    /** An edited product id is only ever held while the form is open. */
    predicate Valid()
      reads this
    {
      !showForm ==> editandoId.None?
    }

    /** The mode the form is in, as the header button reads it. */
    function Mode(): FormMode
      reads this
    {
      if !showForm then Closed
      else if Truthy(editandoId) then Editing(editandoId.value)
      else NewProduct
    }

    /** The header button: "Novo Produto" when closed, "Cancelar" in new
        mode, "Cancelar edição" when editing. */
    function HeaderButtonLabel(): (text: string)
      reads this
      ensures Mode() == Closed ==> text == "Novo Produto"
      ensures Mode() == NewProduct ==> text == "Cancelar"
      ensures Mode().Editing? ==> text == "Cancelar edição"
    {
      if showForm then (if Truthy(editandoId) then "Cancelar edição" else "Cancelar") else "Novo Produto"
    }

    constructor ()
      ensures Valid() && Mode() == Closed
      ensures State() == ProductsState(false, [], false, None, EmptyCampos, None, None, false, false, "", "",
                                       false, None)
    {
      isAuthorized, produtos, showForm, editandoId := false, [], false, None;
      campos, imagemFile, imagemPreview := EmptyCampos, None, None;
      loading, loadingProdutos, erro, mensagem := false, false, "", "";
      showDeleteModal, produtoParaExcluir := false, None;
    }

    /** `carregarProdutos`: the list (`lista || []`) or the error text. */
    method CarregarProdutos(resp: Outcome<Option<seq<Produto>>>) returns (call: Request)
      modifies this
      ensures call == GetProdutos([])
      ensures State() == AfterList(old(State()), resp)
    {
      loadingProdutos := true;
      call := GetProdutos([]);
      match resp {
        case Ok(lista) => produtos := if lista.Some? then lista.value else [];
        case Failed(e) => erro := ErrorText(e, MsgErroCarregar);
      }
      loadingProdutos := false;
    }

    /** The effect on entering the page: anyone but a logged-in admin is sent
        home without loading anything. */
    method CheckAccess(token: Option<string>, user: Option<StoredUser>, listResp: Outcome<Option<seq<Produto>>>)
      returns (route: Option<string>, listCall: Option<Request>)
      modifies this
      ensures !IsAdmin(token, user) ==> route == Some("/") && listCall == None && State() == old(State())
      ensures IsAdmin(token, user) ==>
        route == None && listCall == Some(GetProdutos([]))
        && State() == AfterList(old(State()).(isAuthorized := true), listResp)
    {
      if !IsAdmin(token, user) {
        return Some("/"), None;
      }
      isAuthorized := true;
      var call := CarregarProdutos(listResp);
      route, listCall := None, Some(call);
    }

    /** `limparFormulario`: every field empty, no image, not editing. */
    method LimparFormulario()
      modifies this
      ensures State() == old(State()).(campos := EmptyCampos, imagemFile := None, imagemPreview := None,
                                       editandoId := None)
    {
      campos := EmptyCampos;
      imagemFile := None;
      imagemPreview := None;
      editandoId := None;
    }

    /** `preencherFormularioParaEdicao`: the product's fields, no new image,
        and its current image as the preview. The edited id is left alone. */
    method PreencherFormularioParaEdicao(produto: Produto)
      modifies this
      ensures State() == old(State()).(campos := CamposOf(produto), imagemFile := None,
                                       imagemPreview := if Truthy(produto.imagem) then produto.imagem else None)
    {
      campos := CamposOf(produto);
      imagemFile := None;
      imagemPreview := if Truthy(produto.imagem) then produto.imagem else None;
    }

    /** `handleEditarProduto`: opens the form on the product. */
    method EditarProduto(produto: Produto)
      requires Valid()
      modifies this
      ensures Valid() && showForm
      ensures Truthy(Some(produto.id)) ==> Mode() == Editing(produto.id)
      ensures State() == old(State()).(erro := "", mensagem := "", editandoId := Some(produto.id),
                                       campos := CamposOf(produto), imagemFile := None,
                                       imagemPreview := if Truthy(produto.imagem) then produto.imagem else None,
                                       showForm := true)
    {
      erro := "";
      mensagem := "";
      editandoId := Some(produto.id);
      PreencherFormularioParaEdicao(produto);
      showForm := true;
    }

    /** `handleClickNovoProduto`: from closed or editing it opens an empty
        form in new mode; from new mode it empties and closes the form. */
    method ClickNovoProduto()
      requires Valid()
      modifies this
      ensures Valid()
      ensures old(Mode()) == NewProduct ==> Mode() == Closed
      ensures old(Mode()) != NewProduct ==> Mode() == NewProduct
      ensures old(Mode()) == NewProduct ==>
        State() == old(State()).(campos := EmptyCampos, imagemFile := None, imagemPreview := None,
                                 editandoId := None, showForm := false)
      ensures old(Mode()) != NewProduct ==>
        State() == old(State()).(campos := EmptyCampos, imagemFile := None, imagemPreview := None,
                                 editandoId := None, erro := "", mensagem := "", showForm := true)
    {
      if !showForm || Truthy(editandoId) {
        LimparFormulario();
        erro := "";
        mensagem := "";
        showForm := true;
      } else {
        LimparFormulario();
        showForm := false;
      }
    }

    /** The form's own cancel button: empty and close. */
    method CancelarFormulario()
      modifies this
      ensures Valid() && Mode() == Closed
      ensures State() == old(State()).(campos := EmptyCampos, imagemFile := None, imagemPreview := None,
                                       editandoId := None, showForm := false)
    {
      LimparFormulario();
      showForm := false;
    }

    /** `handleSubmit`. Without a token the user is sent to the login; with a
        required field empty the error is set; in both cases nothing is
        saved. Otherwise an edited product is updated and a new one created;
        after a successful save the form is emptied and closed and the list
        reloaded. */
    method Submit(token: Option<string>, saveResp: Outcome<()>, listResp: Outcome<Option<seq<Produto>>>)
      returns (route: Option<string>, saveCall: Option<Request>, listCall: Option<Request>)
      requires Valid()
      modifies this
      ensures Valid()
      ensures !Truthy(token) ==>
        route == Some("/login") && saveCall == None && State() == old(State()).(erro := "", mensagem := "")
      ensures Truthy(token) && !old(RequiredFilled(campos)) ==>
        route == None && saveCall == None && State() == old(State()).(erro := MsgObrigatorios, mensagem := "")
      ensures saveCall.Some? <==> Truthy(token) && old(RequiredFilled(campos))
      ensures saveCall.Some? && Truthy(old(editandoId)) ==>
        saveCall.value.verb == "PUT" && saveCall.value.endpoint == ProdutoEndpoint(old(editandoId).value)
      ensures saveCall.Some? && !Truthy(old(editandoId)) ==>
        saveCall.value.verb == "POST" && saveCall.value.endpoint == ProdutosPath
      ensures saveCall.Some? ==>
        route == None && saveCall.value.token == token
        && saveCall.value.body == FormBody(ProductForm(old(campos), old(imagemFile)))
      ensures saveCall.Some? ==> (saveCall.value.verb == "PUT" <==> old(Mode()).Editing?)
      ensures listCall.Some? <==> saveCall.Some? && saveResp.Ok?
      ensures listCall.Some? ==>
        listCall == Some(GetProdutos([])) && Mode() == Closed
        && State() == AfterSave(old(State()).(erro := "", mensagem := ""), old(editandoId), listResp)
                        .(loading := false)
      ensures saveCall.Some? && saveResp.Failed? ==>
        listCall == None
        && State() == old(State()).(erro := ErrorText(saveResp.error, MsgErroSalvar), mensagem := "", loading := false)
    {
      saveCall, listCall := None, None;
      var ok;
      route, ok := ValidarSalvamento(token);
      if !ok {
        return;
      }
      var request;
      request, listCall := Salvar(token, saveResp, listResp);
      saveCall := Some(request);
    }

    /** The save itself, once the checks passed: the request for the form as
        it stands, then on success the closing steps and the reload, and on
        failure the error; the busy flag is cleared either way. */
    method Salvar(token: Option<string>, saveResp: Outcome<()>, listResp: Outcome<Option<seq<Produto>>>)
      returns (saveCall: Request, listCall: Option<Request>)
      requires Valid()
      modifies this
      ensures Valid()
      ensures Truthy(old(editandoId)) ==>
        saveCall.verb == "PUT" && saveCall.endpoint == ProdutoEndpoint(old(editandoId).value)
      ensures !Truthy(old(editandoId)) ==> saveCall.verb == "POST" && saveCall.endpoint == ProdutosPath
      ensures saveCall.token == token && saveCall.body == FormBody(ProductForm(old(campos), old(imagemFile)))
      ensures listCall.Some? <==> saveResp.Ok?
      ensures saveResp.Ok? ==>
        listCall == Some(GetProdutos([])) && Mode() == Closed
        && State() == AfterSave(old(State()), old(editandoId), listResp).(loading := false)
      ensures saveResp.Failed? ==>
        State() == old(State()).(erro := ErrorText(saveResp.error, MsgErroSalvar), loading := false)
    {
      saveCall := SaveRequest(token);
      listCall := AplicarResposta(editandoId, saveResp, listResp);
    }

    /** What follows the save request: `loading` is held while the answer is
        awaited; a success closes the form and reloads the list, a failure
        only sets the error. */
    method AplicarResposta(wasEditing: Option<string>, saveResp: Outcome<()>,
                           listResp: Outcome<Option<seq<Produto>>>)
      returns (listCall: Option<Request>)
      requires Valid()
      modifies this
      ensures Valid()
      ensures listCall.Some? <==> saveResp.Ok?
      ensures saveResp.Ok? ==>
        listCall == Some(GetProdutos([])) && Mode() == Closed
        && State() == AfterSave(old(State()), wasEditing, listResp).(loading := false)
      ensures saveResp.Failed? ==>
        State() == old(State()).(erro := ErrorText(saveResp.error, MsgErroSalvar), loading := false)
    {
      match saveResp {
        case Ok(_) =>
          var call := SalvamentoAceito(wasEditing, listResp);
          listCall := Some(call);
        case Failed(e) =>
          loading := true;
          erro := ErrorText(e, MsgErroSalvar);
          loading := false;
          listCall := None;
      }
    }

    /** A save the backend accepted, with `loading` held around it. */
    method SalvamentoAceito(wasEditing: Option<string>, listResp: Outcome<Option<seq<Produto>>>)
      returns (listCall: Request)
      requires Valid()
      modifies this
      ensures Valid() && Mode() == Closed
      ensures listCall == GetProdutos([])
      ensures State() == AfterSave(old(State()), wasEditing, listResp).(loading := false)
    {
      ghost var before := State();
      loading := true;
      ghost var reloaded := AfterSave(before.(loading := true), wasEditing, listResp);
      listCall := ConcluirSalvamento(wasEditing, listResp);
      assert State() == reloaded && !showForm && editandoId.None?;
      loading := false;
      AfterSaveKeepsLoading(before, true, wasEditing, listResp);
      assert State() == reloaded.(loading := false);
    }

    /** The checks `handleSubmit` makes before saving: both messages are
        cleared; without a token the user is sent to the login, and with a
        required field empty the error is set. */
    method ValidarSalvamento(token: Option<string>) returns (route: Option<string>, ok: bool)
      modifies this
      ensures ok <==> Truthy(token) && RequiredFilled(campos)
      ensures route == if Truthy(token) then None else Some("/login")
      ensures State() == old(State()).(erro := if Truthy(token) && !RequiredFilled(campos) then MsgObrigatorios else "",
                                       mensagem := "")
    {
      erro := "";
      mensagem := "";
      ok := false;
      if !Truthy(token) {
        route := Some("/login");
        return;
      }
      route := None;
      if !RequiredFilled(campos) {
        erro := MsgObrigatorios;
        return;
      }
      ok := true;
    }

    /** What `handleSubmit` does after a successful save: the message for
        the kind of save, the form emptied and closed, the list reloaded. */
    method ConcluirSalvamento(wasEditing: Option<string>, listResp: Outcome<Option<seq<Produto>>>)
      returns (listCall: Request)
      modifies this
      ensures Valid() && Mode() == Closed
      ensures listCall == GetProdutos([])
      ensures State() == AfterSave(old(State()), wasEditing, listResp)
    {
      FecharAposSalvar(wasEditing);
      listCall := CarregarProdutos(listResp);
    }

    /** The message for the kind of save, then `limparFormulario` and the
        form closed. */
    method FecharAposSalvar(wasEditing: Option<string>)
      modifies this
      ensures State() == SavedAndClosed(old(State()), wasEditing)
    {
      mensagem := if Truthy(wasEditing) then MsgAtualizado else MsgCriado;
      LimparFormulario();
      showForm := false;
    }

    /** The save `handleSubmit` sends: the product's FormData, as an update
        of the edited id or as a new product. */
    method SaveRequest(token: Option<string>) returns (request: Request)
      ensures Truthy(editandoId) ==>
        request.verb == "PUT" && request.endpoint == ProdutoEndpoint(editandoId.value)
      ensures !Truthy(editandoId) ==> request.verb == "POST" && request.endpoint == ProdutosPath
      ensures request.token == token && request.body == FormBody(ProductForm(campos, imagemFile))
    {
      var form := BuildProductForm(campos, imagemFile);
      if Truthy(editandoId) {
        request := UpdateProduto(editandoId.value, form, token);
      } else {
        request := CreateProduto(form, token);
      }
    }

    /** `abrirModalExcluir`. */
    method AbrirModalExcluir(produto: Produto)
      modifies this
      ensures State() == old(State()).(produtoParaExcluir := Some(produto), showDeleteModal := true,
                                       erro := "", mensagem := "")
    {
      produtoParaExcluir := Some(produto);
      showDeleteModal := true;
      erro := "";
      mensagem := "";
    }

    /** `fecharModalExcluir`. */
    method FecharModalExcluir()
      modifies this
      ensures State() == old(State()).(showDeleteModal := false, produtoParaExcluir := None)
    {
      showDeleteModal := false;
      produtoParaExcluir := None;
    }

    /** `confirmarExclusao`: with no product chosen nothing happens; without
        a token the user is sent to the login; otherwise the chosen product
        is deleted, the modal closed and the list reloaded. */
    method ConfirmarExclusao(token: Option<string>, deleteResp: Outcome<()>, listResp: Outcome<Option<seq<Produto>>>)
      returns (route: Option<string>, deleteCall: Option<Request>, listCall: Option<Request>)
      modifies this
      ensures old(produtoParaExcluir).None? ==> route == None && deleteCall == None && State() == old(State())
      ensures old(produtoParaExcluir).Some? && !Truthy(token) ==>
        route == Some("/login") && deleteCall == None && State() == old(State())
      ensures deleteCall.Some? <==> old(produtoParaExcluir).Some? && Truthy(token)
      ensures deleteCall.Some? ==> deleteCall == Some(DeleteProduto(old(produtoParaExcluir).value.id, token)) && !loading
      ensures listCall.Some? <==> deleteCall.Some? && deleteResp.Ok?
      ensures listCall.Some? ==>
        listCall == Some(GetProdutos([])) && State() == AfterDelete(old(State()), listResp).(loading := false)
      ensures deleteCall.Some? && deleteResp.Failed? ==>
        State() == old(State()).(erro := ErrorText(deleteResp.error, MsgErroExcluir), loading := false)
    {
      route, deleteCall, listCall := None, None, None;
      if produtoParaExcluir.None? {
        return;
      }
      if !Truthy(token) {
        route := Some("/login");
        return;
      }
      deleteCall := Some(DeleteProduto(produtoParaExcluir.value.id, token));
      match deleteResp {
        case Ok(_) =>
          var call := ExclusaoAceita(listResp);
          listCall := Some(call);
        case Failed(e) =>
          loading := true;
          erro := ErrorText(e, MsgErroExcluir);
          loading := false;
      }
    }

    /** A delete the backend accepted, with `loading` held around it: the
        message, `fecharModalExcluir` and the reload. */
    method ExclusaoAceita(listResp: Outcome<Option<seq<Produto>>>) returns (listCall: Request)
      modifies this
      ensures listCall == GetProdutos([])
      ensures State() == AfterDelete(old(State()), listResp).(loading := false)
    {
      ghost var before := State();
      loading := true;
      mensagem := MsgExcluido;
      FecharModalExcluir();
      assert State() == before.(loading := true, mensagem := MsgExcluido, showDeleteModal := false,
                                produtoParaExcluir := None);
      listCall := CarregarProdutos(listResp);
      assert State() == AfterDelete(before.(loading := true), listResp);
      loading := false;
      AfterDeleteKeepsLoading(before, true, listResp);
    }
  }
}
