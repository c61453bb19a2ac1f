/** The cart page (pages/carrinho/index.js): the products total and the total
    with shipping, the package the shipping quote is asked for, the choice of
    carrier quote, and the page state its handlers update. Every awaited call
    is a parameter (its outcome) or an out-parameter (the call made, None when
    the handler stops before making it). */
module Carrinho {
  import opened Common
  import opened Api

  // ------------------------------------------------------------- cart lines

  /** One line of the cart as the cart endpoint returns it. Absent (or
      unparseable) numbers are None and count as 0. */
  datatype CartLine = CartLine(
    id: string,
    preco: Option<real>,
    quantidade: Option<real>,
    largura: Option<real>,
    comprimento: Option<real>,
    altura: Option<real>,
    peso: Option<real>)

  /** Price times quantity of one line. */
  function LineTotal(p: CartLine): real {
    Num(p.preco) * Num(p.quantidade)
  }

  /** `totalProdutos`: the left-to-right `reduce` of price times quantity. */
  function TotalProdutos(produtos: seq<CartLine>): real
    decreases |produtos|
  {
    if produtos == [] then 0.0
    else TotalProdutos(produtos[..|produtos| - 1]) + LineTotal(produtos[|produtos| - 1])
  }

  /** The total of a cart made of two parts is the sum of their totals: it
      does not depend on how the lines are grouped. */
  lemma {:induction false} TotalProdutosAppend(a: seq<CartLine>, b: seq<CartLine>)
    ensures TotalProdutos(a + b) == TotalProdutos(a) + TotalProdutos(b)
    decreases |b|
  {
    if b != [] {
      var b' := b[..|b| - 1];
      assert (a + b)[..|a + b| - 1] == a + b';
      assert (a + b)[|a + b| - 1] == b[|b| - 1];
      TotalProdutosAppend(a, b');
    } else {
      assert a + b == a;
    }
  }

  /** The total is the sum of the line totals taken from the front as well. */
  lemma TotalProdutosCons(p: CartLine, rest: seq<CartLine>)
    ensures TotalProdutos([p] + rest) == LineTotal(p) + TotalProdutos(rest)
  {
    TotalProdutosAppend([p], rest);
    assert [p][..0] == [];
  }

  /** With no negative price or quantity the total is not negative. */
  lemma {:induction false} TotalProdutosNonNegative(produtos: seq<CartLine>)
    requires forall k :: 0 <= k < |produtos| ==> Num(produtos[k].preco) >= 0.0 && Num(produtos[k].quantidade) >= 0.0
    ensures TotalProdutos(produtos) >= 0.0
    decreases |produtos|
  {
    if produtos != [] {
      var pre := produtos[..|produtos| - 1];
      assert forall k :: 0 <= k < |pre| ==> pre[k] == produtos[k];
      TotalProdutosNonNegative(pre);
    }
  }

  /** `parseFloat(frete || '0') || 0`: the selected shipping value, 0 when none
      is selected (the state holds '' then). */
  function FreteNum(frete: Option<real>): real {
    Num(frete)
  }

  /** `totalComFrete`. */
  function TotalComFrete(produtos: seq<CartLine>, frete: Option<real>): real {
    TotalProdutos(produtos) + FreteNum(frete)
  }

  /** The total with shipping adds exactly the selected value, and nothing
      when no option is selected. */
  lemma TotalComFreteAddsSelection(produtos: seq<CartLine>, f: real)
    ensures TotalComFrete(produtos, None) == TotalProdutos(produtos)
    ensures TotalComFrete(produtos, Some(f)) - TotalProdutos(produtos) == f
  {
  }

  /** Two units of a 50.00 product, one of a 30.00 product and a 15.00 quote
      give 145.00. */
  lemma CheckoutExample()
    ensures
      var a := CartLine("A", Some(50.0), Some(2.0), None, None, None, None);
      var b := CartLine("B", Some(30.0), Some(1.0), None, None, None, None);
      TotalComFrete([a, b], Some(15.0)) == 145.0
  {
    var a := CartLine("A", Some(50.0), Some(2.0), None, None, None, None);
    var b := CartLine("B", Some(30.0), Some(1.0), None, None, None, None);
    TotalProdutosCons(a, [b]);
    TotalProdutosCons(b, []);
  }

  // ------------------------------------------------------- the package

  datatype Dimension = Largura | Comprimento | Altura | Peso

  /** `Number(p.<dimension> || 0) || 0`. */
  function Dim(p: CartLine, d: Dimension): real {
    Num(match d
        case Largura => p.largura
        case Comprimento => p.comprimento
        case Altura => p.altura
        case Peso => p.peso)
  }

  /** `Number(p.quantidade || 0) || 0`. */
  function Qtd(p: CartLine): real {
    Num(p.quantidade)
  }

  /** The running maximum of one dimension, starting from 0. */
  function MaxDim(ps: seq<CartLine>, d: Dimension): real
    decreases |ps|
  {
    if ps == [] then 0.0
    else
      var m := MaxDim(ps[..|ps| - 1], d);
      if Dim(ps[|ps| - 1], d) > m then Dim(ps[|ps| - 1], d) else m
  }

  /** The running sum of one dimension times the quantity, starting from 0. */
  function WeightedSum(ps: seq<CartLine>, d: Dimension): real
    decreases |ps|
  {
    if ps == [] then 0.0
    else WeightedSum(ps[..|ps| - 1], d) + Dim(ps[|ps| - 1], d) * Qtd(ps[|ps| - 1])
  }

  /** MaxDim is the maximum of 0 and the lines' values: no line exceeds it,
      and a positive maximum is some line's value. */
  lemma {:induction false} MaxDimIsMaximum(ps: seq<CartLine>, d: Dimension)
    ensures MaxDim(ps, d) >= 0.0
    ensures forall k :: 0 <= k < |ps| ==> Dim(ps[k], d) <= MaxDim(ps, d)
    ensures MaxDim(ps, d) > 0.0 ==> exists k :: 0 <= k < |ps| && Dim(ps[k], d) == MaxDim(ps, d)
    decreases |ps|
  {
    if ps != [] {
      var pre := ps[..|ps| - 1];
      MaxDimIsMaximum(pre, d);
      assert forall k :: 0 <= k < |pre| ==> pre[k] == ps[k];
    }
  }

  /** When every line leaves a dimension out (or gives 0), the aggregate is 0. */
  lemma {:induction false} ZeroDimensionsAggregateToZero(ps: seq<CartLine>, d: Dimension)
    requires forall k :: 0 <= k < |ps| ==> Dim(ps[k], d) == 0.0
    ensures MaxDim(ps, d) == 0.0 && WeightedSum(ps, d) == 0.0
    decreases |ps|
  {
    if ps != [] {
      var pre := ps[..|ps| - 1];
      assert forall k :: 0 <= k < |pre| ==> pre[k] == ps[k];
      ZeroDimensionsAggregateToZero(pre, d);
    }
  }

  datatype Package = Package(width: real, length: real, height: real, weight: real)

  const MinWidth: real := 10.0
  const MinLength: real := 15.0
  const MinHeight: real := 2.0
  const MinWeight: real := 0.1

  /** The safety floor: a value that aggregated to 0 or less is replaced. */
  function WithFloor(v: real, floor: real): real {
    if v <= 0.0 then floor else v
  }

  /** `calcularDimensoesPacote`: width and length are the largest of the
      lines', height and weight the quantity-weighted sums, each replaced by
      its floor when not positive. */
  method CalcularDimensoesPacote(produtos: seq<CartLine>) returns (pkg: Package)
    ensures pkg.width == WithFloor(MaxDim(produtos, Largura), MinWidth)
    ensures pkg.length == WithFloor(MaxDim(produtos, Comprimento), MinLength)
    ensures pkg.height == WithFloor(WeightedSum(produtos, Altura), MinHeight)
    ensures pkg.weight == WithFloor(WeightedSum(produtos, Peso), MinWeight)
    ensures pkg.width > 0.0 && pkg.length > 0.0 && pkg.height > 0.0 && pkg.weight > 0.0
    ensures forall k :: 0 <= k < |produtos| ==>
      Dim(produtos[k], Largura) <= pkg.width && Dim(produtos[k], Comprimento) <= pkg.length
  {
    var larguraMax, comprimentoMax, alturaTotal, pesoTotal := 0.0, 0.0, 0.0, 0.0;
    for i := 0 to |produtos|
      invariant larguraMax == MaxDim(produtos[..i], Largura)
      invariant comprimentoMax == MaxDim(produtos[..i], Comprimento)
      invariant alturaTotal == WeightedSum(produtos[..i], Altura)
      invariant pesoTotal == WeightedSum(produtos[..i], Peso)
    {
      var p := produtos[i];
      var qtd := Qtd(p);
      var largura := Dim(p, Largura);
      var comprimento := Dim(p, Comprimento);
      var altura := Dim(p, Altura);
      var peso := Dim(p, Peso);
      assert produtos[..i + 1][..i] == produtos[..i];
      if largura > larguraMax { larguraMax := largura; }
      if comprimento > comprimentoMax { comprimentoMax := comprimento; }
      alturaTotal := alturaTotal + altura * qtd;
      pesoTotal := pesoTotal + peso * qtd;
    }
    assert produtos[..|produtos|] == produtos;
    MaxDimIsMaximum(produtos, Largura);
    MaxDimIsMaximum(produtos, Comprimento);
    if larguraMax <= 0.0 { larguraMax := MinWidth; }
    if comprimentoMax <= 0.0 { comprimentoMax := MinLength; }
    if alturaTotal <= 0.0 { alturaTotal := MinHeight; }
    if pesoTotal <= 0.0 { pesoTotal := MinWeight; }
    pkg := Package(larguraMax, comprimentoMax, alturaTotal, pesoTotal);
  }

  /** A cart whose products declare no dimensions is quoted as a
      10 x 15 x 2 package of 0.1. */
  lemma ZeroDimensionsGiveDefaultPackage(ps: seq<CartLine>)
    requires forall k, d :: 0 <= k < |ps| ==> Dim(ps[k], d) == 0.0
    ensures WithFloor(MaxDim(ps, Largura), MinWidth) == 10.0
    ensures WithFloor(MaxDim(ps, Comprimento), MinLength) == 15.0
    ensures WithFloor(WeightedSum(ps, Altura), MinHeight) == 2.0
    ensures WithFloor(WeightedSum(ps, Peso), MinWeight) == 0.1
  {
    ZeroDimensionsAggregateToZero(ps, Largura);
    ZeroDimensionsAggregateToZero(ps, Comprimento);
    ZeroDimensionsAggregateToZero(ps, Altura);
    ZeroDimensionsAggregateToZero(ps, Peso);
  }

  // ------------------------------------------------------ carrier quotes

  /** One option returned by the carrier aggregator: its id, whether it
      carries an error marker, and its price (None when missing). */
  datatype Quote = Quote(id: int, name: string, hasError: bool, price: Option<real>)

  /** `!opt.error && opt.price`. */
  predicate IsValidQuote(q: Quote) {
    !q.hasError && q.price.Some?
  }

  predicate AllPriced(opts: seq<Quote>) {
    forall k :: 0 <= k < |opts| ==> opts[k].price.Some?
  }

  function PriceOf(q: Quote): real
    requires q.price.Some?
  {
    q.price.value
  }

  /** `opcoesValidas`: keeps exactly the options without an error marker and
      with a price, in their order. */
  function OpcoesValidas(opts: seq<Quote>): (r: seq<Quote>)
    ensures |r| <= |opts|
    ensures forall k :: 0 <= k < |r| ==> IsValidQuote(r[k])
  {
    if opts == [] then []
    else (if IsValidQuote(opts[0]) then [opts[0]] else []) + OpcoesValidas(opts[1..])
  }

  /** An option is kept exactly when it was offered and is valid. */
  lemma {:induction false} OpcoesValidasKeepsTheValid(opts: seq<Quote>)
    ensures forall q :: q in OpcoesValidas(opts) <==> q in opts && IsValidQuote(q)
  {
    if opts != [] {
      OpcoesValidasKeepsTheValid(opts[1..]);
      assert opts == [opts[0]] + opts[1..];
    }
  }

  /** The filter keeps the offered order: filtering two lists put together
      is filtering each and putting the results together. */
  lemma {:induction false} OpcoesValidasAppend(a: seq<Quote>, b: seq<Quote>)
    ensures OpcoesValidas(a + b) == OpcoesValidas(a) + OpcoesValidas(b)
    decreases |a|
  {
    if a != [] {
      assert (a + b)[1..] == a[1..] + b;
      OpcoesValidasAppend(a[1..], b);
    } else {
      assert a + b == b;
    }
  }

  /** The filter keeps every copy of a valid option and no copy of any other. */
  lemma {:induction false} OpcoesValidasCounts(opts: seq<Quote>, q: Quote)
    ensures multiset(OpcoesValidas(opts))[q] == if IsValidQuote(q) then multiset(opts)[q] else 0
  {
    if opts != [] {
      var head := if IsValidQuote(opts[0]) then [opts[0]] else [];
      assert OpcoesValidas(opts) == head + OpcoesValidas(opts[1..]);
      assert opts == [opts[0]] + opts[1..];
      assert multiset(opts) == multiset([opts[0]]) + multiset(opts[1..]);
      OpcoesValidasCounts(opts[1..], q);
    }
  }

  /** The valid options of a quote reply, an absent list read as empty. */
  function ValidOptions(opcoes: Option<seq<Quote>>): (r: seq<Quote>)
    ensures forall k :: 0 <= k < |r| ==> IsValidQuote(r[k])
  {
    if opcoes.Some? then OpcoesValidas(opcoes.value) else []
  }

  /** `opcaoMaisBarata`, as the index the left-to-right `reduce` with a strict
      `<` ends on: a cheapest option, and the first of the cheapest. */
  function CheapestIndex(opts: seq<Quote>): (k: nat)
    requires opts != [] && AllPriced(opts)
    ensures k < |opts|
    ensures forall j :: 0 <= j < |opts| ==> PriceOf(opts[k]) <= PriceOf(opts[j])
    ensures forall j :: 0 <= j < k ==> PriceOf(opts[j]) > PriceOf(opts[k])
    decreases |opts|
  {
    if |opts| == 1 then 0
    else
      var pre := opts[..|opts| - 1];
      assert forall j :: 0 <= j < |pre| ==> pre[j] == opts[j];
      var m := CheapestIndex(pre);
      if PriceOf(opts[|opts| - 1]) < PriceOf(opts[m]) then |opts| - 1 else m
  }

  // ----------------------------------------------------------- messages

  const RemetenteCep: string := "18190-011"
  const MsgLoginCarrinho: string := "Faça login para visualizar seu carrinho."
  const MsgErroCarrinho: string := "Erro ao carregar carrinho."
  const MsgQuantidadeIndisponivel: string := "Quantidade indisponível"
  const MsgErroQuantidade: string := "Erro ao atualizar quantidade."
  const MsgCarrinhoVazio: string := "Seu carrinho está vazio."
  const MsgSelecioneFrete: string := "Selecione uma opção de frete antes de finalizar a compra."
  const MsgPedidoCriado: string := "Pedido criado com sucesso! Número do pedido: "
  const MsgPagamentoFalhou: string :=
    "Pedido criado, mas houve um erro ao abrir o pagamento. Acesse \"Meus pedidos\" para tentar pagar novamente."
  const MsgLoginFinalizar: string := "Faça login para finalizar sua compra."
  const MsgErroFinalizar: string := "Erro ao finalizar compra."
  const MsgCepInvalido: string := "Cadastre um CEP válido na sua conta para calcular o frete."
  const MsgSemOpcoes: string := "Nenhuma opção de frete disponível para este endereço no momento."
  const MsgFreteCalculado: string := "Frete calculado. Você pode escolher outra opção se desejar."
  const MsgErroFrete: string := "Erro ao calcular frete."

  /** The error text of a failed cart load. */
  function LoadErrorMessage(e: ApiError): string {
    if IsStatus(e, 401) then MsgLoginCarrinho else ErrorText(e, MsgErroCarrinho)
  }

  /** A 400 whose message mentions "Quantidade indisponível" opens the stock modal. */
  predicate IsOutOfStock(e: ApiError) {
    IsStatus(e, 400) && Contains(e.message, MsgQuantidadeIndisponivel)
  }

  /** The CEP guard of the quote: missing, or shorter than 8 once trimmed. */
  predicate CepInvalido(cep: string) {
    Utf16Length(Trim(cep)) < 8
  }

  /** The guard of `handleFinalizarCompra`: an empty cart, or no positive
      shipping value (`parseFloat(frete)` is NaN for '' or not above 0). */
  predicate CheckoutBlocked(produtos: seq<CartLine>, frete: Option<real>) {
    |produtos| == 0 || frete.None? || frete.value <= 0.0
  }

  /** `finalizarDesabilitado`. */
  function FinishDisabled(loading: bool, loadingFrete: bool, produtos: seq<CartLine>, frete: Option<real>): bool {
    loading || loadingFrete || |produtos| == 0 || FreteNum(frete) <= 0.0
  }

  /** The finish button is disabled exactly when the handler would refuse,
      or while something is loading. */
  lemma FinishDisabledIffBlocked(loading: bool, loadingFrete: bool, produtos: seq<CartLine>, frete: Option<real>)
    ensures FinishDisabled(loading, loadingFrete, produtos, frete) <==>
      loading || loadingFrete || CheckoutBlocked(produtos, frete)
  {
  }

  // ------------------------------------------------------- calls and state

  /** The backend calls of this page (their client wrappers are not part of
      this model; only what they are asked is). */
  datatype CartCall =
    | AddItem(produtoId: string, quantidade: int)
    | RemoveItem(produtoId: string)
    | QuoteShipping(from: string, to: string, pkg: Package, insuranceValue: real)
    | CreateOrder(frete: real)
    | CreatePayment(total: real, pedidoId: string)

  /** The reply of the order endpoint. */
  datatype CreatedOrder = CreatedOrder(pedidoId: string, total: real)

  /** The page state, field by field (the enlarged-image modal is left out). */
  datatype CartState = CartState(
    produtos: seq<CartLine>,
    loading: bool,
    errorMsg: string,
    successMsg: string,
    frete: Option<real>,
    freteOpcoes: seq<Quote>,
    freteSelecionadoId: Option<int>,
    loadingFrete: bool,
    freteMsg: string,
    freteErro: string,
    usuarioCep: string,
    showEstoqueModal: bool,
    estoqueModalMsg: string)

  /** The lines a successful cart load leaves: `resp.produtos || []`. */
  function LoadedLines(lines: Option<seq<CartLine>>): seq<CartLine> {
    if lines.Some? then lines.value else []
  }

  /** What `carregarCarrinho` leaves: loading done, both messages cleared,
      and the lines replaced (on success) or the error text set. */
  function AfterLoad(s: CartState, resp: Outcome<Option<seq<CartLine>>>): CartState {
    match resp
    case Ok(lines) => s.(loading := false, errorMsg := "", successMsg := "", produtos := LoadedLines(lines))
    case Failed(e) => s.(loading := false, errorMsg := LoadErrorMessage(e), successMsg := "")
  }

  /** The error line of a refused order: the login message on 401. */
  function OrderErrorMessage(e: ApiError): string {
    if IsStatus(e, 401) then MsgLoginFinalizar else ErrorText(e, MsgErroFinalizar)
  }

  /** After the payment request: a failure only sets the error line. */
  function AfterPayment(s: CartState, payResp: Outcome<Option<string>>): CartState {
    if payResp.Failed? then s.(errorMsg := MsgPagamentoFalhou) else s
  }

  /** The messages `handleFinalizarCompra` clears before its guards. */
  function ClearedForCheckout(s: CartState): CartState {
    s.(errorMsg := "", successMsg := "", freteErro := "")
  }

  /** A refused checkout: the empty-cart error first, otherwise the
      missing-shipping error. */
  function RefusedCheckout(s: CartState): CartState {
    if |s.produtos| == 0 then ClearedForCheckout(s).(errorMsg := MsgCarrinhoVazio)
    else ClearedForCheckout(s).(freteErro := MsgSelecioneFrete)
  }

  /** An order the backend refused: only the error line is set. */
  function RefusedOrder(s: CartState, e: ApiError): CartState {
    ClearedForCheckout(s).(errorMsg := OrderErrorMessage(e))
  }

  /** A created order, before the reload: the success message is set and
      the shipping choice cleared. */
  function PlacedOrder(s: CartState, created: CreatedOrder): CartState {
    ClearedForCheckout(s).(successMsg := MsgPedidoCriado + created.pedidoId, frete := None,
                           freteOpcoes := [], freteSelecionadoId := None)
  }

  /** The state `handleFinalizarCompra` leaves, as written. */
  function Checkout(s: CartState, orderResp: Outcome<CreatedOrder>, reloadResp: Outcome<Option<seq<CartLine>>>,
                    payResp: Outcome<Option<string>>): CartState
  {
    if CheckoutBlocked(s.produtos, s.frete) then RefusedCheckout(s)
    else match orderResp
      case Failed(e) => RefusedOrder(s, e)
      case Ok(created) => AfterPayment(AfterLoad(PlacedOrder(s, created), reloadResp), payResp)
  }

  /** The same handler with the success message set after the reload. */
  function CheckoutCorrigido(s: CartState, orderResp: Outcome<CreatedOrder>,
                             reloadResp: Outcome<Option<seq<CartLine>>>, payResp: Outcome<Option<string>>): CartState
  {
    if CheckoutBlocked(s.produtos, s.frete) then RefusedCheckout(s)
    else match orderResp
      case Failed(e) => RefusedOrder(s, e)
      case Ok(created) =>
        AfterPayment(AfterLoad(PlacedOrder(s, created), reloadResp).(successMsg := MsgPedidoCriado + created.pedidoId),
                     payResp)
  }

  /** Whether the page draws the success line. As written the line sits
      inside the block drawn only for a loaded, error-free, non-empty cart. */
  predicate SuccessShown(s: CartState) {
    !s.loading && s.errorMsg == "" && |s.produtos| > 0 && s.successMsg != ""
  }

  /** The corrected render: the success line drawn beside the top error
      line, outside the cart block, whenever the page is not loading. */
  predicate SuccessShownCorrigido(s: CartState) {
    !s.loading && s.successMsg != ""
  }

  /** A refused checkout changes neither the cart nor the shipping choice,
      and always says why. */
  lemma RefusedCheckoutKeepsTheCart(s: CartState, orderResp: Outcome<CreatedOrder>,
                                    reloadResp: Outcome<Option<seq<CartLine>>>, payResp: Outcome<Option<string>>)
    requires CheckoutBlocked(s.produtos, s.frete)
    ensures var t := Checkout(s, orderResp, reloadResp, payResp);
      t.produtos == s.produtos && t.frete == s.frete && t.freteOpcoes == s.freteOpcoes
      && t.freteSelecionadoId == s.freteSelecionadoId
      && (t.errorMsg != "" || t.freteErro != "") && t.successMsg == ""
  {
  }

  /** A placed order leaves no shipping choice behind and the cart as the
      reload returned it. */
  lemma PlacedOrderClearsShipping(s: CartState, created: CreatedOrder,
                                  reloadResp: Outcome<Option<seq<CartLine>>>, payResp: Outcome<Option<string>>)
    requires !CheckoutBlocked(s.produtos, s.frete)
    ensures var t := Checkout(s, Ok(created), reloadResp, payResp);
      t.frete == None && t.freteOpcoes == [] && t.freteSelecionadoId == None
      && t.produtos == (if reloadResp.Ok? then LoadedLines(reloadResp.value) else s.produtos)
      && (payResp.Failed? ==> t.errorMsg == MsgPagamentoFalhou)
  {
  }

  /** As written, the success message is never left on the page: whatever
      the replies, the handler ends with it empty, so it is never drawn. */
  lemma SuccessMessageNeverShown(s: CartState, orderResp: Outcome<CreatedOrder>,
                                 reloadResp: Outcome<Option<seq<CartLine>>>, payResp: Outcome<Option<string>>)
    ensures Checkout(s, orderResp, reloadResp, payResp).successMsg == ""
    ensures !SuccessShown(Checkout(s, orderResp, reloadResp, payResp))
  {
  }

  /** Fixing the handler alone is not enough: after an order the reload
      returns an empty cart, and the written render hides the message with
      the cart block. */
  lemma CorrectedHandlerAloneStaysHidden(s: CartState, created: CreatedOrder, payResp: Outcome<Option<string>>)
    requires !CheckoutBlocked(s.produtos, s.frete)
    ensures CheckoutCorrigido(s, Ok(created), Ok(Some([])), payResp).successMsg == MsgPedidoCriado + created.pedidoId
    ensures !SuccessShown(CheckoutCorrigido(s, Ok(created), Ok(Some([])), payResp))
  {
  }

  /** With the corrected handler and render, a placed order is announced
      with its number whatever the reload and the payment return; otherwise
      the corrected handler leaves the same state as the written one. */
  lemma CorrectedCheckoutShowsOrder(s: CartState, orderResp: Outcome<CreatedOrder>,
                                    reloadResp: Outcome<Option<seq<CartLine>>>, payResp: Outcome<Option<string>>)
    ensures !CheckoutBlocked(s.produtos, s.frete) && orderResp.Ok? ==>
      SuccessShownCorrigido(CheckoutCorrigido(s, orderResp, reloadResp, payResp))
      && CheckoutCorrigido(s, orderResp, reloadResp, payResp)
        == Checkout(s, orderResp, reloadResp, payResp).(successMsg := MsgPedidoCriado + orderResp.value.pedidoId)
    ensures CheckoutBlocked(s.produtos, s.frete) || orderResp.Failed? ==>
      CheckoutCorrigido(s, orderResp, reloadResp, payResp) == Checkout(s, orderResp, reloadResp, payResp)
  {
  }

  class CartPage {
    var produtos: seq<CartLine>
    var loading: bool
    var errorMsg: string
    var successMsg: string
    var frete: Option<real>
    var freteOpcoes: seq<Quote>
    var freteSelecionadoId: Option<int>
    var loadingFrete: bool
    var freteMsg: string
    var freteErro: string
    var usuarioCep: string
    var showEstoqueModal: bool
    var estoqueModalMsg: string

    function State(): CartState
      reads this
    {
      CartState(produtos, loading, errorMsg, successMsg, frete, freteOpcoes, freteSelecionadoId,
                loadingFrete, freteMsg, freteErro, usuarioCep, showEstoqueModal, estoqueModalMsg)
    }

    /** `finalizarDesabilitado` on the current state. */
    function FinalizarDesabilitado(): bool
      reads this
    {
      FinishDisabled(loading, loadingFrete, produtos, frete)
    }

    /** The initial `useState` values. */
    constructor ()
      ensures State() == CartState([], false, "", "", None, [], None, false, "", "", "", false, "")
    {
      produtos, loading, errorMsg, successMsg := [], false, "", "";
      frete, freteOpcoes, freteSelecionadoId := None, [], None;
      loadingFrete, freteMsg, freteErro, usuarioCep := false, "", "", "";
      showEstoqueModal, estoqueModalMsg := false, "";
    }

    /** `carregarCarrinho`, given the reply of the cart endpoint. */
    method CarregarCarrinho(resp: Outcome<Option<seq<CartLine>>>)
      modifies this
      ensures State() == AfterLoad(old(State()), resp)
    {
      loading := true;
      errorMsg := "";
      successMsg := "";
      match resp {
        case Ok(lines) => produtos := LoadedLines(lines);
        case Failed(e) => errorMsg := LoadErrorMessage(e);
      }
      loading := false;
    }

    /** `carregarUsuarioCep`: the user lookup is made without a token, so it
        carries no `Authorization` header; the CEP is kept only when the
        reply has one, and a failed lookup changes nothing. */
    method CarregarUsuarioCep(resp: Outcome<Option<string>>) returns (lookup: Request)
      modifies this
      ensures lookup == GetUsuario(None) && !Truthy(lookup.token)
      ensures resp.Ok? && Truthy(resp.value) ==> State() == old(State()).(usuarioCep := resp.value.value)
      ensures !(resp.Ok? && Truthy(resp.value)) ==> State() == old(State())
    {
      lookup := GetUsuario(None);
      if resp.Ok? && Truthy(resp.value) {
        usuarioCep := resp.value.value;
      }
    }

    /** `handleAumentarQuantidade`: asks for one more unit, then reloads; a
        stock refusal opens the modal instead of setting the error line. */
    method AumentarQuantidade(produto: CartLine, addResp: Outcome<()>, reloadResp: Outcome<Option<seq<CartLine>>>)
      returns (call: CartCall)
      modifies this
      ensures call == AddItem(produto.id, 1)
      ensures addResp.Ok? ==> State() == AfterLoad(old(State()).(errorMsg := "", successMsg := ""), reloadResp)
      ensures addResp.Failed? && IsOutOfStock(addResp.error) ==>
        State() == old(State()).(errorMsg := "", successMsg := "", showEstoqueModal := true,
                                 estoqueModalMsg := addResp.error.message)
      ensures addResp.Failed? && !IsOutOfStock(addResp.error) ==>
        State() == old(State()).(successMsg := "", errorMsg := ErrorText(addResp.error, MsgErroQuantidade))
    {
      errorMsg := "";
      successMsg := "";
      call := AddItem(produto.id, 1);
      match addResp {
        case Ok(_) => CarregarCarrinho(reloadResp);
        case Failed(e) =>
          if IsOutOfStock(e) {
            estoqueModalMsg := e.message;
            showEstoqueModal := true;
          } else {
            errorMsg := ErrorText(e, MsgErroQuantidade);
          }
      }
    }

    /** Closing the stock modal. */
    method FecharEstoqueModal()
      modifies this
      ensures State() == old(State()).(showEstoqueModal := false)
    {
      showEstoqueModal := false;
    }

    /** `handleDiminuirQuantidade`: removes one unit, then reloads. */
    method DiminuirQuantidade(produto: CartLine, removeResp: Outcome<()>, reloadResp: Outcome<Option<seq<CartLine>>>)
      returns (call: CartCall)
      modifies this
      ensures call == RemoveItem(produto.id)
      ensures removeResp.Ok? ==> State() == AfterLoad(old(State()).(errorMsg := "", successMsg := ""), reloadResp)
      ensures removeResp.Failed? ==>
        State() == old(State()).(successMsg := "", errorMsg := ErrorText(removeResp.error, MsgErroQuantidade))
    {
      errorMsg := "";
      successMsg := "";
      call := RemoveItem(produto.id);
      match removeResp {
        case Ok(_) => CarregarCarrinho(reloadResp);
        case Failed(e) => errorMsg := ErrorText(e, MsgErroQuantidade);
      }
    }

    /** `handleCalcularFrete` up to its await: the guards, in order, then the
        package and the quote request. A refused quote makes no call. */
    method BeginCalcularFrete() returns (request: Option<CartCall>)
      modifies this
      ensures |old(produtos)| == 0 ==>
        request == None &&
        State() == old(State()).(freteErro := MsgCarrinhoVazio, freteMsg := "", loadingFrete := false)
      ensures |old(produtos)| > 0 && CepInvalido(old(usuarioCep)) ==>
        request == None &&
        State() == old(State()).(freteErro := MsgCepInvalido, freteMsg := "", loadingFrete := false)
      ensures request.Some? <==> |old(produtos)| > 0 && !CepInvalido(old(usuarioCep))
      ensures request.Some? ==>
        State() == old(State()).(freteErro := "", freteMsg := "", loadingFrete := true)
        && request.value.QuoteShipping? && request.value.from == RemetenteCep
        && request.value.to == usuarioCep && request.value.insuranceValue == 0.0
        && request.value.pkg.width == WithFloor(MaxDim(produtos, Largura), MinWidth)
        && request.value.pkg.length == WithFloor(MaxDim(produtos, Comprimento), MinLength)
        && request.value.pkg.height == WithFloor(WeightedSum(produtos, Altura), MinHeight)
        && request.value.pkg.weight == WithFloor(WeightedSum(produtos, Peso), MinWeight)
    {
      freteErro := "";
      freteMsg := "";
      if |produtos| == 0 {
        freteErro := MsgCarrinhoVazio;
        loadingFrete := false;
        return None;
      }
      if CepInvalido(usuarioCep) {
        freteErro := MsgCepInvalido;
        loadingFrete := false;
        return None;
      }
      var pkg := CalcularDimensoesPacote(produtos);
      loadingFrete := true;
      request := Some(QuoteShipping(RemetenteCep, usuarioCep, pkg, 0.0));
    }

    /** `handleCalcularFrete` after its await: the valid options are kept and
        the cheapest preselected; none valid, or a failed call, clears the
        options, the selection and the value and sets the error. */
    method FinishCalcularFrete(resp: Outcome<Option<seq<Quote>>>)
      modifies this
      ensures !loadingFrete
      ensures resp.Failed? ==>
        State() == old(State()).(freteOpcoes := [], freteSelecionadoId := None, frete := None,
                                 freteErro := ErrorText(resp.error, MsgErroFrete), loadingFrete := false)
      ensures resp.Ok? && ValidOptions(resp.value) == [] ==>
        State() == old(State()).(freteOpcoes := [], freteSelecionadoId := None, frete := None,
                                 freteErro := MsgSemOpcoes, loadingFrete := false)
      ensures resp.Ok? && ValidOptions(resp.value) != [] ==>
        && freteOpcoes == ValidOptions(resp.value)
        && AllPriced(freteOpcoes)
        && freteSelecionadoId == Some(freteOpcoes[CheapestIndex(freteOpcoes)].id)
        && frete == Some(PriceOf(freteOpcoes[CheapestIndex(freteOpcoes)]))
        && State() == old(State()).(freteOpcoes := freteOpcoes, freteSelecionadoId := freteSelecionadoId,
                                    frete := frete, freteMsg := MsgFreteCalculado, loadingFrete := false)
    {
      match resp {
        case Failed(e) =>
          freteOpcoes := [];
          freteSelecionadoId := None;
          frete := None;
          freteErro := ErrorText(e, MsgErroFrete);
        case Ok(opcoes) =>
          var validas := ValidOptions(opcoes);
          if validas == [] {
            freteOpcoes := [];
            freteSelecionadoId := None;
            frete := None;
            freteErro := MsgSemOpcoes;
          } else {
            freteOpcoes := validas;
            var k := CheapestIndex(validas);
            freteSelecionadoId := Some(validas[k].id);
            frete := Some(PriceOf(validas[k]));
            freteMsg := MsgFreteCalculado;
          }
      }
      loadingFrete := false;
    }

    /** Choosing an option by hand: its id and `String(opt.price || '0')`. */
    method SelecionarFrete(opt: Quote)
      modifies this
      ensures State() == old(State()).(freteSelecionadoId := Some(opt.id), frete := Some(Num(opt.price)))
    {
      freteSelecionadoId := Some(opt.id);
      frete := Some(Num(opt.price));
    }

    /** The payment step of `handleFinalizarCompra`: the preference for the
        new order; its `initPoint` is opened when present, and a failure
        only sets the error line. */
    method SolicitarPagamento(created: CreatedOrder, payResp: Outcome<Option<string>>)
      returns (paymentCall: CartCall, paymentUrl: Option<string>)
      modifies this
      ensures paymentCall == CreatePayment(created.total, created.pedidoId)
      ensures paymentUrl.Some? <==> payResp.Ok? && Truthy(payResp.value)
      ensures paymentUrl.Some? ==> paymentUrl == payResp.value
      ensures State() == AfterPayment(old(State()), payResp)
    {
      paymentCall := CreatePayment(created.total, created.pedidoId);
      paymentUrl := None;
      match payResp {
        case Ok(initPoint) =>
          if Truthy(initPoint) {
            paymentUrl := initPoint;
          }
        case Failed(_) =>
          errorMsg := MsgPagamentoFalhou;
      }
    }

    /** The guards of `handleFinalizarCompra` when they refuse: the messages
        are cleared and the reason is set. */
    method RecusarCompra()
      modifies this
      ensures State() == RefusedCheckout(old(State()))
    {
      errorMsg := "";
      successMsg := "";
      freteErro := "";
      if |produtos| == 0 {
        errorMsg := MsgCarrinhoVazio;
      } else {
        freteErro := MsgSelecioneFrete;
      }
    }

    /** A created order, before the reload: the success message and the
        cleared shipping choice. */
    method MarcarPedido(created: CreatedOrder)
      modifies this
      ensures State() == PlacedOrder(old(State()), created)
    {
      errorMsg := "";
      freteErro := "";
      successMsg := MsgPedidoCriado + created.pedidoId;
      frete := None;
      freteOpcoes := [];
      freteSelecionadoId := None;
    }

    /** What `handleFinalizarCompra` does once the order is created, as
        written: the success message, the cleared shipping choice, then the
        cart reload, which clears the success message again. */
    method RegistrarPedido(created: CreatedOrder, reloadResp: Outcome<Option<seq<CartLine>>>)
      modifies this
      ensures State() == AfterLoad(PlacedOrder(old(State()), created), reloadResp)
    {
      MarcarPedido(created);
      CarregarCarrinho(reloadResp);
    }

    /** The same step with the success message set after the reload. */
    method RegistrarPedidoCorrigido(created: CreatedOrder, reloadResp: Outcome<Option<seq<CartLine>>>)
      modifies this
      ensures State() == AfterLoad(PlacedOrder(old(State()), created), reloadResp)
                           .(successMsg := MsgPedidoCriado + created.pedidoId)
    {
      MarcarPedido(created);
      successMsg := "";
      CarregarCarrinho(reloadResp);
      successMsg := MsgPedidoCriado + created.pedidoId;
    }

    /** `handleFinalizarCompra` as written: the guards, the order, the cart
        reload, then the payment preference. The reload clears the success
        message the handler has just set, so it is never left on the page. */
    method FinalizarCompra(orderResp: Outcome<CreatedOrder>, reloadResp: Outcome<Option<seq<CartLine>>>,
                           payResp: Outcome<Option<string>>)
      returns (orderCall: Option<CartCall>, paymentCall: Option<CartCall>, paymentUrl: Option<string>)
      modifies this
      ensures State() == Checkout(old(State()), orderResp, reloadResp, payResp)
      ensures orderCall.Some? <==> !CheckoutBlocked(old(produtos), old(frete))
      ensures orderCall.Some? ==> orderCall.value == CreateOrder(old(frete).value)
      ensures paymentCall.Some? <==> orderCall.Some? && orderResp.Ok?
      ensures paymentCall.Some? ==> paymentCall.value == CreatePayment(orderResp.value.total, orderResp.value.pedidoId)
      ensures paymentUrl.Some? <==> paymentCall.Some? && payResp.Ok? && Truthy(payResp.value)
      ensures paymentUrl.Some? ==> paymentUrl == payResp.value
    {
      orderCall, paymentCall, paymentUrl := None, None, None;
      if CheckoutBlocked(produtos, frete) {
        RecusarCompra();
        return;
      }
      orderCall := Some(CreateOrder(frete.value));
      match orderResp {
        case Failed(e) =>
          errorMsg, successMsg, freteErro := OrderErrorMessage(e), "", "";
        case Ok(created) =>
          var payment;
          RegistrarPedido(created, reloadResp);
          payment, paymentUrl := SolicitarPagamento(created, payResp);
          paymentCall := Some(payment);
      }
    }

    /** `handleFinalizarCompra` with the success message set after the cart
        reload, so that the order number stays on the page. */
    method FinalizarCompraCorrigida(orderResp: Outcome<CreatedOrder>, reloadResp: Outcome<Option<seq<CartLine>>>,
                                    payResp: Outcome<Option<string>>)
      returns (orderCall: Option<CartCall>, paymentCall: Option<CartCall>, paymentUrl: Option<string>)
      modifies this
      ensures State() == CheckoutCorrigido(old(State()), orderResp, reloadResp, payResp)
      ensures orderCall.Some? <==> !CheckoutBlocked(old(produtos), old(frete))
      ensures orderCall.Some? ==> orderCall.value == CreateOrder(old(frete).value)
      ensures paymentCall.Some? <==> orderCall.Some? && orderResp.Ok?
      ensures paymentCall.Some? ==> paymentCall.value == CreatePayment(orderResp.value.total, orderResp.value.pedidoId)
      ensures paymentUrl.Some? <==> paymentCall.Some? && payResp.Ok? && Truthy(payResp.value)
      ensures paymentUrl.Some? ==> paymentUrl == payResp.value
    {
      orderCall, paymentCall, paymentUrl := None, None, None;
      if CheckoutBlocked(produtos, frete) {
        RecusarCompra();
        return;
      }
      orderCall := Some(CreateOrder(frete.value));
      match orderResp {
        case Failed(e) =>
          errorMsg, successMsg, freteErro := OrderErrorMessage(e), "", "";
        case Ok(created) =>
          var payment;
          RegistrarPedidoCorrigido(created, reloadResp);
          payment, paymentUrl := SolicitarPagamento(created, payResp);
          paymentCall := Some(payment);
      }
    }
  }

  /** A concrete run: a one-line cart with a 20.00 option selected; the order
      and the reload succeed, and afterwards no success message is shown. */
  method CheckoutLosesSuccessMessage() {
    var page := new CartPage();
    var line := CartLine("p1", Some(50.0), Some(1.0), None, None, None, None);
    page.CarregarCarrinho(Ok(Some([line])));
    page.SelecionarFrete(Quote(1, "PAC", false, Some(20.0)));
    var orderCall, paymentCall, paymentUrl :=
      page.FinalizarCompra(Ok(CreatedOrder("42", 70.0)), Ok(Some([])), Ok(None));
    assert orderCall == Some(CreateOrder(20.0));
    assert page.successMsg == "";
  }

  /** The same run with the corrected handler keeps the order number. */
  method CorrectedCheckoutKeepsSuccessMessage() {
    var page := new CartPage();
    var line := CartLine("p1", Some(50.0), Some(1.0), None, None, None, None);
    page.CarregarCarrinho(Ok(Some([line])));
    page.SelecionarFrete(Quote(1, "PAC", false, Some(20.0)));
    var orderCall, paymentCall, paymentUrl :=
      page.FinalizarCompraCorrigida(Ok(CreatedOrder("42", 70.0)), Ok(Some([])), Ok(None));
    assert page.successMsg == MsgPedidoCriado + "42";
  }
}
