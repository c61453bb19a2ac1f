/** The customer's order list (pages/meus-pedidos/index.js): loading the
    orders, the action shown under each order, and paying a pending order. */
module MeusPedidos {
  import opened Common
  import opened Api
  import opened Pedidos

  const MsgSemPedidos: string := "Você ainda não possui pedidos cadastrados."
  const MsgLogin: string := "Faça login para visualizar seus pedidos."
  const MsgErroCarregar: string := "Erro ao carregar pedidos."
  const MsgPagamentoAberto: string :=
    "Janela de pagamento aberta. Após o pagamento, o status será atualizado automaticamente."
  const MsgSemLink: string := "Não foi possível gerar o link de pagamento."
  const MsgErroPagamento: string := "Erro ao gerar pagamento."

  /** The error text of a failed load: the login message on 401, otherwise
      the error's own message. */
  function LoadErrorMessage(e: ApiError): (m: string)
    ensures IsStatus(e, 401) ==> m == MsgLogin
    ensures !IsStatus(e, 401) ==> m == ErrorText(e, MsgErroCarregar)
    ensures m != ""
  {
    if IsStatus(e, 401) then MsgLogin else ErrorText(e, MsgErroCarregar)
  }

  /** `String(pedido.status).toLowerCase()`: unlike the badge, an absent
      status reads as "undefined". */
  function ActionKey(status: Option<string>): string {
    if status.Some? then ToLower(status.value) else "undefined"
  }

  /** The three action blocks, each shown under its own condition. */
  predicate ShowsPayButton(status: Option<string>) {
    ActionKey(status) == "pendente"
  }

  predicate ShowsConfirmation(status: Option<string>) {
    ActionKey(status) == "aprovado"
  }

  predicate ShowsCancellation(status: Option<string>) {
    ActionKey(status) == "cancelado"
  }

  /** At most one action block is shown under an order. */
  lemma AtMostOneAction(status: Option<string>)
    ensures !(ShowsPayButton(status) && ShowsConfirmation(status))
    ensures !(ShowsPayButton(status) && ShowsCancellation(status))
    ensures !(ShowsConfirmation(status) && ShowsCancellation(status))
  {
  }

  /** The action agrees with the badge: the confirmation shows exactly under
      an approved badge, the cancellation note exactly under a cancelled one,
      and the pay button only under a pending one. An absent status shows a
      pending badge and no action. */
  lemma ActionsAgreeWithBadge(status: Option<string>)
    ensures ShowsConfirmation(status) <==> StatusLabelClass(status) == StatusAprovado
    ensures ShowsCancellation(status) <==> StatusLabelClass(status) == StatusCancelado
    ensures ShowsPayButton(status) ==> StatusLabelClass(status) == StatusPendente
    ensures status.None? ==>
      StatusLabelClass(status) == StatusPendente
      && !ShowsPayButton(status) && !ShowsConfirmation(status) && !ShowsCancellation(status)
  {
    if status.None? {
      assert StatusKey(status) == "";
      assert ActionKey(status)[0] == 'u';
    }
  }

  /** The payment preference the page asks for. */
  datatype PaymentRequest = PaymentRequest(pedidoId: string, total: Option<real>)

  datatype MyOrdersState = MyOrdersState(
    pedidos: seq<Order>,
    loading: bool,
    erro: string,
    infoMsg: string,
    loadingPagamento: Option<string>)

  class MyOrdersPage {
    var pedidos: seq<Order>
    var loading: bool
    var erro: string
    var infoMsg: string
    var loadingPagamento: Option<string>

    function State(): MyOrdersState
      reads this
    {
      MyOrdersState(pedidos, loading, erro, infoMsg, loadingPagamento)
    }

    constructor ()
      ensures State() == MyOrdersState([], false, "", "", None)
    {
      pedidos, loading, erro, infoMsg, loadingPagamento := [], false, "", "", None;
    }

    /** `carregarPedidos`: the list (`data || []`), the "no orders yet" note
        for an empty or absent list, or the classified error. */
    method CarregarPedidos(resp: Outcome<Option<seq<Order>>>)
      modifies this
      ensures !loading && loadingPagamento == old(loadingPagamento)
      ensures resp.Ok? ==> erro == "" && pedidos == (if resp.value.Some? then resp.value.value else [])
      ensures resp.Ok? ==> (infoMsg == MsgSemPedidos <==> pedidos == []) && (pedidos != [] ==> infoMsg == "")
      ensures resp.Failed? ==> pedidos == old(pedidos) && infoMsg == "" && erro == LoadErrorMessage(resp.error)
    {
      loading := true;
      erro := "";
      infoMsg := "";
      match resp {
        case Ok(data) =>
          pedidos := if data.Some? then data.value else [];
          if data.None? || |data.value| == 0 {
            infoMsg := MsgSemPedidos;
          }
        case Failed(e) =>
          erro := LoadErrorMessage(e);
      }
      loading := false;
    }

    /** `handlePagarPedido` up to its await: the messages are cleared and the
        order is marked busy while its preference is requested. */
    method BeginPagarPedido(pedido: Order) returns (request: PaymentRequest)
      modifies this
      ensures request == PaymentRequest(pedido.id, pedido.total)
      ensures State() == old(State()).(erro := "", infoMsg := "", loadingPagamento := Some(pedido.id))
    {
      erro := "";
      infoMsg := "";
      loadingPagamento := Some(pedido.id);
      request := PaymentRequest(pedido.id, pedido.total);
    }

    /** `handlePagarPedido` after its await: a reply with an `initPoint` opens
        it and tells the user; a reply without one, or a failure, sets the
        error. The busy marker is cleared in every case. */
    method FinishPagarPedido(resp: Outcome<Option<string>>) returns (paymentUrl: Option<string>)
      modifies this
      ensures loadingPagamento == None
      ensures paymentUrl.Some? <==> resp.Ok? && Truthy(resp.value)
      ensures paymentUrl.Some? ==>
        paymentUrl == resp.value && State() == old(State()).(infoMsg := MsgPagamentoAberto, loadingPagamento := None)
      ensures resp.Ok? && !Truthy(resp.value) ==>
        State() == old(State()).(erro := MsgSemLink, loadingPagamento := None)
      ensures resp.Failed? ==>
        State() == old(State()).(erro := ErrorText(resp.error, MsgErroPagamento), loadingPagamento := None)
    {
      paymentUrl := None;
      match resp {
        case Ok(initPoint) =>
          if Truthy(initPoint) {
            paymentUrl := initPoint;
            infoMsg := MsgPagamentoAberto;
          } else {
            erro := MsgSemLink;
          }
        case Failed(e) =>
          erro := ErrorText(e, MsgErroPagamento);
      }
      loadingPagamento := None;
    }
  }
}
