/** The administrator's order list (pages/admin/pedidos/index.js): loading the
    orders, and marking an approved order as shipped or not shipped. */
module AdminPedidos {
  import opened Common
  import opened Api
  import opened Pedidos

  const MsgNenhumPedido: string := "Nenhum pedido encontrado."
  const MsgLoginAdmin: string := "Faça login como administrador para visualizar os pedidos."
  const MsgAcessoNegado: string := "Acesso negado. Esta área é exclusiva para administradores."
  const MsgErroCarregar: string := "Erro ao carregar pedidos."
  const MsgErroEnvio: string := "Erro ao atualizar status de envio."

  /** The error text of a failed load: the login message on 401, access
      denied on 403, otherwise the error's own message. */
  function LoadErrorMessage(e: ApiError): (m: string)
    ensures IsStatus(e, 401) ==> m == MsgLoginAdmin
    ensures IsStatus(e, 403) ==> m == MsgAcessoNegado
    ensures !IsStatus(e, 401) && !IsStatus(e, 403) ==> m == ErrorText(e, MsgErroCarregar)
    ensures m != ""
  {
    if IsStatus(e, 401) then MsgLoginAdmin
    else if IsStatus(e, 403) then MsgAcessoNegado
    else ErrorText(e, MsgErroCarregar)
  }

  /** The toggle only acts on an approved order (in any letter case). */
  predicate CanToggle(pedido: Order) {
    StatusKey(pedido.status) == "aprovado"
  }

  /** The toggle is offered exactly on the orders the badge shows as approved. */
  lemma CanToggleIffApproved(pedido: Order)
    ensures CanToggle(pedido) <==> StatusLabelClass(pedido.status) == StatusAprovado
  {
  }

  /** The record an order gets when its shipped flag is set to `value`: the
      date is the given timestamp when shipped, and cleared otherwise. */
  function WithEnvio(o: Order, value: bool, now: string): Order {
    o.(enviado := value, enviadoEm := if value then Some(now) else None)
  }

  /** The `prev.map` of `handleToggleEnvio`: every order with the id is
      replaced by its updated record, every other order is kept. */
  function SetEnvio(pedidos: seq<Order>, id: string, value: bool, now: string): (r: seq<Order>)
    ensures |r| == |pedidos|
    ensures forall k :: 0 <= k < |pedidos| && pedidos[k].id == id ==> r[k] == WithEnvio(pedidos[k], value, now)
    ensures forall k :: 0 <= k < |pedidos| && pedidos[k].id != id ==> r[k] == pedidos[k]
    decreases |pedidos|
  {
    if pedidos == [] then []
    else
      [if pedidos[0].id == id then WithEnvio(pedidos[0], value, now) else pedidos[0]]
      + SetEnvio(pedidos[1..], id, value, now)
  }

  /** The update keeps the list's ids, order, statuses, totals and items. */
  lemma SetEnvioKeepsTheRest(pedidos: seq<Order>, id: string, value: bool, now: string, k: int)
    requires 0 <= k < |pedidos|
    ensures var o := SetEnvio(pedidos, id, value, now)[k];
      o.id == pedidos[k].id && o.status == pedidos[k].status && o.total == pedidos[k].total
      && o.frete == pedidos[k].frete && o.itens == pedidos[k].itens
  {
  }

  /** Two updates of the same order in a row: the second overrides the
      first entirely (flag and date), so toggling back restores the flag. */
  lemma {:induction false} SetEnvioLastWins(pedidos: seq<Order>, id: string, v1: bool, t1: string, v2: bool, t2: string)
    ensures SetEnvio(SetEnvio(pedidos, id, v1, t1), id, v2, t2) == SetEnvio(pedidos, id, v2, t2)
    decreases |pedidos|
  {
    if pedidos != [] {
      SetEnvioLastWins(pedidos[1..], id, v1, t1, v2, t2);
      var once := SetEnvio(pedidos, id, v1, t1);
      assert once[1..] == SetEnvio(pedidos[1..], id, v1, t1);
    }
  }

  /** The shipping update the page sends. */
  datatype EnvioRequest = EnvioRequest(pedidoId: string, enviado: bool)

  datatype AdminOrdersState = AdminOrdersState(
    pedidos: seq<Order>,
    loading: bool,
    erro: string,
    infoMsg: string,
    loadingEnvio: Option<string>)

  class AdminOrdersPage {
    var pedidos: seq<Order>
    var loading: bool
    var erro: string
    var infoMsg: string
    var loadingEnvio: Option<string>

    function State(): AdminOrdersState
      reads this
    {
      AdminOrdersState(pedidos, loading, erro, infoMsg, loadingEnvio)
    }

    constructor ()
      ensures State() == AdminOrdersState([], false, "", "", None)
    {
      pedidos, loading, erro, infoMsg, loadingEnvio := [], false, "", "", None;
    }

    /** `carregarPedidos`: the list (`data || []`), the "none found" note for
        an empty or absent list, or the classified error. */
    method CarregarPedidos(resp: Outcome<Option<seq<Order>>>)
      modifies this
      ensures !loading && loadingEnvio == old(loadingEnvio)
      ensures resp.Ok? ==> erro == "" && pedidos == (if resp.value.Some? then resp.value.value else [])
      ensures resp.Ok? ==> (infoMsg == MsgNenhumPedido <==> pedidos == []) && (pedidos != [] ==> infoMsg == "")
      ensures resp.Failed? ==> pedidos == old(pedidos) && infoMsg == "" && erro == LoadErrorMessage(resp.error)
    {
      loading := true;
      erro := "";
      infoMsg := "";
      match resp {
        case Ok(data) =>
          pedidos := if data.Some? then data.value else [];
          if data.None? || |data.value| == 0 {
            infoMsg := MsgNenhumPedido;
          }
        case Failed(e) =>
          erro := LoadErrorMessage(e);
      }
      loading := false;
    }

    /** `handleToggleEnvio` up to its await: an order that is not approved is
        left alone and no call is made; otherwise the messages are cleared,
        the order is marked busy and the negated flag is requested. */
    method BeginToggleEnvio(pedido: Order) returns (request: Option<EnvioRequest>)
      modifies this
      ensures request.Some? <==> CanToggle(pedido)
      ensures !CanToggle(pedido) ==> State() == old(State())
      ensures CanToggle(pedido) ==>
        request == Some(EnvioRequest(pedido.id, !pedido.enviado)) &&
        State() == old(State()).(erro := "", infoMsg := "", loadingEnvio := Some(pedido.id))
    {
      if StatusKey(pedido.status) != "aprovado" {
        return None;
      }
      var novoValor := !pedido.enviado;
      erro := "";
      infoMsg := "";
      loadingEnvio := Some(pedido.id);
      request := Some(EnvioRequest(pedido.id, novoValor));
    }

    /** `handleToggleEnvio` after its await: the list changes only when the
        update succeeded, and then only on the order with that id; the busy
        marker is cleared either way. */
    method FinishToggleEnvio(request: EnvioRequest, resp: Outcome<()>, now: string)
      modifies this
      ensures loadingEnvio == None
      ensures resp.Ok? ==>
        State() == old(State()).(pedidos := SetEnvio(old(pedidos), request.pedidoId, request.enviado, now),
                                 loadingEnvio := None)
      ensures resp.Failed? ==>
        State() == old(State()).(erro := ErrorText(resp.error, MsgErroEnvio), loadingEnvio := None)
    {
      match resp {
        case Ok(_) =>
          pedidos := SetEnvio(pedidos, request.pedidoId, request.enviado, now);
        case Failed(e) =>
          erro := ErrorText(e, MsgErroEnvio);
      }
      loadingEnvio := None;
    }
  }

  /** Toggling an approved order that has not been shipped marks it shipped
      with the given date, in the list, after a successful update. */
  method ToggleShipsApprovedOrder() {
    var page := new AdminOrdersPage();
    var o := Order("p1", Some("APROVADO"), false, None, Some(70.0), Some(20.0), []);
    var other := Order("p2", Some("pendente"), false, None, Some(10.0), Some(0.0), []);
    page.CarregarPedidos(Ok(Some([o, other])));
    var request := page.BeginToggleEnvio(o);
    assert request == Some(EnvioRequest("p1", true));
    page.FinishToggleEnvio(request.value, Ok(()), "2025-01-01T00:00:00.000Z");
    assert page.pedidos[0].enviado && page.pedidos[0].enviadoEm == Some("2025-01-01T00:00:00.000Z");
    assert page.pedidos[1] == other;
    var refused := page.BeginToggleEnvio(other);
    assert refused == None;
  }
}
