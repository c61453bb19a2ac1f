/** What the two order pages share (pages/admin/pedidos/index.js and
    pages/meus-pedidos/index.js): the order record, the status badge and the
    summary arithmetic. */
module Pedidos {
  import opened Common

  /** One item of an order as the order list returns it. */
  datatype OrderItem = OrderItem(produtoId: string, precoUnitario: Option<real>, quantidade: Option<real>)

  /** One order: its id, status (None when absent), shipping flag and date,
      total, shipping value and items. */
  datatype Order = Order(
    id: string,
    status: Option<string>,
    enviado: bool,
    enviadoEm: Option<string>,
    total: Option<real>,
    frete: Option<real>,
    itens: seq<OrderItem>)

  /** The three badge styles. */
  datatype StatusClass = StatusAprovado | StatusCancelado | StatusPendente

  /** `String(status || '').toLowerCase()`. */
  function StatusKey(status: Option<string>): string {
    ToLower(OrEmpty(status))
  }

  /** `getStatusLabelClass`: approved and cancelled by name, in any case;
      everything else, a missing status included, is shown as pending. */
  function StatusLabelClass(status: Option<string>): (c: StatusClass)
    ensures status.None? ==> c == StatusPendente
    ensures c == StatusAprovado <==> StatusKey(status) == "aprovado"
    ensures c == StatusCancelado <==> StatusKey(status) == "cancelado"
  {
    var s := StatusKey(status);
    if s == "aprovado" then StatusAprovado
    else if s == "cancelado" then StatusCancelado
    else StatusPendente
  }

  /** The badge ignores letter case: a status and its lower-cased form get
      the same class. */
  lemma StatusLabelClassIgnoresCase(s: string)
    ensures StatusLabelClass(Some(s)) == StatusLabelClass(Some(ToLower(s)))
  {
    ToLowerIdempotent(s);
  }
}
