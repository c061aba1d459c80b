/** routes/clientePedidos.js: the customer guard, the customer's own order list and
    the order detail, which only shows an order the logged-in customer owns. */
module ClientePedidos {
  import opened Prelude
  import opened Db
  import opened Runtime

  const LoginRequired := "Inicia sesión como cliente"
  const NotFound := "Pedido no encontrado"

  /** requireCliente: passes exactly when a customer is in the session. */
  method RequireCliente(s: Session) returns (pass: bool, r: Response)
    modifies s
    ensures pass <==> old(s.clienteId).Some?
    ensures pass ==> r == Next && s.Data() == old(s.Data())
    ensures !pass ==> r == Redirect("/cliente/login") && s.Data() == old(s.Data()).(error := Some(LoginRequired))
  {
    if s.clienteId.Some? {
      return true, Next;
    }
    s.error := Some(LoginRequired);
    return false, Redirect("/cliente/login");
  }

  /** `SELECT ... FROM pedidos WHERE cliente_id = ? ORDER BY id DESC`: exactly the orders of
      customer `c`, newest first. */
  function OrdersOf(pedidos: map<Id, Pedido>, c: Id, next: nat): (r: seq<Id>)
    requires forall k :: k in pedidos ==> k < next
    ensures forall k :: k in r <==> k in pedidos && pedidos[k].clienteId == c
    ensures forall i, j :: 0 <= i < j < |r| ==> r[i] > r[j]
  {
    KeysDescending(pedidos, (p: Pedido) => p.clienteId == c, next)
  }

  /** `SELECT p.* FROM pedidos p WHERE p.id=? AND p.cliente_id=?`. */
  function OwnedOrder(pedidos: map<Id, Pedido>, id: int, c: Id): (r: Option<Pedido>)
    ensures r.Some? ==> id in pedidos && r.value == pedidos[id] && r.value.clienteId == c
    ensures r.None? ==> id !in pedidos || pedidos[id].clienteId != c
  {
    if id in pedidos && pedidos[id].clienteId == c then Some(pedidos[id]) else None
  }

  /** A customer cannot tell another customer's order from a missing one: the lookup
      answers the same as if the order had never been stored. */
  lemma OtherCustomersOrderLooksMissing(pedidos: map<Id, Pedido>, id: Id, c: Id)
    requires id in pedidos && pedidos[id].clienteId != c
    ensures OwnedOrder(pedidos, id, c) == OwnedOrder(pedidos - {id}, id, c) == None
  {
  }

  /** GET /cliente/mis-pedidos. */
  method MisPedidos(st: Store, s: Session) returns (r: Response)
    requires st.Valid()
    modifies s
    ensures old(s.clienteId).None? ==>
      r == Redirect("/cliente/login") && s.Data() == old(s.Data()).(error := Some(LoginRequired))
    ensures old(s.clienteId).Some? ==>
      s.Data() == old(s.Data()) &&
      r == Render("cliente/mis-pedidos", Listing(OrdersOf(st.pedidos, old(s.clienteId).value, st.nextPedido)))
  {
    var pass;
    pass, r := RequireCliente(s);
    if pass {
      r := Render("cliente/mis-pedidos", Listing(OrdersOf(st.pedidos, s.clienteId.value, st.nextPedido)));
    }
  }

  /** GET /cliente/mis-pedidos/:id. An order of another customer gets exactly the
      response of a missing order; the summary falls back to 0 / 0 / 'Sin liquidar'. */
  method Detalle(st: Store, s: Session, id: nat, resumen: Option<SummaryRow>) returns (r: Response)
    modifies s
    ensures old(s.clienteId).None? ==>
      r == Redirect("/cliente/login") && s.Data() == old(s.Data()).(error := Some(LoginRequired))
    ensures old(s.clienteId).Some? && (id !in st.pedidos || st.pedidos[id].clienteId != old(s.clienteId).value) ==>
      r == Redirect("/cliente/mis-pedidos") && s.Data() == old(s.Data()).(error := Some(NotFound))
    ensures old(s.clienteId).Some? && id in st.pedidos && st.pedidos[id].clienteId == old(s.clienteId).value ==>
      r == Render("cliente/detalle-pedido", OrderDetail(id, st.pedidos[id], Summarize(resumen))) &&
      s.Data() == old(s.Data())
  {
    var pass;
    pass, r := RequireCliente(s);
    if !pass {
      return;
    }
    var pedido := OwnedOrder(st.pedidos, id, s.clienteId.value);
    if pedido.None? {
      s.error := Some(NotFound);
      return Redirect("/cliente/mis-pedidos");
    }
    r := Render("cliente/detalle-pedido", OrderDetail(id, pedido.value, Summarize(resumen)));
  }
}
