/** routes/pedidos.js: the administrator's orders. Creating an order with its line items,
    the order detail with its payment summary, the job-status change (which appends to
    the status history) and payment registration. The last two notify the order's room
    and the customer's room over socket.io. */
module Pedidos {
  import opened Prelude
  import opened Db
  import opened Runtime
  import Validators

  const LoginRequired := "Debes iniciar sesión"
  const Created := "Pedido creado"
  const CreateFailed := "Error creando pedido"
  const NotFound := "Pedido no encontrado"
  const StatusUpdated := "Estado de trabajo actualizado"
  const StatusFailed := "Error al actualizar el estado"
  const PaymentRecorded := "Pago registrado"
  const PaymentFailed := "Error registrando el pago"
  const StatusEvent := "pedido:estado_actualizado"
  const PaymentsEvent := "pedido:pagos_actualizados"

  /** isLoggedIn: passes exactly when an admin is in the session. */
  method IsLoggedIn(s: Session) returns (pass: bool, r: Response)
    modifies s
    ensures pass <==> old(s.userId).Some?
    ensures pass ==> r == Next && s.Data() == old(s.Data())
    ensures !pass ==> r == Redirect("/auth/login") && s.Data() == old(s.Data()).(error := Some(LoginRequired))
  {
    if s.userId.Some? {
      return true, Next;
    }
    s.error := Some(LoginRequired);
    return false, Redirect("/auth/login");
  }

  // ---------------------------------------------------------------------------
  // Rooms

  /** The room of one order, `pedido:${id}`. */
  function PedidoRoom(id: nat): string {
    "pedido:" + Decimal(id)
  }

  /** The room of one customer, `cliente:${cliente_id}`. */
  function ClienteRoom(id: nat): string {
    "cliente:" + Decimal(id)
  }

  /** Room names never collide: an order room is never a customer room, and distinct ids
      name distinct rooms, so an event reaches only the order and customer it is about. */
  lemma {:induction false} RoomsDistinct(a: nat, b: nat)
    ensures PedidoRoom(a) != ClienteRoom(b)
    ensures PedidoRoom(a) == PedidoRoom(b) <==> a == b
    ensures ClienteRoom(a) == ClienteRoom(b) <==> a == b
  {
    assert PedidoRoom(a)[0] == 'p' && ClienteRoom(b)[0] == 'c';
    if PedidoRoom(a) == PedidoRoom(b) {
      assert PedidoRoom(a)[7..] == Decimal(a) && PedidoRoom(b)[7..] == Decimal(b);
      DecimalInjective(a, b);
    }
    if ClienteRoom(a) == ClienteRoom(b) {
      assert ClienteRoom(a)[8..] == Decimal(a) && ClienteRoom(b)[8..] == Decimal(b);
      DecimalInjective(a, b);
    }
  }

  /** The two identical emits of a handler: first to the order's room, then to the
      customer's room. */
  method Notify(io: Io, id: nat, clienteId: Id, name: string, payload: Payload)
    modifies io
    ensures io.log == old(io.log) + [Event(PedidoRoom(id), name, payload), Event(ClienteRoom(clienteId), name, payload)]
    ensures io.rooms == old(io.rooms)
  {
    io.Emit(PedidoRoom(id), name, payload);
    io.Emit(ClienteRoom(clienteId), name, payload);
  }

  // ---------------------------------------------------------------------------
  // Listing and the new-order form

  /** GET /admin/pedidos: every order, newest first (each has its customer, by the
      foreign key, so the join drops none). */
  method Index(st: Store, s: Session) returns (r: Response)
    requires st.Valid()
    modifies s
    ensures old(s.userId).None? ==>
      r == Redirect("/auth/login") && s.Data() == old(s.Data()).(error := Some(LoginRequired))
    ensures old(s.userId).Some? ==>
      r == Render("pedidos/index", Listing(AllKeysDescending(st.pedidos, st.nextPedido))) &&
      s.Data() == old(s.Data())
  {
    var pass;
    pass, r := IsLoggedIn(s);
    if pass {
      r := Render("pedidos/index", Listing(AllKeysDescending(st.pedidos, st.nextPedido)));
    }
  }

  /** `SELECT * FROM productos WHERE activo=1 ORDER BY id DESC`. */
  function ActiveProductos(productos: map<Id, Producto>, next: Id): (r: seq<Id>)
    requires KeysBelow(productos, next)
    ensures forall k :: k in r <==> k in productos && productos[k].activo == 1
    ensures forall i, j :: 0 <= i < j < |r| ==> r[i] > r[j]
  {
    KeysDescending(productos, (p: Producto) => p.activo == 1, next)
  }

  /** GET /admin/pedidos/nuevo: every customer and the active products, newest first. */
  method NewForm(st: Store, s: Session) returns (r: Response)
    requires st.Valid()
    modifies s
    ensures old(s.userId).None? ==>
      r == Redirect("/auth/login") && s.Data() == old(s.Data()).(error := Some(LoginRequired))
    ensures old(s.userId).Some? ==>
      r == Render("pedidos/nuevo", NewOrderForm(AllKeysDescending(st.clientes, st.nextCliente),
                                                 ActiveProductos(st.productos, st.nextProducto))) &&
      s.Data() == old(s.Data())
  {
    var pass;
    pass, r := IsLoggedIn(s);
    if pass {
      r := Render("pedidos/nuevo", NewOrderForm(AllKeysDescending(st.clientes, st.nextCliente),
                                                 ActiveProductos(st.productos, st.nextProducto)));
    }
  }

  // ---------------------------------------------------------------------------
  // Creating an order

  /** One element of the `productos` field: the JSON text of `{ producto_id, cantidad,
      precio_unitario }`, or text that `JSON.parse` rejects. */
  datatype Entry =
    | Entry(productoId: int, cantidad: int, precioUnitario: int)
    | Malformed

  /** The `productos` field as the body parser delivers it: absent (the handler's default
      is `[]`), one value, or several. */
  datatype ProductosField =
    | Omitted
    | Single(entry: Entry)
    | Several(entries: seq<Entry>)

  /** The entries the handler's loop visits: only an array is looped over, so a single
      selected product is not inserted at all. */
  function LoopedEntries(f: ProductosField): (es: seq<Entry>)
    ensures f.Several? ==> es == f.entries
    ensures !f.Several? ==> es == []
  {
    if f.Several? then f.entries else []
  }

  /** An entry whose INSERT succeeds on an order that exists: it parses and names an
      existing product. */
  predicate Insertable(e: Entry, productos: map<Id, Producto>) {
    e.Entry? && e.productoId in productos
  }

  /** How many leading entries the loop inserts before the first one that throws (or all
      of them): every accepted entry is insertable, and the first refused one is not. */
  function AcceptedPrefix(es: seq<Entry>, productos: map<Id, Producto>): (n: nat)
    ensures n <= |es|
    ensures forall i :: 0 <= i < n ==> Insertable(es[i], productos)
    ensures n < |es| ==> !Insertable(es[n], productos)
  {
    if es == [] || !Insertable(es[0], productos) then 0
    else 1 + AcceptedPrefix(es[1..], productos)
  }

  /** The `pedido_productos` row of an entry: the submitted unit price, not the product's. */
  function LineOf(id: Id, e: Entry): Linea
    requires e.Entry?
  {
    Linea(id, e.productoId, e.cantidad, e.precioUnitario)
  }

  /** The rows inserted for `es`, in order. */
  function LinesOf(id: Id, es: seq<Entry>): (ls: seq<Linea>)
    requires forall i :: 0 <= i < |es| ==> es[i].Entry?
    ensures |ls| == |es|
    ensures forall i :: 0 <= i < |es| ==> ls[i] == LineOf(id, es[i])
  {
    if es == [] then [] else LinesOf(id, es[..|es| - 1]) + [LineOf(id, es[|es| - 1])]
  }

  /** The handler's loop: inserts the entries' rows in order and stops at the first one
      that throws. Returns how many rows it inserted, which is the accepted prefix. */
  method InsertLines(st: Store, id: Id, es: seq<Entry>) returns (inserted: nat)
    requires st.Valid() && st.Consistent() && id in st.pedidos
    modifies st
    ensures st.Valid() && st.Consistent()
    ensures inserted == AcceptedPrefix(es, old(st.productos))
    ensures st.Rows() == old(st.Rows()).(lineas := old(st.lineas) + LinesOf(id, es[..inserted]))
  {
    ghost var n := AcceptedPrefix(es, st.productos);
    inserted := 0;
    while inserted < |es|
      invariant inserted <= n
      invariant st.Valid() && st.Consistent()
      invariant st.Rows() == old(st.Rows()).(lineas := old(st.lineas) + LinesOf(id, es[..inserted]))
    {
      var e := es[inserted];
      if e.Malformed? {
        return;
      }
      var ok := st.InsertLinea(LineOf(id, e));
      if !ok {
        return;
      }
      assert es[..inserted + 1][..inserted] == es[..inserted];
      inserted := inserted + 1;
    }
  }

  /** POST /admin/pedidos/nuevo. An unknown customer makes the first INSERT fail and
      nothing is stored. Otherwise the order is stored with the default job status and
      the entries are inserted one by one until one throws; the statements are not in a
      transaction, so the order and the lines before the failure stay even though the
      response reports an error. */
  method PostNuevo(st: Store, s: Session, clienteId: int, observaciones: string, productos: ProductosField,
                   now: Timestamp) returns (r: Response)
    requires st.Valid() && st.Consistent()
    modifies st, s
    ensures st.Valid() && st.Consistent()
    ensures old(s.userId).None? ==>
      st.Rows() == old(st.Rows()) && r == Redirect("/auth/login") &&
      s.Data() == old(s.Data()).(error := Some(LoginRequired))
    ensures old(s.userId).Some? && clienteId !in old(st.clientes) ==>
      st.Rows() == old(st.Rows()) &&
      s.Data() == old(s.Data()).(error := Some(CreateFailed)) && r == Redirect("/admin/pedidos/nuevo")
    ensures old(s.userId).Some? && clienteId in old(st.clientes) ==>
      var es := LoopedEntries(productos);
      var n := AcceptedPrefix(es, old(st.productos));
      var id := old(st.nextPedido);
      && st.Rows() == old(st.Rows()).(
           pedidos := old(st.pedidos)[id := Pedido(clienteId, FieldOrNull(observaciones), st.initialEstado, now)],
           lineas := old(st.lineas) + LinesOf(id, es[..n]),
           nextPedido := id + 1)
      && (n == |es| ==>
            s.Data() == old(s.Data()).(success := Some(Created)) && r == Redirect("/admin/pedidos"))
      && (n < |es| ==>
            s.Data() == old(s.Data()).(error := Some(CreateFailed)) && r == Redirect("/admin/pedidos/nuevo"))
  {
    var pass;
    pass, r := IsLoggedIn(s);
    if !pass {
      return;
    }
    var created := st.InsertPedido(clienteId, FieldOrNull(observaciones), now);
    if created.None? {
      s.error := Some(CreateFailed);
      return Redirect("/admin/pedidos/nuevo");
    }
    var id := created.value;
    var es := LoopedEntries(productos);
    var inserted := InsertLines(st, id, es);
    if inserted < |es| {
      s.error := Some(CreateFailed);
      return Redirect("/admin/pedidos/nuevo");
    }
    assert es[..inserted] == es;
    s.success := Some(Created);
    r := Redirect("/admin/pedidos");
  }

  // ---------------------------------------------------------------------------
  // Detail, status and payments

  /** GET /admin/pedidos/:id. A missing order gives 'Pedido no encontrado'; otherwise the
      detail view with the summary, whose missing values fall back to 0 / 0 / 'Sin
      liquidar'. `resumen` is the summary views' row for the order. The query joins the
      order's customer, so an order whose customer row were missing would read as missing;
      the store's foreign key rules that out. */
  method Detalle(st: Store, s: Session, id: nat, resumen: Option<SummaryRow>) returns (r: Response)
    requires st.Valid()
    modifies s
    ensures old(s.userId).None? ==>
      r == Redirect("/auth/login") && s.Data() == old(s.Data()).(error := Some(LoginRequired))
    ensures old(s.userId).Some? && id !in st.pedidos ==>
      r == Redirect("/admin/pedidos") && s.Data() == old(s.Data()).(error := Some(NotFound))
    ensures old(s.userId).Some? && id in st.pedidos ==>
      r == Render("pedidos/detalle", OrderDetail(id, st.pedidos[id], Summarize(resumen))) &&
      st.pedidos[id].clienteId in st.clientes && s.Data() == old(s.Data())
  {
    var pass;
    pass, r := IsLoggedIn(s);
    if !pass {
      return;
    }
    if id !in st.pedidos {
      s.error := Some(NotFound);
      return Redirect("/admin/pedidos");
    }
    r := Render("pedidos/detalle", OrderDetail(id, st.pedidos[id], Summarize(resumen)));
  }

  /** Where both outcomes of the status and payment forms return to. */
  function DetailPath(id: nat): string {
    "/admin/pedidos/" + Decimal(id)
  }

  /** The handler's two statements: the UPDATE of the cached status, then the history
      INSERT. They succeed exactly when the order exists; then the cache and the history
      still agree and `estado` is the order's latest status. Otherwise nothing changes. */
  method RecordStatus(st: Store, id: nat, estado: string, nota: Option<string>, now: Timestamp) returns (ok: bool)
    requires st.Valid() && st.Consistent()
    modifies st
    ensures st.Valid() && st.Consistent()
    ensures ok <==> id in old(st.pedidos)
    ensures ok ==>
      && st.Rows() == old(st.Rows()).(
           pedidos := old(st.pedidos)[id := old(st.pedidos)[id].(estadoTrabajo := estado)],
           historial := old(st.historial) + [HistorialRow(id, estado, nota, now)])
      && LastStatus(st.historial, id) == Some(estado)
    ensures !ok ==> st.Rows() == old(st.Rows())
  {
    st.UpdateEstado(id, estado);
    var row := HistorialRow(id, estado, nota, now);
    ok := st.InsertHistorial(row);
    if ok {
      StatusChangeKeepsAgreement(old(st.pedidos), old(st.historial), id, estado, row);
    }
  }

  /** POST /admin/pedidos/:id/estado. On an existing order the cached status becomes
      `estado`, one history row is appended, so the history's latest status for the
      order is `estado` and the cache and history still agree, and both rooms are told.
      On a missing order the UPDATE matches nothing and the history INSERT fails its
      foreign key: nothing is stored or emitted. `now` is the server's NOW(). */
  method PostEstado(st: Store, s: Session, io: Io, id: nat, estado: string, nota: string, now: Timestamp)
    returns (r: Response)
    requires st.Valid() && st.Consistent()
    modifies st, s, io
    ensures st.Valid() && st.Consistent()
    ensures io.rooms == old(io.rooms)
    ensures old(s.userId).None? ==>
      st.Rows() == old(st.Rows()) && io.log == old(io.log) && r == Redirect("/auth/login") &&
      s.Data() == old(s.Data()).(error := Some(LoginRequired))
    ensures old(s.userId).Some? && id !in old(st.pedidos) ==>
      st.Rows() == old(st.Rows()) && io.log == old(io.log) &&
      s.Data() == old(s.Data()).(error := Some(StatusFailed)) && r == Redirect(DetailPath(id))
    ensures old(s.userId).Some? && id in old(st.pedidos) ==>
      var payload := EstadoActualizado(id, estado, now, FieldOrNull(nota));
      && st.Rows() == old(st.Rows()).(
           pedidos := old(st.pedidos)[id := old(st.pedidos)[id].(estadoTrabajo := estado)],
           historial := old(st.historial) + [HistorialRow(id, estado, FieldOrNull(nota), now)])
      && LastStatus(st.historial, id) == Some(estado)
      && io.log == old(io.log) + [Event(PedidoRoom(id), StatusEvent, payload),
                                  Event(ClienteRoom(old(st.pedidos)[id].clienteId), StatusEvent, payload)]
      && s.Data() == old(s.Data()).(success := Some(StatusUpdated)) && r == Redirect(DetailPath(id))
  {
    var pass;
    pass, r := IsLoggedIn(s);
    if !pass {
      return;
    }
    var ok := RecordStatus(st, id, estado, FieldOrNull(nota), now);
    if !ok {
      s.error := Some(StatusFailed);
      return Redirect(DetailPath(id));
    }
    var clienteId := st.pedidos[id].clienteId;
    Notify(io, id, clienteId, StatusEvent, EstadoActualizado(id, estado, now, FieldOrNull(nota)));
    s.success := Some(StatusUpdated);
    r := Redirect(DetailPath(id));
  }

  /** POST /admin/pedidos/:id/pagos. `importe` is `Number(importe)`: a non-finite value
      makes the INSERT fail, and so does a missing order; either way nothing is stored or
      emitted. Otherwise one payment row is appended and both rooms receive the order's
      recomputed summary; `resumen` is the summary views' row read after the INSERT. */
  method PostPago(st: Store, s: Session, io: Io, id: nat, importe: Validators.JsNumber, metodo: string,
                  nota: string, now: Timestamp, resumen: Option<SummaryRow>) returns (r: Response)
    requires st.Valid() && st.Consistent()
    modifies st, s, io
    ensures st.Valid() && st.Consistent()
    ensures io.rooms == old(io.rooms)
    ensures old(s.userId).None? ==>
      st.Rows() == old(st.Rows()) && io.log == old(io.log) && r == Redirect("/auth/login") &&
      s.Data() == old(s.Data()).(error := Some(LoginRequired))
    ensures old(s.userId).Some? && (id !in old(st.pedidos) || importe.NonFinite?) ==>
      st.Rows() == old(st.Rows()) && io.log == old(io.log) &&
      s.Data() == old(s.Data()).(error := Some(PaymentFailed)) && r == Redirect(DetailPath(id))
    ensures old(s.userId).Some? && id in old(st.pedidos) && importe.Finite? ==>
      var sum := Summarize(resumen);
      var payload := PagosActualizados(id, sum.total, sum.pagado, sum.estadoPago);
      && st.Rows() == old(st.Rows()).(pagos := old(st.pagos) + [Pago(id, importe.value, metodo, FieldOrNull(nota), now)])
      && io.log == old(io.log) + [Event(PedidoRoom(id), PaymentsEvent, payload),
                                  Event(ClienteRoom(old(st.pedidos)[id].clienteId), PaymentsEvent, payload)]
      && s.Data() == old(s.Data()).(success := Some(PaymentRecorded)) && r == Redirect(DetailPath(id))
  {
    var pass;
    pass, r := IsLoggedIn(s);
    if !pass {
      return;
    }
    var ok := false;
    if importe.Finite? {
      ok := st.InsertPago(Pago(id, importe.value, metodo, FieldOrNull(nota), now));
    }
    if !ok {
      s.error := Some(PaymentFailed);
      return Redirect(DetailPath(id));
    }
    var sum := Summarize(resumen);
    Notify(io, id, st.pedidos[id].clienteId, PaymentsEvent, PagosActualizados(id, sum.total, sum.pagado, sum.estadoPago));
    s.success := Some(PaymentRecorded);
    r := Redirect(DetailPath(id));
  }
}
