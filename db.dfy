/** The MySQL schema the routes work on: the seven tables as maps keyed by
    AUTO_INCREMENT id (or append-only sequences for the log-like tables), the
    constraints the store enforces (unique e-mail, foreign keys), the summary view
    as an optional row, and one method per SQL statement the routes issue. */
module Db {
  import opened Prelude

  // ---------------------------------------------------------------------------
  // Credentials: bcrypt as an ideal salted hash

  /** A stored password hash; `salt` stands for bcrypt's random salt. */
  datatype Hash = Hash(salt: nat, source: string)

  /** bcrypt.hash(password, 10) with the salt it would draw at random. */
  function HashOf(password: string, salt: nat): Hash {
    Hash(salt, password)
  }

  /** bcrypt.compare(password, hash). */
  predicate Matches(password: string, h: Hash) {
    h.source == password
  }

  /** A hash accepts exactly the password it was made from, whatever the salt. */
  lemma MatchesOwnPasswordOnly(p: string, q: string, salt: nat)
    ensures Matches(q, HashOf(p, salt)) <==> q == p
  {
  }

  // ---------------------------------------------------------------------------
  // Rows

  datatype Cliente = Cliente(
    tipoCliente: string,
    empresa: Option<string>,
    nombre: Option<string>,
    apellidos: Option<string>,
    email: string,
    telefono: Option<string>,
    direccionEntrega: Option<string>,
    passwordHash: Option<Hash>)

  datatype Usuario = Usuario(email: string, passwordHash: Hash)

  /** `activo` is the TINYINT the routes write as 1 or 0. */
  datatype Producto = Producto(nombre: string, precio: int, activo: int)

  /** `estadoTrabajo` is the cached current job status; any string is stored. */
  datatype Pedido = Pedido(clienteId: Id, observaciones: Option<string>, estadoTrabajo: string, fecha: Timestamp)

  /** A line item keeps the unit price submitted with the order, not the product's price. */
  datatype Linea = Linea(pedidoId: Id, productoId: int, cantidad: int, precioUnitario: int)

  datatype HistorialRow = HistorialRow(pedidoId: int, estado: string, nota: Option<string>, fecha: Timestamp)

  /** `importe` in cents; no sign or bound is imposed. */
  datatype Pago = Pago(pedidoId: int, importe: int, metodo: string, nota: Option<string>, fecha: Timestamp)

  /** The row of the summary views for one order; each column may be NULL. */
  datatype SummaryRow = SummaryRow(total: Option<int>, pagado: Option<int>, estadoPago: Option<string>)

  /** The `resumen` object the routes build from a possibly missing summary row. */
  datatype Summary = Summary(total: int, pagado: int, estadoPago: string)

  /** The rows of every table, and the AUTO_INCREMENT counter of each table with an `id`
      column: the id its next inserted row gets. */
  datatype Tables = Tables(
    clientes: map<Id, Cliente>,
    usuarios: map<Id, Usuario>,
    productos: map<Id, Producto>,
    pedidos: map<Id, Pedido>,
    lineas: seq<Linea>,
    historial: seq<HistorialRow>,
    pagos: seq<Pago>,
    nextCliente: Id,
    nextUsuario: Id,
    nextProducto: Id,
    nextPedido: Id)

  const SinLiquidar := "Sin liquidar"

  /** The summary fallbacks: a missing row or a NULL/0 column gives 0, a missing or empty
      payment status gives 'Sin liquidar'. The result is never NULL. */
  function Summarize(row: Option<SummaryRow>): (r: Summary)
    ensures row.None? ==> r == Summary(0, 0, SinLiquidar)
    ensures r.estadoPago != ""
    ensures row.Some? && row.value.total.Some? ==> r.total == row.value.total.value
    ensures row.Some? && row.value.pagado.Some? ==> r.pagado == row.value.pagado.value
    ensures row.Some? && Truthy(row.value.estadoPago) ==> r.estadoPago == row.value.estadoPago.value
    ensures (row.None? || !Truthy(row.value.estadoPago)) ==> r.estadoPago == SinLiquidar
    ensures (row.None? || row.value.total.None?) ==> r.total == 0
    ensures (row.None? || row.value.pagado.None?) ==> r.pagado == 0
  {
    match row
    case None => Summary(0, 0, SinLiquidar)
    case Some(t) =>
      Summary(
        if t.total.Some? then t.total.value else 0,
        if t.pagado.Some? then t.pagado.value else 0,
        if Truthy(t.estadoPago) then t.estadoPago.value else SinLiquidar)
  }

  // ---------------------------------------------------------------------------
  // Scans: `SELECT id FROM t WHERE <keep> ORDER BY id DESC`

  /** The keys of `m` below `hi` whose row satisfies `keep`, in descending order. */
  function KeysDescending<T>(m: map<Id, T>, keep: T -> bool, hi: nat): (r: seq<Id>)
    ensures forall i :: 0 <= i < |r| ==> r[i] in m && keep(m[r[i]]) && r[i] < hi
    ensures forall k :: k in m && k < hi && keep(m[k]) ==> k in r
    ensures forall i, j :: 0 <= i < j < |r| ==> r[i] > r[j]
    decreases hi
  {
    if hi <= 1 then []
    else
      var k: Id := hi - 1;
      var rest := KeysDescending(m, keep, k);
      if k in m && keep(m[k]) then [k] + rest else rest
  }

  predicate KeysBelow<T>(m: map<Id, T>, next: Id) {
    forall k :: k in m ==> k < next
  }

  /** `SELECT * FROM t ORDER BY id DESC` on a table whose ids are all below `next`:
      every row exactly once, newest first. */
  function AllKeysDescending<T>(m: map<Id, T>, next: Id): (r: seq<Id>)
    requires KeysBelow(m, next)
    ensures forall k :: k in r <==> k in m
    ensures forall i, j :: 0 <= i < j < |r| ==> r[i] > r[j]
  {
    KeysDescending(m, (_: T) => true, next)
  }

  // ---------------------------------------------------------------------------
  // Constraints enforced by the store

  ghost predicate ClienteEmailsUnique(m: map<Id, Cliente>) {
    forall a, b :: a in m && b in m && m[a].email == m[b].email ==> a == b
  }

  ghost predicate UsuarioEmailsUnique(m: map<Id, Usuario>) {
    forall a, b :: a in m && b in m && m[a].email == m[b].email ==> a == b
  }

  /** Every foreign key points at an existing row. */
  ghost predicate ForeignKeys(t: Tables) {
    && (forall id :: id in t.pedidos ==> t.pedidos[id].clienteId in t.clientes)
    && (forall i :: 0 <= i < |t.lineas| ==> t.lineas[i].pedidoId in t.pedidos && t.lineas[i].productoId in t.productos)
    && (forall i :: 0 <= i < |t.historial| ==> t.historial[i].pedidoId in t.pedidos)
    && (forall i :: 0 <= i < |t.pagos| ==> t.pagos[i].pedidoId in t.pedidos)
  }

  /** Overwriting one customer row with an e-mail no other row holds keeps e-mails unique. */
  lemma OverwriteKeepsEmailsUnique(m: map<Id, Cliente>, id: Id, c: Cliente)
    requires ClienteEmailsUnique(m)
    requires forall k :: k in m && k != id ==> m[k].email != c.email
    ensures ClienteEmailsUnique(m[id := c])
  {
  }

  // ---------------------------------------------------------------------------
  // Job-status history

  /** The status of the most recent history row of order `id`, if it has any. */
  function LastStatus(h: seq<HistorialRow>, id: Id): (r: Option<string>)
  {
    if h == [] then None
    else if h[|h| - 1].pedidoId == id then Some(h[|h| - 1].estado)
    else LastStatus(h[..|h| - 1], id)
  }

  /** Appending a history row makes it the latest status of its order and of no other. */
  lemma LastStatusAppend(h: seq<HistorialRow>, row: HistorialRow, id: Id)
    ensures LastStatus(h + [row], id) == if row.pedidoId == id then Some(row.estado) else LastStatus(h, id)
  {
    assert (h + [row])[..|h|] == h;
  }

  /** An order no history row refers to has no status history. */
  lemma {:induction false} LastStatusOfUnreferenced(h: seq<HistorialRow>, id: Id)
    requires forall i :: 0 <= i < |h| ==> h[i].pedidoId != id
    ensures LastStatus(h, id) == None
  {
    if h != [] {
      LastStatusOfUnreferenced(h[..|h| - 1], id);
    }
  }

  /** The cached status of an order agrees with its latest history row (when it has one). */
  ghost predicate StatusAgrees(pedidos: map<Id, Pedido>, historial: seq<HistorialRow>) {
    forall id :: id in pedidos && LastStatus(historial, id).Some? ==>
      pedidos[id].estadoTrabajo == LastStatus(historial, id).value
  }

  /** Setting an order's cached status and appending the matching history row keeps the
      cache and the history in agreement, and makes that status the order's latest. */
  lemma StatusChangeKeepsAgreement(pedidos: map<Id, Pedido>, h: seq<HistorialRow>, id: Id, estado: string,
                                   row: HistorialRow)
    requires StatusAgrees(pedidos, h)
    requires id in pedidos && row.pedidoId == id && row.estado == estado
    ensures StatusAgrees(pedidos[id := pedidos[id].(estadoTrabajo := estado)], h + [row])
    ensures LastStatus(h + [row], id) == Some(estado)
  {
    forall k: Id | k in pedidos
      ensures LastStatus(h + [row], k) == if k == id then Some(estado) else LastStatus(h, k)
    {
      LastStatusAppend(h, row, k);
    }
  }

  // ---------------------------------------------------------------------------
  // The store

  class Store {
    /** The column default of `pedidos.estado_trabajo`. */
    const initialEstado: string

    var clientes: map<Id, Cliente>
    var usuarios: map<Id, Usuario>
    var productos: map<Id, Producto>
    var pedidos: map<Id, Pedido>
    var lineas: seq<Linea>
    var historial: seq<HistorialRow>
    var pagos: seq<Pago>

    // AUTO_INCREMENT counters
    var nextCliente: Id
    var nextUsuario: Id
    var nextProducto: Id
    var nextPedido: Id

    function Rows(): Tables
      reads this
    {
      Tables(clientes, usuarios, productos, pedidos, lineas, historial, pagos,
             nextCliente, nextUsuario, nextProducto, nextPedido)
    }

    /** The constraints MySQL enforces, and fresh AUTO_INCREMENT counters. */
    ghost predicate Valid()
      reads this
    {
      && KeysBelow(clientes, nextCliente)
      && KeysBelow(usuarios, nextUsuario)
      && KeysBelow(productos, nextProducto)
      && KeysBelow(pedidos, nextPedido)
      && ClienteEmailsUnique(clientes)
      && UsuarioEmailsUnique(usuarios)
      && ForeignKeys(Rows())
    }

    /** What the application keeps between requests: cached status == last history row. */
    ghost predicate Consistent()
      reads this
    {
      StatusAgrees(pedidos, historial)
    }

    constructor (initialEstado: string)
      ensures Valid() && Consistent()
      ensures this.initialEstado == initialEstado
      ensures Rows() == Tables(map[], map[], map[], map[], [], [], [], 1, 1, 1, 1)
    {
      this.initialEstado := initialEstado;
      clientes, usuarios, productos, pedidos := map[], map[], map[], map[];
      lineas, historial, pagos := [], [], [];
      nextCliente, nextUsuario, nextProducto, nextPedido := 1, 1, 1, 1;
    }

    // -------------------------------------------------------------------------
    // Lookups

    /** `SELECT * FROM clientes WHERE email=?`: the row's id, if any. */
    function ClienteByEmail(email: string): (r: Option<Id>)
      reads this
      requires Valid()
      ensures r.Some? ==> r.value in clientes && clientes[r.value].email == email
      ensures r.None? <==> forall k :: k in clientes ==> clientes[k].email != email
    {
      var ks := KeysDescending(clientes, (c: Cliente) => c.email == email, nextCliente);
      if ks == [] then None else Some(ks[0])
    }

    /** `SELECT * FROM usuarios WHERE email=?`: the row's id, if any. */
    function UsuarioByEmail(email: string): (r: Option<Id>)
      reads this
      requires Valid()
      ensures r.Some? ==> r.value in usuarios && usuarios[r.value].email == email
      ensures r.None? <==> forall k :: k in usuarios ==> usuarios[k].email != email
    {
      var ks := KeysDescending(usuarios, (u: Usuario) => u.email == email, nextUsuario);
      if ks == [] then None else Some(ks[0])
    }

    // -------------------------------------------------------------------------
    // Statements on `clientes`

    /** INSERT INTO clientes: fails on a duplicate e-mail. */
    method InsertCliente(c: Cliente) returns (id: Option<Id>)
      requires Valid()
      modifies this
      ensures Valid()
      ensures id.Some? <==> forall k :: k in old(clientes) ==> old(clientes)[k].email != c.email
      ensures id.Some? ==> id.value == old(nextCliente) && id.value !in old(clientes)
      ensures id.Some? ==> Rows() == old(Rows()).(clientes := old(clientes)[id.value := c], nextCliente := id.value + 1)
      ensures id.None? ==> Rows() == old(Rows())
    {
      var existing := ClienteByEmail(c.email);
      if existing.Some? {
        return None;
      }
      id := Some(nextCliente);
      clientes := clientes[nextCliente := c];
      nextCliente := nextCliente + 1;
    }

    /** `UPDATE clientes SET <seven fields> WHERE id=?`: the stored hash is kept; fails
        when another row already has the new e-mail; a missing id matches no row. */
    method UpdateCliente(id: int, tipoCliente: string, empresa: Option<string>, nombre: Option<string>,
                         apellidos: Option<string>, email: string, telefono: Option<string>,
                         direccionEntrega: Option<string>) returns (ok: bool)
      requires Valid()
      modifies this
      ensures Valid()
      ensures ok <==> id !in old(clientes) || forall k :: k in old(clientes) && k != id ==> old(clientes)[k].email != email
      ensures ok && id in old(clientes) ==>
        Rows() == old(Rows()).(clientes := old(clientes)[id := Cliente(tipoCliente, empresa, nombre, apellidos,
                                                                            email, telefono, direccionEntrega,
                                                                            old(clientes)[id].passwordHash)])
      ensures !ok || id !in old(clientes) ==> Rows() == old(Rows())
    {
      if id !in clientes {
        return true;
      }
      ok := forall k :: k in clientes && k != id ==> clientes[k].email != email;
      if ok {
        var c := Cliente(tipoCliente, empresa, nombre, apellidos, email, telefono, direccionEntrega,
                         clientes[id].passwordHash);
        OverwriteKeepsEmailsUnique(clientes, id, c);
        clientes := clientes[id := c];
        assert clientes.Keys == old(clientes).Keys;
      }
    }

    /** `DELETE FROM clientes WHERE id=?`: fails while an order refers to the customer. */
    method DeleteCliente(id: int) returns (ok: bool)
      requires Valid()
      modifies this
      ensures Valid()
      ensures ok <==> forall p :: p in old(pedidos) ==> old(pedidos)[p].clienteId != id
      ensures ok ==> Rows() == old(Rows()).(clientes := old(clientes) - {id})
      ensures !ok ==> Rows() == old(Rows())
    {
      ok := forall p :: p in pedidos ==> pedidos[p].clienteId != id;
      if ok {
        clientes := clientes - {id};
      }
    }

    // -------------------------------------------------------------------------
    // Statements on `usuarios`

    /** INSERT INTO usuarios: fails on a duplicate e-mail. */
    method InsertUsuario(u: Usuario) returns (id: Option<Id>)
      requires Valid()
      modifies this
      ensures Valid()
      ensures id.Some? <==> forall k :: k in old(usuarios) ==> old(usuarios)[k].email != u.email
      ensures id.Some? ==> id.value == old(nextUsuario) && id.value !in old(usuarios)
      ensures id.Some? ==> Rows() == old(Rows()).(usuarios := old(usuarios)[id.value := u], nextUsuario := id.value + 1)
      ensures id.None? ==> Rows() == old(Rows())
    {
      var existing := UsuarioByEmail(u.email);
      if existing.Some? {
        return None;
      }
      id := Some(nextUsuario);
      usuarios := usuarios[nextUsuario := u];
      nextUsuario := nextUsuario + 1;
    }

    // -------------------------------------------------------------------------
    // Statements on `productos`

    /** INSERT INTO productos. */
    method InsertProducto(p: Producto) returns (id: Id)
      requires Valid()
      modifies this
      ensures Valid()
      ensures id == old(nextProducto) && id !in old(productos)
      ensures Rows() == old(Rows()).(productos := old(productos)[id := p], nextProducto := id + 1)
    {
      id := nextProducto;
      productos := productos[id := p];
      nextProducto := nextProducto + 1;
    }

    /** `UPDATE productos SET nombre=?, precio=?, activo=? WHERE id=?`. */
    method UpdateProducto(id: int, p: Producto)
      requires Valid()
      modifies this
      ensures Valid()
      ensures id in old(productos) ==> Rows() == old(Rows()).(productos := old(productos)[id := p])
      ensures id !in old(productos) ==> Rows() == old(Rows())
    {
      if id in productos {
        productos := productos[id := p];
      }
    }

    /** `DELETE FROM productos WHERE id=?`: fails while a line item refers to the product. */
    method DeleteProducto(id: int) returns (ok: bool)
      requires Valid()
      modifies this
      ensures Valid()
      ensures ok <==> forall i :: 0 <= i < |old(lineas)| ==> old(lineas)[i].productoId != id
      ensures ok ==> Rows() == old(Rows()).(productos := old(productos) - {id})
      ensures !ok ==> Rows() == old(Rows())
    {
      ok := forall i :: 0 <= i < |lineas| ==> lineas[i].productoId != id;
      if ok {
        productos := productos - {id};
      }
    }

    // -------------------------------------------------------------------------
    // Statements on `pedidos` and the tables that refer to it

    /** `INSERT INTO pedidos (cliente_id, observaciones)`: fails when the customer does not
        exist; the job status takes the column default. */
    method InsertPedido(clienteId: int, observaciones: Option<string>, now: Timestamp) returns (id: Option<Id>)
      requires Valid() && Consistent()
      modifies this
      ensures Valid() && Consistent()
      ensures id.Some? <==> clienteId in old(clientes)
      ensures id.Some? ==> id.value == old(nextPedido) && id.value !in old(pedidos)
      ensures id.Some? ==> Rows() == old(Rows()).(pedidos := old(pedidos)[id.value := Pedido(clienteId, observaciones, initialEstado, now)],
                                                  nextPedido := id.value + 1)
      ensures id.None? ==> Rows() == old(Rows())
    {
      if clienteId !in clientes {
        return None;
      }
      var newId: Id := nextPedido;
      LastStatusOfUnreferenced(historial, newId);
      id := Some(newId);
      pedidos := pedidos[newId := Pedido(clienteId, observaciones, initialEstado, now)];
      nextPedido := nextPedido + 1;
    }

    /** `INSERT INTO pedido_productos`: fails when the order or the product does not exist. */
    method InsertLinea(l: Linea) returns (ok: bool)
      requires Valid()
      modifies this
      ensures Valid()
      ensures ok <==> l.pedidoId in old(pedidos) && l.productoId in old(productos)
      ensures ok ==> Rows() == old(Rows()).(lineas := old(lineas) + [l])
      ensures !ok ==> Rows() == old(Rows())
    {
      ok := l.pedidoId in pedidos && l.productoId in productos;
      if ok {
        lineas := lineas + [l];
      }
    }

    /** `UPDATE pedidos SET estado_trabajo=? WHERE id=?`: any string; a missing id matches no row. */
    method UpdateEstado(id: int, estado: string)
      requires Valid()
      modifies this
      ensures Valid()
      ensures id in old(pedidos) ==> Rows() == old(Rows()).(pedidos := old(pedidos)[id := old(pedidos)[id].(estadoTrabajo := estado)])
      ensures id !in old(pedidos) ==> Rows() == old(Rows())
    {
      if id in pedidos {
        pedidos := pedidos[id := pedidos[id].(estadoTrabajo := estado)];
      }
    }

    /** `INSERT INTO trabajo_historial`: fails when the order does not exist. */
    method InsertHistorial(row: HistorialRow) returns (ok: bool)
      requires Valid()
      modifies this
      ensures Valid()
      ensures ok <==> row.pedidoId in old(pedidos)
      ensures ok ==> Rows() == old(Rows()).(historial := old(historial) + [row])
      ensures !ok ==> Rows() == old(Rows())
    {
      ok := row.pedidoId in pedidos;
      if ok {
        historial := historial + [row];
      }
    }

    /** `INSERT INTO pagos`: fails when the order does not exist; the amount is not checked. */
    method InsertPago(p: Pago) returns (ok: bool)
      requires Valid()
      modifies this
      ensures Valid()
      ensures ok <==> p.pedidoId in old(pedidos)
      ensures ok ==> Rows() == old(Rows()).(pagos := old(pagos) + [p])
      ensures !ok ==> Rows() == old(Rows())
    {
      ok := p.pedidoId in pedidos;
      if ok {
        pagos := pagos + [p];
      }
    }
  }
}
