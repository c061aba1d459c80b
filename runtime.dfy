/** The per-request objects the handlers write to: the express-session object, the
    socket.io server (room membership and the events it has emitted) and what a handler
    ends with (a redirect, a rendered view, `next()`, or a rejected promise). */
module Runtime {
  import opened Prelude
  import opened Db

  datatype SessionData = SessionData(
    userId: Option<Id>,
    clienteId: Option<Id>,
    error: Option<string>,
    success: Option<string>)

  /** `req.session`: the admin principal, the customer principal and the two flash fields. */
  class Session {
    var userId: Option<Id>
    var clienteId: Option<Id>
    var error: Option<string>
    var success: Option<string>

    function Data(): SessionData
      reads this
    {
      SessionData(userId, clienteId, error, success)
    }

    constructor ()
      ensures Data() == SessionData(None, None, None, None)
    {
      userId, clienteId, error, success := None, None, None, None;
    }
  }

  /** The data a rendered view receives, for the views whose data the model follows. */
  datatype ViewData =
    | NoData
    | OldInput(email: string)
    | Listing(ids: seq<Id>)
    | OrderDetail(id: Id, pedido: Pedido, resumen: Summary)
    | NewOrderForm(clientes: seq<Id>, productos: seq<Id>)
    | ClienteForm(id: Id, cliente: Cliente)
    | ProductoForm(id: Id, producto: Producto)
    | DashboardOf(userId: Id)

  /** How a handler or middleware finishes. `Failed` is an async handler whose promise
      rejects without a catch: no redirect and no flash are issued. */
  datatype Response =
    | Next
    | Redirect(path: string)
    | Render(view: string, data: ViewData)
    | Failed

  type SocketId = nat

  datatype Payload =
    | EstadoActualizado(pedidoId: int, estado: string, fecha: Timestamp, nota: Option<string>)
    | PagosActualizados(pedidoId: int, total: int, pagado: int, estadoPago: string)

  /** One `io.to(room).emit(name, payload)`. */
  datatype Event = Event(room: string, name: string, payload: Payload)

  /** The socket.io server: which rooms each socket has joined, and every event emitted so far. */
  class Io {
    var rooms: map<SocketId, set<string>>
    var log: seq<Event>

    constructor ()
      ensures rooms == map[] && log == []
    {
      rooms, log := map[], [];
    }

    /** `io.to(room).emit(name, payload)`: appended to the log, membership untouched. */
    method Emit(room: string, name: string, payload: Payload)
      modifies this
      ensures log == old(log) + [Event(room, name, payload)]
      ensures rooms == old(rooms)
    {
      log := log + [Event(room, name, payload)];
    }
  }
}
