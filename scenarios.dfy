/** Requests in sequence, each handler seeing the state the previous one left (with the
    flash middleware of app.js in between where a browser would make a new request):
    registering then logging in, and an admin's change to an order reaching the
    customer's pages. */
module Scenarios {
  import opened Prelude
  import opened Db
  import opened Runtime
  import App
  import AuthController
  import ClienteAuth
  import ClientePedidos
  import Pedidos

  /** An administrator who registers with a free e-mail can then log in with the same
      password, and the session then holds the id of the row just created. */
  method AdminRegisterThenLogin(st: Store, s: Session, email: string, password: string, salt: nat)
    requires st.Valid() && st.Consistent()
    requires email != "" && password != "" && st.UsuarioByEmail(email).None?
    modifies st, s
    ensures st.Valid() && st.Consistent()
    ensures s.userId == Some(old(st.nextUsuario))
  {
    var r := AuthController.PostRegister(st, s, email, password, salt);
    var locals;
    locals, r := App.Flash(s);
    var newId: Id := old(st.nextUsuario);
    assert newId in st.usuarios && st.usuarios[newId] == Usuario(email, HashOf(password, salt));
    r := AuthController.PostLogin(st, s, email, password);
  }

  /** After the same registration, any other password is refused and the session gains
      no administrator. */
  method AdminLoginWithOtherPassword(st: Store, s: Session, email: string, password: string, other: string, salt: nat)
    requires st.Valid() && st.Consistent()
    requires email != "" && password != "" && st.UsuarioByEmail(email).None?
    requires other != "" && other != password
    modifies st, s
    ensures st.Valid() && st.Consistent()
    ensures s.userId == old(s.userId)
    ensures s.error == Some(AuthController.BadCredentials)
  {
    var r := AuthController.PostRegister(st, s, email, password, salt);
    var locals;
    locals, r := App.Flash(s);
    var newId: Id := old(st.nextUsuario);
    assert newId in st.usuarios && st.usuarios[newId] == Usuario(email, HashOf(password, salt));
    MatchesOwnPasswordOnly(password, other, salt);
    r := AuthController.PostLogin(st, s, email, other);
  }

  /** A customer registers, logs out and logs in again with the registered password.
      Registration stores the e-mail as typed, while login looks up `normalized`, the
      address left by login's `trim` and `normalizeEmail`. When that is the registered
      address, the session ends up holding the customer row the registration created. */
  method ClienteRegisterLogoutLogin(st: Store, s: Session, f: ClienteAuth.RegisterForm, emailValid: bool, salt: nat,
                                    normalized: string)
    requires st.Valid() && st.Consistent()
    requires ClienteAuth.RegisterErrors(f, emailValid) == [] && st.ClienteByEmail(f.email).None?
    requires normalized == f.email
    modifies st, s
    ensures st.Valid() && st.Consistent()
    ensures s.clienteId == Some(old(st.nextCliente))
  {
    var r := ClienteAuth.PostRegister(st, s, f, emailValid, salt);
    r := ClienteAuth.Logout(s);
    var locals;
    locals, r := App.Flash(s);
    var newId: Id := old(st.nextCliente);
    assert newId in st.clientes && st.clientes[newId] == ClienteAuth.NewCliente(f, salt);
    r := ClienteAuth.PostLogin(st, s, normalized, f.password, []);
  }

  /** The same sequence when `normalizeEmail` rewrites the registered address into one no
      customer row holds (it drops the dots of a gmail address, for instance; a change
      of case alone would still find the row under MySQL's case-insensitive collation):
      the login is refused with 'Credenciales inválidas' and no customer is logged in, whatever the
      password. */
  method ClienteNormalizedLoginRefused(st: Store, s: Session, f: ClienteAuth.RegisterForm, emailValid: bool, salt: nat,
                                       normalized: string)
    requires st.Valid() && st.Consistent()
    requires ClienteAuth.RegisterErrors(f, emailValid) == [] && st.ClienteByEmail(f.email).None?
    requires normalized != f.email && st.ClienteByEmail(normalized).None?
    modifies st, s
    ensures st.Valid() && st.Consistent()
    ensures s.clienteId == None
    ensures s.error == Some(ClienteAuth.BadCredentials)
  {
    var r := ClienteAuth.PostRegister(st, s, f, emailValid, salt);
    r := ClienteAuth.Logout(s);
    var locals;
    locals, r := App.Flash(s);
    var newId: Id := old(st.nextCliente);
    assert st.clientes == old(st.clientes)[newId := ClienteAuth.NewCliente(f, salt)];
    r := ClienteAuth.PostLogin(st, s, normalized, f.password, []);
  }

  /** An order an administrator creates for a customer appears in that customer's
      "my orders" list on their next request. */
  method CreatedOrderListedForCustomer(st: Store, admin: Session, customer: Session, clienteId: Id,
                                       observaciones: string, productos: Pedidos.ProductosField, now: Timestamp)
    returns (r: Response)
    requires st.Valid() && st.Consistent()
    requires admin != customer && admin.userId.Some? && customer.clienteId == Some(clienteId)
    requires clienteId in st.clientes
    modifies st, admin, customer
    ensures st.Valid() && st.Consistent()
    ensures r.Render? && r.data.Listing? && old(st.nextPedido) in r.data.ids
  {
    var created := Pedidos.PostNuevo(st, admin, clienteId, observaciones, productos, now);
    r := ClientePedidos.MisPedidos(st, customer);
  }

  /** After an administrator sets the job status of an order, its owner's detail page
      shows that status. */
  method StatusChangeSeenByOwner(st: Store, admin: Session, customer: Session, io: Io, id: Id, estado: string,
                                 nota: string, now: Timestamp, resumen: Option<SummaryRow>)
    returns (r: Response)
    requires st.Valid() && st.Consistent()
    requires admin != customer && admin.userId.Some?
    requires id in st.pedidos && customer.clienteId == Some(st.pedidos[id].clienteId)
    modifies st, admin, customer, io
    ensures st.Valid() && st.Consistent()
    ensures r.Render? && r.data.OrderDetail? && r.data.pedido.estadoTrabajo == estado
  {
    var changed := Pedidos.PostEstado(st, admin, io, id, estado, nota, now);
    r := ClientePedidos.Detalle(st, customer, id, resumen);
  }
}
