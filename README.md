# Order management backend: a Dafny model

This project models the request handlers of a small order-management web application
(Express, MySQL, socket.io). Administrators log in, maintain customers (`clientes`) and
products (`productos`), and create orders (`pedidos`) with line items
(`pedido_productos`). They change an order's job status, and each change is also appended
to the status history (`trabajo_historial`). They record payments (`pagos`). Customers
register, log in and see only their own orders. Status and payment changes are announced
over socket.io to the order's room and to the customer's room.

The model is imperative, like the handlers:

- `Db.Store` is a class holding the seven tables. Tables keyed by AUTO_INCREMENT id are
  maps; the log-like tables are sequences. The snapshot `Store.Rows()` also holds each
  table's AUTO_INCREMENT counter. The class has one method per SQL statement the handlers
  issue. The database constraints are in `Store.Valid()`, and every statement keeps them.
  A statement that would break one fails, as it does in MySQL.
- The schema is not among the modelled files, so those constraints are assumed. They are
  a unique e-mail for customers and for users, and foreign keys from `pedidos` to
  `clientes`, from `pedido_productos` to `pedidos` and `productos`, and from
  `trabajo_historial` and `pagos` to `pedidos`. Only the key from `pedidos` to `clientes`
  shows in the code: a failed customer delete says the customer has orders
  (routes/clientes.js:81). "## Left out" says what the handlers would do without the
  others.
- `Store.Consistent()` says that each order's cached `estado_trabajo` equals the status of
  its latest history row. Every handler keeps it.
- `Runtime.Session` is `req.session`: the admin id, the customer id and the two flash
  fields.
- `Runtime.Io` is the socket.io server: room membership plus the log of emitted events.
- Each handler is a method. Its contract gives the whole new state of the tables
  (`st.Rows() == old(st.Rows()).(...)`), of the session and of the event log, and the
  response, for every branch of the source. Tables, counters and fields not named are
  unchanged.
- `Scenarios` chains handlers into request sequences. An administrator who registers can
  then log in, and any other password fails. A customer who registers can log in again
  only when login's `normalizeEmail` leaves the registered address unchanged; when it
  rewrites the address, the login is refused. An order created by an administrator
  shows up in its customer's list. A status change shows on the owner's detail page.

Some behaviour of the code is worth stating outright:

- Creating an order is not all-or-nothing. The code inserts the order and then its lines
  one by one with no transaction (routes/pedidos.js:37-51). A failure part-way leaves the
  order and the earlier lines stored, yet reports 'Error creando pedido'.
  `Pedidos.PostNuevo` states this.
- A `productos` field that is a single value rather than an array inserts no line items.
- The status value is never checked, and payment amounts have no sign or bound check.
- Deleting a product that a line item refers to has no error handling in the code. The
  model ends such a request with `Failed`: nothing changes and no flash is set.

## Model

| member | source | states |
|---|---|---|
| Prelude.OrNull | app.js:53-54 | `x or null`: the result is non-null exactly when the value is truthy, and is then the value itself |
| Prelude.FieldOrNull | routes/clientes.js:31 | `field or null` on a form field: null exactly for the empty string, and any other string is kept as it is |
| Prelude.Decimal | routes/pedidos.js:135 | the decimal rendering of an id inside a room name or a path is non-empty, and has at least two digits from 10 on |
| Prelude.DecimalValue | routes/pedidos.js:135 | the rendering of an id is made of decimal digits only, and those digits denote the id |
| Prelude.DecimalInjective | routes/pedidos.js:135-141 | distinct ids render as distinct strings |
| Db.MatchesOwnPasswordOnly | controllers/authController.js:74 | a stored hash accepts exactly the password it was made from, whatever the salt |
| Db.Summarize | routes/pedidos.js:104-108 | the summary shown for an order: a missing row or a NULL column gives total 0 and paid 0; a missing or empty payment status gives 'Sin liquidar'; otherwise the view's values; the status is never empty |
| Db.KeysDescending | routes/clientePedidos.js:13-20 | an `ORDER BY id DESC` scan: exactly the rows that pass the filter, strictly descending |
| Db.AllKeysDescending | routes/clientes.js:13-15 | `SELECT * ... ORDER BY id DESC`: every row exactly once, newest first |
| Db.LastStatusAppend | routes/pedidos.js:122-125 | appending a history row makes it the latest status of its order and leaves every other order's latest status as it was |
| Db.LastStatusOfUnreferenced | routes/pedidos.js:37-40 | an order that no history row refers to (a new one) has no latest status |
| Db.StatusChangeKeepsAgreement | routes/pedidos.js:121-125 | setting an order's cached status and appending the matching history row keeps every order's cache equal to its latest history status, and the new status is that order's latest |
| Db.Store.ClienteByEmail | routes/clienteAuth.js:63 | `SELECT * FROM clientes WHERE email=?`: a found id holds that e-mail; none is found exactly when no row holds it |
| Db.Store.UsuarioByEmail | controllers/authController.js:62-66 | the same lookup on `usuarios` |
| Db.Store.InsertCliente | routes/clientes.js:28-32 | inserts at the next AUTO_INCREMENT id and advances that counter exactly when the e-mail is free; otherwise no table and no counter changes |
| Db.Store.UpdateCliente | routes/clientes.js:58-63 | overwrites the seven fields of row `id` only and keeps its hash; fails (no change) when another row has the e-mail; a missing id changes nothing |
| Db.Store.DeleteCliente | routes/clientes.js:77 | removes row `id` exactly when no order refers to it; otherwise nothing changes |
| Db.Store.InsertUsuario | controllers/authController.js:32-35 | inserts at the next id and advances the counter exactly when the e-mail is free; otherwise nothing changes |
| Db.Store.InsertProducto | routes/productos.js:26-29 | inserts at the next id and advances the counter; nothing else changes |
| Db.Store.UpdateProducto | routes/productos.js:49-52 | overwrites row `id` when it exists; otherwise nothing changes |
| Db.Store.DeleteProducto | routes/productos.js:60 | removes row `id` exactly when no line item refers to it |
| Db.Store.InsertPedido | routes/pedidos.js:37-41 | inserts at the next id with the default status and advances the counter exactly when the customer exists, and keeps status agreement; otherwise nothing changes |
| Db.Store.InsertLinea | routes/pedidos.js:47-50 | appends the line exactly when its order and product exist |
| Db.Store.UpdateEstado | routes/pedidos.js:121 | sets the cached status of order `id` (any string); a missing id changes nothing |
| Db.Store.InsertHistorial | routes/pedidos.js:122-125 | appends the history row exactly when its order exists |
| Db.Store.InsertPago | routes/pedidos.js:166-169 | appends the payment exactly when its order exists, whatever the amount's sign |
| Runtime.Io.Emit | routes/pedidos.js:135-140 | `io.to(room).emit`: the event is appended to the log and room membership is untouched |
| Validators.Join | middlewares/validators.js:22 | `join(' · ')`: empty for no messages, the message itself for one, and the length of all parts plus the separators between them |
| Validators.JoinHoldsPartsInOrder | middlewares/validators.js:22 | every message appears in the joined flash, in order, at its offset |
| Validators.JoinSeparatesParts | middlewares/validators.js:22 | consecutive messages in the joined flash are separated by exactly one ' · ' |
| Validators.HandleErrors | middlewares/validators.js:15-29 | no errors: `next()` and the session is untouched; errors: the flash is all messages joined, then the view is rendered with the remembered locals (or `{}`), or the request goes 'back' |
| Validators.SanitizeNumber | middlewares/validators.js:32-39 | undefined, null and '' give null; any other value gives `Number(v)` when it is finite and null when not, so the result is never non-finite |
| App.Flash | app.js:52-58 | the locals get the flash values (null when falsy); both flash fields are deleted; nothing else in the session changes; `next()` |
| App.FlashShownOnce | app.js:52-58 | a flash is shown on one request; the next request sees null for both |
| App.OnJoin | app.js:72 | the socket joins any room it names, with no check; nothing is emitted |
| IndexRoutes.IsLoggedIn | routes/index.js:19-28 | passes exactly when `userId` is set; otherwise sets the error and redirects to `/auth/login` |
| IndexRoutes.Home | routes/index.js:31-40 | `/dashboard` exactly when `userId` is set (even with a customer logged in); `/cliente/mis-pedidos` exactly when only `clienteId` is set; the index page exactly when neither is |
| IndexRoutes.Dashboard | routes/index.js:43-46 | the dashboard with the admin's id, reachable only through the guard |
| AuthController.PostRegister | controllers/authController.js:11-44 | a missing field, or a taken e-mail, sets its message and inserts nothing; otherwise one user row holding the hash is added, `userId` stays unset and the browser goes to `/auth/login` |
| AuthController.PostLogin | controllers/authController.js:52-89 | a missing field sets 'Todos los campos son obligatorios'; an unknown e-mail and a wrong password give the same message and leave `userId` as it was; otherwise `userId` is the user's id and the browser goes to `/dashboard` |
| AuthController.Logout | controllers/authController.js:92-94 | the whole session is discarded: both ids and both flash fields |
| ClienteAuth.RememberOldInput | routes/clienteAuth.js:27-35 | the view data remembers the e-mail as the validator chain left it (trimmed, and normalised when it passed `isEmail`), and "" when the field is absent or empty |
| ClienteAuth.PostLogin | routes/clienteAuth.js:38-100 | validation errors render the form with the e-mail as the validator chain left it (trimmed, and normalised when it passed `isEmail`); then no row gives 'Credenciales inválidas', a row without a hash 'Este cliente no tiene clave asignada', and a wrong password the same message as no row; only success sets `clienteId` |
| ClienteAuth.Logout | routes/clienteAuth.js:103-106 | only `clienteId` is removed; `userId` and the flash fields stay |
| ClienteAuth.RegisterErrors | routes/clienteAuth.js:129-137 | no message exactly when the e-mail is valid, the password has at least 6 characters, the type is 'persona' or 'empresa', a company has `empresa`, and a person has `nombre` or `apellidos` |
| ClienteAuth.NewCliente | routes/clienteAuth.js:156-169 | the registered row: e-mail and type as given, the password's hash, each optional field as typed, and NULL when it was empty |
| ClienteAuth.PostRegister | routes/clienteAuth.js:126-181 | failed rules render the form with all messages and insert nothing; a taken e-mail inserts nothing; otherwise exactly one row is added and `clienteId` becomes its id |
| ClientePedidos.RequireCliente | routes/clientePedidos.js:4-8 | passes exactly when `clienteId` is set; otherwise 'Inicia sesión como cliente' and `/cliente/login` |
| ClientePedidos.OrdersOf | routes/clientePedidos.js:13-20 | exactly the orders of the customer, in descending id order |
| ClientePedidos.OwnedOrder | routes/clientePedidos.js:29-32 | an order is found only when it exists and belongs to the customer |
| ClientePedidos.OtherCustomersOrderLooksMissing | routes/clientePedidos.js:29-34 | another customer's order is looked up exactly as if it did not exist |
| ClientePedidos.MisPedidos | routes/clientePedidos.js:11-22 | the list view gets exactly the session customer's orders, newest first |
| ClientePedidos.Detalle | routes/clientePedidos.js:25-54 | a missing order and another customer's order get the same error and redirect; an owned order renders with the summary fallbacks |
| Clientes.IsLoggedIn | routes/clientes.js:5-9 | passes exactly when `userId` is set; otherwise 'Debes iniciar sesión' and `/auth/login` |
| Clientes.Index | routes/clientes.js:12-17 | every customer, newest first |
| Clientes.NewCliente | routes/clientes.js:28-31 | the inserted row: e-mail and type as given, each optional field as typed and NULL when it was empty, no password |
| Clientes.Create | routes/clientes.js:25-40 | one row at the next id, or, for a taken e-mail, no change, the error and `/admin/clientes/nuevo` |
| Clientes.EditForm | routes/clientes.js:43-51 | a missing id gives 'Cliente no encontrado' and the list; otherwise the row's form |
| Clientes.Edit | routes/clientes.js:54-71 | only row `id` changes (its seven fields; the hash stays); an e-mail taken by another row changes nothing and returns to `/admin/clientes/<id>/editar` |
| Clientes.Delete | routes/clientes.js:74-84 | removes the row when no order refers to it, otherwise sets the error; always back to the list |
| Productos.IsLoggedIn | routes/productos.js:6-10 | passes exactly when `userId` is set; otherwise the error and `/auth/login` |
| Productos.Index | routes/productos.js:13-16 | every product, newest first |
| Productos.ActivoFlag | routes/productos.js:28 | `activo ? 1 : 0`: 1 exactly when the checkbox was sent, otherwise 0 |
| Productos.Create | routes/productos.js:24-32 | exactly one row at the next id, with the 0/1 flag, and 'Producto creado' |
| Productos.EditForm | routes/productos.js:35-43 | a missing id gives 'Producto no encontrado' and the list; otherwise the row's form |
| Productos.Edit | routes/productos.js:46-55 | only row `id` changes; a missing id changes nothing; 'Producto actualizado' either way |
| Productos.Delete | routes/productos.js:58-63 | removes row `id` and sets 'Producto eliminado'; a product still referenced by a line item makes the request fail with nothing changed |
| Pedidos.IsLoggedIn | routes/pedidos.js:5-9 | passes exactly when `userId` is set; otherwise 'Debes iniciar sesión' and `/auth/login` |
| Pedidos.RoomsDistinct | routes/pedidos.js:135-141 | an order room is never a customer room, and each room name belongs to one id |
| Pedidos.Notify | routes/pedidos.js:135-146 | the same payload goes first to `pedido:<id>`, then to `cliente:<cliente_id>`; nothing else is emitted |
| Pedidos.Index | routes/pedidos.js:12-22 | every order, newest first |
| Pedidos.ActiveProductos | routes/pedidos.js:27 | exactly the products with `activo = 1`, newest first |
| Pedidos.NewForm | routes/pedidos.js:25-29 | the form offers every customer and only the active products |
| Pedidos.LoopedEntries | routes/pedidos.js:44-45 | only an array is looped over: an omitted field or a single value yields no entries |
| Pedidos.AcceptedPrefix | routes/pedidos.js:45-51 | the number of entries inserted before the first that throws: all entries before it are insertable, and the one at it is not |
| Pedidos.LinesOf | routes/pedidos.js:46-50 | one row per entry, in submission order, each with the submitted unit price |
| Pedidos.InsertLines | routes/pedidos.js:44-52 | the loop appends exactly the rows of the accepted prefix and reports how many |
| Pedidos.PostNuevo | routes/pedidos.js:32-61 | unknown customer: nothing stored, 'Error creando pedido'; otherwise the order (observaciones NULL when empty) and the accepted prefix of lines stay stored; success only when every entry was inserted |
| Pedidos.RecordStatus | routes/pedidos.js:121-125 | the UPDATE then the history INSERT succeed exactly when the order exists, and then store the status and one history row and keep the cache and the history in agreement; otherwise nothing changes |
| Pedidos.Detalle | routes/pedidos.js:64-110 | a missing order gives 'Pedido no encontrado' and `/admin/pedidos`; otherwise the detail with the summary fallbacks, and the joined customer row exists |
| Pedidos.PostEstado | routes/pedidos.js:115-155 | on an existing order any status string is stored, exactly one history row is appended, its latest status is the new one, status agreement holds, and two identical events are emitted after the writes; a missing order stores and emits nothing and sets the error |
| Pedidos.PostPago | routes/pedidos.js:160-206 | exactly one payment row of any sign is appended, and both rooms get the summary with 0 / 0 / 'Sin liquidar' fallbacks; a missing order or a non-finite amount stores and emits nothing and sets the error |
| Scenarios.AdminRegisterThenLogin | controllers/authController.js:11-89 | registering with a free e-mail, then logging in with the same password, logs in as the new user |
| Scenarios.AdminLoginWithOtherPassword | controllers/authController.js:66-78 | after that registration any other password is refused and `userId` stays as it was |
| Scenarios.ClienteRegisterLogoutLogin | routes/clienteAuth.js:38-181 | register, log out, log in again with an address that login's normalisation leaves as registered: the session holds the registered customer's id |
| Scenarios.ClienteNormalizedLoginRefused | routes/clienteAuth.js:42-66 | register, log out, log in again when normalisation turns the registered address into one no row holds: 'Credenciales inválidas' and no customer is logged in |
| Scenarios.CreatedOrderListedForCustomer | routes/clientePedidos.js:11-22 | an order an administrator creates for a customer is in that customer's list |
| Scenarios.StatusChangeSeenByOwner | routes/clientePedidos.js:25-54 | after a status change the owner's detail page shows the new status |

## Left out

- The summary views `v_pedido_totales`, `v_pedido_pagado` and `v_pedido_estado_pago` are not part of this model. Their row arrives as a parameter, and only the handlers' fallbacks are modelled.
- Pedidos.Detalle: the line items, payments and history lists passed to the view are not modelled, only the order and its summary.
- ClientePedidos.Detalle: the line-item list passed to the view is not modelled.
- ClientePedidos.MisPedidos: the list carries order ids only, not the joined date, status and summary columns. The same holds for the Index listings.
- The express-validator chains are library code. Their outcome is a parameter: the message list for customer login, the `isEmail` verdict for registration. `trim` and `normalizeEmail` are not modelled, so the login e-mail arrives already sanitised. Registration applies neither and stores the address as typed (routes/clienteAuth.js:129, 164).
- Scenarios.ClienteRegisterLogoutLogin: the round trip holds only for addresses that login's `trim` and `normalizeEmail` leave unchanged. With its default options `normalizeEmail` lower-cases the address and drops the dots and `+` tag of a gmail address, so a customer registered as `john.doe@gmail.com` is looked up as `johndoe@gmail.com` and cannot log in. With MySQL's default case-insensitive collation a change of case alone still finds the row, so the refusal needs a change beyond case: gmail dots, a `+` tag, or `googlemail.com` becoming `gmail.com`. Scenarios.ClienteNormalizedLoginRefused states that outcome.
- bcrypt is an ideal hash. The salt is a parameter and a hash matches exactly its own password.
- Db.MatchesOwnPasswordOnly: bcrypt uses only the first 72 bytes of a password, so two passwords that share those bytes match the same hash. The ideal hash tells them apart, so this lemma holds only for passwords that differ within their first 72 bytes.
- Scenarios.AdminLoginWithOtherPassword: for the same reason, bcrypt would accept a different password that shares the first 72 bytes of the registered one. "Any other password is refused" holds only for passwords that differ within those bytes.
- Pedidos.PostEstado: relies on the assumed foreign key from `trabajo_historial` to `pedidos`. Without it, a missing order id still gets a history row: the UPDATE matches nothing and the INSERT succeeds. Reading `pedido.fecha` then throws before any emit, and the error flash is set. The model stores no history row in that case.
- Pedidos.PostPago: relies on the assumed foreign key from `pagos` to `pedidos`. Without it, a payment for a missing order is stored and one event goes to `pedido:<id>` with the 0 / 0 / 'Sin liquidar' summary. Reading `pedido.cliente_id` then throws before the second emit (routes/pedidos.js:192), and the error flash is set. The model stores and emits nothing in that case.
- Pedidos.PostNuevo: relies on the assumed foreign key from `pedido_productos.producto_id` to `productos`. Without it, an entry naming no existing product is inserted instead of ending the loop. The same holds for Pedidos.InsertLines.
- Productos.Delete: the failed delete of a referenced product comes from that assumed key. Without it, the product is removed and its line items keep a dangling id.
- `Number()` parsing is an abstract function or a parameter. Money and prices are integers (for example cents), not floats.
- Productos.Create: a price that parses to NaN is not modelled; the price arrives as an integer. The same holds for Productos.Edit.
- `NOW()` and the timestamp column defaults are a `now` parameter.
- A route `:id` is a natural number. Other strings are not modelled. MySQL converts such an id to a number by its leading digits ('5abc' finds order 5), while the room name keeps the raw text (`pedido:5abc`) and `Number(id)` in the payload is NaN. `cliente_id` in the order form is an integer.
- An absent body field is modelled as the empty string; both are falsy. An absent `estado_trabajo` (written as NULL) is not distinguished from "".
- E-mail uniqueness and lookup use exact string equality. MySQL's case-insensitive collation is not modelled.
- The "Error en el servidor" / "Error de servidor" catch branches for an unavailable database are not modelled. Every statement either succeeds or fails on a constraint.
- Statements fail only on the unique-email and foreign-key constraints. Other column constraints (NOT NULL, enum values) are not visible in the code, so they are not modelled.
- AUTO_INCREMENT counters advance only on a successful insert. InnoDB may also use up a value on a failed insert. Those gaps are not modelled.
- The GET pages that only render a form are not modelled: `/auth/register`, `/auth/login`, `/cliente/login`, `/cliente/register`, `/admin/clientes/nuevo`, `/admin/productos/nuevo`.
- Requests run one at a time. Interleaving of concurrent requests on the connection pool, and a crash between two statements of one handler, are not modelled.
- socket.io delivery to connected clients is not modelled, only the log of emitted events and the room membership.
- EJS rendering, static files, body parsing, router mounting and server start-up are not modelled. Logging to the console is not modelled.
