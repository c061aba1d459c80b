/** routes/clientes.js: the administrator's create, edit and delete of customer rows. */
module Clientes {
  import opened Prelude
  import opened Db
  import opened Runtime

  const LoginRequired := "Debes iniciar sesión"
  const Created := "Cliente creado"
  const CreateFailed := "Error creando cliente (¿email duplicado?)"
  const NotFound := "Cliente no encontrado"
  const Updated := "Cliente actualizado"
  const UpdateFailed := "Error actualizando cliente"
  const Deleted := "Cliente eliminado"
  const DeleteFailed := "No se pudo eliminar (tiene pedidos asociados o error)"

  /** isLoggedIn: passes exactly when an admin is in the session. */
  method IsLoggedIn(s: Session) returns (pass: bool, r: Response)
    modifies s
    ensures pass <==> old(s.userId).Some?
    ensures pass ==> r == Next && s.Data() == old(s.Data())
    ensures !pass ==> r == Redirect("/auth/login") && s.Data() == old(s.Data()).(error := Some(LoginRequired))
  {
    if s.userId.Some? {
      return true, Next;
    }
    s.error := Some(LoginRequired);
    return false, Redirect("/auth/login");
  }

  /** GET /admin/clientes: every customer, newest first. */
  method Index(st: Store, s: Session) returns (r: Response)
    requires st.Valid()
    modifies s
    ensures old(s.userId).None? ==>
      r == Redirect("/auth/login") && s.Data() == old(s.Data()).(error := Some(LoginRequired))
    ensures old(s.userId).Some? ==>
      r == Render("clientes/index", Listing(AllKeysDescending(st.clientes, st.nextCliente))) &&
      s.Data() == old(s.Data())
  {
    var pass;
    pass, r := IsLoggedIn(s);
    if pass {
      r := Render("clientes/index", Listing(AllKeysDescending(st.clientes, st.nextCliente)));
    }
  }

  /** The seven fields of the create and edit forms. */
  datatype ClienteFields = ClienteFields(
    tipoCliente: string,
    empresa: string,
    nombre: string,
    apellidos: string,
    email: string,
    telefono: string,
    direccionEntrega: string)

  /** The row the create form inserts: empty optional fields are NULL, no password. */
  function NewCliente(f: ClienteFields): (c: Cliente)
    ensures c.tipoCliente == f.tipoCliente && c.email == f.email && c.passwordHash == None
    ensures c.empresa == FieldOrNull(f.empresa)
    ensures c.nombre == FieldOrNull(f.nombre)
    ensures c.apellidos == FieldOrNull(f.apellidos)
    ensures c.telefono == FieldOrNull(f.telefono)
    ensures c.direccionEntrega == FieldOrNull(f.direccionEntrega)
  {
    Cliente(f.tipoCliente, FieldOrNull(f.empresa), FieldOrNull(f.nombre), FieldOrNull(f.apellidos), f.email,
            FieldOrNull(f.telefono), FieldOrNull(f.direccionEntrega), None)
  }

  /** POST /admin/clientes/nuevo: one row, or (duplicate e-mail) no change and back to the form. */
  method Create(st: Store, s: Session, f: ClienteFields) returns (r: Response)
    requires st.Valid() && st.Consistent()
    modifies st, s
    ensures st.Valid() && st.Consistent()
    ensures old(s.userId).None? ==>
      st.Rows() == old(st.Rows()) && r == Redirect("/auth/login") &&
      s.Data() == old(s.Data()).(error := Some(LoginRequired))
    ensures old(s.userId).Some? && old(st.ClienteByEmail(f.email)).None? ==>
      st.Rows() == old(st.Rows()).(clientes := old(st.clientes)[old(st.nextCliente) := NewCliente(f)],
                                   nextCliente := old(st.nextCliente) + 1) &&
      s.Data() == old(s.Data()).(success := Some(Created)) && r == Redirect("/admin/clientes")
    ensures old(s.userId).Some? && old(st.ClienteByEmail(f.email)).Some? ==>
      st.Rows() == old(st.Rows()) &&
      s.Data() == old(s.Data()).(error := Some(CreateFailed)) && r == Redirect("/admin/clientes/nuevo")
  {
    var pass;
    pass, r := IsLoggedIn(s);
    if !pass {
      return;
    }
    var id := st.InsertCliente(NewCliente(f));
    if id.Some? {
      s.success := Some(Created);
      r := Redirect("/admin/clientes");
    } else {
      s.error := Some(CreateFailed);
      r := Redirect("/admin/clientes/nuevo");
    }
  }

  /** GET /admin/clientes/:id/editar: the row, or 'Cliente no encontrado' and the list. */
  method EditForm(st: Store, s: Session, id: nat) returns (r: Response)
    modifies s
    ensures old(s.userId).None? ==>
      r == Redirect("/auth/login") && s.Data() == old(s.Data()).(error := Some(LoginRequired))
    ensures old(s.userId).Some? && id !in st.clientes ==>
      r == Redirect("/admin/clientes") && s.Data() == old(s.Data()).(error := Some(NotFound))
    ensures old(s.userId).Some? && id in st.clientes ==>
      r == Render("clientes/editar", ClienteForm(id, st.clientes[id])) && s.Data() == old(s.Data())
  {
    var pass;
    pass, r := IsLoggedIn(s);
    if !pass {
      return;
    }
    if id !in st.clientes {
      s.error := Some(NotFound);
      return Redirect("/admin/clientes");
    }
    r := Render("clientes/editar", ClienteForm(id, st.clientes[id]));
  }

  /** POST /admin/clientes/:id/editar: overwrites the seven fields of row `id` only (its
      password hash stays); an e-mail taken by another row changes nothing. */
  method Edit(st: Store, s: Session, id: nat, f: ClienteFields) returns (r: Response)
    requires st.Valid() && st.Consistent()
    modifies st, s
    ensures st.Valid() && st.Consistent()
    ensures old(s.userId).None? ==>
      st.Rows() == old(st.Rows()) && r == Redirect("/auth/login") &&
      s.Data() == old(s.Data()).(error := Some(LoginRequired))
    ensures old(s.userId).Some? ==>
      var free := forall k :: k in old(st.clientes) && k != id ==> old(st.clientes)[k].email != f.email;
      if id !in old(st.clientes) || free then
        st.Rows() == (if id in old(st.clientes)
                      then old(st.Rows()).(clientes := old(st.clientes)[id := NewCliente(f).(passwordHash := old(st.clientes)[id].passwordHash)])
                      else old(st.Rows())) &&
        s.Data() == old(s.Data()).(success := Some(Updated)) && r == Redirect("/admin/clientes")
      else
        st.Rows() == old(st.Rows()) &&
        s.Data() == old(s.Data()).(error := Some(UpdateFailed)) &&
        r == Redirect("/admin/clientes/" + Decimal(id) + "/editar")
  {
    var pass;
    pass, r := IsLoggedIn(s);
    if !pass {
      return;
    }
    var c := NewCliente(f);
    var ok := st.UpdateCliente(id, c.tipoCliente, c.empresa, c.nombre, c.apellidos, c.email, c.telefono, c.direccionEntrega);
    if ok {
      s.success := Some(Updated);
      r := Redirect("/admin/clientes");
    } else {
      s.error := Some(UpdateFailed);
      r := Redirect("/admin/clientes/" + Decimal(id) + "/editar");
    }
  }

  /** POST /admin/clientes/:id/eliminar: removes the row unless an order refers to it; either
      way the list is shown next. */
  method Delete(st: Store, s: Session, id: nat) returns (r: Response)
    requires st.Valid() && st.Consistent()
    modifies st, s
    ensures st.Valid() && st.Consistent()
    ensures old(s.userId).None? ==>
      st.Rows() == old(st.Rows()) && r == Redirect("/auth/login") &&
      s.Data() == old(s.Data()).(error := Some(LoginRequired))
    ensures old(s.userId).Some? ==> r == Redirect("/admin/clientes")
    ensures old(s.userId).Some? && (forall p :: p in old(st.pedidos) ==> old(st.pedidos)[p].clienteId != id) ==>
      st.Rows() == old(st.Rows()).(clientes := old(st.clientes) - {id}) &&
      s.Data() == old(s.Data()).(success := Some(Deleted))
    ensures old(s.userId).Some? && (exists p :: p in old(st.pedidos) && old(st.pedidos)[p].clienteId == id) ==>
      st.Rows() == old(st.Rows()) && s.Data() == old(s.Data()).(error := Some(DeleteFailed))
  {
    var pass;
    pass, r := IsLoggedIn(s);
    if !pass {
      return;
    }
    var ok := st.DeleteCliente(id);
    if ok {
      s.success := Some(Deleted);
    } else {
      s.error := Some(DeleteFailed);
    }
    r := Redirect("/admin/clientes");
  }
}
