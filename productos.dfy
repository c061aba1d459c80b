/** routes/productos.js: the administrator's create, edit and delete of product rows.
    None of these handlers catches a failing statement. */
module Productos {
  import opened Prelude
  import opened Db
  import opened Runtime

  const LoginRequired := "Debes iniciar sesión para ver esa página"
  const Created := "Producto creado"
  const NotFound := "Producto no encontrado"
  const Updated := "Producto actualizado"
  const Deleted := "Producto eliminado"

  /** isLoggedIn: passes exactly when an admin is in the session. */
  method IsLoggedIn(s: Session) returns (pass: bool, r: Response)
    modifies s
    ensures pass <==> old(s.userId).Some?
    ensures pass ==> r == Next && s.Data() == old(s.Data())
    ensures !pass ==> r == Redirect("/auth/login") && s.Data() == old(s.Data()).(error := Some(LoginRequired))
  {
    if s.userId.Some? {
      return true, Next;
    }
    s.error := Some(LoginRequired);
    return false, Redirect("/auth/login");
  }

  /** GET /admin/productos: every product, newest first. */
  method Index(st: Store, s: Session) returns (r: Response)
    requires st.Valid()
    modifies s
    ensures old(s.userId).None? ==>
      r == Redirect("/auth/login") && s.Data() == old(s.Data()).(error := Some(LoginRequired))
    ensures old(s.userId).Some? ==>
      r == Render("productos/index", Listing(AllKeysDescending(st.productos, st.nextProducto))) &&
      s.Data() == old(s.Data())
  {
    var pass;
    pass, r := IsLoggedIn(s);
    if pass {
      r := Render("productos/index", Listing(AllKeysDescending(st.productos, st.nextProducto)));
    }
  }

  /** `activo ? 1 : 0` on the checkbox field (absent when unchecked). */
  function ActivoFlag(activo: string): (flag: int)
    ensures flag == 0 || flag == 1
    ensures flag == 1 <==> activo != ""
  {
    if activo != "" then 1 else 0
  }

  /** POST /admin/productos/nuevo: exactly one new row; `precio` is the number the form gave. */
  method Create(st: Store, s: Session, nombre: string, precio: int, activo: string) returns (r: Response)
    requires st.Valid() && st.Consistent()
    modifies st, s
    ensures st.Valid() && st.Consistent()
    ensures old(s.userId).None? ==>
      st.Rows() == old(st.Rows()) && r == Redirect("/auth/login") &&
      s.Data() == old(s.Data()).(error := Some(LoginRequired))
    ensures old(s.userId).Some? ==>
      st.Rows() == old(st.Rows()).(productos := old(st.productos)[old(st.nextProducto) := Producto(nombre, precio, ActivoFlag(activo))],
                                   nextProducto := old(st.nextProducto) + 1) &&
      s.Data() == old(s.Data()).(success := Some(Created)) && r == Redirect("/admin/productos")
  {
    var pass;
    pass, r := IsLoggedIn(s);
    if !pass {
      return;
    }
    var id := st.InsertProducto(Producto(nombre, precio, ActivoFlag(activo)));
    s.success := Some(Created);
    r := Redirect("/admin/productos");
  }

  /** GET /admin/productos/:id/editar: the row, or 'Producto no encontrado' and the list. */
  method EditForm(st: Store, s: Session, id: nat) returns (r: Response)
    modifies s
    ensures old(s.userId).None? ==>
      r == Redirect("/auth/login") && s.Data() == old(s.Data()).(error := Some(LoginRequired))
    ensures old(s.userId).Some? && id !in st.productos ==>
      r == Redirect("/admin/productos") && s.Data() == old(s.Data()).(error := Some(NotFound))
    ensures old(s.userId).Some? && id in st.productos ==>
      r == Render("productos/editar", ProductoForm(id, st.productos[id])) && s.Data() == old(s.Data())
  {
    var pass;
    pass, r := IsLoggedIn(s);
    if !pass {
      return;
    }
    if id !in st.productos {
      s.error := Some(NotFound);
      return Redirect("/admin/productos");
    }
    r := Render("productos/editar", ProductoForm(id, st.productos[id]));
  }

  /** POST /admin/productos/:id/editar: overwrites nombre, precio and activo of row `id` only.
      Line items already stored keep their own unit prices. */
  method Edit(st: Store, s: Session, id: nat, nombre: string, precio: int, activo: string) returns (r: Response)
    requires st.Valid() && st.Consistent()
    modifies st, s
    ensures st.Valid() && st.Consistent()
    ensures old(s.userId).None? ==>
      st.Rows() == old(st.Rows()) && r == Redirect("/auth/login") &&
      s.Data() == old(s.Data()).(error := Some(LoginRequired))
    ensures old(s.userId).Some? ==>
      st.Rows() == (if id in old(st.productos)
                    then old(st.Rows()).(productos := old(st.productos)[id := Producto(nombre, precio, ActivoFlag(activo))])
                    else old(st.Rows())) &&
      s.Data() == old(s.Data()).(success := Some(Updated)) && r == Redirect("/admin/productos")
  {
    var pass;
    pass, r := IsLoggedIn(s);
    if !pass {
      return;
    }
    st.UpdateProducto(id, Producto(nombre, precio, ActivoFlag(activo)));
    s.success := Some(Updated);
    r := Redirect("/admin/productos");
  }

  /** POST /admin/productos/:id/eliminar: removes row `id` and says 'Producto eliminado'.
      While a line item refers to the product the DELETE fails, and with no catch the
      request ends in a rejected promise: nothing changes and no flash is set. */
  method Delete(st: Store, s: Session, id: nat) returns (r: Response)
    requires st.Valid() && st.Consistent()
    modifies st, s
    ensures st.Valid() && st.Consistent()
    ensures old(s.userId).None? ==>
      st.Rows() == old(st.Rows()) && r == Redirect("/auth/login") &&
      s.Data() == old(s.Data()).(error := Some(LoginRequired))
    ensures old(s.userId).Some? && (forall i :: 0 <= i < |old(st.lineas)| ==> old(st.lineas)[i].productoId != id) ==>
      st.Rows() == old(st.Rows()).(productos := old(st.productos) - {id}) &&
      s.Data() == old(s.Data()).(success := Some(Deleted)) && r == Redirect("/admin/productos")
    ensures old(s.userId).Some? && (exists i :: 0 <= i < |old(st.lineas)| && old(st.lineas)[i].productoId == id) ==>
      st.Rows() == old(st.Rows()) && s.Data() == old(s.Data()) && r == Failed
  {
    var pass;
    pass, r := IsLoggedIn(s);
    if !pass {
      return;
    }
    var ok := st.DeleteProducto(id);
    if !ok {
      return Failed;
    }
    s.success := Some(Deleted);
    r := Redirect("/admin/productos");
  }
}
