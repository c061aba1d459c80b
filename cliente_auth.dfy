/** routes/clienteAuth.js: customer login, logout and self-registration. The
    express-validator chains in front of the handlers are library code: their outcome
    arrives as the list of failure messages (login) or as the e-mail check's verdict
    (registration, whose remaining rules are computed by RegisterErrors). */
module ClienteAuth {
  import opened Prelude
  import opened Db
  import opened Runtime
  import Validators

  const BadCredentials := "Credenciales inválidas"
  const NoPassword := "Este cliente no tiene clave asignada"
  const Welcome := "Bienvenida/o"
  const EmailTaken := "Ese email ya está registrado"
  const Registered := "Registro correcto"

  /** rememberOldInput: the view data `{ old: { email } }` re-rendered after a failure.
      `email` is the body's field as the validator chain left it (trimmed, and normalised
      when it passed `isEmail`), absent when the body has none; an absent or empty field
      is remembered as "". */
  function RememberOldInput(email: Option<string>): (v: ViewData)
    ensures v.OldInput?
    ensures Truthy(email) ==> v.email == email.value
    ensures !Truthy(email) ==> v.email == ""
  {
    OldInput(if Truthy(email) then email.value else "")
  }

  /** POST /cliente/login. After the validation failures (rendered back with the e-mail
      as the validator chain left it), the decision is: no row -> 'Credenciales
      inválidas'; a row without a hash -> 'Este cliente no tiene clave asignada'; a
      wrong password -> the same message as an unknown e-mail; otherwise the customer's
      id goes into the session. Only a successful login touches `clienteId`. */
  method PostLogin(st: Store, s: Session, email: string, password: string, validationErrors: seq<string>)
    returns (r: Response)
    requires st.Valid()
    modifies s
    ensures validationErrors != [] ==>
      s.Data() == old(s.Data()).(error := Some(Validators.Join(validationErrors, Validators.Separator))) &&
      r == Render("cliente/login", RememberOldInput(Some(email)))
    ensures validationErrors == [] && st.ClienteByEmail(email).None? ==>
      s.Data() == old(s.Data()).(error := Some(BadCredentials)) && r == Redirect("/cliente/login")
    ensures validationErrors == [] && st.ClienteByEmail(email).Some? ==>
      var c := st.clientes[st.ClienteByEmail(email).value];
      if c.passwordHash.None? then
        s.Data() == old(s.Data()).(error := Some(NoPassword)) && r == Redirect("/cliente/login")
      else if !Matches(password, c.passwordHash.value) then
        s.Data() == old(s.Data()).(error := Some(BadCredentials)) && r == Redirect("/cliente/login")
      else
        s.Data() == old(s.Data()).(clienteId := st.ClienteByEmail(email), success := Some(Welcome)) &&
        r == Redirect("/cliente/mis-pedidos")
  {
    r := Validators.HandleErrors(s, validationErrors, Some("cliente/login"), Some(RememberOldInput(Some(email))));
    if r != Next {
      return;
    }
    var found := st.ClienteByEmail(email);
    if found.None? {
      s.error := Some(BadCredentials);
      return Redirect("/cliente/login");
    }
    var c := st.clientes[found.value];
    if c.passwordHash.None? {
      s.error := Some(NoPassword);
      return Redirect("/cliente/login");
    }
    if !Matches(password, c.passwordHash.value) {
      s.error := Some(BadCredentials);
      return Redirect("/cliente/login");
    }
    s.clienteId := found;
    s.success := Some(Welcome);
    return Redirect("/cliente/mis-pedidos");
  }

  /** GET /cliente/logout: deletes only `clienteId`; an admin login and the flash fields
      survive. */
  method Logout(s: Session) returns (r: Response)
    modifies s
    ensures s.Data() == old(s.Data()).(clienteId := None)
    ensures r == Redirect("/cliente/login")
  {
    s.clienteId := None;
    return Redirect("/cliente/login");
  }

  datatype RegisterForm = RegisterForm(
    tipoCliente: string,
    empresa: string,
    nombre: string,
    apellidos: string,
    email: string,
    telefono: string,
    direccionEntrega: string,
    password: string)

  /** The messages of the registration chain, in chain order. `emailValid` is the verdict
      of `isEmail()`. The list is empty exactly when every rule holds. */
  function RegisterErrors(f: RegisterForm, emailValid: bool): (errs: seq<string>)
    ensures errs == [] <==>
      && emailValid
      && |f.password| >= 6
      && (f.tipoCliente == "persona" || f.tipoCliente == "empresa")
      && (f.tipoCliente == "empresa" ==> f.empresa != "")
      && (f.tipoCliente == "persona" ==> f.nombre != "" || f.apellidos != "")
    ensures |f.password| < 6 ==> "Mínimo 6 caracteres" in errs
    ensures f.tipoCliente != "persona" && f.tipoCliente != "empresa" ==> "Tipo inválido" in errs
  {
    (if emailValid then [] else ["Email no válido"])
    + (if |f.password| >= 6 then [] else ["Mínimo 6 caracteres"])
    + (if f.tipoCliente == "persona" || f.tipoCliente == "empresa" then [] else ["Tipo inválido"])
    + (if f.tipoCliente == "empresa" && f.empresa == "" then ["Empresa requerida"] else [])
    + (if f.tipoCliente == "persona" && f.nombre == "" && f.apellidos == "" then ["Indica nombre o apellidos"] else [])
  }

  /** The row a successful registration inserts: empty optional fields become NULL. */
  function NewCliente(f: RegisterForm, salt: nat): (c: Cliente)
    ensures c.email == f.email && c.tipoCliente == f.tipoCliente
    ensures c.passwordHash == Some(HashOf(f.password, salt))
    ensures c.empresa == FieldOrNull(f.empresa)
    ensures c.nombre == FieldOrNull(f.nombre)
    ensures c.apellidos == FieldOrNull(f.apellidos)
    ensures c.telefono == FieldOrNull(f.telefono)
    ensures c.direccionEntrega == FieldOrNull(f.direccionEntrega)
  {
    Cliente(f.tipoCliente, FieldOrNull(f.empresa), FieldOrNull(f.nombre), FieldOrNull(f.apellidos), f.email,
            FieldOrNull(f.telefono), FieldOrNull(f.direccionEntrega), Some(HashOf(f.password, salt)))
  }

  /** POST /cliente/register. Failed rules re-render the form with every message; a taken
      e-mail inserts nothing; otherwise exactly one customer row is added and the new
      customer is logged in at once. */
  method PostRegister(st: Store, s: Session, f: RegisterForm, emailValid: bool, salt: nat) returns (r: Response)
    requires st.Valid() && st.Consistent()
    modifies st, s
    ensures st.Valid() && st.Consistent()
    ensures RegisterErrors(f, emailValid) != [] ==>
      st.Rows() == old(st.Rows()) &&
      s.Data() == old(s.Data()).(error := Some(Validators.Join(RegisterErrors(f, emailValid), Validators.Separator))) &&
      r == Render("cliente/register", NoData)
    ensures RegisterErrors(f, emailValid) == [] && old(st.ClienteByEmail(f.email)).Some? ==>
      st.Rows() == old(st.Rows()) && s.Data() == old(s.Data()).(error := Some(EmailTaken)) &&
      r == Redirect("/cliente/register")
    ensures RegisterErrors(f, emailValid) == [] && old(st.ClienteByEmail(f.email)).None? ==>
      st.Rows() == old(st.Rows()).(clientes := old(st.clientes)[old(st.nextCliente) := NewCliente(f, salt)],
                                   nextCliente := old(st.nextCliente) + 1) &&
      s.Data() == old(s.Data()).(clienteId := Some(old(st.nextCliente)), success := Some(Registered)) &&
      r == Redirect("/cliente/mis-pedidos")
  {
    r := Validators.HandleErrors(s, RegisterErrors(f, emailValid), Some("cliente/register"), None);
    if r != Next {
      return;
    }
    var existing := st.ClienteByEmail(f.email);
    if existing.Some? {
      s.error := Some(EmailTaken);
      return Redirect("/cliente/register");
    }
    var id := st.InsertCliente(NewCliente(f, salt));
    s.clienteId := id;
    s.success := Some(Registered);
    return Redirect("/cliente/mis-pedidos");
  }
}
