/** controllers/authController.js: administrator registration, login and logout. */
module AuthController {
  import opened Prelude
  import opened Db
  import opened Runtime

  const FieldsRequired := "Todos los campos son obligatorios"
  const EmailTaken := "Ese email ya está registrado"
  const Registered := "Registro exitoso. Ya puedes iniciar sesión"
  const BadCredentials := "Usuario o contraseña incorrectos"
  const LoggedIn := "Has iniciado sesión"

  /** POST /auth/register. A missing field or a taken e-mail leaves `usuarios` as it was;
      otherwise exactly one row holding the hash of the password is added. The new user
      is not logged in: the browser is sent to the login form. */
  method PostRegister(st: Store, s: Session, email: string, password: string, salt: nat) returns (r: Response)
    requires st.Valid() && st.Consistent()
    modifies st, s
    ensures st.Valid() && st.Consistent()
    ensures email == "" || password == "" ==>
      st.Rows() == old(st.Rows()) && s.Data() == old(s.Data()).(error := Some(FieldsRequired)) &&
      r == Redirect("/auth/register")
    ensures email != "" && password != "" && old(st.UsuarioByEmail(email)).Some? ==>
      st.Rows() == old(st.Rows()) && s.Data() == old(s.Data()).(error := Some(EmailTaken)) &&
      r == Redirect("/auth/register")
    ensures email != "" && password != "" && old(st.UsuarioByEmail(email)).None? ==>
      st.Rows() == old(st.Rows()).(usuarios := old(st.usuarios)[old(st.nextUsuario) := Usuario(email, HashOf(password, salt))],
                                   nextUsuario := old(st.nextUsuario) + 1) &&
      s.Data() == old(s.Data()).(success := Some(Registered)) &&
      r == Redirect("/auth/login")
  {
    if email == "" || password == "" {
      s.error := Some(FieldsRequired);
      return Redirect("/auth/register");
    }
    var existing := st.UsuarioByEmail(email);
    if existing.Some? {
      s.error := Some(EmailTaken);
      return Redirect("/auth/register");
    }
    var id := st.InsertUsuario(Usuario(email, HashOf(password, salt)));
    s.success := Some(Registered);
    return Redirect("/auth/login");
  }

  /** POST /auth/login. A missing field, an unknown e-mail and a wrong password leave
      `userId` as it was; the last two give the same message, so the response does not
      tell which one was wrong. Success stores the user's id in the session. */
  method PostLogin(st: Store, s: Session, email: string, password: string) returns (r: Response)
    requires st.Valid()
    modifies s
    ensures email == "" || password == "" ==>
      s.Data() == old(s.Data()).(error := Some(FieldsRequired)) && r == Redirect("/auth/login")
    ensures email != "" && password != "" ==>
      var u := st.UsuarioByEmail(email);
      if u.Some? && Matches(password, st.usuarios[u.value].passwordHash) then
        s.Data() == old(s.Data()).(userId := u, success := Some(LoggedIn)) && r == Redirect("/dashboard")
      else
        s.Data() == old(s.Data()).(error := Some(BadCredentials)) && r == Redirect("/auth/login")
  {
    if email == "" || password == "" {
      s.error := Some(FieldsRequired);
      return Redirect("/auth/login");
    }
    var u := st.UsuarioByEmail(email);
    if u.None? {
      s.error := Some(BadCredentials);
      return Redirect("/auth/login");
    }
    var user := st.usuarios[u.value];
    if !Matches(password, user.passwordHash) {
      s.error := Some(BadCredentials);
      return Redirect("/auth/login");
    }
    s.userId := u;
    s.success := Some(LoggedIn);
    return Redirect("/dashboard");
  }

  /** GET /auth/logout: `req.session.destroy()` discards the whole session, the
      customer's login and any pending flash included. */
  method Logout(s: Session) returns (r: Response)
    modifies s
    ensures s.Data() == SessionData(None, None, None, None)
    ensures r == Redirect("/")
  {
    s.userId, s.clienteId, s.error, s.success := None, None, None, None;
    return Redirect("/");
  }
}
