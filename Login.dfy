/**
 * The login page: the credentials form, the show-password toggle, and what a
 * login attempt does to the session flag and the current route.
 */
module Login {
  import Session
  import Routes

  /** How the login request ended, as the page sees it. */
  datatype LoginReply =
    | Threw                             // the request failed or its body was not JSON
    | Replied(ok: bool, success: bool)  // `res.ok` and the truthiness of `data.success`

  /** What the page does after the reply. */
  datatype LoginEffect =
    | GoTo(path: string)        // session flag set, go to the admin page
    | AlertBadCredentials       // "Credenciales incorrectas"
    | LogError                  // logged to the console, nothing shown

  /** The body of the login request. */
  datatype LoginRequest = LoginRequest(usuario: string, password: string)

  /** The effect of a reply: navigation to `/admin` exactly when the reply is ok and says success. */
  function ReplyEffect(reply: LoginReply): (e: LoginEffect)
    ensures e.GoTo? <==> reply == Replied(true, true)
    ensures e.GoTo? ==> e.path == Routes.AdminPath
    ensures e == AlertBadCredentials <==> reply.Replied? && !(reply.ok && reply.success)
    ensures e == LogError <==> reply.Threw?
  {
    match reply
    case Threw => LogError
    case Replied(ok, success) =>
      if ok && success then GoTo(Routes.AdminPath) else AlertBadCredentials
  }

  /** The input's `type` attribute: the password is readable exactly when it is shown. */
  function InputType(shown: bool): (t: string)
    ensures t == "text" <==> shown
    ensures !shown ==> t == "password"
  {
    if shown then "text" else "password"
  }

  /** The toggle button's tooltip. */
  function ToggleTitle(shown: bool): (t: string)
    ensures shown ==> t == "Ocultar contraseña"
    ensures !shown ==> t == "Mostrar contraseña"
  {
    if shown then "Ocultar contraseña" else "Mostrar contraseña"
  }

  class LoginForm {
    var usuario: string
    var password: string
    var mostrarPassword: bool

    constructor ()
      ensures usuario == "" && password == "" && !mostrarPassword
    {
      usuario, password, mostrarPassword := "", "", false;
    }

    method SetUsuario(u: string)
      modifies this
      ensures usuario == u && password == old(password) && mostrarPassword == old(mostrarPassword)
    {
      usuario := u;
    }

    method SetPassword(p: string)
      modifies this
      ensures password == p && usuario == old(usuario) && mostrarPassword == old(mostrarPassword)
    {
      password := p;
    }

    /** What the login request sends. */
    function Request(): (r: LoginRequest)
      reads this
      ensures r.usuario == usuario && r.password == password
    {
      LoginRequest(usuario, password)
    }

    /** The password input's `type` attribute. */
    function PasswordInputType(): (t: string)
      reads this
      ensures t == "text" <==> mostrarPassword
      ensures !mostrarPassword ==> t == "password"
    {
      InputType(mostrarPassword)
    }

    /** The show-password button. */
    method TogglePassword()
      modifies this
      ensures mostrarPassword == !old(mostrarPassword)
      ensures usuario == old(usuario) && password == old(password)
    {
      mostrarPassword := !mostrarPassword;
    }

    /**
     * A login attempt. The flag is written, as "true", only when the reply is
     * ok and says success; every other outcome leaves the store as it was and
     * does not navigate.
     */
    method HandleLogin(store: Session.Storage, reply: LoginReply) returns (effect: LoginEffect)
      modifies store
      ensures effect == ReplyEffect(reply)
      ensures reply == Replied(true, true) ==>
                store.items == old(store.items)[Session.IsAdminKey := Session.TrueText]
      ensures reply != Replied(true, true) ==> store.items == old(store.items)
    {
      effect := ReplyEffect(reply);
      if reply == Replied(true, true) {
        store.SetItem(Session.IsAdminKey, Session.TrueText);
      }
    }
  }

  /** Toggling twice shows the form as before. */
  method ToggleTwiceRestores(form: LoginForm)
    modifies form
    ensures form.mostrarPassword == old(form.mostrarPassword)
    ensures form.PasswordInputType() == old(form.PasswordInputType())
  {
    form.TogglePassword();
    form.TogglePassword();
  }

  /**
   * The page as written: the application rendered on page load, then a
   * successful login. The flag is now stored and the browser goes to
   * `/admin`, but the route reads the flag captured at page load, so the
   * admin page renders only if the flag was already set then; otherwise the
   * admin is sent back to `/login`.
   */
  method LoginThenAdminAsWritten(form: LoginForm, store: Session.Storage) returns (effect: LoginEffect, landing: Routes.Element)
    modifies store
    ensures effect == GoTo(Routes.AdminPath)
    ensures Session.StoredIsAdmin(store)
    ensures old(Session.StoredIsAdmin(store)) ==> landing == Routes.AdminPage
    ensures !old(Session.StoredIsAdmin(store)) ==> landing == Routes.NavigateTo(Routes.LoginPath)
  {
    var app := new Routes.App(store);
    effect := form.HandleLogin(store, Replied(true, true));
    landing := app.Element(effect.path);
  }

  /**
   * The intended behaviour: with the flag read when the route is matched, a
   * successful login always lands on the admin page.
   */
  method LoginThenAdminCorrected(form: LoginForm, store: Session.Storage) returns (effect: LoginEffect, landing: Routes.Element)
    modifies store
    ensures effect == GoTo(Routes.AdminPath)
    ensures landing == Routes.AdminPage
  {
    effect := form.HandleLogin(store, Replied(true, true));
    landing := Routes.CurrentElement(effect.path, store);
  }
}
