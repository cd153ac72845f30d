/** `LoginPage`: the sign-in form. It sends the user home when a token is already stored;
    otherwise its submit handler checks the fields, calls the model's `login`, stores the
    session on success and shows the outcome. */
module LoginPage {
  import opened Wrappers
  import opened JsString
  import opened Entities
  import opened Browser
  import opened Dom
  import opened StoryModel
  import opened Forms

  const LoginSucceeded := "Login successful! Redirecting..."

  class LoginPage {
    const window: Window
    /** The `#message` element. */
    var message: Message
    /** The submit button with its text and loader spans. */
    var button: LoaderButton
    /** The hash a pending `setTimeout` will navigate to. */
    var redirect: Option<string>

    constructor (window: Window)
      ensures this.window == window
      ensures message == Message("", "") && button == LoaderButtonFor(false) && redirect == None
    {
      this.window := window;
      message := Message("", "");
      button := LoaderButtonFor(false);
      redirect := None;
    }

    /** `afterRender()`: a stored (truthy) token sends the user to `#/` and the form is not
        set up; otherwise nothing changes and the form is set up. */
    method AfterRender() returns (formReady: bool)
      modifies window
      ensures formReady <==> !Truthy(old(window.GetItem(TokenKey)))
      ensures window.hash == (if formReady then old(window.hash) else "#/")
      ensures window.storage == old(window.storage)
    {
      var token := window.GetItem(TokenKey);
      if Truthy(token) {
        window.Navigate("#/");
        return false;
      }
      return true;
    }

    /** The submit handler, on the form's e-mail and password inputs; `reply` is what the
        model's `fetch` gives. Returns the request sent, if any. */
    method Submit(emailInput: string, password: string, reply: Reply) returns (request: Option<Request>)
      modifies this, window
      ensures window.hash == old(window.hash)
      ensures LoginCheck(emailInput, password).Reject? ==>
        && request == None && message == ShownMessage(FillAllFields, "error")
        && button == old(button) && redirect == old(redirect) && window.storage == old(window.storage)
      ensures LoginCheck(emailInput, password).Pass? ==>
        && request == Some(LoginRequest(Trim(emailInput), password))
        && button == LoaderButtonFor(false)
      ensures LoginCheck(emailInput, password).Pass? && LoginOutcome(reply).Success? ==>
        var r := LoginOutcome(reply).value;
        && window.storage == old(window.storage)[TokenKey := r.token][UserIdKey := r.userId][UserNameKey := r.name]
        && message == ShownMessage(LoginSucceeded, "success") && redirect == Some("#/")
      ensures LoginCheck(emailInput, password).Pass? && LoginOutcome(reply).Failure? ==>
        && window.storage == old(window.storage) && redirect == old(redirect)
        && message == ShownMessage("Login failed: " + LoginOutcome(reply).error, "error")
    {
      if LoginCheck(emailInput, password).Reject? {
        ShowMessage(FillAllFields, "error");
        return None;
      }
      SetLoading(true);
      ShowMessage("", "");
      request := Some(LoginRequest(Trim(emailInput), password));
      var outcome := LoginOutcome(reply);
      if outcome.Success? {
        StoreAuthData(outcome.value);
        ShowMessage(LoginSucceeded, "success");
        redirect := Some("#/");
      } else {
        ShowMessage("Login failed: " + outcome.error, "error");
      }
      SetLoading(false);
    }

    /** `_setLoading(isLoading, ...)`. */
    method SetLoading(isLoading: bool)
      modifies this
      ensures button == LoaderButtonFor(isLoading)
      ensures message == old(message) && redirect == old(redirect)
    {
      button := LoaderButtonFor(isLoading);
    }

    /** `_showMessage(text, type)`. */
    method ShowMessage(text: string, kind: string)
      modifies this
      ensures message == ShownMessage(text, kind)
      ensures button == old(button) && redirect == old(redirect)
    {
      message := ShownMessage(text, kind);
    }

    /** `_storeAuthData(loginResult)`: writes exactly `token`, `userId` and `userName`. */
    method StoreAuthData(r: LoginResult)
      modifies window
      ensures window.storage == old(window.storage)[TokenKey := r.token][UserIdKey := r.userId][UserNameKey := r.name]
      ensures window.hash == old(window.hash)
    {
      window.SetItem(TokenKey, r.token);
      window.SetItem(UserIdKey, r.userId);
      window.SetItem(UserNameKey, r.name);
    }
  }
}
