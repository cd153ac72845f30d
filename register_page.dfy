/** `RegisterPage`: the sign-up form. It sends the user home when a token is already
    stored; otherwise its submit handler checks the fields and the password length, calls
    the model's `register` and shows the outcome. */
module RegisterPage {
  import opened Wrappers
  import opened JsString
  import opened Browser
  import opened Dom
  import opened StoryModel
  import opened Forms

  const AccountCreated := "Account created successfully! You can now sign in."

  class RegisterPage {
    const window: Window
    /** The `#message` element. */
    var message: Message
    /** The submit button with its text and loader spans. */
    var button: LoaderButton
    /** The hash a pending `setTimeout` will navigate to. */
    var redirect: Option<string>

    constructor (window: Window)
      ensures this.window == window
      ensures message == Message("", "") && button == LoaderButtonFor(false) && redirect == None
    {
      this.window := window;
      message := Message("", "");
      button := LoaderButtonFor(false);
      redirect := None;
    }

    /** `afterRender()`: a stored (truthy) token sends the user to `#/` and the form is not
        set up. */
    method AfterRender() returns (formReady: bool)
      modifies window
      ensures formReady <==> !Truthy(old(window.GetItem(TokenKey)))
      ensures window.hash == (if formReady then old(window.hash) else "#/")
      ensures window.storage == old(window.storage)
    {
      var token := window.GetItem(TokenKey);
      if Truthy(token) {
        window.Navigate("#/");
        return false;
      }
      return true;
    }

    /** The submit handler on the name, e-mail and password inputs. `register` is called
        only when both checks pass; loading is switched off again on both outcomes. Storage
        is never written. */
    method Submit(nameInput: string, emailInput: string, password: string, reply: Reply)
      returns (request: Option<Request>)
      modifies this
      ensures RegisterCheck(nameInput, emailInput, password).Reject? ==>
        && request == None
        && message == ShownMessage(RegisterCheck(nameInput, emailInput, password).message, "error")
        && button == old(button) && redirect == old(redirect)
      ensures RegisterCheck(nameInput, emailInput, password).Pass? ==>
        && request == Some(RegisterRequest(Trim(nameInput), Trim(emailInput), password))
        && button == LoaderButtonFor(false)
      ensures RegisterCheck(nameInput, emailInput, password).Pass? && RegisterOutcome(reply).Success? ==>
        message == ShownMessage(AccountCreated, "success") && redirect == Some("#/login")
      ensures RegisterCheck(nameInput, emailInput, password).Pass? && RegisterOutcome(reply).Failure? ==>
        && message == ShownMessage("Registration failed: " + RegisterOutcome(reply).error, "error")
        && redirect == old(redirect)
    {
      var check := RegisterCheck(nameInput, emailInput, password);
      if check.Reject? {
        ShowMessage(check.message, "error");
        return None;
      }
      SetLoading(true);
      ShowMessage("", "");
      request := Some(RegisterRequest(Trim(nameInput), Trim(emailInput), password));
      var outcome := RegisterOutcome(reply);
      if outcome.Success? {
        ShowMessage(AccountCreated, "success");
        redirect := Some("#/login");
      } else {
        ShowMessage("Registration failed: " + outcome.error, "error");
      }
      SetLoading(false);
    }

    /** `_setLoading(isLoading, ...)`. */
    method SetLoading(isLoading: bool)
      modifies this
      ensures button == LoaderButtonFor(isLoading)
      ensures message == old(message) && redirect == old(redirect)
    {
      button := LoaderButtonFor(isLoading);
    }

    /** `_showMessage(text, type)`. */
    method ShowMessage(text: string, kind: string)
      modifies this
      ensures message == ShownMessage(text, kind)
      ensures button == old(button) && redirect == old(redirect)
    {
      message := ShownMessage(text, kind);
    }
  }
}
