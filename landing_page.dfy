/** `LandingPage`: the welcome page with a sign-in and a sign-up dialog. It is the view of
    a `LoginPresenter`: its sign-in handler runs the presenter's `login` sequence on the
    page's own view methods. The sequence is replayed here on the page's fields; it is the
    one `Presenters.LoginCalls` records, and no lemma relates the two. */
module LandingPage {
  import opened Wrappers
  import opened JsString
  import opened Entities
  import opened Browser
  import opened Dom
  import opened StoryModel
  import opened Forms

  const LoginMessageId := "login-message"
  const RegisterMessageId := "register-message"
  const LoginFormId := "login-form"
  const LoginSucceeded := "Login successful! Redirecting..."
  const AccountCreated := "Account created successfully! You can now sign in."

  /** A submit button whose whole text changes while loading. */
  datatype TextButton = TextButton(disabled: bool, text: string)

  /** The button of form `formId` as `_setLoading(form, isLoading)` leaves it. */
  function TextButtonFor(formId: string, isLoading: bool): (b: TextButton)
    ensures b.disabled == isLoading
    ensures isLoading ==> b.text == "Please wait..."
    ensures !isLoading ==> (b.text == "SIGN IN" <==> formId == LoginFormId)
    ensures !isLoading && formId != LoginFormId ==> b.text == "CREATE ACCOUNT"
  {
    if isLoading then TextButton(true, "Please wait...")
    else TextButton(false, if formId == LoginFormId then "SIGN IN" else "CREATE ACCOUNT")
  }

  /** The class list `_showMessage` leaves: `message <type>` (or `message`), then `visible`. */
  function VisibleMessageClass(kind: string): (c: string)
    ensures kind != "" ==> c == "message " + kind + " visible"
    ensures kind == "" ==> c == "message visible"
  {
    (if kind != "" then "message " + kind else "message") + " visible"
  }

  class LandingPage {
    const window: Window
    /** The message elements present in the document, by id. */
    var messages: map<string, Message>
    /** The sign-in form's button. */
    var loginButton: TextButton
    /** The hash a pending `setTimeout` will navigate to. */
    var redirect: Option<string>

    constructor (window: Window, messageIds: set<string>)
      ensures this.window == window
      ensures messages == map id | id in messageIds :: Message("", "")
      ensures loginButton == TextButtonFor(LoginFormId, false) && redirect == None
    {
      this.window := window;
      messages := map id | id in messageIds :: Message("", "");
      loginButton := TextButtonFor(LoginFormId, false);
      redirect := None;
    }

    /** `afterRender()`: a stored (truthy) token sends the user to `#/`, and neither the
        dialogs nor the forms are set up. */
    method AfterRender() returns (formsReady: bool)
      modifies window
      ensures formsReady <==> !Truthy(old(window.GetItem(TokenKey)))
      ensures window.hash == (if formsReady then old(window.hash) else "#/")
      ensures window.storage == old(window.storage)
    {
      var token := window.GetItem(TokenKey);
      if Truthy(token) {
        window.Navigate("#/");
        return false;
      }
      return true;
    }

    /** The sign-in handler: the field check, then the presenter's `login` sequence
        (`showLoading`, the model, `renderLoginSuccess` or `renderError`, `hideLoading`);
        the presenter's rethrown error is caught and dropped. */
    method SubmitLogin(emailInput: string, password: string, reply: Reply) returns (request: Option<Request>)
      modifies this, window
      ensures window.hash == old(window.hash)
      ensures LoginCheck(emailInput, password).Reject? ==>
        && request == None && window.storage == old(window.storage)
        && loginButton == old(loginButton) && redirect == old(redirect)
        && messages == (if LoginMessageId in old(messages)
                        then old(messages)[LoginMessageId := Message(FillAllFields, VisibleMessageClass("error"))]
                        else old(messages))
      ensures LoginCheck(emailInput, password).Pass? ==>
        && request == Some(LoginRequest(Trim(emailInput), password))
        && loginButton == TextButtonFor(LoginFormId, false)
      ensures LoginCheck(emailInput, password).Pass? && LoginOutcome(reply).Success? ==>
        var r := LoginOutcome(reply).value;
        && window.storage == SessionStored(old(window.storage), r)
        && redirect == Some("#/")
        && messages == (if LoginMessageId in old(messages)
                        then old(messages)[LoginMessageId := Message(LoginSucceeded, VisibleMessageClass("success"))]
                        else old(messages))
      ensures LoginCheck(emailInput, password).Pass? && LoginOutcome(reply).Failure? ==>
        && window.storage == old(window.storage) && redirect == old(redirect)
        && messages == (if LoginMessageId in old(messages)
                        then old(messages)[LoginMessageId := Message(LoginOutcome(reply).error, VisibleMessageClass("error"))]
                        else old(messages))
    {
      if LoginCheck(emailInput, password).Reject? {
        ShowMessage(LoginMessageId, FillAllFields, "error");
        return None;
      }
      ShowLoading();
      request := Some(LoginRequest(Trim(emailInput), password));
      var outcome := LoginOutcome(reply);
      if outcome.Success? {
        RenderLoginSuccess(outcome.value);
      } else {
        RenderError(outcome.error);
      }
      HideLoading();
    }

    /** The sign-up handler: the field and password checks, then `register`; a failure
        shows the bare error message. No loading state is shown and storage is untouched. */
    method SubmitRegister(nameInput: string, emailInput: string, password: string, reply: Reply)
      returns (request: Option<Request>)
      modifies this
      ensures loginButton == old(loginButton) && redirect == old(redirect)
      ensures RegisterCheck(nameInput, emailInput, password).Reject? ==> request == None
      ensures RegisterCheck(nameInput, emailInput, password).Pass? ==>
        request == Some(RegisterRequest(Trim(nameInput), Trim(emailInput), password))
      ensures messages == (if RegisterMessageId in old(messages)
                           then old(messages)[RegisterMessageId := RegisterShown(nameInput, emailInput, password, reply)]
                           else old(messages))
    {
      var check := RegisterCheck(nameInput, emailInput, password);
      if check.Reject? {
        ShowMessage(RegisterMessageId, check.message, "error");
        return None;
      }
      request := Some(RegisterRequest(Trim(nameInput), Trim(emailInput), password));
      var outcome := RegisterOutcome(reply);
      if outcome.Success? {
        ShowMessage(RegisterMessageId, AccountCreated, "success");
      } else {
        ShowMessage(RegisterMessageId, outcome.error, "error");
      }
    }

    /** `showLoading()`. */
    method ShowLoading()
      modifies this
      ensures loginButton == TextButtonFor(LoginFormId, true)
      ensures messages == old(messages) && redirect == old(redirect)
    {
      loginButton := TextButtonFor(LoginFormId, true);
    }

    /** `hideLoading()`. */
    method HideLoading()
      modifies this
      ensures loginButton == TextButtonFor(LoginFormId, false)
      ensures messages == old(messages) && redirect == old(redirect)
    {
      loginButton := TextButtonFor(LoginFormId, false);
    }

    /** `renderError(message)`. */
    method RenderError(text: string)
      modifies this
      ensures messages == (if LoginMessageId in old(messages)
                           then old(messages)[LoginMessageId := Message(text, VisibleMessageClass("error"))]
                           else old(messages))
      ensures loginButton == old(loginButton) && redirect == old(redirect)
    {
      ShowMessage(LoginMessageId, text, "error");
    }

    /** `renderLoginSuccess(loginResult)`: the success message, the session keys, and a
        pending redirect to `#/`. */
    method RenderLoginSuccess(r: LoginResult)
      modifies this, window
      ensures window.storage == SessionStored(old(window.storage), r)
      ensures window.hash == old(window.hash) && redirect == Some("#/")
      ensures messages == (if LoginMessageId in old(messages)
                           then old(messages)[LoginMessageId := Message(LoginSucceeded, VisibleMessageClass("success"))]
                           else old(messages))
      ensures loginButton == old(loginButton)
    {
      ShowMessage(LoginMessageId, LoginSucceeded, "success");
      window.SetItem(TokenKey, r.token);
      window.SetItem(UserIdKey, r.userId);
      if r.name != "" {
        window.SetItem(UserNameKey, r.name);
      }
      redirect := Some("#/");
    }

    /** `_showMessage(elementId, text, type)`: nothing happens when the element is missing. */
    method ShowMessage(elementId: string, text: string, kind: string)
      modifies this
      ensures elementId in old(messages) ==>
        messages == old(messages)[elementId := Message(text, VisibleMessageClass(kind))]
      ensures elementId !in old(messages) ==> messages == old(messages)
      ensures loginButton == old(loginButton) && redirect == old(redirect)
    {
      if elementId in messages {
        messages := messages[elementId := Message(text, VisibleMessageClass(kind))];
      }
    }
  }

  /** The storage `renderLoginSuccess` leaves: `token` and `userId` always, `userName` only
      for a truthy (non-empty) name. A nameless login leaves any `userName` stored by an
      earlier session in place, with its old value. */
  function SessionStored(storage: map<string, string>, r: LoginResult): (s: map<string, string>)
    ensures TokenKey in s && s[TokenKey] == r.token
    ensures UserIdKey in s && s[UserIdKey] == r.userId
    ensures r.name != "" ==> UserNameKey in s && s[UserNameKey] == r.name
    ensures r.name == "" ==> (UserNameKey in s <==> UserNameKey in storage)
    ensures r.name == "" && UserNameKey in storage ==>
      UserNameKey in s && s[UserNameKey] == storage[UserNameKey]
    ensures forall k :: k in storage && k != TokenKey && k != UserIdKey && k != UserNameKey ==>
      k in s && s[k] == storage[k]
    ensures forall k :: k in s ==> k in storage || k == TokenKey || k == UserIdKey || k == UserNameKey
  {
    var s := storage[TokenKey := r.token][UserIdKey := r.userId];
    if r.name != "" then s[UserNameKey := r.name] else s
  }

  /** What the sign-up handler leaves in the register message element. */
  function RegisterShown(nameInput: string, emailInput: string, password: string, reply: Reply): (m: Message)
    ensures RegisterCheck(nameInput, emailInput, password).Reject? ==>
      m == Message(RegisterCheck(nameInput, emailInput, password).message, VisibleMessageClass("error"))
    ensures RegisterCheck(nameInput, emailInput, password).Pass? && RegisterOutcome(reply).Success? ==>
      m == Message(AccountCreated, VisibleMessageClass("success"))
    ensures RegisterCheck(nameInput, emailInput, password).Pass? && RegisterOutcome(reply).Failure? ==>
      m == Message(RegisterOutcome(reply).error, VisibleMessageClass("error"))
  {
    var check := RegisterCheck(nameInput, emailInput, password);
    if check.Reject? then Message(check.message, VisibleMessageClass("error"))
    else
      var outcome := RegisterOutcome(reply);
      if outcome.Success? then Message(AccountCreated, VisibleMessageClass("success"))
      else Message(outcome.error, VisibleMessageClass("error"))
  }
}
