/** `LoginPresenter` and `StoryPresenter`: they call the view and the model in a fixed
    order. The view is an object that records the calls made on it; the model calls are
    recorded in the same log, so the order of the two is visible. */
module Presenters {
  import opened Wrappers
  import opened JsString
  import opened Entities
  import opened Browser
  import opened StoryModel

  /** One call made by a presenter, on the view or on the model. */
  datatype Call =
    | ShowLoading
    | HideLoading
    | RenderLoginSuccess(result: LoginResult)
    | RenderError(message: string)
    | RenderStories(stories: seq<Story>)
    | RenderAddStorySuccess(serverMessage: Option<string>)
    | ModelLogin(email: string, password: string)
    | ModelGetStories(token: Option<string>, page: int, size: int, location: int)
    | ModelAddStory(token: Option<string>, description: string, photo: Photo,
                    lat: Option<real>, lon: Option<real>)

  /** The recording view. */
  class CallLog {
    var calls: seq<Call>

    constructor ()
      ensures calls == []
    {
      calls := [];
    }

    method Record(c: Call)
      modifies this
      ensures calls == old(calls) + [c]
    {
      calls := calls + [c];
    }
  }

  /** The calls `login` makes: `showLoading`, the model, the render call for the outcome,
      then `hideLoading` from the `finally`. */
  function LoginCalls(email: string, password: string, reply: Reply): seq<Call>
  {
    var outcome := LoginOutcome(reply);
    [ShowLoading, ModelLogin(email, password),
     if outcome.Success? then RenderLoginSuccess(outcome.value) else RenderError(outcome.error),
     HideLoading]
  }

  /** `showLoading` comes first, before the model is called; `hideLoading` comes last on
      both paths; in between exactly one render call reports the outcome. */
  lemma LoginCallOrder(email: string, password: string, reply: Reply)
    ensures var calls := LoginCalls(email, password, reply);
      && |calls| == 4
      && calls[0] == ShowLoading
      && calls[1] == ModelLogin(email, password)
      && calls[3] == HideLoading
      && (LoginOutcome(reply).Success? <==> calls[2].RenderLoginSuccess?)
      && (LoginOutcome(reply).Success? ==> calls[2].result == reply.body.loginResult)
      && (LoginOutcome(reply).Failure? <==> calls[2].RenderError?)
      && (LoginOutcome(reply).Failure? ==> calls[2].message == LoginOutcome(reply).error)
  {
  }

  class LoginPresenter {
    const view: CallLog

    constructor (view: CallLog)
      ensures this.view == view
    {
      this.view := view;
    }

    /** `login(email, password)`: returns the model's result, or fails with the very error
        the model threw (the `catch` rethrows it). */
    method Login(email: string, password: string, reply: Reply) returns (r: Result<LoginResult, string>)
      modifies view
      ensures r == LoginOutcome(reply)
      ensures view.calls == old(view.calls) + LoginCalls(email, password, reply)
    {
      view.Record(ShowLoading);
      view.Record(ModelLogin(email, password));
      r := LoginOutcome(reply);
      if r.Success? {
        view.Record(RenderLoginSuccess(r.value));
      } else {
        view.Record(RenderError(r.error));
      }
      view.Record(HideLoading);
    }

    /** `checkLoginStatus()`: a token is stored and is not the empty string. */
    function CheckLoginStatus(window: Window): (loggedIn: bool)
      reads window
      ensures loggedIn <==> TokenKey in window.storage && window.storage[TokenKey] != ""
    {
      Truthy(window.GetItem(TokenKey))
    }
  }

  /** The calls `loadStories` makes. The presenter's own defaults are 1, 10 and 0. */
  function LoadStoriesCalls(token: Option<string>, page: Option<int>, size: Option<int>,
                            location: Option<int>, reply: Reply): seq<Call>
  {
    var outcome := GetStoriesOutcome(reply);
    [ShowLoading,
     ModelGetStories(token, OrDefault(page, 1), OrDefault(size, 10), OrDefault(location, 0)),
     if outcome.Success? then RenderStories(outcome.value) else RenderError(outcome.error)]
  }

  /** `showLoading` precedes the fetch; the model gets the token and each given argument,
      or the default for an omitted one; the list rendered is exactly the fetched list; a
      failure is only rendered (`loadStories` has no failing result to pass on). */
  lemma LoadStoriesCallOrder(token: Option<string>, page: Option<int>, size: Option<int>,
                             location: Option<int>, reply: Reply)
    ensures var calls := LoadStoriesCalls(token, page, size, location, reply);
      && |calls| == 3
      && calls[0] == ShowLoading
      && calls[1].ModelGetStories? && calls[1].token == token
      && calls[1].page == (if page.Some? then page.value else 1)
      && calls[1].size == (if size.Some? then size.value else 10)
      && calls[1].location == (if location.Some? then location.value else 0)
      && (reply.Responded? && reply.ok <==> calls[2].RenderStories?)
      && (!(reply.Responded? && reply.ok) <==> calls[2].RenderError?)
      && (calls[2].RenderStories? ==> calls[2].stories == reply.body.listStory)
      && (calls[2].RenderError? ==> calls[2].message == GetStoriesOutcome(reply).error)
  {
  }

  /** The calls `addNewStory` makes: the success render receives the body's `message`. */
  function AddNewStoryCalls(token: Option<string>, description: string, photo: Photo,
                            lat: Option<real>, lon: Option<real>, reply: Reply): seq<Call>
  {
    var outcome := AddStoryOutcome(reply);
    [ShowLoading, ModelAddStory(token, description, photo, lat, lon),
     if outcome.Success? then RenderAddStorySuccess(outcome.value.message) else RenderError(outcome.error)]
  }

  /** On an ok response `renderAddStorySuccess` gets the server's message; otherwise
      `renderError` gets the error message; nothing else follows. */
  lemma AddNewStoryCallOrder(token: Option<string>, description: string, photo: Photo,
                             lat: Option<real>, lon: Option<real>, reply: Reply)
    ensures var calls := AddNewStoryCalls(token, description, photo, lat, lon, reply);
      && |calls| == 3
      && calls[0] == ShowLoading
      && calls[1] == ModelAddStory(token, description, photo, lat, lon)
      && (reply.Responded? && reply.ok <==> calls[2].RenderAddStorySuccess?)
      && (!(reply.Responded? && reply.ok) <==> calls[2].RenderError?)
      && (calls[2].RenderAddStorySuccess? ==> calls[2].serverMessage == reply.body.message)
      && (calls[2].RenderError? ==> calls[2].message == AddStoryOutcome(reply).error)
  {
  }

  class StoryPresenter {
    const view: CallLog

    constructor (view: CallLog)
      ensures this.view == view
    {
      this.view := view;
    }

    /** `loadStories(token, page, size, location)`: swallows a failure after rendering it. */
    method LoadStories(token: Option<string>, page: Option<int>, size: Option<int>,
                       location: Option<int>, reply: Reply)
      modifies view
      ensures view.calls == old(view.calls) + LoadStoriesCalls(token, page, size, location, reply)
    {
      view.Record(ShowLoading);
      view.Record(ModelGetStories(token, OrDefault(page, 1), OrDefault(size, 10), OrDefault(location, 0)));
      var outcome := GetStoriesOutcome(reply);
      if outcome.Success? {
        view.Record(RenderStories(outcome.value));
      } else {
        view.Record(RenderError(outcome.error));
      }
    }

    /** `addNewStory(token, description, photo, lat, lon)`: swallows a failure after
        rendering it, so its caller always continues as on success. */
    method AddNewStory(token: Option<string>, description: string, photo: Photo,
                       lat: Option<real>, lon: Option<real>, reply: Reply)
      modifies view
      ensures view.calls == old(view.calls) + AddNewStoryCalls(token, description, photo, lat, lon, reply)
    {
      view.Record(ShowLoading);
      view.Record(ModelAddStory(token, description, photo, lat, lon));
      var outcome := AddStoryOutcome(reply);
      if outcome.Success? {
        view.Record(RenderAddStorySuccess(outcome.value.message));
      } else {
        view.Record(RenderError(outcome.error));
      }
    }
  }
}
