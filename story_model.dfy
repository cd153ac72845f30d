/** `StoryModel`: the client of the Story API. Each operation builds one HTTP request, hands
    it to `fetch` and turns the reply into a result or an error message. Requests are
    values here (method, path under the configured base URL, query parameters, headers,
    body); `fetch` and `response.json()` are replaced by a `Reply` the caller supplies. */
module StoryModel {
  import opened Wrappers
  import opened JsString
  import opened Entities

  // ---------------------------------------------------------------------------------------
  // Requests

  datatype HttpMethod = Get | Post

  /** A value appended to a `FormData`. */
  datatype FieldValue = Text(text: string) | File(photo: Photo) | Coordinate(value: real)

  datatype Field = Field(name: string, value: FieldValue)

  datatype Body =
    | NoBody
      /** `JSON.stringify` of an object whose properties are all strings, in key order. */
    | Json(members: seq<(string, string)>)
    | Multipart(fields: seq<Field>)

  /** `query` lists the `searchParams` in the order they were appended. */
  datatype Request = Request(
    verb: HttpMethod, path: string, query: seq<(string, int)>,
    headers: map<string, string>, body: Body)

  const AuthorizationHeader := "Authorization"
  const JsonHeaders: map<string, string> := map["Content-Type" := "application/json"]

  /** The text a template literal gives a token that may be `null`. */
  function TokenText(token: Option<string>): string
  {
    if token.Some? then token.value else "null"
  }

  /** `{ Authorization: \`Bearer ${token}\` }`. */
  function BearerHeaders(token: Option<string>): map<string, string>
  {
    map[AuthorizationHeader := "Bearer " + TokenText(token)]
  }

  /** Whether a request carries an `Authorization` header. */
  predicate HasAuthorization(q: Request) {
    AuthorizationHeader in q.headers
  }

  /** The request `register(name, email, password)` sends. */
  function RegisterRequest(name: string, email: string, password: string): (q: Request)
    ensures q.verb == Post && q.path == "/register" && !HasAuthorization(q)
    ensures q.body == Json([("name", name), ("email", email), ("password", password)])
  {
    Request(Post, "/register", [], JsonHeaders,
            Json([("name", name), ("email", email), ("password", password)]))
  }

  /** The request `login(email, password)` sends. */
  function LoginRequest(email: string, password: string): (q: Request)
    ensures q.verb == Post && q.path == "/login" && !HasAuthorization(q)
    ensures q.body == Json([("email", email), ("password", password)])
  {
    Request(Post, "/login", [], JsonHeaders, Json([("email", email), ("password", password)]))
  }

  /** A default parameter: an omitted argument (`None`) takes the default. */
  function OrDefault(v: Option<int>, byDefault: int): (r: int)
    ensures v.Some? ==> r == v.value
    ensures v.None? ==> r == byDefault
  {
    if v.Some? then v.value else byDefault
  }

  const DefaultPage := 1
  const DefaultSize := 10
  const DefaultLocation := 0

  /** The request `getStories(token, page, size, location)` sends. */
  function GetStoriesRequest(token: Option<string>, page: Option<int>, size: Option<int>,
                             location: Option<int>): Request
  {
    Request(Get, "/stories",
            [("page", OrDefault(page, DefaultPage)), ("size", OrDefault(size, DefaultSize)),
             ("location", OrDefault(location, DefaultLocation))],
            if Truthy(token) then map[AuthorizationHeader := "Bearer " + token.value] else map[],
            NoBody)
  }

  /** `getStories` building its request step by step: the three `searchParams.append`
      calls, then the `headers` object that gains `Authorization` only for a truthy token. */
  method BuildGetStoriesRequest(token: Option<string>, page: Option<int>, size: Option<int>,
                                location: Option<int>) returns (q: Request)
    ensures q == GetStoriesRequest(token, page, size, location)
  {
    var query: seq<(string, int)> := [];
    query := query + [("page", OrDefault(page, DefaultPage))];
    query := query + [("size", OrDefault(size, DefaultSize))];
    query := query + [("location", OrDefault(location, DefaultLocation))];
    var headers: map<string, string> := map[];
    if Truthy(token) {
      headers := headers[AuthorizationHeader := "Bearer " + token.value];
    }
    q := Request(Get, "/stories", query, headers, NoBody);
  }

  /** `getStories` sends exactly `page`, `size` and `location`, in that order, with the
      defaults 1, 10 and 0, and an `Authorization: Bearer` header exactly when the token is
      truthy (a missing or empty token leaves the headers empty). */
  lemma GetStoriesRequestShape(token: Option<string>, page: Option<int>, size: Option<int>,
                               location: Option<int>)
    ensures var q := GetStoriesRequest(token, page, size, location);
      && q.verb == Get && q.path == "/stories" && q.body == NoBody
      && |q.query| == 3
      && q.query[0].0 == "page" && q.query[1].0 == "size" && q.query[2].0 == "location"
      && q.query[0].1 == (if page.Some? then page.value else 1)
      && q.query[1].1 == (if size.Some? then size.value else 10)
      && q.query[2].1 == (if location.Some? then location.value else 0)
      && (HasAuthorization(q) <==> token.Some? && token.value != "")
      && (HasAuthorization(q) ==> q.headers == map["Authorization" := "Bearer " + token.value])
      && (!HasAuthorization(q) ==> q.headers == map[])
  {
  }

  /** The request `getStoryDetail(token, id)` sends: always with the Bearer header. */
  function GetStoryDetailRequest(token: Option<string>, id: string): (q: Request)
    ensures q.verb == Get && q.path == "/stories/" + id && q.query == []
    ensures HasAuthorization(q) && q.headers == BearerHeaders(token)
  {
    Request(Get, "/stories/" + id, [], BearerHeaders(token), NoBody)
  }

  /** The multipart form of `addStory` and `addStoryGuest`. */
  function StoryForm(description: string, photo: Photo, lat: Option<real>, lon: Option<real>): seq<Field>
  {
    [Field("description", Text(description)), Field("photo", File(photo))]
      + (if lat.Some? then [Field("lat", Coordinate(lat.value))] else [])
      + (if lon.Some? then [Field("lon", Coordinate(lon.value))] else [])
  }

  /** The `FormData` built by two appends and two conditional appends. */
  method BuildStoryForm(description: string, photo: Photo, lat: Option<real>, lon: Option<real>)
    returns (fields: seq<Field>)
    ensures fields == StoryForm(description, photo, lat, lon)
  {
    fields := [];
    fields := fields + [Field("description", Text(description))];
    fields := fields + [Field("photo", File(photo))];
    if lat.Some? {
      fields := fields + [Field("lat", Coordinate(lat.value))];
    }
    if lon.Some? {
      fields := fields + [Field("lon", Coordinate(lon.value))];
    }
  }

  /** The names of a form's fields, in order. */
  function FieldNames(fields: seq<Field>): (names: seq<string>)
    ensures |names| == |fields|
    ensures forall i :: 0 <= i < |fields| ==> names[i] == fields[i].name
  {
    seq(|fields|, i requires 0 <= i < |fields| => fields[i].name)
  }

  /** The form holds `description`, then `photo`, then `lat` exactly when `lat` is not
      `null`, then `lon` exactly when `lon` is not `null`; a present coordinate is sent
      whatever its value, so 0 is sent too. */
  lemma StoryFormFields(description: string, photo: Photo, lat: Option<real>, lon: Option<real>)
    ensures var f := StoryForm(description, photo, lat, lon);
      && FieldNames(f) == ["description", "photo"] + (if lat.Some? then ["lat"] else [])
                                                   + (if lon.Some? then ["lon"] else [])
      && f[0].value == Text(description) && f[1].value == File(photo)
      && ("lat" in FieldNames(f) <==> lat.Some?)
      && ("lon" in FieldNames(f) <==> lon.Some?)
      && (lat.Some? ==> f[2].value == Coordinate(lat.value))
      && (lon.Some? ==> f[|f| - 1].value == Coordinate(lon.value))
  {
    var f := StoryForm(description, photo, lat, lon);
    var expected := ["description", "photo"] + (if lat.Some? then ["lat"] else [])
                                             + (if lon.Some? then ["lon"] else []);
    assert FieldNames(f) == expected;
  }

  /** The request `addStory(token, description, photo, lat, lon)` sends. */
  function AddStoryRequest(token: Option<string>, description: string, photo: Photo,
                           lat: Option<real>, lon: Option<real>): Request
  {
    Request(Post, "/stories", [], BearerHeaders(token),
            Multipart(StoryForm(description, photo, lat, lon)))
  }

  /** The request `addStoryGuest(description, photo, lat, lon)` sends. */
  function AddStoryGuestRequest(description: string, photo: Photo,
                                lat: Option<real>, lon: Option<real>): Request
  {
    Request(Post, "/stories/guest", [], map[],
            Multipart(StoryForm(description, photo, lat, lon)))
  }

  /** `addStory` always sends the Bearer header (with the text `null` for a missing token);
      `addStoryGuest` posts the same form to `/stories/guest` with no header at all. */
  lemma AddStoryAuthorization(token: Option<string>, description: string, photo: Photo,
                              lat: Option<real>, lon: Option<real>)
    ensures var q := AddStoryRequest(token, description, photo, lat, lon);
      && q.verb == Post && q.path == "/stories" && HasAuthorization(q)
      && q.headers[AuthorizationHeader] == "Bearer " + (if token.Some? then token.value else "null")
    ensures var g := AddStoryGuestRequest(description, photo, lat, lon);
      && g.verb == Post && g.path == "/stories/guest" && g.headers == map[]
      && g.body == AddStoryRequest(token, description, photo, lat, lon).body
  {
  }

  // ---------------------------------------------------------------------------------------
  // Replies and error mapping

  /** The parsed JSON body of a response. A body is taken to hold every field an endpoint
      projects; only `message` may be missing. */
  datatype ResponseBody = ResponseBody(
    message: Option<string>, loginResult: LoginResult, listStory: seq<Story>, story: Story)

  /** What `fetch` (and `response.json()`) did: threw an error with a message, or gave a
      response with its `ok` flag and parsed body. */
  datatype Reply = Threw(message: string) | Responded(ok: bool, body: ResponseBody)

  const FailedToFetch := "Failed to fetch"
  const OfflineMessage := "Gagal terhubung ke server, cek koneksi internet anda"

  /** `data.message || fallback`. */
  function ErrorMessage(message: Option<string>, fallback: string): (m: string)
    ensures Truthy(message) ==> m == message.value
    ensures !Truthy(message) ==> m == fallback
  {
    if message.Some? && message.value != "" then message.value else fallback
  }

  /** The `catch` of `register` and `login`: only the network failure message changes. */
  function TranslateOffline(m: string): (r: string)
    ensures r == m || (m == FailedToFetch && r == OfflineMessage)
    ensures r == OfflineMessage <==> m == FailedToFetch || m == OfflineMessage
  {
    if m == FailedToFetch then OfflineMessage else m
  }

  /** The response body of an ok response, or the error message the operation throws. */
  function Settle(reply: Reply, fallback: string): (r: Result<ResponseBody, string>)
    ensures r.Success? <==> reply.Responded? && reply.ok
    ensures r.Success? ==> r.value == reply.body
    ensures reply.Threw? ==> r == Failure(reply.message)
    ensures reply.Responded? && !reply.ok ==> r == Failure(ErrorMessage(reply.body.message, fallback))
  {
    match reply
    case Threw(m) => Failure(m)
    case Responded(ok, body) => if ok then Success(body) else Failure(ErrorMessage(body.message, fallback))
  }

  /** Applies the offline translation to the error of a result. */
  function Translated<T>(r: Result<T, string>): Result<T, string>
  {
    match r
    case Success(v) => Success(v)
    case Failure(m) => Failure(TranslateOffline(m))
  }

  /** The outcome of `register`: the whole body. */
  function RegisterOutcome(reply: Reply): Result<ResponseBody, string>
  {
    Translated(Settle(reply, "Register failed"))
  }

  /** The outcome of `login`: the `loginResult` of the body. */
  function LoginOutcome(reply: Reply): Result<LoginResult, string>
  {
    match Translated(Settle(reply, "Login failed"))
    case Success(body) => Success(body.loginResult)
    case Failure(m) => Failure(m)
  }

  /** The outcome of `getStories`: the `listStory` of the body. */
  function GetStoriesOutcome(reply: Reply): Result<seq<Story>, string>
  {
    match Settle(reply, "Failed to fetch stories")
    case Success(body) => Success(body.listStory)
    case Failure(m) => Failure(m)
  }

  /** The outcome of `getStoryDetail`: the `story` of the body. */
  function GetStoryDetailOutcome(reply: Reply): Result<Story, string>
  {
    match Settle(reply, "Failed to fetch story detail")
    case Success(body) => Success(body.story)
    case Failure(m) => Failure(m)
  }

  /** The outcome of `addStory`: the whole body. */
  function AddStoryOutcome(reply: Reply): Result<ResponseBody, string>
  {
    Settle(reply, "Failed to add story")
  }

  /** The outcome of `addStoryGuest`: the whole body. */
  function AddStoryGuestOutcome(reply: Reply): Result<ResponseBody, string>
  {
    Settle(reply, "Failed to add guest story")
  }

  /** Every operation succeeds exactly on an ok response and returns its projection of the
      body: `login` the `loginResult`, `getStories` the `listStory`, `getStoryDetail` the
      `story`, the others the whole body. */
  lemma SuccessProjections(reply: Reply)
    ensures RegisterOutcome(reply).Success? <==> reply.Responded? && reply.ok
    ensures LoginOutcome(reply).Success? <==> reply.Responded? && reply.ok
    ensures GetStoriesOutcome(reply).Success? <==> reply.Responded? && reply.ok
    ensures GetStoryDetailOutcome(reply).Success? <==> reply.Responded? && reply.ok
    ensures AddStoryOutcome(reply).Success? <==> reply.Responded? && reply.ok
    ensures AddStoryGuestOutcome(reply).Success? <==> reply.Responded? && reply.ok
    ensures reply.Responded? && reply.ok ==>
      && RegisterOutcome(reply).value == reply.body
      && LoginOutcome(reply).value == reply.body.loginResult
      && GetStoriesOutcome(reply).value == reply.body.listStory
      && GetStoryDetailOutcome(reply).value == reply.body.story
      && AddStoryOutcome(reply).value == reply.body
      && AddStoryGuestOutcome(reply).value == reply.body
  {
  }

  /** A non-ok response fails with the server's `message` when it has a non-empty one, and
      otherwise with the operation's own default. For `register` and `login` the message
      then passes through the offline translation, since their `throw` sits inside the
      `try` whose `catch` translates. */
  lemma FailureMessages(body: ResponseBody)
    ensures var m := body.message;
      var reply := Responded(false, body);
      && RegisterOutcome(reply) == Failure(TranslateOffline(ErrorMessage(m, "Register failed")))
      && LoginOutcome(reply) == Failure(TranslateOffline(ErrorMessage(m, "Login failed")))
      && GetStoriesOutcome(reply) == Failure(ErrorMessage(m, "Failed to fetch stories"))
      && GetStoryDetailOutcome(reply) == Failure(ErrorMessage(m, "Failed to fetch story detail"))
      && AddStoryOutcome(reply) == Failure(ErrorMessage(m, "Failed to add story"))
      && AddStoryGuestOutcome(reply) == Failure(ErrorMessage(m, "Failed to add guest story"))
  {
  }

  /** A thrown "Failed to fetch" becomes the connectivity message for `register` and `login`
      only; every other operation rethrows any error unchanged, and so do `register` and
      `login` for any other message. */
  lemma OnlyAuthTranslatesOffline(m: string)
    ensures RegisterOutcome(Threw(m)) == Failure(if m == FailedToFetch then OfflineMessage else m)
    ensures LoginOutcome(Threw(m)) == Failure(if m == FailedToFetch then OfflineMessage else m)
    ensures GetStoriesOutcome(Threw(m)) == Failure(m)
    ensures GetStoryDetailOutcome(Threw(m)) == Failure(m)
    ensures AddStoryOutcome(Threw(m)) == Failure(m)
    ensures AddStoryGuestOutcome(Threw(m)) == Failure(m)
  {
  }
}
