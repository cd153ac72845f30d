# Story Share client: a Dafny model

Story Share is a single-page browser client for a story-sharing REST API. Signed-in users
list stories (with a map of the ones that carry a place) and post new ones. Visitors can
post as guests. The client keeps its session (`token`, `userId`, `userName`) in
`localStorage` and routes on `location.hash`.

This project models the client's core:

- `PushHelper`: `urlBase64ToUint8Array`, which turns the unpadded url-safe base64 of a
  VAPID key into bytes. It is modelled with the base64 alphabets of sections 4 and 5 of
  RFC 4648 and proved to invert url-safe unpadded encoding.
- `StoryModel`: the REST calls, as request values (verb, path, query, headers, body),
  and the mapping from the reply to a result or an error message.
- `Forms`: the submit-time validators of the sign-in, sign-up, add-story and guest-story
  forms.
- `Presenters`: `LoginPresenter` and `StoryPresenter`, as classes that record the view and
  model calls they make, in order.
- `HomePage`, `LoginPage`, `RegisterPage`, `LandingPage`, `AddStoryPage` and
  `GuestStoriesPage`: each page is a class whose fields are the page's own fields plus the
  DOM state its handlers change. Each handler is a method.
- `App`: the navigation bar, page rendering and logout.

Shared modules:

- `Wrappers`: `Option` and `Result`.
- `JsString`: ECMAScript `trim`, UTF-16 `length`, truthiness and `|| null`.
- `Entities`: photos, stories, login results and map points.
- `Browser`: a `Window` class holding `localStorage` as a map and the location hash.
- `Dom`: message elements and loader buttons.

`fetch` is not modelled as I/O. Each operation that calls the server takes a `Reply`
parameter: either the fetch threw with a message, or it responded with an `ok` flag and a
parsed JSON body. The model returns or records the request it would send.

## Model

| member | source | states |
|---|---|---|
| PushHelper.AllStdIff | src/scripts/utils/push-helper.js:6 | the recursive alphabet test holds exactly when every character is in the standard base64 alphabet |
| PushHelper.StdChar | src/scripts/utils/push-helper.js:6 | every sextet has a character in the standard alphabet, and that character decodes back to the sextet |
| PushHelper.UrlChar | src/scripts/utils/push-helper.js:5 | a url-safe character; `-` exactly for 62, `_` exactly for 63, and the standard character for every other value |
| PushHelper.Sextets | src/scripts/utils/push-helper.js:3-12 | encoding n bytes yields (4n + 2) / 3 sextets, never a count that is 1 modulo 4 |
| PushHelper.DecodeSextets | src/scripts/utils/push-helper.js:6 | decoding sextets yields floor(3m/4) bytes |
| PushHelper.OneByteGroup | src/scripts/utils/push-helper.js:6 | a one-byte group survives encoding to two sextets and decoding |
| PushHelper.TwoByteGroup | src/scripts/utils/push-helper.js:6 | a two-byte group survives encoding to three sextets and decoding |
| PushHelper.GroupRoundTrip | src/scripts/utils/push-helper.js:6 | a three-byte group survives encoding to four sextets and decoding |
| PushHelper.DecodeSextetsOfSextets | src/scripts/utils/push-helper.js:6 | decoding the sextets of any byte sequence gives that sequence back (by induction over 3-byte groups) |
| PushHelper.EncodeUrlUnpadded | src/scripts/utils/push-helper.js:3-12 | the url-safe unpadded text of any bytes uses only url-safe characters |
| PushHelper.PaddingCount | src/scripts/utils/push-helper.js:4 | `(4 - n % 4) % 4` is at most 3 and makes the length a multiple of 4 |
| PushHelper.Pad | src/scripts/utils/push-helper.js:4-5 | appends exactly that many `=` characters |
| PushHelper.ReplaceAll | src/scripts/utils/push-helper.js:5 | the global replace changes every occurrence of one character and nothing else |
| PushHelper.UrlToStd | src/scripts/utils/push-helper.js:5 | every `-` becomes `+` and every `_` becomes `/`; every other character and the length are kept |
| PushHelper.PadLength | src/scripts/utils/push-helper.js:6 | the padding `atob` strips: at most two trailing `=`, all of them stripped |
| PushHelper.Atob | src/scripts/utils/push-helper.js:6 | a text `atob` accepts has a length that is a multiple of 4; its output has 3 characters per group minus one per `=`, each below 256 |
| PushHelper.SextetsOfStd | src/scripts/utils/push-helper.js:6 | one sextet per standard character |
| PushHelper.AtobAccepts | src/scripts/utils/push-helper.js:6 | `atob` succeeds iff the length is a multiple of 4 and every character before the padding is standard base64 |
| PushHelper.CharCodes | src/scripts/utils/push-helper.js:8-10 | `charCodeAt` stored into a `Uint8Array`: one byte per character, equal to the code when it is below 256 |
| PushHelper.DecodeUrlBase64 | src/scripts/utils/push-helper.js:3-12 | the decoder throws exactly when `atob` does; otherwise the array has one byte per character of `atob`'s output, holding that character's code |
| PushHelper.UrlBase64ToUint8Array | src/scripts/utils/push-helper.js:3-12 | the result is exactly `DecodeUrlBase64`: `None` where `atob` throws, otherwise the filled array's contents |
| PushHelper.FillCharCodes | src/scripts/utils/push-helper.js:7-10 | the loop fills a fresh array of the decoded string's length with its character codes |
| PushHelper.StdChars | src/scripts/utils/push-helper.js:5 | standard characters of sextets, with the same length |
| PushHelper.NormalizedEncoding | src/scripts/utils/push-helper.js:4-5 | padding and replacing the url-safe text of any bytes gives their padded standard base64 |
| PushHelper.PadLengthOfPaddedStd | src/scripts/utils/push-helper.js:4-6 | `atob` strips exactly the padding that was added |
| PushHelper.AtobOfPaddedStd | src/scripts/utils/push-helper.js:6 | `atob` of a padded standard encoding yields the binary string of the decoded sextets |
| PushHelper.SextetsOfStdChars | src/scripts/utils/push-helper.js:6 | reading standard characters back gives the sextets |
| PushHelper.DecodeOfEncodeUrl | src/scripts/utils/push-helper.js:3-12 | round trip: the decoder inverts url-safe unpadded encoding for every byte sequence |
| PushHelper.RejectsLengthOneModFour | src/scripts/utils/push-helper.js:4-6 | input whose length is 1 modulo 4 makes the decoder throw |
| PushHelper.RejectsForeignCharacter | src/scripts/utils/push-helper.js:5-6 | a character outside the url-safe alphabet that is not `+`, `/`, `=` or ASCII white space (which `atob` strips) makes the decoder throw |
| StoryModel.RegisterRequest | src/scripts/data/story-model.js:6-12 | `POST /register`, a JSON body with name, email and password, and no Authorization header |
| StoryModel.LoginRequest | src/scripts/data/story-model.js:27-33 | `POST /login`, a JSON body with email and password, and no Authorization header |
| StoryModel.BuildGetStoriesRequest | src/scripts/data/story-model.js:48-59 | the query is appended page, size, location, and the Bearer header is added only for a truthy token |
| StoryModel.GetStoriesRequestShape | src/scripts/data/story-model.js:48-59 | `GET /stories` with no body; `page`, `size` and `location` in that order, each the given value or its default 1, 10 or 0 (`OrDefault`); the only header is `Authorization: Bearer <token>`, present iff the token is truthy |
| StoryModel.GetStoryDetailRequest | src/scripts/data/story-model.js:67-70 | `GET /stories/<id>`, always with `Bearer <token>` (the text `null` when there is no token) |
| StoryModel.BuildStoryForm | src/scripts/data/story-model.js:79-83 | the form fields are appended one by one, equal to the story form |
| StoryModel.StoryFormFields | src/scripts/data/story-model.js:79-83 | the field names (`FieldNames`) are description, photo, then `lat` and `lon` iff they are not null (0 included), in that order, with their values |
| StoryModel.AddStoryAuthorization | src/scripts/data/story-model.js:78-91 | `addStory` always sends the Bearer header; `addStoryGuest` posts to `/stories/guest` without one; both carry the same form |
| StoryModel.TranslateOffline | src/scripts/data/story-model.js:19-24 | the message is kept, except that `Failed to fetch` becomes the offline notice; the result is the offline notice iff the input was `Failed to fetch` or already the notice |
| StoryModel.SuccessProjections | src/scripts/data/story-model.js:6-115 | through `Settle`, each call succeeds iff the response is ok, and returns its own projection: the body, `loginResult`, `listStory` or `story` |
| StoryModel.FailureMessages | src/scripts/data/story-model.js:15-112 | on a non-ok response each call fails with `data.message \|\| fallback` (`ErrorMessage`) with its own fallback text; `register` and `login` also pass that message through the offline translation |
| StoryModel.OnlyAuthTranslatesOffline | src/scripts/data/story-model.js:19-24 | only `register` and `login` translate a network failure; the other calls pass the thrown message on |
| JsString.TrimStart | src/scripts/pages/login/login-page.js:80 | removes exactly the leading whitespace |
| JsString.TrimEnd | src/scripts/pages/login/login-page.js:80 | removes exactly the trailing whitespace |
| JsString.Trim | src/scripts/pages/login/login-page.js:80 | the result is the infix left after removing a blank prefix and a blank suffix, and it neither starts nor ends with whitespace |
| JsString.TrimEmptyIffBlank | src/scripts/pages/login/login-page.js:80-83 | a trimmed input is falsy exactly when it is all whitespace |
| JsString.Utf16Length | src/scripts/pages/register/register-page.js:104 | `length` counts UTF-16 code units: one per character when none is above U+FFFF, two per character when all are, and between the two otherwise |
| JsString.Utf16LengthAppend | src/scripts/pages/register/register-page.js:104 | the length of a concatenation is the sum, which with the one-character cases gives the exact count |
| JsString.OrNull | src/scripts/pages/home/home-page.js:8 | `x \|\| null` keeps truthiness and turns the empty string into null |
| Dom.MessageClass | src/scripts/pages/login/login-page.js:118-122 | the class is `message <type>` for a type, and empty exactly when the type is empty |
| Dom.LoaderButtonShowsOneSpan | src/scripts/pages/login/login-page.js:112-116 | the button is disabled iff loading, the loader shows iff loading, and exactly one of the text and loader spans is shown |
| Forms.LoginCheck | src/scripts/pages/login/login-page.js:80-86 | passes iff the trimmed email and the password are both non-empty; otherwise rejects with the fill-all-fields message |
| Forms.RegisterCheck | src/scripts/pages/register/register-page.js:95-107 | passes iff name and email are not blank and the password has at least 8 UTF-16 units; the empty-field message comes first, the length message only for a short non-empty password |
| Forms.PasswordBoundary | src/scripts/pages/register/register-page.js:104 | 7 characters are rejected and 8 pass |
| Forms.AddStoryCheck | src/scripts/pages/add-story/add-story-page.js:135-141 | passes iff the untrimmed description is non-empty and a photo is chosen |
| Forms.GuestStoryCheck | src/scripts/pages/guest-stories/guest-stories-page.js:356-377 | passes iff the trimmed description is non-empty, a photo is chosen, it is at most 1 MiB and its type is JPEG, PNG or WebP |
| Forms.GuestCheckOrder | src/scripts/pages/guest-stories/guest-stories-page.js:362-377 | each rejection message iff its check is the first to fail |
| Forms.GuestSizeBoundary | src/scripts/pages/guest-stories/guest-stories-page.js:368 | 1048576 bytes pass the size check and 1048577 do not |
| Forms.BlankDescriptionForms | src/scripts/pages/add-story/add-story-page.js:135 | a whitespace-only description passes the add-story form but not the guest form |
| Presenters.CallLog.Record | src/scripts/presenter/login-presenter.js:7-19 | a call is appended to the log |
| Presenters.LoginCallOrder | src/scripts/presenter/login-presenter.js:7-19 | `showLoading` first, then the model, then exactly one render call matching the outcome, then `hideLoading` on both paths |
| Presenters.LoginPresenter.Login | src/scripts/presenter/login-presenter.js:7-19 | returns the model's outcome (a failure is passed on) and records exactly the login calls |
| Presenters.LoginPresenter.CheckLoginStatus | src/scripts/presenter/login-presenter.js:21-27 | logged in iff a non-empty token is stored |
| Presenters.LoadStoriesCallOrder | src/scripts/presenter/story-presenter.js:7-15 | `showLoading`, then the model with the token and each given argument or its default 1, 10 or 0, then the fetched list iff the response is ok and the error otherwise |
| Presenters.StoryPresenter.LoadStories | src/scripts/presenter/story-presenter.js:7-15 | records exactly those calls |
| Presenters.AddNewStoryCallOrder | src/scripts/presenter/story-presenter.js:17-25 | `showLoading`, the model, then `renderAddStorySuccess` with the server's message iff the response is ok, and `renderError` with the error message otherwise |
| Presenters.StoryPresenter.AddNewStory | src/scripts/presenter/story-presenter.js:17-25 | records exactly those calls and rethrows nothing |
| HomePage.ArticlesOf | src/scripts/pages/home/home-page.js:54-66 | one article per story, in order |
| HomePage.Markers | src/scripts/pages/home/home-page.js:101-110 | at most one marker per story, and no marker has a zero coordinate |
| HomePage.MarkersAppend | src/scripts/pages/home/home-page.js:101-110 | markers are placed story by story, so those of a concatenation concatenate |
| HomePage.MarkerIffPlace | src/scripts/pages/home/home-page.js:102 | a story gets its marker iff both coordinates are truthy |
| HomePage.HomePage.constructor | src/scripts/pages/home/home-page.js:5-9 | the token is read once as `getItem('token') \|\| null` |
| HomePage.HomePage.AfterRender | src/scripts/pages/home/home-page.js:22-31 | without a token, the login prompt and no request; with one, `getStories(token, 1, 20, 1)` and then the articles and markers of the fetched list, or the error |
| HomePage.HomePage.ShowLoading | src/scripts/pages/home/home-page.js:33-42 | the loading text is shown |
| HomePage.HomePage.RenderStories | src/scripts/pages/home/home-page.js:44-69 | the loop leaves exactly the articles of the stories, then the map's markers |
| HomePage.HomePage.RenderError | src/scripts/pages/home/home-page.js:71-76 | the loading text is cleared and the list shows `Error: <message>` |
| HomePage.HomePage.RenderMap | src/scripts/pages/home/home-page.js:78-111 | the loop leaves exactly the markers of the stories |
| LoginPage.LoginPage.AfterRender | src/scripts/pages/login/login-page.js:59-68 | a truthy token goes to `#/` and the form is not set up, and storage is unchanged |
| LoginPage.LoginPage.Submit | src/scripts/pages/login/login-page.js:77-109 | on a rejected form, nothing is sent; on success the three session keys are stored and `#/` is scheduled; on failure storage is unchanged and `Login failed: <error>` is shown; loading ends on both paths |
| LoginPage.LoginPage.SetLoading | src/scripts/pages/login/login-page.js:112-116 | the button takes the loading state |
| LoginPage.LoginPage.ShowMessage | src/scripts/pages/login/login-page.js:118-122 | the message text and class are set |
| LoginPage.LoginPage.StoreAuthData | src/scripts/pages/login/login-page.js:124-128 | `token`, `userId` and `userName` are written, and every other key is kept |
| RegisterPage.RegisterPage.AfterRender | src/scripts/pages/register/register-page.js:74-83 | a truthy token goes to `#/` and the form is not set up |
| RegisterPage.RegisterPage.Submit | src/scripts/pages/register/register-page.js:92-128 | the checks' message on rejection; otherwise the register request with trimmed name and email, then the success message and `#/login` scheduled, or `Registration failed: <error>`; loading ends on both paths |
| RegisterPage.RegisterPage.SetLoading | src/scripts/pages/register/register-page.js:130-134 | the button takes the loading state |
| RegisterPage.RegisterPage.ShowMessage | src/scripts/pages/register/register-page.js:136-140 | the message text and class are set |
| LandingPage.TextButtonFor | src/scripts/pages/landing/landing-page.js:244-253 | `Please wait...` while loading; otherwise `SIGN IN` iff the form is the sign-in form, else `CREATE ACCOUNT` |
| LandingPage.LandingPage.constructor | src/scripts/pages/landing/landing-page.js:5-8 | every message element starts empty, and the sign-in button is idle |
| LandingPage.LandingPage.AfterRender | src/scripts/pages/landing/landing-page.js:125-138 | a truthy token goes to `#/` and the dialogs are not set up |
| LandingPage.LandingPage.SubmitLogin | src/scripts/pages/landing/landing-page.js:196-211 | runs the presenter's login sequence: on success the session is stored and `#/` is scheduled; on failure only the error is shown; the rethrown error is swallowed |
| LandingPage.LandingPage.SubmitRegister | src/scripts/pages/landing/landing-page.js:213-241 | the sign-up checks, then `register` with trimmed name and email; the message (`RegisterShown`) shows the check, the success text or the bare error, with the class `message <type> visible`; no loading state and no storage write |
| LandingPage.LandingPage.ShowLoading | src/scripts/pages/landing/landing-page.js:255-260 | the sign-in button shows `Please wait...` |
| LandingPage.LandingPage.HideLoading | src/scripts/pages/landing/landing-page.js:262-267 | the sign-in button shows `SIGN IN` again |
| LandingPage.LandingPage.RenderError | src/scripts/pages/landing/landing-page.js:269-271 | the sign-in message shows the error |
| LandingPage.LandingPage.RenderLoginSuccess | src/scripts/pages/landing/landing-page.js:273-287 | the success message, the session stored, and `#/` scheduled |
| LandingPage.LandingPage.ShowMessage | src/scripts/pages/landing/landing-page.js:289-296 | a missing element changes nothing; otherwise its text is set and its class is `message <type> visible`, or `message visible` without a type (`VisibleMessageClass`) |
| LandingPage.SessionStored | src/scripts/pages/landing/landing-page.js:277-281 | `token` and `userId` are always written, `userName` only for a non-empty name; after a nameless login a `userName` stored earlier keeps its old value, and every other key is kept |
| AddStoryPage.AddStoryPage.constructor | src/scripts/pages/add-story/add-story-page.js:5-12 | the token is read once as `getItem('token') \|\| null`, and no place is selected |
| AddStoryPage.AddStoryPage.AfterRender | src/scripts/pages/add-story/add-story-page.js:40-49 | without a token, the login notice and nothing set up; no other field changes |
| AddStoryPage.AddStoryPage.MapClick | src/scripts/pages/add-story/add-story-page.js:65-74 | the place becomes the clicked point; the marker is created on the first click and moved afterwards; no other field changes |
| AddStoryPage.AddStoryPage.StartCamera | src/scripts/pages/add-story/add-story-page.js:84-100 | a granted stream shows the video and enables capture; a refusal removes any shown video and keeps the stream and the capture button as they were; the form and place are untouched |
| AddStoryPage.AddStoryPage.Capture | src/scripts/pages/add-story/add-story-page.js:102-125 | with video shown, the PNG fills the photo input and the camera stops; without it nothing changes |
| AddStoryPage.AddStoryPage.Submit | src/scripts/pages/add-story/add-story-page.js:132-156 | the required-fields notice on rejection; otherwise the `addStory` request with the untrimmed description and the selected place, and then the success text, a reset form and a cleared place, whatever the server answered; the camera state is untouched |
| AddStoryPage.AddStoryPage.ShowLoading | src/scripts/pages/add-story/add-story-page.js:159-162 | shows `Processing...`; nothing else changes |
| AddStoryPage.AddStoryPage.RenderAddStorySuccess | src/scripts/pages/add-story/add-story-page.js:164-167 | shows the server's message (`undefined` when absent); nothing else changes |
| AddStoryPage.AddStoryPage.RenderError | src/scripts/pages/add-story/add-story-page.js:169-172 | shows the error; nothing else changes |
| GuestStoriesPage.FailureMessageIffTimeout | src/scripts/pages/guest-stories/guest-stories-page.js:411-416 | the failure message (`FailureMessage`) is the timeout text iff the error message is `Request timed out`; otherwise `Failed to share story: <error>` |
| GuestStoriesPage.GuestStoriesPage.constructor | src/scripts/pages/guest-stories/guest-stories-page.js:4-11 | no place, no stream, no marker |
| GuestStoriesPage.GuestStoriesPage.MapClick | src/scripts/pages/guest-stories/guest-stories-page.js:174-200 | the place becomes the clicked point; the marker is created on the first click and moved afterwards; no other field changes |
| GuestStoriesPage.GuestStoriesPage.MarkerDragged | src/scripts/pages/guest-stories/guest-stories-page.js:187-194 | the place follows the dragged marker; no other field changes |
| GuestStoriesPage.GuestStoriesPage.StopCamera | src/scripts/pages/guest-stories/guest-stories-page.js:336-344 | no stream, no video, capture disabled, the start label restored; no other field changes |
| GuestStoriesPage.GuestStoriesPage.StartCamera | src/scripts/pages/guest-stories/guest-stories-page.js:259-293 | a granted stream shows the video, enables capture and relabels the button; a refusal removes any shown video and keeps the stream, the capture button and the label; nothing else changes |
| GuestStoriesPage.GuestStoriesPage.Capture | src/scripts/pages/guest-stories/guest-stories-page.js:295-333 | a missing video, a missing blob or one over 1 MiB changes nothing; otherwise the PNG fills the photo input and the camera stops; nothing else changes |
| GuestStoriesPage.GuestStoriesPage.Submit | src/scripts/pages/guest-stories/guest-stories-page.js:353-420 | the validator's message and nothing else on rejection; otherwise the guest upload with the trimmed description and the selected place; on success the form and place are reset, the camera stopped and the story list reloaded for the stored token; on failure or timeout the matching message and nothing else changed; the button is idle at the end |
| GuestStoriesPage.GuestStoriesPage.Share | src/scripts/pages/guest-stories/guest-stories-page.js:379-420 | the `try`/`finally` after the checks: the upload request, then the success path or the failure message with nothing else changed, and the button idle at the end |
| GuestStoriesPage.GuestStoriesPage.AfterUpload | src/scripts/pages/guest-stories/guest-stories-page.js:392-407 | the success path: message, reset form and place, camera stopped with the start label restored, and the story list and loading text as the reload leaves them |
| GuestStoriesPage.GuestStoriesPage.LoadRecentStories | src/scripts/pages/guest-stories/guest-stories-page.js:423-457 | the guest notice without a token; with one, `getStories(token, 1, 10, 0)` and the stories, the empty notice, or the error; the loading text is cleared on every path |
| GuestStoriesPage.GuestStoriesPage.SetLoading | src/scripts/pages/guest-stories/guest-stories-page.js:470-474 | the button takes the loading state; nothing else changes |
| GuestStoriesPage.GuestStoriesPage.ShowMessage | src/scripts/pages/guest-stories/guest-stories-page.js:486-490 | the message text and class are set; nothing else changes |
| GuestStoriesPage.UploadRace | src/scripts/pages/guest-stories/guest-stories-page.js:384-416 | the submit succeeds iff the timer loses and the server answers ok; the timeout text is shown iff the timer wins or the upload fails with the message `Request timed out` |
| GuestStoriesPage.RecentStoriesCases | src/scripts/pages/guest-stories/guest-stories-page.js:423-457 | no request (`RecentStoriesRequest`) and the guest notice without a token; the Bearer header and parameter order with one; the empty notice iff the list is empty; the error view on any failure |
| App.RenderNav | src/scripts/pages/app.js:13-41 | no bar iff the route is `/landing`; otherwise the logout link iff the token is truthy |
| App.App.constructor | src/scripts/pages/app.js:8-11 | nothing rendered yet |
| App.App.RenderPage | src/scripts/pages/app.js:43-92 | a falsy page changes nothing; a page that throws when built gives the error page with the header untouched; otherwise the header gets the bar for the route and token, and then the page or the error page |
| App.App.SetupNavListeners | src/scripts/pages/app.js:94-105 | the logout listener exists iff the bar has the logout link |
| App.App.Logout | src/scripts/pages/app.js:97-103 | removes exactly the three session keys and goes to `#/landing` |
| App.LogoutForgetsSession | src/scripts/pages/app.js:97-103 | logging out after a login leaves the storage as before the login minus the session keys; every other key keeps its value |
| App.NavAfterLogout | src/scripts/pages/app.js:13-41 | after logout, every route but the landing page shows the Login / Register link |

## Left out

- `subscribeUserToPush` (push-helper.js:14-75) is not modelled. It asks for notification permission, subscribes through the service worker, posts the subscription and shows a random quote; all of these are browser and network I/O. Only the key decoder it calls is modelled.
- PushHelper.Atob: the model decodes strictly on the padded text. Browsers' `atob` also strips ASCII whitespace and accepts a text with no padding. The padded text always has a length that is a multiple of 4, so only the whitespace leniency is lost.
- PushHelper.UrlBase64ToUint8Array returns the array's contents as a sequence, not the `Uint8Array` object.
- `fetch`, `response.json()` and `CONFIG.BASE_URL` are not modelled. Requests carry paths relative to the configured base URL. A reply is a parameter, and an ok body is taken to carry the field the call projects (`loginResult`, `listStory`, `story`). A response body that is not JSON, which would make `response.json()` throw, is not distinguished from any other thrown error.
- Leaflet is taken to be loaded. The `!window.L` branches, tile layers, popups, the locate control, `invalidateSize` and the guest page's MutationObserver that delays map set-up are not modelled. Markers are values holding position and popup data.
- Camera APIs: `getUserMedia`'s answer is the `granted` parameter, and a refusal is modelled as the video leaving the camera container; the text of the `Cannot access camera` notice is not kept. The `Camera API not supported` branch is not modelled. `canvas.toBlob` is modelled as calling back at once, with the blob size as a parameter.
- The 30-second `Promise.race` timer is the `timedOut` parameter of the guest submit.
- `setTimeout` redirects are recorded as the pending `redirect` hash and not carried out. The landing page's modal toggles and transitions are not modelled.
- Markup, `render()` templates, number formatting (`toFixed`), dates, view transitions and focus handling are not modelled. Story fields are interpolated into markup unescaped in the source; the model keeps them as plain values.
- HomePage.HomePage.AfterRender: without a token the source appends a second `story-list` element holding the login prompt. The model shows the prompt in the one list instead.
- `routes.js` (`checkAuth`) and `url-parser.js` are not part of this model. The page a route resolves to is the `resolved` parameter of `App.App.RenderPage`, and how far the page gets is the `run` parameter. `routes.js` exports a table object while `app.js` calls its default export as a function (app.js:45). That call sits outside the `try`, so as written it would reject `renderPage` before any page is built. The model takes the resolver's intended answer as given.
- The bookmark page is not part of the core.
- Presenters.LoginPresenter.Login, Presenters.StoryPresenter.LoadStories and Presenters.StoryPresenter.AddNewStory record their calls in a log. The pages do not call these presenter classes: LandingPage.LandingPage.SubmitLogin, HomePage.HomePage.AfterRender and AddStoryPage.AddStoryPage.Submit replay the same sequences on their own fields, and no lemma ties a page's view calls to the presenter's recorded sequence.
- Unicode: strings are sequences of code points, with no normalisation or case folding. `length` counts UTF-16 code units through `JsString.Utf16Length`.
