/** `GuestStoriesPage`: posting a story without an account. A map click (or dragging the
    marker) picks the place, the camera can fill the photo input, and the submit handler
    checks the form, uploads it against a 30-second timer and, on success, resets the form
    and reloads the recent stories. */
module GuestStoriesPage {
  import opened Wrappers
  import opened JsString
  import opened Entities
  import opened Browser
  import opened Dom
  import opened StoryModel
  import opened Forms

  const RequestTimedOut := "Request timed out"
  const UploadTimedOut := "Upload timed out." + " Please try again with a smaller photo."
  const StoryShared := "Story shared successfully! Thank you for contributing."
  const StartLabel := "Start Camera"
  const StopLabel := "Stop Camera"

  /** The content of the `story-list` element. */
  datatype StoryListView =
    | Blank
      /** The invitation to sign in shown to a visitor without a token. */
    | GuestInfo
    | NoStories
    | Cards(stories: seq<Story>)
    | LoadError(text: string)

  /** The message shown when the upload fails with error message `m`. */
  function FailureMessage(m: string): (r: string)
    ensures m == RequestTimedOut ==> r == UploadTimedOut
    ensures m != RequestTimedOut ==> r == "Failed to share story: " + m
  {
    if m == RequestTimedOut then UploadTimedOut else "Failed to share story: " + m
  }

  /** The timeout text is shown exactly for the timer's error: every other failure keeps
      its message behind the "Failed to share story: " prefix. */
  lemma FailureMessageIffTimeout(m: string)
    ensures FailureMessage(m) == UploadTimedOut <==> m == RequestTimedOut
  {
    if m != RequestTimedOut {
      var prefix := "Failed to share story: ";
      assert FailureMessage(m) == prefix + m;
      assert (prefix + m)[0] == prefix[0] == 'F';
    }
  }

  /** The file a capture puts in the photo input. */
  function CapturedPhoto(blobSize: nat): Photo
  {
    Photo("captured-photo.png", blobSize, "image/png")
  }

  class GuestStoriesPage {
    const window: Window
    var latitude: Option<real>
    var longitude: Option<real>
    /** The map marker's position, or `null` when there is no marker. */
    var marker: Option<LatLng>
    /** Whether a camera stream is held (`this.stream !== null`). */
    var streaming: bool
    /** Whether the camera container shows the live video. */
    var videoShown: bool
    var captureDisabled: bool
    /** The start button's text. */
    var startLabel: string
    var descriptionInput: string
    var photoInput: Option<Photo>
    /** The `#message` element. */
    var message: Message
    /** The submit button with its text and loader spans. */
    var button: LoaderButton
    var loadingText: string
    var storyList: StoryListView

    /** The selected place: latitude, longitude and marker are set and cleared together,
        and the marker stands on the selected point. */
    predicate Valid()
      reads this
    {
      && (latitude.Some? <==> marker.Some?)
      && (longitude.Some? <==> marker.Some?)
      && (marker.Some? ==> marker.value == LatLng(latitude.value, longitude.value))
    }

    constructor (window: Window)
      ensures Valid() && this.window == window
      ensures latitude == None && longitude == None && marker == None
      ensures !streaming && !videoShown && captureDisabled && startLabel == StartLabel
      ensures descriptionInput == "" && photoInput == None
      ensures message == Message("", "") && button == LoaderButtonFor(false)
      ensures loadingText == "" && storyList == Blank
    {
      this.window := window;
      latitude := None;
      longitude := None;
      marker := None;
      streaming := false;
      videoShown := false;
      captureDisabled := true;
      startLabel := StartLabel;
      descriptionInput := "";
      photoInput := None;
      message := Message("", "");
      button := LoaderButtonFor(false);
      loadingText := "";
      storyList := Blank;
    }

    /** The map's click handler: selects the clicked point; the first click creates the
        marker (`created`), later clicks move it. */
    method MapClick(p: LatLng) returns (created: bool)
      requires Valid()
      modifies this
      ensures Valid()
      ensures latitude == Some(p.lat) && longitude == Some(p.lng) && marker == Some(p)
      ensures created <==> old(marker).None?
      ensures streaming == old(streaming) && videoShown == old(videoShown)
      ensures captureDisabled == old(captureDisabled) && startLabel == old(startLabel)
      ensures descriptionInput == old(descriptionInput) && photoInput == old(photoInput)
      ensures message == old(message) && button == old(button)
      ensures loadingText == old(loadingText) && storyList == old(storyList)
    {
      latitude := Some(p.lat);
      longitude := Some(p.lng);
      created := marker.None?;
      marker := Some(p);
    }

    /** The marker's `dragend` handler (there is a marker to drag): the place follows it. */
    method MarkerDragged(p: LatLng)
      requires Valid() && marker.Some?
      modifies this
      ensures Valid()
      ensures latitude == Some(p.lat) && longitude == Some(p.lng) && marker == Some(p)
      ensures streaming == old(streaming) && videoShown == old(videoShown)
      ensures captureDisabled == old(captureDisabled) && startLabel == old(startLabel)
      ensures descriptionInput == old(descriptionInput) && photoInput == old(photoInput)
      ensures message == old(message) && button == old(button)
      ensures loadingText == old(loadingText) && storyList == old(storyList)
    {
      marker := Some(p);
      latitude := Some(p.lat);
      longitude := Some(p.lng);
    }

    /** `_stopCamera()`: the stream is released, the capture button disabled. */
    method StopCamera()
      modifies this
      ensures !streaming && !videoShown && captureDisabled && startLabel == StartLabel
      ensures latitude == old(latitude) && longitude == old(longitude) && marker == old(marker)
      ensures descriptionInput == old(descriptionInput) && photoInput == old(photoInput)
      ensures message == old(message) && button == old(button)
      ensures loadingText == old(loadingText) && storyList == old(storyList)
    {
      if streaming {
        streaming := false;
      }
      videoShown := false;
      captureDisabled := true;
      startLabel := StartLabel;
    }

    /** The start button's handler; `granted` is whether `getUserMedia` gave a stream. A
        refusal replaces the camera container's content with the error paragraph, which
        removes any video an earlier grant put there; a stream already held stays held,
        and the capture button and the start label keep their state. */
    method StartCamera(granted: bool)
      modifies this
      ensures granted ==> streaming && videoShown && !captureDisabled && startLabel == StopLabel
      ensures !granted ==>
        && streaming == old(streaming) && !videoShown
        && captureDisabled == old(captureDisabled) && startLabel == old(startLabel)
      ensures latitude == old(latitude) && longitude == old(longitude) && marker == old(marker)
      ensures descriptionInput == old(descriptionInput) && photoInput == old(photoInput)
      ensures message == old(message) && button == old(button)
      ensures loadingText == old(loadingText) && storyList == old(storyList)
    {
      if granted {
        streaming := true;
        videoShown := true;
        captureDisabled := false;
        startLabel := StopLabel;
      } else {
        videoShown := false;
      }
    }

    /** The capture button's handler; `blob` is what `toBlob` hands its callback (`null`
        when the capture failed). A missing blob or one over 1 MiB makes the callback throw,
        which nothing catches: the photo input and the camera stay as they were. Otherwise
        the PNG fills the photo input and the camera stops. */
    method Capture(blob: Option<nat>)
      modifies this
      ensures old(videoShown) && blob.Some? && blob.value <= MaxPhotoSize ==>
        && photoInput == Some(CapturedPhoto(blob.value))
        && !streaming && !videoShown && captureDisabled && startLabel == StartLabel
      ensures !(old(videoShown) && blob.Some? && blob.value <= MaxPhotoSize) ==>
        && photoInput == old(photoInput) && streaming == old(streaming) && videoShown == old(videoShown)
        && captureDisabled == old(captureDisabled) && startLabel == old(startLabel)
      ensures latitude == old(latitude) && longitude == old(longitude) && marker == old(marker)
      ensures descriptionInput == old(descriptionInput) && message == old(message)
      ensures button == old(button) && loadingText == old(loadingText) && storyList == old(storyList)
    {
      if !videoShown || blob.None? || blob.value > MaxPhotoSize {
        return;
      }
      photoInput := Some(CapturedPhoto(blob.value));
      StopCamera();
    }

    /** The submit handler. `timedOut` says whether the 30-second timer wins the race with
        the upload, `upload` is the upload's reply and `reload` the reply to the reload of
        the recent stories. Returns the upload request and the reload request, if sent. */
    method Submit(timedOut: bool, upload: Reply, reload: Reply)
      returns (request: Option<Request>, reloadRequest: Option<Request>)
      requires Valid()
      modifies this
      ensures Valid()
      ensures GuestStoryCheck(old(descriptionInput), old(photoInput)).Reject? ==>
        && request == None && reloadRequest == None
        && message == ShownMessage(GuestStoryCheck(old(descriptionInput), old(photoInput)).message, "error")
        && button == old(button)
        && latitude == old(latitude) && longitude == old(longitude) && marker == old(marker)
        && descriptionInput == old(descriptionInput) && photoInput == old(photoInput)
        && streaming == old(streaming) && videoShown == old(videoShown)
        && captureDisabled == old(captureDisabled) && startLabel == old(startLabel)
        && loadingText == old(loadingText) && storyList == old(storyList)
      ensures GuestStoryCheck(old(descriptionInput), old(photoInput)).Pass? ==>
        && request == Some(AddStoryGuestRequest(Trim(old(descriptionInput)), old(photoInput).value,
                                                old(latitude), old(longitude)))
        && button == LoaderButtonFor(false)
      ensures GuestStoryCheck(old(descriptionInput), old(photoInput)).Pass? && UploadOutcome(timedOut, upload).Success? ==>
        && message == ShownMessage(StoryShared, "success")
        && latitude == None && longitude == None && marker == None
        && descriptionInput == "" && photoInput == None
        && !streaming && !videoShown && captureDisabled && startLabel == StartLabel
        && reloadRequest == RecentStoriesRequest(window.GetItem(TokenKey))
        && storyList == RecentStoriesView(window.GetItem(TokenKey), reload) && loadingText == ""
      ensures GuestStoryCheck(old(descriptionInput), old(photoInput)).Pass? && UploadOutcome(timedOut, upload).Failure? ==>
        && message == ShownMessage(FailureMessage(UploadOutcome(timedOut, upload).error), "error")
        && latitude == old(latitude) && longitude == old(longitude) && marker == old(marker)
        && descriptionInput == old(descriptionInput) && photoInput == old(photoInput)
        && streaming == old(streaming) && videoShown == old(videoShown)
        && captureDisabled == old(captureDisabled) && startLabel == old(startLabel)
        && loadingText == old(loadingText) && storyList == old(storyList)
        && reloadRequest == None
    {
      var check := GuestStoryCheck(descriptionInput, photoInput);
      if check.Reject? {
        ShowMessage(check.message, "error");
        return None, None;
      }
      request, reloadRequest := Share(timedOut, upload, reload);
    }

    /** The submit handler's `try`/`finally` once the form passed its checks: the loading
        state, the upload raced against the timer, then the success path or the failure
        message, and the button restored. */
    method Share(timedOut: bool, upload: Reply, reload: Reply)
      returns (request: Option<Request>, reloadRequest: Option<Request>)
      requires Valid() && GuestStoryCheck(descriptionInput, photoInput).Pass?
      modifies this
      ensures Valid()
      ensures request == Some(AddStoryGuestRequest(Trim(old(descriptionInput)), old(photoInput).value,
                                                   old(latitude), old(longitude)))
      ensures button == LoaderButtonFor(false)
      ensures UploadOutcome(timedOut, upload).Success? ==>
        && message == ShownMessage(StoryShared, "success")
        && latitude == None && longitude == None && marker == None
        && descriptionInput == "" && photoInput == None
        && !streaming && !videoShown && captureDisabled && startLabel == StartLabel
        && reloadRequest == RecentStoriesRequest(window.GetItem(TokenKey))
        && storyList == RecentStoriesView(window.GetItem(TokenKey), reload) && loadingText == ""
      ensures UploadOutcome(timedOut, upload).Failure? ==>
        && message == ShownMessage(FailureMessage(UploadOutcome(timedOut, upload).error), "error")
        && latitude == old(latitude) && longitude == old(longitude) && marker == old(marker)
        && descriptionInput == old(descriptionInput) && photoInput == old(photoInput)
        && streaming == old(streaming) && videoShown == old(videoShown)
        && captureDisabled == old(captureDisabled) && startLabel == old(startLabel)
        && loadingText == old(loadingText) && storyList == old(storyList)
        && reloadRequest == None
    {
      SetLoading(true);
      ShowMessage("", "");
      request := Some(AddStoryGuestRequest(Trim(descriptionInput), photoInput.value, latitude, longitude));
      var outcome := UploadOutcome(timedOut, upload);
      reloadRequest := None;
      if outcome.Success? {
        reloadRequest := AfterUpload(reload);
      } else {
        ShowMessage(FailureMessage(outcome.error), "error");
      }
      SetLoading(false);
    }

    /** What the submit handler does once the upload succeeded: the success message, the
        form reset, the place cleared, the camera stopped and the recent stories reloaded. */
    method AfterUpload(reload: Reply) returns (reloadRequest: Option<Request>)
      modifies this
      ensures Valid()
      ensures message == ShownMessage(StoryShared, "success") && button == old(button)
      ensures latitude == None && longitude == None && marker == None
      ensures descriptionInput == "" && photoInput == None
      ensures !streaming && !videoShown && captureDisabled && startLabel == StartLabel
      ensures reloadRequest == RecentStoriesRequest(window.GetItem(TokenKey))
      ensures storyList == RecentStoriesView(window.GetItem(TokenKey), reload) && loadingText == ""
    {
      ShowMessage(StoryShared, "success");
      descriptionInput := "";
      photoInput := None;
      marker := None;
      latitude := None;
      longitude := None;
      StopCamera();
      reloadRequest := LoadRecentStories(reload);
    }

    /** `_loadRecentStories()`: with no stored token, the guest information and no
        request; with one, `getStories(token, 1, 10, 0)` and the stories, a notice that
        there are none, or the error. The loading text is cleared on every path. */
    method LoadRecentStories(reply: Reply) returns (request: Option<Request>)
      modifies this
      ensures request == RecentStoriesRequest(window.GetItem(TokenKey))
      ensures storyList == RecentStoriesView(window.GetItem(TokenKey), reply)
      ensures loadingText == ""
      ensures latitude == old(latitude) && longitude == old(longitude) && marker == old(marker)
      ensures descriptionInput == old(descriptionInput) && photoInput == old(photoInput)
      ensures message == old(message) && button == old(button)
      ensures streaming == old(streaming) && videoShown == old(videoShown)
      ensures captureDisabled == old(captureDisabled) && startLabel == old(startLabel)
    {
      loadingText := "Loading...";
      var token := window.GetItem(TokenKey);
      request := None;
      if !Truthy(token) {
        storyList := GuestInfo;
      } else {
        request := Some(GetStoriesRequest(token, Some(1), Some(10), Some(0)));
        var outcome := GetStoriesOutcome(reply);
        if outcome.Failure? {
          storyList := LoadError("Failed to load stories: " + outcome.error);
        } else if |outcome.value| == 0 {
          storyList := NoStories;
        } else {
          storyList := Cards(outcome.value);
        }
      }
      loadingText := "";
    }

    /** `_setLoading(isLoading, ...)`. */
    method SetLoading(isLoading: bool)
      modifies this
      ensures button == LoaderButtonFor(isLoading)
      ensures latitude == old(latitude) && longitude == old(longitude) && marker == old(marker)
      ensures descriptionInput == old(descriptionInput) && photoInput == old(photoInput)
      ensures message == old(message) && streaming == old(streaming) && videoShown == old(videoShown)
      ensures captureDisabled == old(captureDisabled) && startLabel == old(startLabel)
      ensures loadingText == old(loadingText) && storyList == old(storyList)
    {
      button := LoaderButtonFor(isLoading);
    }

    /** `_showMessage(text, type)`. */
    method ShowMessage(text: string, kind: string)
      modifies this
      ensures message == ShownMessage(text, kind)
      ensures latitude == old(latitude) && longitude == old(longitude) && marker == old(marker)
      ensures descriptionInput == old(descriptionInput) && photoInput == old(photoInput)
      ensures button == old(button) && streaming == old(streaming) && videoShown == old(videoShown)
      ensures captureDisabled == old(captureDisabled) && startLabel == old(startLabel)
      ensures loadingText == old(loadingText) && storyList == old(storyList)
    {
      message := ShownMessage(text, kind);
    }
  }

  /** The result of racing the upload against the timer: the timer's error if it wins,
      otherwise the outcome of `addStoryGuest`. */
  function UploadOutcome(timedOut: bool, upload: Reply): (r: Result<ResponseBody, string>)
    ensures timedOut ==> r == Failure(RequestTimedOut)
    ensures !timedOut ==> r == AddStoryGuestOutcome(upload)
  {
    if timedOut then Failure(RequestTimedOut) else AddStoryGuestOutcome(upload)
  }

  /** The submit handler's outcome over the race: it succeeds exactly when the timer loses
      and the server answers ok. The timeout text is shown when the timer wins, and also
      when the upload itself fails with the message `Request timed out`, because the
      handler compares messages, not error sources. */
  lemma UploadRace(timedOut: bool, upload: Reply)
    ensures UploadOutcome(timedOut, upload).Success? <==> !timedOut && upload.Responded? && upload.ok
    ensures UploadOutcome(timedOut, upload).Failure? ==>
      (FailureMessage(UploadOutcome(timedOut, upload).error) == UploadTimedOut <==>
        || timedOut
        || (upload.Threw? && upload.message == RequestTimedOut)
        || (upload.Responded? && !upload.ok
            && ErrorMessage(upload.body.message, "Failed to add guest story") == RequestTimedOut))
  {
    var outcome := UploadOutcome(timedOut, upload);
    if outcome.Failure? {
      FailureMessageIffTimeout(outcome.error);
    }
  }

  /** The request `_loadRecentStories` sends for the stored token. */
  function RecentStoriesRequest(token: Option<string>): (q: Option<Request>)
    ensures q.Some? <==> Truthy(token)
    ensures q.Some? ==> q.value == GetStoriesRequest(token, Some(1), Some(10), Some(0))
  {
    if Truthy(token) then Some(GetStoriesRequest(token, Some(1), Some(10), Some(0))) else None
  }

  /** The story list `_loadRecentStories` leaves for the stored token and the reply. */
  function RecentStoriesView(token: Option<string>, reply: Reply): StoryListView
  {
    if !Truthy(token) then GuestInfo
    else match GetStoriesOutcome(reply)
      case Failure(m) => LoadError("Failed to load stories: " + m)
      case Success(stories) => if |stories| == 0 then NoStories else Cards(stories)
  }

  /** A visitor without a token gets the guest information and no request, whatever the
      reply; with a token, page 1 of 10 stories without location filter is requested with
      the Bearer header, and an empty list gives the "no stories" notice. */
  lemma RecentStoriesCases(token: Option<string>, reply: Reply)
    ensures !Truthy(token) ==> RecentStoriesView(token, reply) == GuestInfo && RecentStoriesRequest(token).None?
    ensures Truthy(token) ==>
      var q := RecentStoriesRequest(token).value;
      && q.query == [("page", 1), ("size", 10), ("location", 0)]
      && HasAuthorization(q) && q.headers[AuthorizationHeader] == "Bearer " + token.value
    ensures Truthy(token) && reply.Responded? && reply.ok ==>
      (RecentStoriesView(token, reply) == NoStories <==> reply.body.listStory == [])
    ensures Truthy(token) && !(reply.Responded? && reply.ok) ==> RecentStoriesView(token, reply).LoadError?
  {
  }
}
