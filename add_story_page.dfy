/** `AddStoryPage`: the form a signed-in user posts a story with. A map click picks the
    story's place, the camera can fill the photo input, and the submit handler runs the
    `StoryPresenter`'s `addNewStory` sequence with the page as its view. The sequence is
    replayed here on the page's fields; it is the one `Presenters.AddNewStoryCalls`
    records, and no lemma relates the two. */
module AddStoryPage {
  import opened Wrappers
  import opened JsString
  import opened Entities
  import opened Browser
  import opened StoryModel
  import opened Forms

  const LoginRequired := "Please login to add a story."
  const Processing := "Processing..."
  const StoryAdded := "Story added successfully!"

  /** The file a capture puts in the photo input. */
  function CapturedPhoto(blobSize: nat): Photo
  {
    Photo("captured-photo.png", blobSize, "image/png")
  }

  /** The text `innerText` shows for a value that may be `undefined`. */
  function ShownText(v: Option<string>): string
  {
    if v.Some? then v.value else "undefined"
  }

  class AddStoryPage {
    /** `localStorage.getItem('token') || null`, read when the page is built. */
    const token: Option<string>
    var latitude: Option<real>
    var longitude: Option<real>
    /** The map marker's position, or `null` when there is no marker. */
    var marker: Option<LatLng>
    /** Whether a camera stream is held (`this.stream !== null`). */
    var streaming: bool
    /** Whether the camera container shows the live video. */
    var videoShown: bool
    var captureDisabled: bool
    var descriptionInput: string
    var photoInput: Option<Photo>
    /** The `#message` element's text. */
    var message: string

    /** The selected place: latitude, longitude and marker are set and cleared together,
        and the marker stands on the selected point. */
    predicate Valid()
      reads this
    {
      && (latitude.Some? <==> marker.Some?)
      && (longitude.Some? <==> marker.Some?)
      && (marker.Some? ==> marker.value == LatLng(latitude.value, longitude.value))
    }

    constructor (window: Window)
      ensures Valid()
      ensures token == OrNull(window.GetItem(TokenKey))
      ensures latitude == None && longitude == None && marker == None
      ensures !streaming && !videoShown && captureDisabled
      ensures descriptionInput == "" && photoInput == None && message == ""
    {
      token := OrNull(window.GetItem(TokenKey));
      latitude := None;
      longitude := None;
      marker := None;
      streaming := false;
      videoShown := false;
      captureDisabled := true;
      descriptionInput := "";
      photoInput := None;
      message := "";
    }

    /** `afterRender()`: without a token, the login notice and no map, camera or form. */
    method AfterRender() returns (setUp: bool)
      modifies this
      ensures setUp <==> Truthy(token)
      ensures message == (if setUp then old(message) else LoginRequired)
      ensures latitude == old(latitude) && longitude == old(longitude) && marker == old(marker)
      ensures streaming == old(streaming) && videoShown == old(videoShown)
      ensures captureDisabled == old(captureDisabled)
      ensures descriptionInput == old(descriptionInput) && photoInput == old(photoInput)
    {
      if !Truthy(token) {
        message := LoginRequired;
        return false;
      }
      return true;
    }

    /** The map's click handler: selects the clicked point; the first click creates the
        marker (`created`), later clicks move it. */
    method MapClick(p: LatLng) returns (created: bool)
      requires Valid()
      modifies this
      ensures Valid()
      ensures latitude == Some(p.lat) && longitude == Some(p.lng) && marker == Some(p)
      ensures created <==> old(marker).None?
      ensures streaming == old(streaming) && videoShown == old(videoShown)
      ensures captureDisabled == old(captureDisabled)
      ensures descriptionInput == old(descriptionInput) && photoInput == old(photoInput)
      ensures message == old(message)
    {
      latitude := Some(p.lat);
      longitude := Some(p.lng);
      created := marker.None?;
      marker := Some(p);
    }

    /** The start button's handler; `granted` is whether `getUserMedia` gave a stream. A
        refusal writes the error text over the camera container, which removes any video
        an earlier grant put there; a stream already held stays held and the capture
        button keeps its state. */
    method StartCamera(granted: bool)
      modifies this
      ensures granted ==> streaming && videoShown && !captureDisabled
      ensures !granted ==>
        streaming == old(streaming) && !videoShown && captureDisabled == old(captureDisabled)
      ensures latitude == old(latitude) && longitude == old(longitude) && marker == old(marker)
      ensures descriptionInput == old(descriptionInput) && photoInput == old(photoInput)
      ensures message == old(message)
    {
      if granted {
        streaming := true;
        videoShown := true;
        captureDisabled := false;
      } else {
        videoShown := false;
      }
    }

    /** The capture button's handler: with no video shown nothing happens; otherwise the
        captured PNG fills the photo input, the stream is released and the capture button
        is disabled. */
    method Capture(blobSize: nat)
      modifies this
      ensures old(videoShown) ==>
        photoInput == Some(CapturedPhoto(blobSize)) && !streaming && !videoShown && captureDisabled
      ensures !old(videoShown) ==>
        && photoInput == old(photoInput) && streaming == old(streaming) && !videoShown
        && captureDisabled == old(captureDisabled)
      ensures latitude == old(latitude) && longitude == old(longitude) && marker == old(marker)
      ensures descriptionInput == old(descriptionInput) && message == old(message)
    {
      if !videoShown {
        return;
      }
      photoInput := Some(CapturedPhoto(blobSize));
      if streaming {
        streaming := false;
      }
      videoShown := false;
      captureDisabled := true;
    }

    /** The submit handler. The presenter renders a failure and does not rethrow it, so
        once the check passes the page always ends as after a success: the success text,
        the form reset and the place cleared, whatever the server answered. */
    method Submit(reply: Reply) returns (request: Option<Request>)
      requires Valid()
      modifies this
      ensures Valid()
      ensures AddStoryCheck(old(descriptionInput), old(photoInput)).Reject? ==>
        && request == None && message == DescriptionAndPhotoRequired
        && latitude == old(latitude) && longitude == old(longitude) && marker == old(marker)
        && descriptionInput == old(descriptionInput) && photoInput == old(photoInput)
      ensures AddStoryCheck(old(descriptionInput), old(photoInput)).Pass? ==>
        && request == Some(AddStoryRequest(token, old(descriptionInput), old(photoInput).value,
                                           old(latitude), old(longitude)))
        && message == StoryAdded
        && latitude == None && longitude == None && marker == None
        && descriptionInput == "" && photoInput == None
      ensures streaming == old(streaming) && videoShown == old(videoShown)
      ensures captureDisabled == old(captureDisabled)
    {
      if AddStoryCheck(descriptionInput, photoInput).Reject? {
        message := DescriptionAndPhotoRequired;
        return None;
      }
      // The presenter's `addNewStory` sequence.
      ShowLoading();
      request := Some(AddStoryRequest(token, descriptionInput, photoInput.value, latitude, longitude));
      var outcome := AddStoryOutcome(reply);
      if outcome.Success? {
        RenderAddStorySuccess(outcome.value.message);
      } else {
        RenderError(outcome.error);
      }
      // Back in the page: the presenter never throws.
      message := StoryAdded;
      descriptionInput := "";
      photoInput := None;
      marker := None;
      latitude := None;
      longitude := None;
    }

    /** `showLoading()`. */
    method ShowLoading()
      modifies this
      ensures message == Processing
      ensures latitude == old(latitude) && longitude == old(longitude) && marker == old(marker)
      ensures descriptionInput == old(descriptionInput) && photoInput == old(photoInput)
      ensures streaming == old(streaming) && videoShown == old(videoShown)
      ensures captureDisabled == old(captureDisabled)
    {
      message := Processing;
    }

    /** `renderAddStorySuccess(msg)`. */
    method RenderAddStorySuccess(serverMessage: Option<string>)
      modifies this
      ensures message == ShownText(serverMessage)
      ensures latitude == old(latitude) && longitude == old(longitude) && marker == old(marker)
      ensures descriptionInput == old(descriptionInput) && photoInput == old(photoInput)
      ensures streaming == old(streaming) && videoShown == old(videoShown)
      ensures captureDisabled == old(captureDisabled)
    {
      message := ShownText(serverMessage);
    }

    /** `renderError(msg)`. */
    method RenderError(text: string)
      modifies this
      ensures message == text
      ensures latitude == old(latitude) && longitude == old(longitude) && marker == old(marker)
      ensures descriptionInput == old(descriptionInput) && photoInput == old(photoInput)
      ensures streaming == old(streaming) && videoShown == old(videoShown)
      ensures captureDisabled == old(captureDisabled)
    {
      message := text;
    }
  }
}
