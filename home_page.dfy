/** `HomePage`: the story list of a signed-in user and the map of the stories that have a
    place. The page is the view of a `StoryPresenter`; its `afterRender` runs the
    presenter's `loadStories` sequence on the page's own view methods. The sequence is
    replayed here on the page's fields; it is the one `Presenters.LoadStoriesCalls`
    records, and no lemma relates the two. */
module HomePage {
  import opened Wrappers
  import opened JsString
  import opened Entities
  import opened Browser
  import opened StoryModel

  const LoginPrompt := "Please login to view stories."
  const LoadingStories := "Loading stories..."

  /** One `article` of the list: the story fields its markup shows. */
  datatype Article = Article(photoUrl: string, name: string, description: string, createdAt: string)

  /** A Leaflet marker with the popup of its story. */
  datatype Marker = Marker(position: LatLng, name: string, description: string, photoUrl: string)

  /** The content of the `story-list` element: articles, or a line of text. */
  datatype StoryList = Articles(items: seq<Article>) | Notice(text: string)

  function ArticleOf(s: Story): Article
  {
    Article(s.photoUrl, s.name, s.description, s.createdAt)
  }

  /** One article per story, in the order of the stories. */
  function ArticlesOf(stories: seq<Story>): (items: seq<Article>)
    ensures |items| == |stories|
    ensures forall i :: 0 <= i < |stories| ==> items[i] == ArticleOf(stories[i])
  {
    if stories == [] then [] else [ArticleOf(stories[0])] + ArticlesOf(stories[1..])
  }

  /** Whether `story.lat && story.lon` holds. */
  predicate HasPlace(s: Story) {
    TruthyCoord(s.lat) && TruthyCoord(s.lon)
  }

  function MarkerOf(s: Story): Marker
    requires HasPlace(s)
  {
    Marker(LatLng(s.lat.value, s.lon.value), s.name, s.description, s.photoUrl)
  }

  /** The markers `_renderMap` places: one per story whose two coordinates are truthy, in
      the order of the stories. */
  function Markers(stories: seq<Story>): (ms: seq<Marker>)
    ensures |ms| <= |stories|
    ensures forall m :: m in ms ==> m.position.lat != 0.0 && m.position.lng != 0.0
  {
    if stories == [] then []
    else (if HasPlace(stories[0]) then [MarkerOf(stories[0])] else []) + Markers(stories[1..])
  }

  /** Markers are placed story by story: those of a concatenation are the markers of each
      part, in order. */
  lemma {:induction false} MarkersAppend(a: seq<Story>, b: seq<Story>)
    ensures Markers(a + b) == Markers(a) + Markers(b)
  {
    if a != [] {
      assert (a + b)[0] == a[0] && (a + b)[1..] == a[1..] + b;
      MarkersAppend(a[1..], b);
      var head := if HasPlace(a[0]) then [MarkerOf(a[0])] else [];
      assert Markers(a + b) == head + (Markers(a[1..]) + Markers(b));
      assert head + (Markers(a[1..]) + Markers(b)) == (head + Markers(a[1..])) + Markers(b);
    } else {
      assert a + b == b;
    }
  }

  /** A story gets a marker exactly when both its coordinates are truthy: a coordinate of
      0 (or a missing one) places none. */
  lemma {:induction false} MarkerIffPlace(stories: seq<Story>, i: nat)
    requires i < |stories|
    ensures HasPlace(stories[i]) ==> MarkerOf(stories[i]) in Markers(stories)
    ensures Markers(stories) == Markers(stories[..i]) + Markers([stories[i]]) + Markers(stories[i + 1..])
    ensures !HasPlace(stories[i]) ==> Markers([stories[i]]) == []
  {
    assert stories == stories[..i] + [stories[i]] + stories[i + 1..];
    MarkersAppend(stories[..i] + [stories[i]], stories[i + 1..]);
    MarkersAppend(stories[..i], [stories[i]]);
    assert Markers([stories[i]]) == (if HasPlace(stories[i]) then [MarkerOf(stories[i])] else []) + Markers([]);
  }

  class HomePage {
    /** `localStorage.getItem("token") || null`, read when the page is built. */
    const token: Option<string>
    var loadingText: string
    var list: StoryList
    var markers: seq<Marker>

    constructor (window: Window)
      ensures token == OrNull(window.GetItem(TokenKey))
      ensures loadingText == "" && list == Articles([]) && markers == []
    {
      token := OrNull(window.GetItem(TokenKey));
      loadingText := "";
      list := Articles([]);
      markers := [];
    }

    /** `afterRender()`: without a token, the login prompt and no request; with one, the
        `loadStories(token, 1, 20, 1)` sequence. Returns the request sent, if any. */
    method AfterRender(reply: Reply) returns (request: Option<Request>)
      modifies this
      ensures !Truthy(token) ==>
        && request == None && list == Notice(LoginPrompt)
        && loadingText == old(loadingText) && markers == old(markers)
      ensures Truthy(token) ==> request == Some(GetStoriesRequest(token, Some(1), Some(20), Some(1)))
      ensures Truthy(token) && GetStoriesOutcome(reply).Success? ==>
        var stories := GetStoriesOutcome(reply).value;
        && loadingText == LoadingStories
        && list == Articles(ArticlesOf(stories)) && markers == Markers(stories)
      ensures Truthy(token) && GetStoriesOutcome(reply).Failure? ==>
        && loadingText == "" && list == Notice("Error: " + GetStoriesOutcome(reply).error)
        && markers == old(markers)
    {
      if !Truthy(token) {
        list := Notice(LoginPrompt);
        return None;
      }
      ShowLoading();
      request := Some(GetStoriesRequest(token, Some(1), Some(20), Some(1)));
      var outcome := GetStoriesOutcome(reply);
      if outcome.Success? {
        RenderStories(outcome.value);
      } else {
        RenderError(outcome.error);
      }
    }

    /** `showLoading()`. */
    method ShowLoading()
      modifies this
      ensures loadingText == LoadingStories && list == old(list) && markers == old(markers)
    {
      loadingText := LoadingStories;
    }

    /** `renderStories(stories)`: clears the list, appends one article per story, then
        places the markers. */
    method RenderStories(stories: seq<Story>)
      modifies this
      ensures list == Articles(ArticlesOf(stories)) && markers == Markers(stories)
      ensures loadingText == old(loadingText)
    {
      var items: seq<Article> := [];
      for i := 0 to |stories|
        invariant items == ArticlesOf(stories[..i])
      {
        assert ArticlesOf(stories[..i + 1]) == ArticlesOf(stories[..i]) + [ArticleOf(stories[i])];
        items := items + [ArticleOf(stories[i])];
      }
      assert stories[..|stories|] == stories;
      list := Articles(items);
      RenderMap(stories);
    }

    /** `renderError(message)`: clears the loading text and shows the error in the list. */
    method RenderError(message: string)
      modifies this
      ensures loadingText == "" && list == Notice("Error: " + message) && markers == old(markers)
    {
      loadingText := "";
      list := Notice("Error: " + message);
    }

    /** `_renderMap(stories)`: a fresh map, then a marker for each story with a place. */
    method RenderMap(stories: seq<Story>)
      modifies this
      ensures markers == Markers(stories)
      ensures list == old(list) && loadingText == old(loadingText)
    {
      markers := [];
      for i := 0 to |stories|
        invariant markers == Markers(stories[..i])
        invariant list == old(list) && loadingText == old(loadingText)
      {
        MarkerIffPlace(stories[..i + 1], i);
        assert stories[..i + 1][..i] == stories[..i];
        if HasPlace(stories[i]) {
          markers := markers + [MarkerOf(stories[i])];
        }
      }
      assert stories[..|stories|] == stories;
    }
  }
}
