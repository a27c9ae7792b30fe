/** The pure helpers of frontend/src/utils/spotifyHelpers.js. JavaScript's falsy
    values are modelled as they matter here: a missing object is `None`, and a
    missing or empty string is "". */
module SpotifyHelpers {
  import opened Wrappers
  import Numbers

  // ---------------------------------------------------------------------------
  // getBestImage

  /** One entry of a provider object's `images` array. */
  datatype Image = Image(url: string, width: int)

  /** An album, artist or playlist object; only its `images` field matters here. */
  datatype Artwork = Artwork(images: Option<seq<Image>>)

  const DefaultCover := "/assets/default-cover.png"

  /** Widest first. */
  predicate WidestFirst(s: seq<Image>) {
    forall i, j :: 0 <= i < j < |s| ==> s[i].width >= s[j].width
  }

  /** Places `x` into a widest-first list after every entry at least as wide. */
  function InsertByWidth(s: seq<Image>, x: Image): (r: seq<Image>)
    ensures |r| == |s| + 1
  {
    if s == [] then [x]
    else if s[0].width >= x.width then [s[0]] + InsertByWidth(s[1..], x)
    else [x] + s
  }

  lemma {:induction false} InsertKeepsEntries(s: seq<Image>, x: Image)
    ensures multiset(InsertByWidth(s, x)) == multiset(s) + multiset{x}
  {
    if s != [] && s[0].width >= x.width {
      InsertKeepsEntries(s[1..], x);
      assert s == [s[0]] + s[1..];
    }
  }

  lemma {:induction false} InsertKeepsOrder(s: seq<Image>, x: Image)
    requires WidestFirst(s)
    ensures WidestFirst(InsertByWidth(s, x))
  {
    if s != [] && s[0].width >= x.width {
      var rest := InsertByWidth(s[1..], x);
      InsertKeepsOrder(s[1..], x);
      InsertKeepsEntries(s[1..], x);
      forall k | 0 <= k < |rest|
        ensures rest[k].width <= s[0].width
      {
        assert rest[k] in multiset(rest);
        if rest[k] != x {
          assert rest[k] in multiset(s[1..]);
          var j :| 0 <= j < |s[1..]| && s[1..][j] == rest[k];
          assert s[j + 1] == rest[k];
        }
      }
    }
  }

  /** `[...images].sort((a, b) => b.width - a.width)`: a stable sort of a copy,
      widest first. */
  function SortByWidth(s: seq<Image>): (r: seq<Image>)
    ensures |r| == |s|
  {
    if s == [] then []
    else InsertByWidth(SortByWidth(s[..|s| - 1]), s[|s| - 1])
  }

  /** The sorted copy holds the same images, widest first. */
  lemma {:induction false} SortByWidthCorrect(s: seq<Image>)
    ensures multiset(SortByWidth(s)) == multiset(s)
    ensures WidestFirst(SortByWidth(s))
  {
    if s != [] {
      var init := s[..|s| - 1];
      SortByWidthCorrect(init);
      InsertKeepsEntries(SortByWidth(init), s[|s| - 1]);
      InsertKeepsOrder(SortByWidth(init), s[|s| - 1]);
      assert s == init + [s[|s| - 1]];
    }
  }

  /** `x?.url || y?.url` for two entries that exist. */
  function UrlOr(x: Image, y: Image): string {
    if x.url != "" then x.url else y.url
  }

  /** Some image was there to choose from. */
  predicate HasImages(item: Option<Artwork>) {
    item.Some? && item.value.images.Some? && item.value.images.value != []
  }

  /** `getBestImage(item, size)`. `size` is None when the argument is omitted,
      which selects 'medium'. */
  function GetBestImage(item: Option<Artwork>, size: Option<string>): (r: string)
    ensures !HasImages(item) ==> r == DefaultCover
    ensures HasImages(item) ==>
              var sorted := SortByWidth(item.value.images.value);
              var n := |sorted|;
              // 'small' is the narrowest, 'large' the widest, anything else the middle
              && (size == Some("small") ==> r == UrlOr(sorted[n - 1], sorted[0]))
              && (size == Some("large") ==> r == sorted[0].url)
              && (size != Some("small") && size != Some("large") ==> r == UrlOr(sorted[n / 2], sorted[0]))
  {
    if !HasImages(item) then DefaultCover
    else
      var sorted := SortByWidth(item.value.images.value);
      var n := |sorted|;
      if size == Some("small") then UrlOr(sorted[n - 1], sorted[0])
      else if size == Some("large") then sorted[0].url
      else UrlOr(sorted[n / 2], sorted[0])
  }

  /** Whatever the size, the chosen url is that of one of the item's images. */
  lemma BestImageIsOneOfTheImages(item: Option<Artwork>, size: Option<string>)
    requires HasImages(item)
    ensures exists i :: 0 <= i < |item.value.images.value| && item.value.images.value[i].url == GetBestImage(item, size)
  {
    var images := item.value.images.value;
    var sorted := SortByWidth(images);
    SortByWidthCorrect(images);
    var r := GetBestImage(item, size);
    var k :| 0 <= k < |sorted| && sorted[k].url == r;
    assert sorted[k] in multiset(images);
    var i :| 0 <= i < |images| && images[i] == sorted[k];
  }

  /** 'large' picks one of the widest images. */
  lemma LargeIsWidest(item: Option<Artwork>)
    requires HasImages(item)
    ensures var images := item.value.images.value;
            exists i :: 0 <= i < |images| && images[i].url == GetBestImage(item, Some("large")) &&
              forall j :: 0 <= j < |images| ==> images[j].width <= images[i].width
  {
    var images := item.value.images.value;
    var sorted := SortByWidth(images);
    SortByWidthCorrect(images);
    assert sorted[0] in multiset(images);
    var i :| 0 <= i < |images| && images[i] == sorted[0];
    forall j | 0 <= j < |images|
      ensures images[j].width <= images[i].width
    {
      assert images[j] in multiset(sorted);
      var k :| 0 <= k < |sorted| && sorted[k] == images[j];
    }
  }

  /** 'small' picks one of the narrowest images, unless that one has no url. */
  lemma SmallIsNarrowest(item: Option<Artwork>)
    requires HasImages(item)
    requires SortByWidth(item.value.images.value)[|item.value.images.value| - 1].url != ""
    ensures var images := item.value.images.value;
            exists i :: 0 <= i < |images| && images[i].url == GetBestImage(item, Some("small")) &&
              forall j :: 0 <= j < |images| ==> images[j].width >= images[i].width
  {
    var images := item.value.images.value;
    var sorted := SortByWidth(images);
    var n := |sorted|;
    SortByWidthCorrect(images);
    assert sorted[n - 1] in multiset(images);
    var i :| 0 <= i < |images| && images[i] == sorted[n - 1];
    forall j | 0 <= j < |images|
      ensures images[j].width >= images[i].width
    {
      assert images[j] in multiset(sorted);
      var k :| 0 <= k < |sorted| && sorted[k] == images[j];
    }
  }

  // ---------------------------------------------------------------------------
  // Spotify URIs

  /** The last element of `s.split(':')`: the text after the last ':', or all of
      `s` when it has none. */
  function LastSegment(s: string): (r: string)
    ensures ':' !in r
    ensures |r| <= |s| && r == s[|s| - |r|..]
    ensures |r| < |s| ==> s[|s| - |r| - 1] == ':'
  {
    if s == [] || s[|s| - 1] == ':' then []
    else LastSegment(s[..|s| - 1]) + [s[|s| - 1]]
  }

  /** `extractIdFromUri(uri)`; an absent uri is "". */
  function ExtractIdFromUri(uri: string): (id: string)
    ensures uri == "" ==> id == ""
    // the id is the colon-free tail of the uri, cut at a ':'
    ensures ':' !in id && |id| <= |uri| && id == uri[|uri| - |id|..]
    ensures |id| < |uri| ==> uri[|uri| - |id| - 1] == ':'
  {
    if uri == "" then "" else LastSegment(uri)
  }

  /** `createSpotifyUri(id, type)`; `kind` is None when the type is omitted, which
      selects 'track'. */
  function CreateSpotifyUri(id: string, kind: Option<string>): (uri: string)
    ensures id == "" <==> uri == ""
    ensures id != "" ==> |uri| > 8 && uri[..8] == "spotify:"
    // after the prefix: the type (by default 'track'), one ':', and the id at the end
    ensures id != "" ==>
              var t := if kind.Some? then kind.value else "track";
              && |uri| == 8 + |t| + 1 + |id|
              && uri[8..8 + |t|] == t
              && uri[8 + |t|] == ':'
              && uri[|uri| - |id|..] == id
  {
    if id == "" then ""
    else "spotify:" + (if kind.Some? then kind.value else "track") + ":" + id
  }

  lemma {:induction false} LastSegmentAfterColon(prefix: string, id: string)
    requires ':' !in id
    ensures LastSegment(prefix + ":" + id) == id
  {
    var s := prefix + ":" + id;
    if id != [] {
      assert s[..|s| - 1] == prefix + ":" + id[..|id| - 1];
      LastSegmentAfterColon(prefix, id[..|id| - 1]);
      assert id == id[..|id| - 1] + [id[|id| - 1]];
    }
  }

  /** Round trip: the id a uri was built from is the id read back from it, for any
      non-empty id without ':' and any type. */
  lemma UriRoundTrip(id: string, kind: Option<string>)
    requires id != "" && ':' !in id
    ensures ExtractIdFromUri(CreateSpotifyUri(id, kind)) == id
  {
    LastSegmentAfterColon("spotify:" + (if kind.Some? then kind.value else "track"), id);
  }

  /** The track object of `currentTrack`; only its uri matters here. */
  datatype Track = Track(uri: string)

  /** `isTrackPlaying(currentTrack, trackId)`. */
  function IsTrackPlaying(currentTrack: Option<Track>, trackId: string): (playing: bool)
    ensures currentTrack.None? || trackId == "" ==> !playing
    ensures currentTrack.Some? && trackId != "" ==>
              (playing <==> ExtractIdFromUri(currentTrack.value.uri) == trackId)
    // an id with a ':' in it is never reported as playing
    ensures ':' in trackId ==> !playing
  {
    currentTrack.Some? && trackId != "" && ExtractIdFromUri(currentTrack.value.uri) == trackId
  }

  /** A track built from an id is recognised as playing by that id, and by no
      other id. */
  lemma PlayingByOwnId(id: string, other: string)
    requires id != "" && ':' !in id
    ensures IsTrackPlaying(Some(Track(CreateSpotifyUri(id, Some("track")))), id)
    ensures IsTrackPlaying(Some(Track(CreateSpotifyUri(id, Some("track")))), other) ==> other == id
  {
    UriRoundTrip(id, Some("track"));
  }

  // ---------------------------------------------------------------------------
  // getSpotifyErrorMessage

  /** `error.response.data.error` as the provider sends it. */
  datatype ProviderError = ProviderError(message: string, status: Option<int>)

  /** A thrown error: `providerError` is present when `error.response`,
      `error.response.data` and `data.error` all are. */
  datatype ErrorInfo = ErrorInfo(providerError: Option<ProviderError>, message: string)

  const UnknownError := "An unknown error occurred"
  const AuthError := "Authentication error. Please log in again."
  const PermissionError := "You don't have permission to perform this action."
  const RateLimitError := "Rate limit exceeded. Please try again later."
  const GenericError := "An error occurred while communicating with Spotify"

  /** The fixed text for a provider status, if it has one. */
  function StatusText(status: Option<int>): Option<string> {
    if status == Some(401) then Some(AuthError)
    else if status == Some(403) then Some(PermissionError)
    else if status == Some(429) then Some(RateLimitError)
    else None
  }

  /** `getSpotifyErrorMessage(error)`: the provider's message, else the fixed text
      for its status, else the error's own message, else a generic text. */
  function GetSpotifyErrorMessage(error: Option<ErrorInfo>): (msg: string)
    ensures msg != ""
    ensures error.None? ==> msg == UnknownError
    ensures error.Some? && error.value.providerError.Some? && error.value.providerError.value.message != "" ==>
              msg == error.value.providerError.value.message
    ensures error.Some? && error.value.providerError.Some? && error.value.providerError.value.message == "" &&
            StatusText(error.value.providerError.value.status).Some? ==>
              msg == StatusText(error.value.providerError.value.status).value
    ensures error.Some? &&
            (error.value.providerError.None? ||
             (error.value.providerError.value.message == "" && StatusText(error.value.providerError.value.status).None?)) ==>
              msg == if error.value.message != "" then error.value.message else GenericError
  {
    if error.None? then UnknownError
    else
      var e := error.value;
      if e.providerError.Some? && e.providerError.value.message != "" then e.providerError.value.message
      else if e.providerError.Some? && StatusText(e.providerError.value.status).Some? then
        StatusText(e.providerError.value.status).value
      else if e.message != "" then e.message
      else GenericError
  }

  // ---------------------------------------------------------------------------
  // Small display helpers

  /** `formatExplicitContent(isExplicit)`. */
  function FormatExplicitContent(isExplicit: bool): (mark: string)
    ensures |mark| <= 1
    ensures mark == "E" <==> isExplicit
  {
    if isExplicit then "E" else ""
  }

  /** `getIconForType(type)`: each known type has its own icon; tracks and
      anything unknown share the note. */
  function GetIconForType(kind: string): (icon: string)
    ensures icon in {"music-note", "album", "person", "list"}
    ensures icon == "album" <==> kind == "album"
    ensures icon == "person" <==> kind == "artist"
    ensures icon == "list" <==> kind == "playlist"
  {
    match kind
    case "track" => "music-note"
    case "album" => "album"
    case "artist" => "person"
    case "playlist" => "list"
    case _ => "music-note"
  }

  // ---------------------------------------------------------------------------
  // calculateRateLimitRemaining

  const AddNow := "You can add songs now"
  const AddIn := "You can add another song in "

  /** `calculateRateLimitRemaining(rateLimit)`; `resetTime` is None when the rate
      limit or its reset time is absent, and a reset time of 0 is falsy too. */
  function CalculateRateLimitRemaining(resetTime: Option<int>, now: int): (text: string)
    ensures resetTime.None? || resetTime == Some(0) ==> text == ""
    ensures resetTime.Some? && resetTime.value != 0 && resetTime.value <= now ==> text == AddNow
    ensures resetTime.Some? && resetTime.value != 0 && resetTime.value > now ==>
              var minutes := Numbers.CeilDiv(resetTime.value - now, 60000);
              && minutes >= 1
              && (minutes - 1) * 60000 < resetTime.value - now <= minutes * 60000
              && text == AddIn + Numbers.NatToString(minutes) + (if minutes == 1 then " minute" else " minutes")
  {
    if resetTime.None? || resetTime.value == 0 then ""
    else
      var timeRemaining := resetTime.value - now;
      if timeRemaining <= 0 then AddNow
      else
        var minutes := Numbers.CeilDiv(timeRemaining, 60000);
        AddIn + Numbers.IntToString(minutes) + " minute" + (if minutes != 1 then "s" else "")
  }
}
