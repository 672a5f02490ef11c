/**
 * The avatar component: how a stored avatar value becomes an image
 * address, when the placeholder icon is shown instead, and the `error` and
 * `loading` flags driven by the image's load events. The backend's base
 * address is a configuration value the model takes as a parameter.
 */
module ProfileImage {
  import opened Nullable
  import opened JsString

  const AvatarPath := "/images/avatar/"

  /** A source value JavaScript treats as false: null or the empty string. */
  predicate Falsy(source: Option<string>) {
    source == None || source == Some("")
  }

  /**
   * getImageSource: no address for a falsy input; an input starting with
   * "http" is already an address; anything else is a file name under the
   * backend's avatar folder.
   */
  function ImageSource(baseUrl: string, imageUrl: Option<string>): (uri: Option<string>)
    ensures uri.None? <==> Falsy(imageUrl)
    ensures uri.Some? && StartsWith(imageUrl.value, "http") ==> uri.value == imageUrl.value
    ensures uri.Some? && !StartsWith(imageUrl.value, "http") ==> uri.value == baseUrl + AvatarPath + imageUrl.value
  {
    if Falsy(imageUrl) then None
    else if StartsWith(imageUrl.value, "http") then Some(imageUrl.value)
    else Some(baseUrl + AvatarPath + imageUrl.value)
  }

  /** Every address produced ends with the input it was made from. */
  lemma SourceEndsWithInput(baseUrl: string, imageUrl: Option<string>)
    requires ImageSource(baseUrl, imageUrl).Some?
    ensures EndsWith(ImageSource(baseUrl, imageUrl).value, imageUrl.value)
  {
  }

  /** A bare file name that happens to begin with "http" is taken for a full address. */
  lemma HttpPrefixedFileNameIsKept(baseUrl: string)
    ensures ImageSource(baseUrl, Some("httpx.png")) == Some("httpx.png")
  {
  }

  /** The placeholder is shown exactly when the source is falsy or loading failed. */
  function ShowsPlaceholder(source: Option<string>, error: bool): (placeholder: bool)
    ensures placeholder <==> source == None || source == Some("") || error
  {
    Falsy(source) || error
  }

  /** Whenever the image is rendered instead of the placeholder, it has an address. */
  lemma RenderedImageHasSource(baseUrl: string, source: Option<string>, error: bool)
    requires !ShowsPlaceholder(source, error)
    ensures ImageSource(baseUrl, source).Some?
  {
  }

  // ------------------------------------------------------------ load events

  datatype ImageEvent = LoadStart | LoadEnd | LoadError

  datatype Flags = Flags(error: bool, loading: bool)

  /** The flags after one event: start and end toggle loading; an error sets error and ends loading. */
  function Step(f: Flags, e: ImageEvent): Flags {
    match e
    case LoadStart => f.(loading := true)
    case LoadEnd => f.(loading := false)
    case LoadError => Flags(true, false)
  }

  /** The flags after a run of events. */
  function Run(f: Flags, events: seq<ImageEvent>): Flags
    decreases |events|
  {
    if |events| == 0 then f else Run(Step(f, events[0]), events[1..])
  }

  /** No event clears `error`: once set, it stays set, and so does the placeholder. */
  lemma {:induction false} ErrorIsSticky(f: Flags, events: seq<ImageEvent>, source: Option<string>)
    requires f.error
    ensures Run(f, events).error
    ensures ShowsPlaceholder(source, Run(f, events).error)
    decreases |events|
  {
    if |events| > 0 {
      ErrorIsSticky(Step(f, events[0]), events[1..], source);
    }
  }

  /** `error` is set after a run exactly when it was set before or the run holds an error event. */
  lemma {:induction false} ErrorAfterRun(f: Flags, events: seq<ImageEvent>)
    ensures Run(f, events).error <==> f.error || LoadError in events
    decreases |events|
  {
    if |events| > 0 {
      ErrorAfterRun(Step(f, events[0]), events[1..]);
      assert events == [events[0]] + events[1..];
    }
  }

  /** After any non-empty run, loading is on exactly when the last event was a load start. */
  lemma {:induction false} LoadingFollowsLastEvent(f: Flags, events: seq<ImageEvent>)
    requires |events| > 0
    ensures Run(f, events).loading <==> events[|events| - 1] == LoadStart
    decreases |events|
  {
    if |events| > 1 {
      LoadingFollowsLastEvent(Step(f, events[0]), events[1..]);
    }
  }

  class Avatar {
    const source: Option<string>
    var error: bool
    var loading: bool

    constructor (source: Option<string>)
      ensures this.source == source && !error && loading
    {
      this.source := source;
      error := false;
      loading := true;
    }

    method OnLoadStart()
      modifies this`loading
      ensures Flags(error, loading) == Step(old(Flags(error, loading)), LoadStart)
    {
      loading := true;
    }

    method OnLoadEnd()
      modifies this`loading
      ensures Flags(error, loading) == Step(old(Flags(error, loading)), LoadEnd)
    {
      loading := false;
    }

    method OnError()
      modifies this`error, this`loading
      ensures Flags(error, loading) == Step(old(Flags(error, loading)), LoadError)
      ensures error && !loading && ShowsPlaceholder(source, error)
    {
      error := true;
      loading := false;
    }
  }
}
