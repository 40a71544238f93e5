/** Records shared by the link parsers, the two provider adapters and the server:
    the supported providers, the element data fetched from a provider, and the
    outcome of a provider's HTTP call, all as plain values. */
module Catalog {
  import opened Wrappers

  /** The providers in the order the server's `providers` object lists them. */
  datatype ProviderId = Spotify | Apple
  {
    /** The key under which the provider is registered and reported. */
    function Name(): string
    {
      match this
      case Spotify => "spotify"
      case Apple => "apple"
    }
  }

  const ProviderOrder: seq<ProviderId> := [Spotify, Apple]

  /** The provider registered under `name`, if any. */
  function ProviderNamed(name: string): (r: Option<ProviderId>)
    ensures r.Some? ==> r.value.Name() == name
    ensures r.None? ==> forall p: ProviderId :: p.Name() != name
  {
    if name == "spotify" then Some(Spotify)
    else if name == "apple" then Some(Apple)
    else None
  }

  /** One track of a playlist: its first artist and its name. */
  datatype TrackSummary = TrackSummary(artist: string, title: string)

  /** The element a provider link names, shaped as `getElementData` returns it. */
  datatype ElementData =
    | TrackData(artist: string, title: string)
    | ArtistData(artist: string)
    | AlbumData(album: string)
    | PlaylistData(name: string, tracks: seq<TrackSummary>)

  /** How JavaScript renders an array of plain objects as a string:
      "[object Object]" for each element, joined by commas. */
  function ObjectArrayString(n: nat): (r: string)
    ensures n == 0 ==> r == ""
    ensures n > 0 ==> |r| == 16 * n - 1
  {
    if n == 0 then ""
    else if n == 1 then "[object Object]"
    else "[object Object]," + ObjectArrayString(n - 1)
  }

  /** `Object.values(element)` as the query builders see it: the fields in
      insertion order, each turned into a string. */
  function Values(e: ElementData): (r: seq<string>)
    ensures |r| == (match e case TrackData(_, _) => 2 case PlaylistData(_, _) => 2 case _ => 1)
  {
    match e
    case TrackData(artist, title) => [artist, title]
    case ArtistData(artist) => [artist]
    case AlbumData(album) => [album]
    case PlaylistData(name, tracks) => [name, ObjectArrayString(|tracks|)]
  }

  /** The outcome of a provider's HTTP call: the response body, or a failure
      carrying the error's `data` property (usually absent). */
  datatype Http<T> = Response(body: T) | Failed(data: Option<string>)
}
