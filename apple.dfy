/** The pure parts of the server's Apple Music adapter: the search type
    vocabulary, the search term, and the shaping of the element and search
    responses. The HTTP calls are outside the model; their outcome is an
    input (`Catalog.Http`). */
module AppleProvider {
  import opened Wrappers
  import opened Strings
  import opened Catalog

  const ElementFailed := "Get Element Failed"
  const SearchFailed := "Search Failed"

  /** Apple Music says "song" where the other provider says "track". */
  function SearchType(kind: string): (r: string)
    ensures r != "track"
    ensures kind != "track" ==> r == kind
  {
    if kind == "track" then "song" else kind
  }

  lemma SearchTypeIdempotent(kind: string)
    ensures SearchType(SearchType(kind)) == SearchType(kind)
  {
  }

  /** The `types` request parameter: the mapped type in the plural. */
  function SearchTypes(kind: string): (r: string)
    ensures kind == "track" ==> r == "songs"
    ensures r != "tracks"
  {
    var r := SearchType(kind) + "s";
    assert r[..|r| - 1] == SearchType(kind);
    r
  }

  /** `_formatQueryString`: the values joined by single spaces, unencoded. */
  function FormatQueryString(values: seq<string>): (r: string)
    ensures |values| == 0 ==> r == ""
    ensures |values| == 1 ==> r == values[0]
  {
    Join(values, " ")
  }

  /** Values without spaces can be recovered from the term by splitting it
      at the spaces. */
  lemma QueryStringSplits(values: seq<string>)
    requires |values| > 0
    requires forall i :: 0 <= i < |values| ==> ' ' !in values[i]
    ensures Split(FormatQueryString(values), ' ') == values
  {
    SplitJoin(values, ' ');
  }

  /** The `attributes` of a catalog resource that the adapter reads. */
  datatype Attributes = Attributes(name: string, artistName: string, url: string)

  /** `getElementData` as written: the switch's last label is the string
      "default", not the `default` clause, so an unlisted type resolves to
      nothing instead of failing. Reading `data[0]` of an empty response
      throws, which is reported as "Get Element Failed". */
  function GetElementData(kind: string, outcome: Http<seq<Attributes>>): (r: Result<Option<ElementData>, string>)
    ensures r.Failure? <==> outcome.Failed? || kind == "default"
                            || (kind in {"song", "artist", "album"} && |outcome.body| == 0)
    ensures r.Failure? ==> r.error == ElementFailed
    ensures r.Success? && r.value.Some? <==> outcome.Response? && kind in {"song", "artist", "album"} && |outcome.body| > 0
    ensures r.Success? && r.value.Some? ==>
              var a := outcome.body[0];
              r.value.value == (if kind == "song" then TrackData(a.artistName, a.name)
                                else if kind == "artist" then ArtistData(a.name)
                                else AlbumData(a.name))
  {
    match outcome
    case Failed(_) => Failure(ElementFailed)
    case Response(data) =>
      if kind == "song" then
        if |data| > 0 then Success(Some(TrackData(data[0].artistName, data[0].name))) else Failure(ElementFailed)
      else if kind == "artist" then
        if |data| > 0 then Success(Some(ArtistData(data[0].name))) else Failure(ElementFailed)
      else if kind == "album" then
        if |data| > 0 then Success(Some(AlbumData(data[0].name))) else Failure(ElementFailed)
      else if kind == "default" then Failure(ElementFailed)
      else Success(None)
  }

  /** The input that shows it: a playlist request resolves to nothing. */
  lemma UnlistedTypeResolvesNothing(outcome: Http<seq<Attributes>>)
    requires outcome.Response?
    ensures GetElementData("playlist", outcome) == Success(None)
  {
  }

  /** `getElementData` with the `default` clause evidently intended: an
      unlisted type fails like every other failure. */
  function GetElementDataIntended(kind: string, outcome: Http<seq<Attributes>>): (r: Result<ElementData, string>)
    ensures r.Failure? ==> r.error == ElementFailed
    ensures r.Success? <==> outcome.Response? && kind in {"song", "artist", "album"} && |outcome.body| > 0
    ensures r.Success? ==> GetElementData(kind, outcome) == Success(Some(r.value))
  {
    match outcome
    case Failed(_) => Failure(ElementFailed)
    case Response(data) =>
      if |data| == 0 then Failure(ElementFailed)
      else if kind == "song" then Success(TrackData(data[0].artistName, data[0].name))
      else if kind == "artist" then Success(ArtistData(data[0].name))
      else if kind == "album" then Success(AlbumData(data[0].name))
      else Failure(ElementFailed)
  }

  /** The corrected version agrees with the original wherever the original
      produces an element, and fails wherever the original resolves to
      nothing. */
  lemma IntendedElementAgrees(kind: string, outcome: Http<seq<Attributes>>)
    ensures GetElementData(kind, outcome) == Success(None) ==> GetElementDataIntended(kind, outcome).Failure?
    ensures GetElementData(kind, outcome).Failure? ==> GetElementDataIntended(kind, outcome).Failure?
  {
  }

  /** The buckets of a search response; each holds the `attributes` of its
      results, and an absent bucket is one the response did not contain. */
  datatype SearchResults = SearchResults(songs: Option<seq<Attributes>>, artists: Option<seq<Attributes>>, albums: Option<seq<Attributes>>)

  function Bucket(res: SearchResults, kind: string): Option<seq<Attributes>>
  {
    if kind == "song" then res.songs
    else if kind == "artist" then res.artists
    else if kind == "album" then res.albums
    else None
  }

  /** The bucket of a search response named by a `types` value. */
  function BucketNamed(res: SearchResults, types: string): Option<seq<Attributes>>
  {
    if types == "songs" then res.songs
    else if types == "artists" then res.artists
    else if types == "albums" then res.albums
    else None
  }

  /** The bucket `search` reads is the one its `types` parameter asks for,
      for every type: a listed type names its own bucket, and any other type
      names none. */
  lemma TypesNameBucket(kind: string, res: SearchResults)
    ensures Bucket(res, SearchType(kind)) == BucketNamed(res, SearchTypes(kind))
    ensures Bucket(res, SearchType(kind)).Some? ==> SearchTypes(kind) in {"songs", "artists", "albums"}
  {
    var t := SearchType(kind);
    var plural := SearchTypes(kind);
    assert plural[..|t|] == t;
    if plural == "songs" || plural == "artists" || plural == "albums" {
      assert t == plural[..|plural| - 1];
    }
  }

  /** `search` as written: the first result's url from the bucket of the
      mapped type; any failure rejects with "Search Failed", and an unlisted
      type resolves to nothing, for the same "default" label. */
  function Search(kind: string, outcome: Http<SearchResults>): (r: Result<Option<string>, string>)
    ensures r.Failure? ==> r.error == SearchFailed
    ensures r.Success? && r.value.Some? <==>
              outcome.Response? && Bucket(outcome.body, SearchType(kind)).Some?
              && |Bucket(outcome.body, SearchType(kind)).value| > 0
    ensures r.Success? && r.value.Some? ==> r.value.value == Bucket(outcome.body, SearchType(kind)).value[0].url
    ensures r == Success(None) <==> outcome.Response? && SearchType(kind) !in {"song", "artist", "album", "default"}
  {
    var t := SearchType(kind);
    match outcome
    case Failed(_) => Failure(SearchFailed)
    case Response(res) =>
      if t in {"song", "artist", "album"} then
        match Bucket(res, t)
        case Some(items) => if |items| > 0 then Success(Some(items[0].url)) else Failure(SearchFailed)
        case None => Failure(SearchFailed)
      else if t == "default" then Failure(SearchFailed)
      else Success(None)
  }

  /** `search` with the `default` clause evidently intended. */
  function SearchIntended(kind: string, outcome: Http<SearchResults>): (r: Result<string, string>)
    ensures r.Failure? ==> r.error == SearchFailed
    ensures r.Success? <==> Search(kind, outcome).Success? && Search(kind, outcome).value.Some?
    ensures r.Success? ==> Search(kind, outcome) == Success(Some(r.value))
  {
    match outcome
    case Failed(_) => Failure(SearchFailed)
    case Response(res) =>
      match Bucket(res, SearchType(kind))
      case Some(items) => if |items| > 0 then Success(items[0].url) else Failure(SearchFailed)
      case None => Failure(SearchFailed)
  }

  /** A track search looks in the song bucket. */
  lemma TrackSearchesSongs(res: SearchResults)
    requires res.songs.Some? && |res.songs.value| > 0
    ensures Search("track", Response(res)) == Success(Some(res.songs.value[0].url))
  {
  }

  /** The input that shows the unlisted-type case: a playlist search resolves to nothing. */
  lemma UnlistedSearchResolvesNothing(res: SearchResults)
    ensures Search("playlist", Response(res)) == Success(None)
  {
  }
}
