/** The pure parts of the server's Spotify adapter: the search type vocabulary,
    the query string, the serialisation of the search parameters, and the
    shaping of the element and search responses. The HTTP calls are outside
    the model; their outcome is an input (`Catalog.Http`). */
module SpotifyProvider {
  import opened Wrappers
  import opened Strings
  import opened Catalog
  import opened UriEncoding

  const ElementFailed := "Get Element Failed"

  /** Spotify says "track" where the other provider says "song". */
  function SearchType(kind: string): (r: string)
    ensures r != "song"
    ensures kind != "song" ==> r == kind
  {
    if kind == "song" then "track" else kind
  }

  lemma SearchTypeIdempotent(kind: string)
    ensures SearchType(SearchType(kind)) == SearchType(kind)
  {
  }

  /** Each value percent-encoded, the results joined by "%20". */
  function FormatQueryString(values: seq<string>): (r: string)
    ensures |values| == 0 ==> r == ""
    decreases |values|
  {
    if |values| == 0 then ""
    else if |values| == 1 then EncodeURIComponent(values[0])
    else EncodeURIComponent(values[0]) + "%20" + FormatQueryString(values[1..])
  }

  /** The query string is the encoding of the values joined by single
      spaces: encoding each value separately loses nothing. */
  lemma {:induction false} FormatQueryStringEncodesSentence(values: seq<string>)
    ensures FormatQueryString(values) == EncodeURIComponent(Join(values, " "))
    decreases |values|
  {
    if |values| > 1 {
      FormatQueryStringEncodesSentence(values[1..]);
      var head, tail := values[0], Join(values[1..], " ");
      EncodeConcat(head + " ", tail);
      EncodeConcat(head, " ");
      EncodeSpace();
    }
  }

  /** So decoding the query string gives back the values joined by spaces. */
  lemma QueryStringDecodes(values: seq<string>)
    ensures DecodeURIComponent(FormatQueryString(values)) == Some(Join(values, " "))
  {
    FormatQueryStringEncodesSentence(values);
    DecodeEncode(Join(values, " "));
  }

  /** The search parameters in the order the request object lists them. */
  function SearchParams(q: string, kind: string, limit: nat): seq<(string, string)>
  {
    [("q", q), ("type", kind), ("limit", NatToString(limit))]
  }

  /** `paramsSerializer`: "key=value" for each entry, in order, joined by
      '&', with no further encoding. */
  function SerializeParams(params: seq<(string, string)>): (r: string)
    ensures |params| == 0 ==> r == ""
  {
    Join(seq(|params|, i requires 0 <= i < |params| => params[i].0 + "=" + params[i].1), "&")
  }

  lemma SerializedEntries(q: string, kind: string, limit: nat)
    ensures SerializeParams(SearchParams(q, kind, limit))
            == Join(["q=" + q, "type=" + kind, "limit=" + NatToString(limit)], "&")
  {
    var params := SearchParams(q, kind, limit);
    var entries := seq(|params|, i requires 0 <= i < |params| => params[i].0 + "=" + params[i].1);
    var parts := ["q=" + q, "type=" + kind, "limit=" + NatToString(limit)];
    assert |entries| == 3 && entries[0] == parts[0] && entries[1] == parts[1] && entries[2] == parts[2];
    assert entries == parts;
  }

  lemma NoAmpersandInEntry(key: string, value: string)
    requires '&' !in key && '&' !in value
    ensures '&' !in key + "=" + value
  {
  }

  /** The serialised request splits back into its three "key=value" pairs:
      the query string cannot contain '&', being percent-encoded. */
  lemma SearchRequestSplits(values: seq<string>, kind: string, limit: nat)
    requires '&' !in kind
    ensures var q := FormatQueryString(values);
            Split(SerializeParams(SearchParams(q, SearchType(kind), limit)), '&')
            == ["q=" + q, "type=" + SearchType(kind), "limit=" + NatToString(limit)]
  {
    var q := FormatQueryString(values);
    FormatQueryStringEncodesSentence(values);
    assert '&' !in q by {
      forall i | 0 <= i < |q| ensures q[i] != '&' {
        assert IsUnreserved(q[i]) || q[i] == '%';
      }
    }
    var t, l := SearchType(kind), NatToString(limit);
    var parts := ["q=" + q, "type=" + t, "limit=" + l];
    SerializedEntries(q, t, limit);
    NoAmpersandInEntry("q", q);
    NoAmpersandInEntry("type", t);
    NoAmpersandInEntry("limit", l);
    SplitJoin(parts, '&');
  }

  // ---------------------------------------------------------------------
  // Response shaping.

  datatype Artist = Artist(name: string)

  datatype TrackObject = TrackObject(name: string, artists: seq<Artist>)

  /** The fields of a `GET /{type}s/{id}` response the adapter reads; a
      playlist's `tracks.items` is absent for the other types. */
  datatype ElementResponse = ElementResponse(name: string, artists: seq<Artist>, playlistItems: Option<seq<TrackObject>>)

  /** Each playlist item's track as its first artist and its name; `None`
      when some track has no artist, where reading `artists[0].name` throws. */
  function PlaylistTracks(items: seq<TrackObject>): (r: Option<seq<TrackSummary>>)
    ensures r.Some? <==> forall i :: 0 <= i < |items| ==> |items[i].artists| > 0
    ensures r.Some? ==> |r.value| == |items|
    ensures r.Some? ==> forall i :: 0 <= i < |items| ==>
              r.value[i] == TrackSummary(items[i].artists[0].name, items[i].name)
    decreases |items|
  {
    if |items| == 0 then Some([])
    else if |items[0].artists| == 0 then None
    else
      match PlaylistTracks(items[1..])
      case None => None
      case Some(rest) => Some([TrackSummary(items[0].artists[0].name, items[0].name)] + rest)
  }

  /** `getElementData`: every failure, including an unsupported type, is
      reported as "Get Element Failed". */
  function GetElementData(kind: string, outcome: Http<ElementResponse>): (r: Result<ElementData, string>)
    ensures r.Failure? ==> r.error == ElementFailed
    ensures r.Success? <==>
              outcome.Response?
              && (kind == "artist" || kind == "album"
                  || (kind == "track" && |outcome.body.artists| > 0)
                  || (kind == "playlist" && outcome.body.playlistItems.Some?
                      && PlaylistTracks(outcome.body.playlistItems.value).Some?))
    ensures r.Success? && kind == "track" ==>
              |outcome.body.artists| > 0 && r.value == TrackData(outcome.body.artists[0].name, outcome.body.name)
    ensures r.Success? && kind == "artist" ==> r.value == ArtistData(outcome.body.name)
    ensures r.Success? && kind == "album" ==> r.value == AlbumData(outcome.body.name)
    ensures r.Success? && kind == "playlist" ==>
              r.value.PlaylistData? && r.value.name == outcome.body.name
              && outcome.body.playlistItems.Some? && |r.value.tracks| == |outcome.body.playlistItems.value|
  {
    match outcome
    case Failed(_) => Failure(ElementFailed)
    case Response(d) =>
      if kind == "track" then
        if |d.artists| > 0 then Success(TrackData(d.artists[0].name, d.name)) else Failure(ElementFailed)
      else if kind == "artist" then Success(ArtistData(d.name))
      else if kind == "album" then Success(AlbumData(d.name))
      else if kind == "playlist" then
        match d.playlistItems
        case None => Failure(ElementFailed)
        case Some(items) =>
          match PlaylistTracks(items)
          case None => Failure(ElementFailed)
          case Some(tracks) => Success(PlaylistData(d.name, tracks))
      else
        Failure(ElementFailed)
  }

  /** A playlist keeps its tracks' count and order, each entry holding the
      track's first artist and its name. */
  lemma PlaylistShape(d: ElementResponse, items: seq<TrackObject>)
    requires d.playlistItems == Some(items)
    requires forall i :: 0 <= i < |items| ==> |items[i].artists| > 0
    ensures GetElementData("playlist", Response(d)).Success?
    ensures var tracks := GetElementData("playlist", Response(d)).value.tracks;
            |tracks| == |items|
            && forall i :: 0 <= i < |items| ==> tracks[i] == TrackSummary(items[i].artists[0].name, items[i].name)
  {
  }

  /** The `external_urls.spotify` of each item in the buckets of a search
      response; an absent bucket is one the response did not contain. */
  datatype SearchResponse = SearchResponse(tracks: Option<seq<string>>, artists: Option<seq<string>>, albums: Option<seq<string>>)

  /** What `search` resolves to: a link, or the caught error's `data`
      property, which is absent for the errors thrown while reading the
      response. It never rejects. */
  datatype SearchReply = Link(url: string) | ErrorData(data: Option<string>)

  function Bucket(res: SearchResponse, kind: string): Option<seq<string>>
  {
    if kind == "track" then res.tracks
    else if kind == "artist" then res.artists
    else if kind == "album" then res.albums
    else None
  }

  /** `search`: the first item's link in the bucket for the mapped type. */
  function Search(kind: string, outcome: Http<SearchResponse>): (r: SearchReply)
    ensures r.Link? <==> outcome.Response? && Bucket(outcome.body, SearchType(kind)).Some?
                         && |Bucket(outcome.body, SearchType(kind)).value| > 0
    ensures r.Link? ==> r.url == Bucket(outcome.body, SearchType(kind)).value[0]
    ensures outcome.Failed? ==> r == ErrorData(outcome.data)
    ensures outcome.Response? && r.ErrorData? ==> r.data.None?
  {
    match outcome
    case Failed(data) => ErrorData(data)
    case Response(res) =>
      match Bucket(res, SearchType(kind))
      case Some(items) => if |items| > 0 then Link(items[0]) else ErrorData(None)
      case None => ErrorData(None)
  }

  /** A song search looks in the track bucket. */
  lemma SongSearchesTracks(res: SearchResponse)
    requires res.tracks.Some? && |res.tracks.value| > 0
    ensures Search("song", Response(res)) == Link(res.tracks.value[0])
  {
  }
}
