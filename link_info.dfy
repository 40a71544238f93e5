/** The share-link parsers: which provider a link belongs to, and the element
    type and id an Apple Music or Spotify share link names. Each regular
    expression is read as a matcher on a suffix of the link, and
    `Grammar.Leftmost` finds the first position where it succeeds, as
    `String.prototype.match` does. */
module LinkInfo {
  import opened Wrappers
  import opened Grammar
  import opened Catalog

  /** Why a parser gives up: an unknown provider word (an `Error` thrown on
      purpose), or a link the regular expression does not match, whose `null`
      match result then fails to destructure (a `TypeError`). */
  datatype LinkError = UnsupportedProvider | NoMatch

  // ---------------------------------------------------------------------
  // determineProviderFromLink: /\.(\w+)\./

  /** `\.(\w+)\.` at the start of `u`; the group is the word between the dots. */
  function DottedWordAt(u: string): (r: Option<string>)
    ensures r.Some? ==> |r.value| > 0 && AllIn(r.value, Word) && StartsWith(u, "." + r.value + ".")
  {
    if |u| > 0 && u[0] == '.' then
      match SegmentBefore(u[1..], Word, '.')
      case None => None
      case Some((w, v)) =>
        assert u == "." + w + "." + v;
        assert u[..|w| + 2] == "." + w + ".";
        Some(w)
    else
      None
  }

  lemma DottedWordAtOf(w: string, v: string)
    requires |w| > 0 && AllIn(w, Word)
    ensures DottedWordAt("." + w + "." + v) == Some(w)
  {
    assert ("." + w + "." + v)[1..] == w + ['.'] + v;
    SegmentBeforeOf(w, v, Word, '.');
  }

  /** The provider a share link belongs to: `Success(None)` when the link has no
      `.word.` at all, the provider named by the first such word, or
      `UnsupportedProvider` when that word names none. */
  function DetermineProviderFromLink(link: string): (r: Result<Option<ProviderId>, LinkError>)
    ensures r == Success(None) <==> forall p :: 0 <= p <= |link| ==> DottedWordAt(link[p..]).None?
    ensures r.Success? && r.value.Some? ==>
              exists p :: 0 <= p <= |link| && DottedWordAt(link[p..]) == Some(r.value.value.Name())
    ensures r.Failure? ==> r.error == UnsupportedProvider
    ensures r != Success(None) ==>
              exists p :: 0 <= p <= |link| && DottedWordAt(link[p..]).Some?
                          && (forall q :: 0 <= q < p ==> DottedWordAt(link[q..]).None?)
                          && (r.Failure? <==> ProviderNamed(DottedWordAt(link[p..]).value).None?)
                          && (r.Success? ==> r.value == ProviderNamed(DottedWordAt(link[p..]).value))
  {
    match Leftmost(link, DottedWordAt, 0)
    case None => Success(None)
    case Some((_, w)) =>
      match ProviderNamed(w)
      case Some(p) => Success(Some(p))
      case None => Failure(UnsupportedProvider)
  }

  /** Only the first `.word.` counts: whatever follows it, even another
      provider's domain, is ignored. Dots in `pre` are allowed as long as
      none of them starts a `.word.`. */
  lemma {:induction false} FirstDottedWordDecides(pre: string, w: string, post: string)
    requires forall q :: 0 <= q < |pre| ==> DottedWordAt((pre + "." + w + "." + post)[q..]).None?
    requires |w| > 0 && AllIn(w, Word)
    ensures w == "spotify" ==> DetermineProviderFromLink(pre + "." + w + "." + post) == Success(Some(Spotify))
    ensures w == "apple" ==> DetermineProviderFromLink(pre + "." + w + "." + post) == Success(Some(Apple))
    ensures w != "spotify" && w != "apple" ==>
              DetermineProviderFromLink(pre + "." + w + "." + post) == Failure(UnsupportedProvider)
  {
    var link := pre + "." + w + "." + post;
    assert link[|pre|..] == "." + w + "." + post;
    DottedWordAtOf(w, post);
    LeftmostAt(link, DottedWordAt, 0, |pre|);
  }

  /** A prefix without a dot starts no `.word.`. */
  lemma NoDotStartsNoWord(pre: string, rest: string)
    requires '.' !in pre
    ensures forall q :: 0 <= q < |pre| ==> DottedWordAt((pre + rest)[q..]).None?
  {
    forall q | 0 <= q < |pre| ensures DottedWordAt((pre + rest)[q..]).None? {
      assert (pre + rest)[q..][0] == pre[q];
    }
  }

  /** A dot that is followed by a non-word character starts no `.word.`, so a
      doubled dot before the provider's domain does not hide it. */
  lemma DoubledDotSkipped(w: string, post: string)
    requires |w| > 0 && AllIn(w, Word)
    ensures w == "spotify" ==> DetermineProviderFromLink("x.." + w + "." + post) == Success(Some(Spotify))
    ensures w == "apple" ==> DetermineProviderFromLink("x.." + w + "." + post) == Success(Some(Apple))
    ensures w != "spotify" && w != "apple" ==> DetermineProviderFromLink("x.." + w + "." + post) == Failure(UnsupportedProvider)
  {
    var pre := "x.";
    var link := pre + "." + w + "." + post;
    assert "x.." + w + "." + post == link;
    forall q | 0 <= q < |pre| ensures DottedWordAt(link[q..]).None? {
      if q == 1 {
        assert link[1..][1..][0] == '.';
      } else {
        assert link[q..][0] == 'x';
      }
    }
    FirstDottedWordDecides(pre, w, post);
  }

  /** A link without any dot names no provider, and nothing is thrown. */
  lemma NoDotNoProvider(link: string)
    requires '.' !in link
    ensures DetermineProviderFromLink(link) == Success(None)
  {
    forall p | 0 <= p <= |link| ensures DottedWordAt(link[p..]).None? {
      if p < |link| {
        assert link[p..][0] == link[p];
      }
    }
  }

  lemma SpotifyShareLinkProvider(path: string)
    ensures DetermineProviderFromLink("https://open.spotify.com/" + path) == Success(Some(Spotify))
  {
    var pre, post := "https://open", "com/" + path;
    assert "https://open.spotify.com/" + path == pre + "." + "spotify" + "." + post;
    NoDotStartsNoWord(pre, "." + "spotify" + "." + post);
    assert pre + ("." + "spotify" + "." + post) == pre + "." + "spotify" + "." + post;
    FirstDottedWordDecides(pre, "spotify", post);
  }

  lemma AppleShareLinkProvider(path: string)
    ensures DetermineProviderFromLink("https://music.apple.com/" + path) == Success(Some(Apple))
  {
    var pre, post := "https://music", "com/" + path;
    assert "https://music.apple.com/" + path == pre + "." + "apple" + "." + post;
    NoDotStartsNoWord(pre, "." + "apple" + "." + post);
    assert pre + ("." + "apple" + "." + post) == pre + "." + "apple" + "." + post;
    FirstDottedWordDecides(pre, "apple", post);
  }

  // ---------------------------------------------------------------------
  // Apple Music links:
  //   https:\/\/music\.apple\.com\/(?<storefront>\w+)\/(?<type>\w+)\/
  //     (?<title>[a-zA-Z0-9\-]+)\/(?<id>ID+)(\?i\=)?(?<track>\d+)?
  // where ID is [a-zA-Z0-9\-\.] in the app and \d on the server, and the
  // track group is called trackID in the app and songID on the server.

  const AppleHost := "https://music.apple.com/"

  /** The named groups of a match; `track` is absent when its group did not take part. */
  datatype AppleGroups = AppleGroups(storefront: string, kind: string, title: string, id: string, track: Option<string>)

  /** `(\?i\=)?(?<track>\d+)?` at the start of `v`: both parts are optional and greedy. */
  function TrackGroup(v: string): (r: Option<string>)
    ensures r.Some? ==> |r.value| > 0 && AllIn(r.value, Digit)
  {
    var v' := if StartsWith(v, "?i=") then v[3..] else v;
    match Segment(v', Digit)
    case Some((d, _)) => Some(d)
    case None => None
  }

  /** The rest of the Apple pattern once the storefront has been read. */
  function AppleAfterStorefront(storefront: string, u: string, idClass: CharClass): Option<AppleGroups>
  {
    match SegmentBefore(u, Word, '/')
    case None => None
    case Some((kind, u1)) =>
      match SegmentBefore(u1, TitleChar, '/')
      case None => None
      case Some((title, u2)) =>
        match Segment(u2, idClass)
        case None => None
        case Some((id, u3)) => Some(AppleGroups(storefront, kind, title, id, TrackGroup(u3)))
  }

  /** The Apple pattern at the start of `u`. */
  function AppleAt(u: string, idClass: CharClass): (r: Option<AppleGroups>)
    ensures r.Some? ==> StartsWith(u, AppleHost)
  {
    if StartsWith(u, AppleHost) then
      match SegmentBefore(u[|AppleHost|..], Word, '/')
      case None => None
      case Some((storefront, u1)) => AppleAfterStorefront(storefront, u1, idClass)
    else
      None
  }

  /** The matcher the scan applies at each position. */
  function AppleMatcher(idClass: CharClass): string -> Option<AppleGroups>
  {
    u => AppleAt(u, idClass)
  }

  /** What an Apple link names; `id` is absent when the id was to come from a
      track group that did not take part. */
  datatype AppleLinkInfo = AppleLinkInfo(storefront: string, kind: string, id: Option<string>)

  /** The element info built from a match: a present track group makes the
      link a `trackWord` link (`"track"` in the app, `"song"` on the server)
      and supplies its id. */
  function Classify(g: AppleGroups, trackWord: string): (r: AppleLinkInfo)
    ensures r.storefront == g.storefront
    ensures g.track.Some? ==> r.kind == trackWord && r.id == g.track
    ensures g.track.None? ==> r.kind == g.kind && r.id == (if g.kind == trackWord then None else Some(g.id))
  {
    var kind := if g.track.Some? then trackWord else g.kind;
    var id := if kind == trackWord then g.track else Some(g.id);
    AppleLinkInfo(g.storefront, kind, id)
  }

  /** `extractAppleLinkInfo` (idClass `AppleIdChar`, trackWord `"track"`) and
      the server's `Apple.extractElementInfo` (idClass `Digit`, trackWord
      `"song"`): the first match anywhere in the link, or `NoMatch`. */
  function ReadAppleLink(link: string, idClass: CharClass, trackWord: string): (r: Result<AppleLinkInfo, LinkError>)
    ensures r.Failure? <==> forall p :: 0 <= p <= |link| ==> AppleAt(link[p..], idClass).None?
    ensures r.Failure? ==> r.error == NoMatch
    ensures r.Success? && r.value.kind != trackWord ==> r.value.id.Some?
  {
    match Leftmost(link, AppleMatcher(idClass), 0)
    case None => Failure(NoMatch)
    case Some((_, g)) => Success(Classify(g, trackWord))
  }

  /** The id classes the two Apple parsers use. */
  predicate AppleIdClass(idClass: CharClass)
  {
    idClass == Digit || idClass == AppleIdChar
  }

  /** The segments of a well-formed Apple link. */
  predicate ApplePath(storefront: string, kind: string, title: string, id: string, idClass: CharClass)
  {
    |storefront| > 0 && AllIn(storefront, Word)
    && |kind| > 0 && AllIn(kind, Word)
    && |title| > 0 && AllIn(title, TitleChar)
    && |id| > 0 && AllIn(id, idClass)
  }

  lemma NoAppleInPre(pre: string, u: string, idClass: CharClass, q: nat)
    requires 'h' !in pre && q < |pre|
    ensures AppleAt((pre + u)[q..], idClass).None?
  {
    var x := (pre + u)[q..];
    assert x[0] == pre[q];
    assert !StartsWith(x, AppleHost);
  }

  /** A match that begins after a prefix without an 'h' is found at the end of
      the prefix, since the pattern begins with "https", and it decides the
      result. */
  lemma ReadAppleLinkAfter(pre: string, u: string, idClass: CharClass, trackWord: string)
    requires 'h' !in pre && AppleAt(u, idClass).Some?
    ensures ReadAppleLink(pre + u, idClass, trackWord) == Success(Classify(AppleAt(u, idClass).value, trackWord))
  {
    var link := pre + u;
    var m := AppleMatcher(idClass);
    forall q | 0 <= q < |pre| ensures m(link[q..]).None? {
      NoAppleInPre(pre, u, idClass, q);
    }
    assert link[|pre|..] == u;
    LeftmostAt(link, m, 0, |pre|);
  }

  /** The host is read first; the rest of the pattern looks at what follows it. */
  lemma AppleAtHost(path: string, idClass: CharClass)
    ensures AppleAt(AppleHost + path, idClass)
            == match SegmentBefore(path, Word, '/')
               case None => None
               case Some((storefront, u1)) => AppleAfterStorefront(storefront, u1, idClass)
  {
    assert (AppleHost + path)[..|AppleHost|] == AppleHost;
    assert (AppleHost + path)[|AppleHost|..] == path;
  }

  lemma AppleAtStorefront(storefront: string, tail: string, idClass: CharClass)
    requires |storefront| > 0 && AllIn(storefront, Word)
    ensures AppleAt(AppleHost + (storefront + "/" + tail), idClass) == AppleAfterStorefront(storefront, tail, idClass)
  {
    AppleAtHost(storefront + "/" + tail, idClass);
    SegmentBeforeOf(storefront, tail, Word, '/');
  }

  lemma AppleAfterStorefrontPath(storefront: string, kind: string, title: string, id: string, rest: string, idClass: CharClass)
    requires AppleIdClass(idClass) && ApplePath(storefront, kind, title, id, idClass)
    requires |rest| == 0 || !InClass(rest[0], idClass)
    ensures AppleAfterStorefront(storefront, kind + "/" + title + "/" + id + rest, idClass)
            == Some(AppleGroups(storefront, kind, title, id, TrackGroup(rest)))
  {
    assert kind + "/" + title + "/" + id + rest == kind + ['/'] + (title + "/" + id + rest);
    SegmentBeforeOf(kind, title + "/" + id + rest, Word, '/');
    assert title + "/" + id + rest == title + ['/'] + (id + rest);
    SegmentBeforeOf(title, id + rest, TitleChar, '/');
    SegmentOf(id, rest, idClass);
  }

  /** The link of `AppleTrackLink` and `AppleNonTrackLink`, regrouped as prefix,
      host, storefront and the tail after it. */
  lemma AppleLinkRegrouped(pre: string, storefront: string, kind: string, title: string, id: string, rest: string)
    ensures pre + AppleHost + storefront + "/" + kind + "/" + title + "/" + id + rest
         == pre + (AppleHost + (storefront + "/" + (kind + "/" + title + "/" + id + rest)))
  {
  }

  lemma TrackParamRegrouped(pre: string, storefront: string, kind: string, title: string, id: string, track: string, rest: string)
    ensures pre + AppleHost + storefront + "/" + kind + "/" + title + "/" + id + "?i=" + track + rest
         == pre + AppleHost + storefront + "/" + kind + "/" + title + "/" + id + ("?i=" + track + rest)
  {
  }

  lemma TrackGroupOf(track: string, rest: string)
    requires |track| > 0 && AllIn(track, Digit) && (|rest| == 0 || !IsAsciiDigit(rest[0]))
    ensures TrackGroup("?i=" + track + rest) == Some(track)
  {
    var after := "?i=" + track + rest;
    assert StartsWith(after, "?i=") by { assert after[..3] == "?i="; }
    assert after[3..] == track + rest;
    SegmentOf(track, rest, Digit);
  }

  /** Reading a well-formed Apple link after a prefix without an 'h': the
      groups are the path segments, and the track group is read from `rest`. */
  lemma ReadApplePath(pre: string, storefront: string, kind: string, title: string, id: string,
                      rest: string, idClass: CharClass, trackWord: string)
    requires 'h' !in pre && AppleIdClass(idClass) && ApplePath(storefront, kind, title, id, idClass)
    requires |rest| == 0 || !InClass(rest[0], idClass)
    ensures ReadAppleLink(pre + AppleHost + storefront + "/" + kind + "/" + title + "/" + id + rest, idClass, trackWord)
            == Success(Classify(AppleGroups(storefront, kind, title, id, TrackGroup(rest)), trackWord))
  {
    AppleLinkRegrouped(pre, storefront, kind, title, id, rest);
    var tail := kind + "/" + title + "/" + id + rest;
    AppleAtStorefront(storefront, tail, idClass);
    AppleAfterStorefrontPath(storefront, kind, title, id, rest, idClass);
    ReadAppleLinkAfter(pre, AppleHost + (storefront + "/" + tail), idClass, trackWord);
  }

  /** With `?i=<digits>` after the path id, the link is a track link whose id is
      the track id: the path type and the path id are overridden. The
      storefront is kept. */
  lemma AppleTrackLink(pre: string, storefront: string, kind: string, title: string, id: string,
                       track: string, rest: string, idClass: CharClass, trackWord: string)
    requires 'h' !in pre && AppleIdClass(idClass) && ApplePath(storefront, kind, title, id, idClass)
    requires |track| > 0 && AllIn(track, Digit) && (|rest| == 0 || !IsAsciiDigit(rest[0]))
    ensures ReadAppleLink(pre + AppleHost + storefront + "/" + kind + "/" + title + "/" + id + "?i=" + track + rest,
                          idClass, trackWord)
            == Success(AppleLinkInfo(storefront, trackWord, Some(track)))
  {
    TrackParamRegrouped(pre, storefront, kind, title, id, track, rest);
    TrackGroupOf(track, rest);
    ReadApplePath(pre, storefront, kind, title, id, "?i=" + track + rest, idClass, trackWord);
  }

  /** Without a track group the path type and the path id are returned, except
      that a path type equal to `trackWord` leaves the id undefined. */
  lemma AppleNonTrackLink(pre: string, storefront: string, kind: string, title: string, id: string,
                          rest: string, idClass: CharClass, trackWord: string)
    requires 'h' !in pre && AppleIdClass(idClass) && ApplePath(storefront, kind, title, id, idClass)
    requires |rest| == 0 || (rest[0] != '?' && !InClass(rest[0], idClass))
    ensures ReadAppleLink(pre + AppleHost + storefront + "/" + kind + "/" + title + "/" + id + rest, idClass, trackWord)
            == Success(AppleLinkInfo(storefront, kind, if kind == trackWord then None else Some(id)))
  {
    assert !StartsWith(rest, "?i=");
    assert TrackGroup(rest) == None;
    ReadApplePath(pre, storefront, kind, title, id, rest, idClass, trackWord);
  }

  lemma ExampleSegments()
    ensures ApplePath("us", "album", "some-title", "1440881327", AppleIdChar)
    ensures AllIn("1440881974", Digit)
  {
    var title, id, track := "some-title", "1440881327", "1440881974";
    forall i | 0 <= i < |title| ensures InClass(title[i], TitleChar) {
      assert title[i] in title;
    }
    forall i | 0 <= i < |id| ensures InClass(id[i], AppleIdChar) {
      assert id[i] in id;
    }
    forall i | 0 <= i < |track| ensures InClass(track[i], Digit) {
      assert track[i] in track;
    }
  }

  lemma ExamplePath()
    ensures "us/album/some-title/1440881327?i=1440881974"
         == "us" + "/" + "album" + "/" + "some-title" + "/" + "1440881327" + "?i=" + "1440881974"
  {
  }

  lemma EmptyEnds(storefront: string, kind: string, title: string, id: string, track: string)
    ensures "" + AppleHost + storefront + "/" + kind + "/" + title + "/" + id + "?i=" + track + ""
         == AppleHost + (storefront + "/" + kind + "/" + title + "/" + id + "?i=" + track)
  {
  }

  /** The shape from the function's comment: an album link with a track
      parameter is read as that track. */
  lemma AppleAlbumTrackExample()
    ensures ReadAppleLink(AppleHost + "us/album/some-title/1440881327?i=1440881974", AppleIdChar, "track")
            == Success(AppleLinkInfo("us", "track", Some("1440881974")))
  {
    ExampleSegments();
    ExamplePath();
    EmptyEnds("us", "album", "some-title", "1440881327", "1440881974");
    AppleTrackLink("", "us", "album", "some-title", "1440881327", "1440881974", "", AppleIdChar, "track");
  }

  lemma StorefrontRegrouped(pre: string, storefront: string, tail: string)
    ensures pre + AppleHost + storefront + "/" + tail == pre + (AppleHost + (storefront + "/" + tail))
  {
  }

  /** The storefront segment affects nothing but the storefront field: two
      links that differ only there give the same type and id. */
  lemma AppleStorefrontIrrelevant(pre: string, sf1: string, sf2: string, tail: string,
                                  idClass: CharClass, trackWord: string)
    requires 'h' !in pre
    requires |sf1| > 0 && AllIn(sf1, Word) && |sf2| > 0 && AllIn(sf2, Word)
    requires AppleAfterStorefront(sf1, tail, idClass).Some?
    ensures var r1 := ReadAppleLink(pre + AppleHost + sf1 + "/" + tail, idClass, trackWord);
            var r2 := ReadAppleLink(pre + AppleHost + sf2 + "/" + tail, idClass, trackWord);
            r1.Success? && r2.Success? && r1.value.kind == r2.value.kind && r1.value.id == r2.value.id
            && r1.value.storefront == sf1 && r2.value.storefront == sf2
  {
    StorefrontRegrouped(pre, sf1, tail);
    StorefrontRegrouped(pre, sf2, tail);
    AppleAtStorefront(sf1, tail, idClass);
    AppleAtStorefront(sf2, tail, idClass);
    ReadAppleLinkAfter(pre, AppleHost + (sf1 + "/" + tail), idClass, trackWord);
    ReadAppleLinkAfter(pre, AppleHost + (sf2 + "/" + tail), idClass, trackWord);
  }

  /** A link without the Apple Music prefix never matches, and reading it fails. */
  lemma AppleNeedsHost(link: string, idClass: CharClass, trackWord: string)
    requires forall p :: 0 <= p <= |link| ==> !StartsWith(link[p..], AppleHost)
    ensures ReadAppleLink(link, idClass, trackWord) == Failure(NoMatch)
  {
  }

  /** A title segment that runs into a character outside `[a-zA-Z0-9-]`
      other than the closing '/' makes the match fail at that position. */
  lemma AppleTitleMustBePlain(storefront: string, kind: string, w: string, c: char, v: string, idClass: CharClass)
    requires |storefront| > 0 && AllIn(storefront, Word) && |kind| > 0 && AllIn(kind, Word)
    requires AllIn(w, TitleChar) && !InClass(c, TitleChar) && c != '/'
    ensures AppleAt(AppleHost + (storefront + "/" + (kind + "/" + (w + [c] + v))), idClass).None?
  {
    AppleAtStorefront(storefront, kind + "/" + (w + [c] + v), idClass);
    SegmentBeforeOf(kind, w + [c] + v, Word, '/');
    assert kind + "/" + (w + [c] + v) == kind + ['/'] + (w + [c] + v);
    TitleStopsAt(w, c, v);
  }

  lemma TitleStopsAt(w: string, c: char, v: string)
    requires AllIn(w, TitleChar) && !InClass(c, TitleChar) && c != '/'
    ensures SegmentBefore(w + [c] + v, TitleChar, '/').None?
  {
    if |w| > 0 {
      assert w + [c] + v == w + ([c] + v);
      SegmentOf(w, [c] + v, TitleChar);
    } else {
      assert (w + [c] + v)[0] == c;
    }
  }

  /** So a link whose only Apple Music prefix is at its start, and whose title
      segment holds such a character, is not an Apple link: reading it fails. */
  lemma AppleBadTitleFails(storefront: string, kind: string, w: string, c: char, v: string,
                           idClass: CharClass, trackWord: string)
    requires |storefront| > 0 && AllIn(storefront, Word) && |kind| > 0 && AllIn(kind, Word)
    requires AllIn(w, TitleChar) && !InClass(c, TitleChar) && c != '/'
    requires var link := AppleHost + storefront + "/" + kind + "/" + w + [c] + v;
             forall p :: 0 < p <= |link| ==> !StartsWith(link[p..], AppleHost)
    ensures ReadAppleLink(AppleHost + storefront + "/" + kind + "/" + w + [c] + v, idClass, trackWord) == Failure(NoMatch)
  {
    var link := AppleHost + storefront + "/" + kind + "/" + w + [c] + v;
    assert link == AppleHost + (storefront + "/" + (kind + "/" + (w + [c] + v)));
    AppleTitleMustBePlain(storefront, kind, w, c, v, idClass);
    forall p | 0 <= p <= |link| ensures AppleAt(link[p..], idClass).None? {
      if p == 0 {
        assert link[0..] == link;
      }
    }
  }

  // ---------------------------------------------------------------------
  // Spotify links: /https:\/\/open.spotify.com\/(?<type>\w+)\/(?<id>\w+)/
  // The two dots are not escaped, so each matches any character but a line
  // terminator.

  const SpotifyHost := "https://open.spotify.com/"

  datatype SpotifyLinkInfo = SpotifyLinkInfo(kind: string, id: string)

  /** The Spotify pattern at the start of `u`. */
  function SpotifyAt(u: string): (r: Option<SpotifyLinkInfo>)
    ensures r.Some? ==> StartsWithLoosely(u, SpotifyHost)
    ensures r.Some? ==> |r.value.kind| > 0 && AllIn(r.value.kind, Word) && |r.value.id| > 0 && AllIn(r.value.id, Word)
  {
    if StartsWithLoosely(u, SpotifyHost) then
      match SegmentBefore(u[|SpotifyHost|..], Word, '/')
      case None => None
      case Some((kind, u1)) =>
        match Segment(u1, Word)
        case None => None
        case Some((id, _)) => Some(SpotifyLinkInfo(kind, id))
    else
      None
  }

  /** `extractSpotifyLinkInfo` in the app and `Spotify.extractElementInfo` on
      the server: the first match anywhere in the link, or `NoMatch`. */
  function ReadSpotifyLink(link: string): (r: Result<SpotifyLinkInfo, LinkError>)
    ensures r.Failure? <==> forall p :: 0 <= p <= |link| ==> SpotifyAt(link[p..]).None?
    ensures r.Failure? ==> r.error == NoMatch
    ensures r.Success? ==> |r.value.kind| > 0 && AllIn(r.value.kind, Word) && |r.value.id| > 0 && AllIn(r.value.id, Word)
  {
    match Leftmost(link, SpotifyAt, 0)
    case None => Failure(NoMatch)
    case Some((_, info)) => Success(info)
  }

  lemma SpotifyAtHost(host: string, kind: string, id: string, rest: string)
    requires |host| == |SpotifyHost| && StartsWithLoosely(host, SpotifyHost)
    requires |kind| > 0 && AllIn(kind, Word) && |id| > 0 && AllIn(id, Word)
    requires |rest| == 0 || !InClass(rest[0], Word)
    ensures SpotifyAt(host + (kind + "/" + (id + rest))) == Some(SpotifyLinkInfo(kind, id))
  {
    var path := kind + "/" + (id + rest);
    var u := host + path;
    assert StartsWithLoosely(u, SpotifyHost) by {
      forall i | 0 <= i < |SpotifyHost| ensures u[i] == host[i] {
      }
    }
    assert u[|SpotifyHost|..] == path;
    SegmentBeforeOf(kind, id + rest, Word, '/');
    SegmentOf(id, rest, Word);
  }

  lemma NoSpotifyInPre(pre: string, u: string, q: nat)
    requires 'h' !in pre && q < |pre|
    ensures SpotifyAt((pre + u)[q..]).None?
  {
    var x := (pre + u)[q..];
    assert x[0] == pre[q];
    assert !StartsWithLoosely(x, SpotifyHost);
  }

  lemma SpotifyLinkRegrouped(pre: string, host: string, kind: string, id: string, rest: string)
    ensures pre + host + kind + "/" + id + rest == pre + (host + (kind + "/" + (id + rest)))
  {
  }

  /** The first two word segments after the host are the type and the id; the
      id stops at the first non-word character, so a `?si=` share token or any
      other trailing noise is dropped. `host` is any string the loose host
      pattern accepts, the host itself among them. */
  lemma SpotifyLinkParsed(pre: string, host: string, kind: string, id: string, rest: string)
    requires 'h' !in pre
    requires |host| == |SpotifyHost| && StartsWithLoosely(host, SpotifyHost)
    requires |kind| > 0 && AllIn(kind, Word) && |id| > 0 && AllIn(id, Word)
    requires |rest| == 0 || !InClass(rest[0], Word)
    ensures ReadSpotifyLink(pre + host + kind + "/" + id + rest) == Success(SpotifyLinkInfo(kind, id))
  {
    SpotifyLinkRegrouped(pre, host, kind, id, rest);
    var u := host + (kind + "/" + (id + rest));
    var link := pre + u;
    SpotifyAtHost(host, kind, id, rest);
    forall q | 0 <= q < |pre| ensures SpotifyAt(link[q..]).None? {
      NoSpotifyInPre(pre, u, q);
    }
    assert link[|pre|..] == u;
    LeftmostAt(link, SpotifyAt, 0, |pre|);
  }

  lemma ShareTokenRegrouped(kind: string, id: string, token: string)
    ensures SpotifyHost + kind + "/" + id + "?si=" + token == SpotifyHost + (kind + "/" + (id + ("?si=" + token)))
  {
  }

  /** A share link as the Spotify app produces it, with its `?si=` token. */
  lemma SpotifyShareToken(kind: string, id: string, token: string)
    requires |kind| > 0 && AllIn(kind, Word) && |id| > 0 && AllIn(id, Word)
    ensures ReadSpotifyLink(SpotifyHost + kind + "/" + id + "?si=" + token) == Success(SpotifyLinkInfo(kind, id))
  {
    ShareTokenRegrouped(kind, id, token);
    StartsWithLooselySelf(SpotifyHost, "");
    assert SpotifyHost + "" == SpotifyHost;
    SpotifyAtHost(SpotifyHost, kind, id, "?si=" + token);
    var link := SpotifyHost + (kind + "/" + (id + ("?si=" + token)));
    assert link[0..] == link;
  }

  /** A link that lacks the host pattern never matches, and reading it fails. */
  lemma SpotifyNeedsHost(link: string)
    requires forall p :: 0 <= p <= |link| ==> !StartsWithLoosely(link[p..], SpotifyHost)
    ensures ReadSpotifyLink(link) == Failure(NoMatch)
  {
  }
}
