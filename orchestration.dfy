/** The server pipeline shared by both revisions of the server: the provider
    results as the server reads them, `processLink`, `formatResults`, the
    link id, the record table and the resolution of a transpose link. The
    providers are reached through an abstract interface: `getElement` and
    `search` are parameters whose outcome is given. */
module Orchestration {
  import opened Wrappers
  import opened Strings
  import opened Catalog

  /** What a provider's `search` resolves to, as the server reads it: the
      provider the result names, its link and the optional metadata. */
  datatype ProviderResult = ProviderResult(
    provider: string, link: string,
    kind: Option<string>, images: Option<seq<string>>,
    track: Option<string>, artist: Option<string>, album: Option<string>)

  /** `images || ''`: an image list, or the empty-string default. */
  datatype Images = ImageList(urls: seq<string>) | NoImages

  datatype Metadata = Metadata(kind: string, images: Images, track: string, artist: string, album: string)

  /** `{metadata, links}`; `metadata` stays undefined when no provider has a result. */
  datatype Content = Content(metadata: Option<Metadata>, links: map<string, string>)

  /** The key under which the transpose link is added to the links. */
  const TransposeKey := "transpose"

  /** `value || ''` for a string property. */
  function OrEmpty(o: Option<string>): string
  {
    match o
    case Some(s) => s
    case None => ""
  }

  function MetadataOf(res: ProviderResult): Metadata
  {
    Metadata(OrEmpty(res.kind),
             match res.images case Some(urls) => ImageList(urls) case None => NoImages,
             OrEmpty(res.track), OrEmpty(res.artist), OrEmpty(res.album))
  }

  // ---------------------------------------------------------------------
  // formatResults

  /** Each listed provider's link, keyed by the provider's name. */
  function LinksOf(results: map<string, ProviderResult>, ps: seq<ProviderId>): map<string, string>
    requires forall i :: 0 <= i < |ps| ==> ps[i].Name() in results
  {
    map p | p in ps :: p.Name() := results[p.Name()].link
  }

  lemma LinksOfSnoc(results: map<string, ProviderResult>, ps: seq<ProviderId>, p: ProviderId)
    requires forall i :: 0 <= i < |ps| ==> ps[i].Name() in results
    requires p.Name() in results
    ensures LinksOf(results, ps + [p]) == LinksOf(results, ps)[p.Name() := results[p.Name()].link]
  {
  }

  /** What `formatResults` computes from the results keyed by provider name:
      nothing when some configured provider has no result (reading its `link`
      throws), otherwise the metadata of the first provider and one link per
      provider. */
  function FormattedContent(results: map<string, ProviderResult>): (r: Option<Content>)
    ensures r.Some? <==> "spotify" in results && "apple" in results
    ensures r.Some? ==> r.value.metadata == Some(MetadataOf(results["spotify"]))
    ensures r.Some? ==> r.value.links == map["spotify" := results["spotify"].link, "apple" := results["apple"].link]
  {
    assert ProviderOrder[0].Name() == "spotify" && ProviderOrder[1].Name() == "apple";
    if forall i :: 0 <= i < |ProviderOrder| ==> ProviderOrder[i].Name() in results then
      Some(Content(Some(MetadataOf(results[ProviderOrder[0].Name()])), LinksOf(results, ProviderOrder)))
    else
      None
  }

  /** The stored links never hold a transpose link: they are keyed by provider. */
  lemma FormattedHasNoTransposeLink(results: map<string, ProviderResult>)
    requires FormattedContent(results).Some?
    ensures TransposeKey !in FormattedContent(results).value.links
    ensures forall p: ProviderId :: FormattedContent(results).value.links[p.Name()] == results[p.Name()].link
  {
  }

  /** `formatResults`: the loop over the providers in their configured order,
      taking the metadata of the first one with a result and writing each
      provider's link. */
  method FormatResults(results: map<string, ProviderResult>) returns (r: Option<Content>)
    ensures r == FormattedContent(results)
  {
    var metadata: Option<Metadata> := None;
    var links: map<string, string> := map[];
    var i := 0;
    while i < |ProviderOrder|
      invariant 0 <= i <= |ProviderOrder|
      invariant forall j :: 0 <= j < i ==> ProviderOrder[j].Name() in results
      invariant metadata == if i == 0 then None else Some(MetadataOf(results[ProviderOrder[0].Name()]))
      invariant links == LinksOf(results, ProviderOrder[..i])
    {
      var p := ProviderOrder[i];
      if metadata.None? && p.Name() in results {
        metadata := Some(MetadataOf(results[p.Name()]));
      }
      if p.Name() !in results {
        return None;
      }
      LinksOfSnoc(results, ProviderOrder[..i], p);
      links := links[p.Name() := results[p.Name()].link];
      assert ProviderOrder[..i + 1] == ProviderOrder[..i] + [p];
      i := i + 1;
    }
    assert ProviderOrder[..i] == ProviderOrder;
    return Some(Content(metadata, links));
  }

  // ---------------------------------------------------------------------
  // processLink

  /** How a provider's `search` promise settles: rejected, or resolved to a
      result or to `undefined`. */
  datatype SearchOutcome = Rejected(reason: string) | Resolved(result: Option<ProviderResult>)

  /** Why `processLink` rejects: the provider name selects no adapter, the
      element could not be fetched, a search rejected (the fan-out's
      `Promise.all` rejects with it), or a search resolved to `undefined`,
      whose `provider` property cannot be read. */
  datatype ProcessError = UnknownProvider | ElementRejected(reason: string)
                        | SearchRejected(reason: string) | UndefinedResult

  /** `{query, transposeResults}`. */
  datatype Processed = Processed(terms: string, results: map<string, ProviderResult>)

  /** The results keyed by the provider each one names, in order. */
  function KeyedByProvider(rs: seq<ProviderResult>): map<string, ProviderResult>
    decreases |rs|
  {
    if |rs| == 0 then map[] else KeyedByProvider(rs[..|rs| - 1])[rs[|rs| - 1].provider := rs[|rs| - 1]]
  }

  /** The keys are exactly the providers the results name. */
  lemma {:induction false} KeyedByProviderKeys(rs: seq<ProviderResult>)
    ensures forall i :: 0 <= i < |rs| ==> rs[i].provider in KeyedByProvider(rs)
    ensures forall k :: k in KeyedByProvider(rs) ==> exists i :: 0 <= i < |rs| && rs[i].provider == k
    decreases |rs|
  {
    if |rs| > 0 {
      var n := |rs| - 1;
      var init := rs[..n];
      KeyedByProviderKeys(init);
      var m0, m := KeyedByProvider(init), KeyedByProvider(rs);
      assert m == m0[rs[n].provider := rs[n]];
      forall i | 0 <= i < n ensures rs[i].provider in m {
        assert init[i] == rs[i];
      }
      forall k | k in m && k != rs[n].provider ensures exists i :: 0 <= i < |rs| && rs[i].provider == k {
        var i :| 0 <= i < n && init[i].provider == k;
        assert rs[i] == init[i];
      }
    }
  }

  /** Each key holds the last result naming it: a later result replaces an
      earlier one. */
  lemma {:induction false} KeyedByProviderLastWins(rs: seq<ProviderResult>, i: nat)
    requires i < |rs|
    requires forall j :: i < j < |rs| ==> rs[j].provider != rs[i].provider
    ensures rs[i].provider in KeyedByProvider(rs) && KeyedByProvider(rs)[rs[i].provider] == rs[i]
    decreases |rs|
  {
    var n := |rs| - 1;
    var init := rs[..n];
    assert KeyedByProvider(rs) == KeyedByProvider(init)[rs[n].provider := rs[n]];
    if i < n {
      assert init[i] == rs[i];
      forall j | i < j < n ensures init[j].provider != init[i].provider {
        assert init[j] == rs[j];
      }
      KeyedByProviderLastWins(init, i);
    }
  }

  /** The first rejection, in provider order. */
  function FirstRejection(outcomes: seq<SearchOutcome>): (r: Option<string>)
    ensures r.None? <==> forall i :: 0 <= i < |outcomes| ==> outcomes[i].Resolved?
    ensures r.Some? ==> exists i :: 0 <= i < |outcomes| && outcomes[i] == Rejected(r.value)
    decreases |outcomes|
  {
    if |outcomes| == 0 then None
    else if outcomes[0].Rejected? then Some(outcomes[0].reason)
    else
      var rest := FirstRejection(outcomes[1..]);
      assert forall i :: 1 <= i < |outcomes| ==> outcomes[1..][i - 1] == outcomes[i];
      rest
  }

  /** Every configured provider searched for the element, in provider order. */
  function Fanout(kind: string, element: ElementData, search: (ProviderId, string, ElementData) -> SearchOutcome): (r: seq<SearchOutcome>)
    ensures |r| == |ProviderOrder|
    ensures forall i :: 0 <= i < |ProviderOrder| ==> r[i] == search(ProviderOrder[i], kind, element)
  {
    seq(|ProviderOrder|, i requires 0 <= i < |ProviderOrder| => search(ProviderOrder[i], kind, element))
  }

  /** The settled results, once every outcome is resolved to a result. */
  function ResultsOf(outcomes: seq<SearchOutcome>): (r: seq<ProviderResult>)
    requires forall i :: 0 <= i < |outcomes| ==> outcomes[i].Resolved? && outcomes[i].result.Some?
    ensures |r| == |outcomes| && forall i :: 0 <= i < |outcomes| ==> r[i] == outcomes[i].result.value
  {
    seq(|outcomes|, i requires 0 <= i < |outcomes| => outcomes[i].result.value)
  }

  /** What `processLink` resolves or rejects with. */
  function ProcessOutcome(provider: string, kind: string, id: string,
                          getElement: (ProviderId, string, string) -> Result<ElementData, string>,
                          search: (ProviderId, string, ElementData) -> SearchOutcome): (r: Result<Processed, ProcessError>)
    ensures r == Failure(UnknownProvider) <==> ProviderNamed(provider).None?
    ensures r.Success? ==>
              var element := getElement(ProviderNamed(provider).value, kind, id);
              element.Success? && r.value.terms == Join(Values(element.value), " ")
              && forall i :: 0 <= i < |ProviderOrder| ==>
                   search(ProviderOrder[i], kind, element.value).Resolved?
                   && search(ProviderOrder[i], kind, element.value).result.Some?
  {
    match ProviderNamed(provider)
    case None => Failure(UnknownProvider)
    case Some(p) =>
      match getElement(p, kind, id)
      case Failure(e) => Failure(ElementRejected(e))
      case Success(element) =>
        var outcomes := Fanout(kind, element, search);
        match FirstRejection(outcomes)
        case Some(reason) => Failure(SearchRejected(reason))
        case None =>
          if exists i :: 0 <= i < |outcomes| && outcomes[i].result.None? then Failure(UndefinedResult)
          else
            Success(Processed(Join(Values(element), " "), KeyedByProvider(ResultsOf(outcomes))))
  }

  /** When every provider's search reports a result under its own name, the
      processed results format into one link per provider, each the link
      that provider's search found, with the first provider's metadata. */
  lemma ProcessedResultsFormat(provider: string, kind: string, id: string,
                               getElement: (ProviderId, string, string) -> Result<ElementData, string>,
                               search: (ProviderId, string, ElementData) -> SearchOutcome,
                               element: ElementData, found: ProviderId -> ProviderResult)
    requires ProviderNamed(provider).Some?
    requires getElement(ProviderNamed(provider).value, kind, id) == Success(element)
    requires forall q: ProviderId :: search(q, kind, element) == Resolved(Some(found(q))) && found(q).provider == q.Name()
    ensures ProcessOutcome(provider, kind, id, getElement, search).Success?
    ensures var content := FormattedContent(ProcessOutcome(provider, kind, id, getElement, search).value.results);
            content.Some?
            && content.value.metadata == Some(MetadataOf(found(Spotify)))
            && forall q: ProviderId :: content.value.links[q.Name()] == found(q).link
  {
    var outcomes := Fanout(kind, element, search);
    assert outcomes[0] == Resolved(Some(found(Spotify))) && outcomes[1] == Resolved(Some(found(Apple)));
    var rs := ResultsOf(outcomes);
    assert rs == [found(Spotify), found(Apple)];
    var m := KeyedByProvider(rs);
    assert m == KeyedByProvider([found(Spotify)])["apple" := found(Apple)] by {
      assert rs[..1] == [found(Spotify)];
    }
    assert KeyedByProvider([found(Spotify)]) == map["spotify" := found(Spotify)] by {
      assert [found(Spotify)][..0] == [];
    }
  }

  /** `processLink`: fetch the element from the named provider, search every
      provider for it, build the search terms from the element's values, and
      key the results by the provider each one names. */
  method ProcessLink(provider: string, kind: string, id: string,
                     getElement: (ProviderId, string, string) -> Result<ElementData, string>,
                     search: (ProviderId, string, ElementData) -> SearchOutcome)
    returns (r: Result<Processed, ProcessError>)
    ensures r == ProcessOutcome(provider, kind, id, getElement, search)
  {
    var p := ProviderNamed(provider);
    if p.None? {
      return Failure(UnknownProvider);
    }
    var fetched := getElement(p.value, kind, id);
    if fetched.Failure? {
      return Failure(ElementRejected(fetched.error));
    }
    var element := fetched.value;
    var outcomes := Fanout(kind, element, search);
    var rejection := FirstRejection(outcomes);
    if rejection.Some? {
      return Failure(SearchRejected(rejection.value));
    }
    var terms := Join(Values(element), " ");
    var results: map<string, ProviderResult> := map[];
    var settled: seq<ProviderResult> := [];
    var i := 0;
    while i < |outcomes|
      invariant 0 <= i <= |outcomes|
      invariant |settled| == i
      invariant forall j :: 0 <= j < i ==> outcomes[j].result == Some(settled[j])
      invariant results == KeyedByProvider(settled)
    {
      if outcomes[i].result.None? {
        return Failure(UndefinedResult);
      }
      var res := outcomes[i].result.value;
      assert (settled + [res])[..i] == settled;
      settled := settled + [res];
      results := results[res.provider := res];
      i := i + 1;
    }
    assert settled == ResultsOf(outcomes);
    return Success(Processed(terms, results));
  }

  // ---------------------------------------------------------------------
  // Link ids

  /** The link id under which a record is indexed. */
  function LinkID(provider: string, kind: string, id: string): (r: string)
    ensures |r| == |provider| + |kind| + |id| + 2
  {
    provider + ":" + kind + ":" + id
  }

  lemma ColonPrefix(a: string, x: string)
    requires ':' !in a
    ensures Split(a + ":" + x, ':')[0] == a
  {
    assert a + ":" + x == a + (":" + x);
    SplitPrefix(a, ":" + x, ':');
    assert (":" + x)[1..] == x;
    assert a + "" == a;
  }

  lemma ColonParts(a: string, x: string, b: string, y: string)
    requires ':' !in a && ':' !in b && a + ":" + x == b + ":" + y
    ensures a == b && x == y
  {
    ColonPrefix(a, x);
    ColonPrefix(b, y);
    var s := a + ":" + x;
    assert s[|a| + 1..] == x;
    assert (b + ":" + y)[|b| + 1..] == y;
  }

  /** Distinct requests have distinct link ids, as long as the provider and
      the type hold no ':' (the id may). */
  lemma LinkIDInjective(p1: string, k1: string, i1: string, p2: string, k2: string, i2: string)
    requires ':' !in p1 && ':' !in k1 && ':' !in p2 && ':' !in k2
    requires LinkID(p1, k1, i1) == LinkID(p2, k2, i2)
    ensures p1 == p2 && k1 == k2 && i1 == i2
  {
    assert LinkID(p1, k1, i1) == p1 + ":" + (k1 + ":" + i1);
    assert LinkID(p2, k2, i2) == p2 + ":" + (k2 + ":" + i2);
    ColonParts(p1, k1 + ":" + i1, p2, k2 + ":" + i2);
    ColonParts(k1, i1, k2, i2);
  }

  /** Without that proviso two requests share a link id, and so a cache entry. */
  lemma LinkIDCollides()
    ensures LinkID("spotify", "track:1", "2") == LinkID("spotify", "track", "1:2")
  {
  }

  // ---------------------------------------------------------------------
  // The record table

  /** An item of the table. */
  datatype TransposeRecord = TransposeRecord(id: string, linkID: string, terms: string, content: Content)

  /** The `terms, content` projection a link-index query returns. */
  datatype CachedLink = CachedLink(terms: string, content: Content)

  /** `cached` is an answer the link-index query may give for `linkID`: none
      when no record carries it, otherwise the projection of one that does. */
  ghost predicate LinkAnswer(records: map<string, TransposeRecord>, linkID: string, cached: Option<CachedLink>)
  {
    match cached
    case None => forall k :: k in records ==> records[k].linkID != linkID
    case Some(c) => exists k :: k in records && records[k].linkID == linkID
                                && c == CachedLink(records[k].terms, records[k].content)
  }

  /** Every record sits under its own id and holds no transpose link. */
  ghost predicate WellKept(records: map<string, TransposeRecord>)
  {
    forall k :: k in records ==> records[k].id == k && TransposeKey !in records[k].content.links
  }

  /** A cached answer from a well-kept table carries no transpose link. */
  lemma CachedHasNoTransposeLink(records: map<string, TransposeRecord>, linkID: string, c: CachedLink)
    requires WellKept(records) && LinkAnswer(records, linkID, Some(c))
    ensures TransposeKey !in c.content.links
  {
    var k :| k in records && records[k].linkID == linkID && c == CachedLink(records[k].terms, records[k].content);
  }

  /** The table, keyed by record id. */
  class TransposeTable {
    var records: map<string, TransposeRecord>

    ghost predicate Valid()
      reads this
    {
      WellKept(records)
    }

    constructor ()
      ensures records == map[] && Valid()
    {
      records := map[];
    }

    /** `getLinkRecord`: the items of a link-index query come in no specified
        order, so which of several matching records answers is left open. */
    method GetLinkRecord(linkID: string) returns (r: Option<CachedLink>)
      ensures LinkAnswer(records, linkID, r)
    {
      if k :| k in records && records[k].linkID == linkID {
        return Some(CachedLink(records[k].terms, records[k].content));
      }
      return None;
    }

    /** `putTransposeRecord`: an unconditional put, replacing any record with
        the same id and leaving every other record as it was. */
    method PutTransposeRecord(id: string, linkID: string, terms: string, content: Content)
      modifies this
      ensures records == old(records)[id := TransposeRecord(id, linkID, terms, content)]
      ensures old(Valid()) && TransposeKey !in content.links ==> Valid()
    {
      records := records[id := TransposeRecord(id, linkID, terms, content)];
    }

    /** `getTransposeRecord`: the record with the given id, if there is one. */
    method GetTransposeRecord(id: string) returns (r: Option<TransposeRecord>)
      ensures r.Some? <==> id in records
      ensures r.Some? ==> r.value == records[id]
    {
      if id in records {
        return Some(records[id]);
      }
      return None;
    }
  }

  // ---------------------------------------------------------------------
  // Replies

  /** What a handler sends: a bare status, or a JSON body. */
  datatype Sent = Status(code: nat) | Json(content: Content)

  /** `/t/:id`: the stored content when a record with that id exists, 404
      otherwise. An empty id is answered 400, but the route does not return:
      it looks the id up all the same, and its second send throws. */
  method Resolve(table: TransposeTable, id: string) returns (r: Sent, threw: bool)
    ensures threw <==> id == ""
    ensures id == "" ==> r == Status(400)
    ensures id != "" ==> (r.Json? <==> id in table.records)
    ensures id != "" && r.Json? ==> r.content == table.records[id].content
    ensures id != "" && r.Status? ==> r.code == 404
  {
    var first: Option<Sent> := None;
    if id == "" {
      first := Some(Status(400));
    }
    var record := table.GetTransposeRecord(id);
    var second := if record.None? then Status(404) else Json(record.value.content);
    if first.Some? {
      return first.value, true;
    }
    return second, false;
  }

  /** The reply content: the stored content with the transpose link added. */
  function WithTransposeLink(content: Content, base: string, freshId: string): (r: Content)
    ensures r.metadata == content.metadata
    ensures r.links.Keys == content.links.Keys + {TransposeKey}
    ensures r.links[TransposeKey] == base + "/t/" + freshId
    ensures forall k :: k in content.links && k != TransposeKey ==> r.links[k] == content.links[k]
  {
    Content(content.metadata, content.links[TransposeKey := base + "/t/" + freshId])
  }
}
