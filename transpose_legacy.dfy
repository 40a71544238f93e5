/** The `/transpose/:provider/:type/:id` handler of the earlier server
    revision. It checks only that the parameters are present, formats the
    results after the lookup on hits and misses alike, and wraps link
    processing in a promise that never settles when processing fails. */
module TransposeLegacy {
  import opened Wrappers
  import opened Catalog
  import opened Orchestration
  import TransposeApp

  /** The fixed base of the transpose links this revision hands out. */
  const LegacyBase := "https://transpose.com"

  /** How a request ends: the callback returned, threw, or waits forever on
      a promise whose executor threw. */
  datatype Ending = Returned | Threw | NeverSettles

  datatype Exchange = Exchange(reply: Option<Sent>, ending: Ending)

  /** What the handler has gathered before formatting: fresh results from
      processing, or the content of the record the lookup found. */
  datatype Gathered = Fresh(results: map<string, ProviderResult>) | Reused(content: Content)

  /** `formatResults` applied to what was gathered. A reused `{metadata, links}`
      object has no property named after a provider, so reading the first
      provider's `link` throws. */
  function LegacyFormat(g: Gathered): (r: Option<Content>)
    ensures g.Reused? ==> r.None?
    ensures g.Fresh? ==> r == FormattedContent(g.results)
  {
    match g
    case Fresh(results) => FormattedContent(results)
    case Reused(_) => None
  }

  /** The terms and what is formatted: those of the record found, or of the
      processed link; nothing when processing rejects, which leaves the
      wrapping promise pending. */
  function Gather(cached: Option<CachedLink>, provider: string, kind: string, id: string,
                  getElement: (ProviderId, string, string) -> Result<ElementData, string>,
                  search: (ProviderId, string, ElementData) -> SearchOutcome): (r: Option<(string, Gathered)>)
    ensures cached.Some? ==> r == Some((cached.value.terms, Reused(cached.value.content)))
    ensures cached.None? ==>
              var processed := ProcessOutcome(provider, kind, id, getElement, search);
              (r.None? <==> processed.Failure?)
              && (r.Some? ==> r.value == (processed.value.terms, Fresh(processed.value.results)))
  {
    match cached
    case Some(c) => Some((c.terms, Reused(c.content)))
    case None =>
      match ProcessOutcome(provider, kind, id, getElement, search)
      case Failure(_) => None
      case Success(processed) => Some((processed.terms, Fresh(processed.results)))
  }

  /** The earlier handler, given what the link-index query answered: the
      record it puts (if any) and the exchange. */
  function LegacyStep(cached: Option<CachedLink>, provider: string, kind: string, id: string, freshId: string,
                      getElement: (ProviderId, string, string) -> Result<ElementData, string>,
                      search: (ProviderId, string, ElementData) -> SearchOutcome): (r: (Option<TransposeRecord>, Exchange))
    ensures r.0.Some? ==> r.0.value.id == freshId && r.0.value.linkID == LinkID(provider, kind, id)
                          && cached.None? && TransposeKey !in r.0.value.content.links
    ensures r.1.ending == Returned <==> provider != "" && kind != "" && id != "" && r.0.Some?
    ensures r.1.ending == Returned ==>
              r.0.Some? && r.1.reply == Some(Json(WithTransposeLink(r.0.value.content, LegacyBase, freshId)))
    ensures provider == "" || kind == "" || id == "" ==> r.1.reply == Some(Status(400))
    ensures provider != "" && kind != "" && id != "" && r.0.None? ==> r.1.reply.None?
    ensures var g := Gather(cached, provider, kind, id, getElement, search);
            g.Some? && LegacyFormat(g.value.1).None? ==> r.1.ending == Threw
    ensures var g := Gather(cached, provider, kind, id, getElement, search);
            (g.None? ==> r.0.None? && r.1.ending == NeverSettles)
            && (r.0.Some? <==> g.Some? && LegacyFormat(g.value.1).Some?)
            && (r.0.Some? ==> r.0.value.terms == g.value.0 && r.0.value.content == LegacyFormat(g.value.1).value)
  {
    var reply := if provider == "" || kind == "" || id == "" then Some(Status(400)) else None;
    match Gather(cached, provider, kind, id, getElement, search)
    case None => (None, Exchange(reply, NeverSettles))
    case Some((terms, gathered)) =>
      match LegacyFormat(gathered)
      case None => (None, Exchange(reply, Threw))
      case Some(content) =>
        FormattedHasNoTransposeLink(gathered.results);
        var record := TransposeRecord(freshId, LinkID(provider, kind, id), terms, content);
        if reply.Some? then (Some(record), Exchange(reply, Threw))
        else (Some(record), Exchange(Some(Json(WithTransposeLink(content, LegacyBase, freshId))), Returned))
  }

  /** The request that shows the defect: any link already in the table makes
      the handler throw, with nothing stored and nothing sent. */
  lemma LegacyHitFails(c: CachedLink, provider: string, kind: string, id: string, freshId: string,
                       getElement: (ProviderId, string, string) -> Result<ElementData, string>,
                       search: (ProviderId, string, ElementData) -> SearchOutcome)
    requires provider != "" && kind != "" && id != ""
    ensures LegacyStep(Some(c), provider, kind, id, freshId, getElement, search) == (None, Exchange(None, Threw))
  {
  }

  /** The current server answers the same hit from the record found, with the
      fresh transpose link added. */
  lemma CurrentServerAnswersHit(c: CachedLink, base: string, provider: string, kind: string, id: string, freshId: string,
                                getElement: (ProviderId, string, string) -> Result<ElementData, string>,
                                search: (ProviderId, string, ElementData) -> SearchOutcome)
    requires TransposeApp.RejectingChecks(provider, kind, id) == 0
    ensures TransposeApp.TransposeStep(Some(c), base, provider, kind, id, freshId, getElement, search)
            == (Some(TransposeRecord(freshId, LinkID(provider, kind, id), c.terms, c.content)),
                TransposeApp.Exchange(Some(Json(WithTransposeLink(c.content, base, freshId))), TransposeApp.Returned))
  {
  }

  /** On a miss that processes, the two revisions store the same record and
      send the same reply. */
  lemma MissMatchesCurrent(provider: string, kind: string, id: string, freshId: string,
                           getElement: (ProviderId, string, string) -> Result<ElementData, string>,
                           search: (ProviderId, string, ElementData) -> SearchOutcome)
    requires TransposeApp.RejectingChecks(provider, kind, id) == 0
    requires ProcessOutcome(provider, kind, id, getElement, search).Success?
    ensures var legacy := LegacyStep(None, provider, kind, id, freshId, getElement, search);
            var current := TransposeApp.TransposeStep(None, LegacyBase, provider, kind, id, freshId, getElement, search);
            legacy.0 == current.0 && legacy.1.reply == current.1.reply
  {
  }

  /** The earlier handler, step by step. */
  method LegacyHandleTranspose(table: TransposeTable, provider: string, kind: string, id: string, freshId: string,
                               getElement: (ProviderId, string, string) -> Result<ElementData, string>,
                               search: (ProviderId, string, ElementData) -> SearchOutcome)
    returns (ex: Exchange, ghost cached: Option<CachedLink>)
    modifies table
    ensures LinkAnswer(old(table.records), LinkID(provider, kind, id), cached)
    ensures var (put, ex') := LegacyStep(cached, provider, kind, id, freshId, getElement, search);
            ex == ex'
            && table.records == if put.Some? then old(table.records)[freshId := put.value] else old(table.records)
    ensures old(table.Valid()) ==> table.Valid()
  {
    var reply: Option<Sent> := None;
    if provider == "" || kind == "" || id == "" {
      reply := Some(Status(400));
    }
    var linkID := LinkID(provider, kind, id);
    var found := table.GetLinkRecord(linkID);
    cached := found;
    var terms, gathered;
    match found {
      case Some(c) =>
        terms, gathered := c.terms, Reused(c.content);
      case None =>
        var processed := ProcessLink(provider, kind, id, getElement, search);
        if processed.Failure? {
          return Exchange(reply, NeverSettles), cached;
        }
        terms, gathered := processed.value.terms, Fresh(processed.value.results);
    }
    var formatted: Option<Content>;
    match gathered {
      case Fresh(results) =>
        formatted := FormatResults(results);
      case Reused(_) =>
        formatted := None;
    }
    if formatted.None? {
      return Exchange(reply, Threw), cached;
    }
    var content := formatted.value;
    FormattedHasNoTransposeLink(gathered.results);
    table.PutTransposeRecord(freshId, linkID, terms, content);
    var answer := WithTransposeLink(content, LegacyBase, freshId);
    if reply.Some? {
      return Exchange(reply, Threw), cached;
    }
    return Exchange(Some(Json(answer)), Returned), cached;
  }
}
