/** The `/transpose/:provider/:type/:id` handler of the current server: the
    parameter checks, the cache lookup, link processing and formatting on a
    miss, the unconditional put of a fresh record and the reply with the
    transpose link. The Express response is modelled by what it has sent:
    a second send throws. */
module TransposeApp {
  import opened Wrappers
  import opened Strings
  import opened Catalog
  import opened Orchestration

  /** The names the `in` operator finds on every plain object, inherited from
      `Object.prototype` (sections 19.1.3 and B.2.2 of ECMA-262, 2015 edition). */
  const InheritedNames: set<string> := {
    "constructor", "hasOwnProperty", "isPrototypeOf", "propertyIsEnumerable",
    "toLocaleString", "toString", "valueOf", "__proto__",
    "__defineGetter__", "__defineSetter__", "__lookupGetter__", "__lookupSetter__"}

  /** The own keys of the `providers` and `types` objects. */
  const ProviderKeys: set<string> := {"spotify", "apple"}
  const TypeKeys: set<string> := {"track", "artist", "album"}

  /** `name in object` for an object literal with the given own keys. */
  predicate InObject(name: string, ownKeys: set<string>)
  {
    name in ownKeys || name in InheritedNames
  }

  /** How many of the three checks send a 400: the presence check, then
      `provider in providers`, then `type in types`. */
  function RejectingChecks(provider: string, kind: string, id: string): (n: nat)
    ensures n <= 3
    ensures n == 0 <==> provider != "" && kind != "" && id != ""
                        && InObject(provider, ProviderKeys) && InObject(kind, TypeKeys)
  {
    (if provider == "" || kind == "" || id == "" then 1 else 0)
    + (if InObject(provider, ProviderKeys) then 0 else 1)
    + (if InObject(kind, TypeKeys) then 0 else 1)
  }

  /** The request as the checks were evidently meant to admit it: all three
      parameters present, a configured provider and a listed type. */
  predicate ValidIntended(provider: string, kind: string, id: string)
  {
    id != "" && provider in ProviderKeys && kind in TypeKeys
  }

  /** The checks as written admit every intended request, and also requests
      whose type is a name every object inherits. */
  lemma ChecksAdmitIntended(provider: string, kind: string, id: string)
    ensures ValidIntended(provider, kind, id) ==> RejectingChecks(provider, kind, id) == 0
    ensures RejectingChecks(provider, kind, id) == 0 ==>
              ValidIntended(provider, kind, id) || provider in InheritedNames || kind in InheritedNames
  {
  }

  lemma InheritedTypeAdmitted()
    ensures RejectingChecks("spotify", "constructor", "1") == 0
    ensures !ValidIntended("spotify", "constructor", "1")
  {
  }

  /** How a request ends: the callback returned, or it threw (what Express
      then does with the error is outside the model). */
  datatype Ending = Returned | Threw

  /** What the client receives, and how the handler ended. */
  datatype Exchange = Exchange(reply: Option<Sent>, ending: Ending)

  /** The search terms and content the handler stores: the cached ones on a
      hit; on a miss those of the processed and formatted link, or nothing
      when processing or formatting throws. */
  function Stored(cached: Option<CachedLink>, provider: string, kind: string, id: string,
                  getElement: (ProviderId, string, string) -> Result<ElementData, string>,
                  search: (ProviderId, string, ElementData) -> SearchOutcome): (r: Option<CachedLink>)
    ensures cached.Some? ==> r == cached
    ensures cached.None? && r.Some? ==>
              var processed := ProcessOutcome(provider, kind, id, getElement, search);
              processed.Success? && r.value.terms == processed.value.terms
              && FormattedContent(processed.value.results) == Some(r.value.content)
    ensures cached.None? && r.None? ==>
              var processed := ProcessOutcome(provider, kind, id, getElement, search);
              processed.Failure? || FormattedContent(processed.value.results).None?
  {
    match cached
    case Some(c) => Some(c)
    case None =>
      match ProcessOutcome(provider, kind, id, getElement, search)
      case Failure(_) => None
      case Success(processed) =>
        match FormattedContent(processed.results)
        case None => None
        case Some(content) => Some(CachedLink(processed.terms, content))
  }

  /** The handler as written, given what the link-index query answered: the
      record it puts (if any) and the exchange. A failed check sends 400 but
      does not return, so the request goes on to be looked up, processed
      and stored, and the final send throws; a second failed check throws
      at once. */
  function TransposeStep(cached: Option<CachedLink>, base: string, provider: string, kind: string, id: string,
                         freshId: string,
                         getElement: (ProviderId, string, string) -> Result<ElementData, string>,
                         search: (ProviderId, string, ElementData) -> SearchOutcome): (r: (Option<TransposeRecord>, Exchange))
    ensures r.0.Some? ==> r.0.value.id == freshId && r.0.value.linkID == LinkID(provider, kind, id)
    ensures r.1.ending == Returned <==> RejectingChecks(provider, kind, id) == 0 && r.0.Some?
    ensures r.1.ending == Returned ==> r.1.reply == Some(Json(WithTransposeLink(r.0.value.content, base, freshId)))
    ensures RejectingChecks(provider, kind, id) > 0 ==> r.1.reply == Some(Status(400))
    ensures RejectingChecks(provider, kind, id) == 0 && r.0.None? ==> r.1.reply.None?
    ensures RejectingChecks(provider, kind, id) >= 2 ==> r.0.None? && r.1.ending == Threw
    ensures RejectingChecks(provider, kind, id) < 2 ==>
              var s := Stored(cached, provider, kind, id, getElement, search);
              (r.0.Some? <==> s.Some?)
              && (r.0.Some? ==> r.0.value.terms == s.value.terms && r.0.value.content == s.value.content)
  {
    var checks := RejectingChecks(provider, kind, id);
    if checks >= 2 then (None, Exchange(Some(Status(400)), Threw))
    else
      var reply := if checks == 1 then Some(Status(400)) else None;
      match Stored(cached, provider, kind, id, getElement, search)
      case None => (None, Exchange(reply, Threw))
      case Some(s) =>
        var record := TransposeRecord(freshId, LinkID(provider, kind, id), s.terms, s.content);
        if reply.Some? then (Some(record), Exchange(reply, Threw))
        else (Some(record), Exchange(Some(Json(WithTransposeLink(s.content, base, freshId))), Returned))
  }

  /** A hit is served from the record found: the providers are not consulted,
      and the stored terms and content are the cached ones. */
  lemma HitSkipsProcessing(c: CachedLink, base: string, provider: string, kind: string, id: string, freshId: string,
                           getElement: (ProviderId, string, string) -> Result<ElementData, string>,
                           search: (ProviderId, string, ElementData) -> SearchOutcome,
                           getElement': (ProviderId, string, string) -> Result<ElementData, string>,
                           search': (ProviderId, string, ElementData) -> SearchOutcome)
    requires RejectingChecks(provider, kind, id) < 2
    ensures var r := TransposeStep(Some(c), base, provider, kind, id, freshId, getElement, search);
            r == TransposeStep(Some(c), base, provider, kind, id, freshId, getElement', search')
            && r.0 == Some(TransposeRecord(freshId, LinkID(provider, kind, id), c.terms, c.content))
  {
  }

  /** Whatever is stored from a well-kept table, hit or miss, holds no
      transpose link: it is added to the reply only. */
  lemma StoredHasNoTransposeLink(records: map<string, TransposeRecord>, cached: Option<CachedLink>,
                                 base: string, provider: string, kind: string, id: string, freshId: string,
                                 getElement: (ProviderId, string, string) -> Result<ElementData, string>,
                                 search: (ProviderId, string, ElementData) -> SearchOutcome)
    requires WellKept(records) && LinkAnswer(records, LinkID(provider, kind, id), cached)
    ensures var r := TransposeStep(cached, base, provider, kind, id, freshId, getElement, search);
            r.0.Some? ==> TransposeKey !in r.0.value.content.links && WellKept(records[freshId := r.0.value])
  {
    var r := TransposeStep(cached, base, provider, kind, id, freshId, getElement, search);
    if r.0.Some? {
      match cached
      case Some(c) => CachedHasNoTransposeLink(records, LinkID(provider, kind, id), c);
      case None =>
        var processed := ProcessOutcome(provider, kind, id, getElement, search);
        FormattedHasNoTransposeLink(processed.value.results);
    }
  }

  /** The request that shows the missing `return`: an unlisted type is
      answered 400, yet a record is stored for it. */
  lemma RejectedRequestStillStored(c: CachedLink, base: string, freshId: string,
                                   getElement: (ProviderId, string, string) -> Result<ElementData, string>,
                                   search: (ProviderId, string, ElementData) -> SearchOutcome)
    ensures var r := TransposeStep(Some(c), base, "spotify", "playlist", "1", freshId, getElement, search);
            r.1.reply == Some(Status(400)) && r.0.Some?
  {
    assert RejectingChecks("spotify", "playlist", "1") == 1;
  }

  /** The handler with what it evidently intends: a request the intended
      checks refuse is answered 400 and nothing else happens. */
  function TransposeStepIntended(cached: Option<CachedLink>, base: string, provider: string, kind: string, id: string,
                                 freshId: string,
                                 getElement: (ProviderId, string, string) -> Result<ElementData, string>,
                                 search: (ProviderId, string, ElementData) -> SearchOutcome): (r: (Option<TransposeRecord>, Exchange))
    ensures !ValidIntended(provider, kind, id) ==> r == (None, Exchange(Some(Status(400)), Returned))
    ensures ValidIntended(provider, kind, id) ==>
              r == TransposeStep(cached, base, provider, kind, id, freshId, getElement, search)
  {
    if !ValidIntended(provider, kind, id) then (None, Exchange(Some(Status(400)), Returned))
    else
      ChecksAdmitIntended(provider, kind, id);
      match Stored(cached, provider, kind, id, getElement, search)
      case None => (None, Exchange(None, Threw))
      case Some(s) =>
        (Some(TransposeRecord(freshId, LinkID(provider, kind, id), s.terms, s.content)),
         Exchange(Some(Json(WithTransposeLink(s.content, base, freshId))), Returned))
  }

  /** The corrected handler answers every admitted request that it can store,
      and sends exactly one reply whenever it returns. */
  lemma IntendedAnswersOnce(cached: Option<CachedLink>, base: string, provider: string, kind: string, id: string,
                            freshId: string,
                            getElement: (ProviderId, string, string) -> Result<ElementData, string>,
                            search: (ProviderId, string, ElementData) -> SearchOutcome)
    ensures var r := TransposeStepIntended(cached, base, provider, kind, id, freshId, getElement, search);
            (r.0.Some? ==> ValidIntended(provider, kind, id) && r.1.ending == Returned
                           && r.1.reply == Some(Json(WithTransposeLink(r.0.value.content, base, freshId))))
            && (r.1.reply == Some(Status(400)) ==> r.0.None?)
  {
  }

  /** The handler: every step performed in the order the source performs it.
      `freshId` is the id `nanoid(10)` generates and `base` the configured
      URL base; `cached` is what the link-index query answered. */
  method HandleTranspose(table: TransposeTable, base: string, provider: string, kind: string, id: string,
                         freshId: string,
                         getElement: (ProviderId, string, string) -> Result<ElementData, string>,
                         search: (ProviderId, string, ElementData) -> SearchOutcome)
    returns (ex: Exchange, ghost cached: Option<CachedLink>)
    modifies table
    ensures RejectingChecks(provider, kind, id) < 2 ==> LinkAnswer(old(table.records), LinkID(provider, kind, id), cached)
    ensures var (put, ex') := TransposeStep(cached, base, provider, kind, id, freshId, getElement, search);
            ex == ex'
            && table.records == if put.Some? then old(table.records)[freshId := put.value] else old(table.records)
    ensures old(table.Valid()) ==> table.Valid()
  {
    cached := None;
    var reply: Option<Sent> := None;
    if provider == "" || kind == "" || id == "" {
      reply := Some(Status(400));
    }
    if !InObject(provider, ProviderKeys) {
      if reply.Some? {
        return Exchange(reply, Threw), cached;
      }
      reply := Some(Status(400));
    }
    if !InObject(kind, TypeKeys) {
      if reply.Some? {
        return Exchange(reply, Threw), cached;
      }
      reply := Some(Status(400));
    }
    var linkID := LinkID(provider, kind, id);
    ghost var before := table.records;
    var found := table.GetLinkRecord(linkID);
    cached := found;
    var terms, content;
    match found {
      case Some(c) =>
        terms, content := c.terms, c.content;
      case None =>
        var processed := ProcessLink(provider, kind, id, getElement, search);
        if processed.Failure? {
          return Exchange(reply, Threw), cached;
        }
        var formatted := FormatResults(processed.value.results);
        if formatted.None? {
          return Exchange(reply, Threw), cached;
        }
        terms, content := processed.value.terms, formatted.value;
    }
    if WellKept(before) {
      StoredHasNoTransposeLink(before, cached, base, provider, kind, id, freshId, getElement, search);
    }
    table.PutTransposeRecord(freshId, linkID, terms, content);
    var answer := WithTransposeLink(content, base, freshId);
    if reply.Some? {
      return Exchange(reply, Threw), cached;
    }
    return Exchange(Some(Json(answer)), Returned), cached;
  }
}
