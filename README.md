# Transpose, modelled in Dafny

Transpose converts a music share link from one streaming provider (Spotify
or Apple Music) into the matching link on the other one.

- A React Native app recognises the provider of a pasted link and asks for
  the other provider's link.
- An Express server does the conversion:
  - it looks the element up at its own provider;
  - it searches every provider for it;
  - it formats the results into metadata plus one link per provider;
  - it stores the results in a table keyed by a short random id;
  - it answers with a "transpose link" that resolves to the stored content.

This project models the following as plain Dafny values, functions and
lemmas:

- the share-link parsers (which provider a link belongs to; which element
  type and id an Apple Music or Spotify link names);
- the track-title cleaner;
- the two providers' query strings, search type vocabularies, parameter
  serialisation and response shaping.

The server's handler flows are modelled imperatively:

- the record table is a class over a `map`;
- the current `/transpose` handler, the earlier revision's version of it,
  `processLink`, `formatResults` and `/t/:id` are methods;
- each method is proved equal to a pure step function, and the properties
  are proved about that function.

The app's component state is a class whose methods stand for the state
setters.

Module layout:

| file | module | what it holds |
|---|---|---|
| `wrappers.dfy` | `Wrappers` | `Option` and `Result` |
| `strings.dfy` | `Strings` | `join`, `split` and decimal rendering |
| `grammar.dfy` | `Grammar` | character classes and regular-expression segments; the leftmost scan `String.prototype.match` performs |
| `title_info.dfy` | `TitleInfo` | `stripExtraTitleInfo` |
| `catalog.dfy` | `Catalog` | providers, element data, HTTP outcomes |
| `link_info.dfy` | `LinkInfo` | the link parsers of the app and of the server |
| `uri_encoding.dfy` | `UriEncoding` | `encodeURIComponent` and `decodeURIComponent` of ECMA-262 (section 18.2.6 of the 2015 edition), over UTF-8 |
| `spotify.dfy` | `SpotifyProvider` | the Spotify adapter's pure parts |
| `apple.dfy` | `AppleProvider` | the Apple Music adapter's pure parts |
| `orchestration.dfy` | `Orchestration` | `formatResults`, `processLink`, link ids, the record table, `/t/:id` |
| `transpose_app.dfy` | `TransposeApp` | the current `/transpose/:provider/:type/:id` handler (`server/app.js`) |
| `transpose_legacy.dfy` | `TransposeLegacy` | the same handler in the earlier revision (`server/index.js`) |
| `client_app.dfy` | `ClientApp` | the app's provider choice and its link state (`App.tsx`) |

Inputs the model takes as parameters instead of performing them:

- The providers' HTTP responses are `Catalog.Http` values.
- The two adapter operations the server fans out to are function-valued
  parameters:
  - `getElement` stands for fetching the element data of the route's type
    and id from the named provider (no link is parsed on this path);
  - `search` stands for the provider's `search`.
- The id `nanoid(10)` generates is the parameter `freshId`.
- The configured link base is the parameter `base`.
- The answer of the table's link-index query is a ghost out-parameter,
  constrained by `Orchestration.LinkAnswer`.

## Model

| member | source | states |
|---|---|---|
| TitleInfo.ReplaceFirst | server/providers/utilities.js:10 | The title comes back unchanged exactly when the pattern matches nowhere. Otherwise the leftmost match, taken at its longest, is cut out, and the title loses at least two characters. |
| TitleInfo.StripExtraTitleInfo | server/providers/utilities.js:9-19 | Null exactly when the title holds neither a parenthesised span nor a bracketed span. A cleaned title is at least two characters shorter. |
| TitleInfo.NoSpanIffUnbracketed | server/providers/utilities.js:10 | On a title without line breaks, the pattern matches nowhere exactly when no opening delimiter comes before a matching closing one. |
| TitleInfo.ReplaceFirstLeavesNone | server/providers/utilities.js:10 | One replacement on a title without line breaks leaves no span of the same kind behind. |
| TitleInfo.StripIsFinal | server/providers/utilities.js:9-19 | Cleaning an already cleaned title without line breaks reports null: one pass removes everything it can. |
| TitleInfo.StripTrailingPart | server/providers/utilities.js:9-19 | A title ending in one parenthesised part loses exactly that part. Nothing is trimmed. |
| TitleInfo.TrailingSpacesKept | server/providers/utilities.js:5-19 | The title from the function's comment, "When the Lions Come  (feat. Castro, Logic, & Blaque Keyz)", cleans to "When the Lions Come  ". The two spaces stay, though the comment shows them trimmed. |
| Grammar.Leftmost | src/utlities/index.ts:10 | A match is found at the first position where the pattern succeeds, and at no earlier one. No match means the pattern fails at every position. |
| LinkInfo.DottedWordAt | src/utlities/index.ts:10 | A `.word.` at the start of the text gives a non-empty word of word characters between two dots. |
| LinkInfo.DetermineProviderFromLink | src/utlities/index.ts:8-31 | (1) Undefined exactly when no `.word.` occurs anywhere. (2) Otherwise the leftmost `.word.` decides: the result fails exactly when that word names no provider, and is the provider it names otherwise. (3) A failure is always the unsupported-provider error. |
| LinkInfo.FirstDottedWordDecides | src/utlities/index.ts:10-27 | When no position before a `.word.` starts one (dots that start no `.word.` are allowed), that word decides, whatever follows it: `spotify` or `apple` gives that provider, and any other word throws. |
| LinkInfo.NoDotStartsNoWord | src/utlities/index.ts:10 | A prefix without a dot starts no `.word.` at any of its positions. |
| LinkInfo.DoubledDotSkipped | src/utlities/index.ts:10-27 | A dot followed by another dot starts no `.word.`, so in `x..word.rest` the word still decides the provider or the error. |
| LinkInfo.NoDotNoProvider | src/utlities/index.ts:10-15 | A link without a dot names no provider and throws nothing. |
| LinkInfo.SpotifyShareLinkProvider | src/utlities/index.ts:17-20 | Every `https://open.spotify.com/` link belongs to Spotify. |
| LinkInfo.AppleShareLinkProvider | src/utlities/index.ts:21-23 | Every `https://music.apple.com/` link belongs to Apple Music. |
| LinkInfo.TrackGroup | src/utlities/index.ts:40 | The optional `?i=` and track group capture a non-empty run of digits. |
| LinkInfo.Classify | server/providers/apple.js:46-53 | A present track group makes the link a track ("song") link, with the track id as its id. Otherwise the path type is kept, and the id is the path id, except that a path type equal to the track word leaves the id undefined. The storefront is always kept. |
| LinkInfo.ReadAppleLink | src/utlities/index.ts:38-57 | Fails with "no match" exactly when the pattern matches at no position. A successful read whose type is not the track word always has an id. |
| LinkInfo.ReadAppleLinkAfter | src/utlities/index.ts:39-41 | A match that begins after a prefix containing no `h` decides the result. |
| LinkInfo.AppleTrackLink | server/providers/apple.js:39-47 | With `?i=<digits>` after the path id, the link reads as a track link whose id is those digits. The path type and path id are overridden; the storefront is kept. |
| LinkInfo.AppleNonTrackLink | src/utlities/index.ts:40-47 | Without a track parameter, the path type and path id are returned. A path type equal to the track word gives no id. |
| LinkInfo.AppleAlbumTrackExample | src/utlities/index.ts:35-47 | The album link with a track parameter, as documented, reads as that track. |
| LinkInfo.AppleStorefrontIrrelevant | server/providers/apple.js:38-53 | Two links that differ only in the storefront give the same type and id, and each its own storefront. |
| LinkInfo.AppleNeedsHost | src/utlities/index.ts:39-41 | A link that contains the Apple Music prefix nowhere fails to read. |
| LinkInfo.AppleTitleMustBePlain | src/utlities/index.ts:40 | A title segment that runs into any character outside `[a-zA-Z0-9-]` other than `/` makes the pattern fail at the host. |
| LinkInfo.AppleBadTitleFails | src/utlities/index.ts:39-41 | A link that has the Apple Music prefix only at its start, and whose title segment holds such a character, fails to read with "no match" (the destructuring of the null match throws). |
| LinkInfo.SpotifyAt | src/utlities/index.ts:66 | A match starts with the loosely matched host (its dots match any character) and gives a non-empty word type and a non-empty word id. |
| LinkInfo.ReadSpotifyLink | src/utlities/index.ts:63-70 | Fails with "no match" exactly when the pattern matches at no position. On success, type and id are non-empty words. |
| LinkInfo.SpotifyLinkParsed | server/providers/spotify.js:45-52 | The first two word segments after the host are the type and the id. The id ends at the first non-word character. Any host the loose pattern admits works. |
| LinkInfo.SpotifyShareToken | src/utlities/index.ts:66 | A share link with a `?si=` token reads as its type and id; the token is dropped. |
| LinkInfo.SpotifyNeedsHost | server/providers/spotify.js:48 | A link that contains the host pattern nowhere fails to read. |
| Catalog.ProviderNamed | server/app.js:53-56 | Gives the configured provider registered under the name, or none when no provider has that name. |
| Catalog.Values | server/app.js:251-253 | The element's values in field order: two for a track or a playlist, one otherwise. |
| Catalog.ObjectArrayString | server/providers/spotify.js:173-175 | How an array of `n` tracks renders as a string: empty for none, otherwise `16n - 1` characters. |
| UriEncoding.Utf8 | server/providers/spotify.js:174 | Every code point encodes to between one and four octets. |
| UriEncoding.EncodeURIComponent | server/providers/spotify.js:174 | Encoding never shortens a string. The result holds only unreserved characters and `%`. It grows by at least two characters when some character needs escaping. |
| UriEncoding.EncodeConcat | server/providers/spotify.js:173-175 | Encoding distributes over concatenation. |
| UriEncoding.EncodeIdentity | server/providers/spotify.js:174 | A string is left unchanged exactly when every character is unreserved. |
| UriEncoding.EncodeSpace | server/providers/spotify.js:175 | A space encodes as `%20`. |
| UriEncoding.DecodeEncode | server/providers/spotify.js:174 | Decoding undoes encoding for every string. |
| Strings.NatToString | server/providers/spotify.js:116-121 | The rendered limit is a non-empty run of decimal digits. |
| Strings.ParseNatToString | server/providers/spotify.js:116-121 | Parsing the rendered limit back gives the number. |
| SpotifyProvider.SearchType | server/providers/spotify.js:108 | The mapped type is never `song`, and every other type is unchanged. |
| SpotifyProvider.SearchTypeIdempotent | server/providers/spotify.js:108 | Mapping twice is mapping once. |
| SpotifyProvider.FormatQueryString | server/providers/spotify.js:161-179 | No values give the empty query. What the query means is stated by the next two rows. |
| SpotifyProvider.FormatQueryStringEncodesSentence | server/providers/spotify.js:173-175 | Joining the encoded values with `%20` equals encoding the values joined by single spaces. |
| SpotifyProvider.QueryStringDecodes | server/providers/spotify.js:173-175 | Decoding the query string gives back the values joined by spaces. |
| SpotifyProvider.SerializeParams | server/providers/spotify.js:118-123 | No parameters serialise to the empty string. |
| SpotifyProvider.SerializedEntries | server/providers/spotify.js:113-123 | The search request serialises to `q=…`, `type=…` and `limit=…`, in that order, joined by `&`, with no further encoding. |
| SpotifyProvider.SearchRequestSplits | server/providers/spotify.js:110-123 | Splitting the serialised request at `&` gives back exactly its three entries. The percent-encoded query cannot contain `&`. |
| SpotifyProvider.PlaylistTracks | server/providers/spotify.js:81-85 | Defined exactly when every track has an artist. It keeps the tracks' count and order, each entry holding the track's first artist and its name. |
| SpotifyProvider.GetElementData | server/providers/spotify.js:58-100 | Every failure is "Get Element Failed". Success happens exactly for a response of these kinds: an artist; an album; a track with an artist; a playlist whose items are present and whose every track has an artist. A track is its first artist and its name, an artist or an album is its name, and a playlist holds its name and one entry per track. |
| SpotifyProvider.PlaylistShape | server/providers/spotify.js:80-91 | A playlist whose tracks all have artists succeeds. Its track list matches the items one for one. |
| SpotifyProvider.Search | server/providers/spotify.js:106-151 | A link exactly when the mapped type's bucket is present and non-empty, and then it is the first item's link. A failed call yields the error's `data`; an error while reading the response yields undefined. The search never rejects. |
| SpotifyProvider.SongSearchesTracks | server/providers/spotify.js:108-132 | A `song` search reads the track bucket. |
| AppleProvider.SearchType | server/providers/apple.js:106 | The mapped type is never `track`, and every other type is unchanged. |
| AppleProvider.SearchTypeIdempotent | server/providers/apple.js:106 | Mapping twice is mapping once. |
| AppleProvider.SearchTypes | server/providers/apple.js:112 | A `track` request asks for `songs`, and no request asks for `tracks`. |
| AppleProvider.TypesNameBucket | server/providers/apple.js:106-137 | For every type, the bucket `search` reads is the one its `types` parameter names. A bucket is read only for `songs`, `artists` or `albums`. |
| AppleProvider.FormatQueryString | server/providers/apple.js:156-163 | No values give the empty term; one value gives that value unchanged. |
| AppleProvider.QueryStringSplits | server/providers/apple.js:156-163 | Values without spaces are recovered by splitting the term at the spaces. |
| AppleProvider.GetElementData | server/providers/apple.js:63-99 | Fails with "Get Element Failed" exactly in three cases: the call failed, the type is the string `default`, or a listed type got an empty response. An element exists exactly for a listed type with a non-empty response, and it is built from the first resource. Any other type resolves to nothing. |
| AppleProvider.UnlistedTypeResolvesNothing | server/providers/apple.js:72-93 | A playlist request resolves to nothing instead of failing. |
| AppleProvider.GetElementDataIntended | server/providers/apple.js:63-99 | The corrected adapter succeeds exactly for a listed type with a non-empty response, and then agrees with the original. |
| AppleProvider.IntendedElementAgrees | server/providers/apple.js:91-92 | The corrected adapter fails wherever the original fails, and also wherever the original resolves to nothing. |
| AppleProvider.Search | server/providers/apple.js:105-146 | (1) Every rejection is "Search Failed". (2) A link exactly when the mapped type's bucket is present and non-empty, and then it is the first resource's url. (3) "Nothing" exactly for a type outside the listed ones and `default`. |
| AppleProvider.SearchIntended | server/providers/apple.js:105-146 | The corrected search succeeds exactly where the original yields a link, and gives that link. |
| AppleProvider.TrackSearchesSongs | server/providers/apple.js:106-125 | A `track` search reads the song bucket. |
| AppleProvider.UnlistedSearchResolvesNothing | server/providers/apple.js:119-140 | A playlist search resolves to nothing instead of failing. |
| Orchestration.FormattedContent | server/app.js:287-304 | Fails exactly when some configured provider has no result. Otherwise the metadata comes from the first provider's result, and the links are exactly one per provider, each that provider's result link. |
| Orchestration.FormattedHasNoTransposeLink | server/app.js:287-304 | The formatted links hold no transpose entry. Each provider's link is its result's link. |
| Orchestration.FormatResults | server/app.js:287-304 | The loop over the providers computes `FormattedContent`. |
| Orchestration.KeyedByProviderKeys | server/app.js:257-260 | The keys are exactly the providers the results name. |
| Orchestration.KeyedByProviderLastWins | server/app.js:257-260 | Under each key sits the last result that names that provider. |
| Orchestration.FirstRejection | server/app.js:245-247 | No rejection exactly when every search resolved. A reported rejection is one of the outcomes. |
| Orchestration.Fanout | server/app.js:245-247 | Every configured provider is searched for the element, in provider order. |
| Orchestration.ResultsOf | server/app.js:257-260 | The settled results, one per outcome, in order. |
| Orchestration.ProcessOutcome | server/app.js:236-264 | Rejects with "unknown provider" exactly when the provider name selects no adapter. Success implies three things: the element was fetched; the terms are its values joined by spaces; every provider's search resolved to a result. |
| Orchestration.ProcessedResultsFormat | server/app.js:245-260 | When every provider's search reports a result under that provider's own name, processing succeeds and the results format. The metadata comes from Spotify's result, and each provider's link is the one its search found. |
| Orchestration.ProcessLink | server/app.js:236-264 | The element fetch, the fan-out and the keying loop compute `ProcessOutcome`. |
| Orchestration.LinkID | server/app.js:96 | The link id is the three parts joined by two colons. |
| Orchestration.LinkIDInjective | server/app.js:96 | Distinct requests have distinct link ids when the provider and the type contain no colon. |
| Orchestration.LinkIDCollides | server/app.js:96 | Without that condition, two different requests share a link id. |
| Orchestration.CachedHasNoTransposeLink | server/app.js:175-192 | What the link-index query returns from a well-kept table holds no transpose link. |
| Orchestration.TransposeTable.GetLinkRecord | server/app.js:175-192 | The answer is some matching record's terms and content, or none exactly when no record carries the link id. |
| Orchestration.TransposeTable.PutTransposeRecord | server/app.js:197-213 | The record replaces any record with that id; all other records are unchanged. The table stays well kept when the content holds no transpose link. |
| Orchestration.TransposeTable.GetTransposeRecord | server/app.js:218-231 | A record exactly when the id is in the table, and then it is that record. |
| Orchestration.Resolve | server/app.js:143-165 | An empty id is answered 400, and the route, which does not return there, throws at its second send. For any other id: JSON exactly when the id is stored, and then it is the stored content; otherwise a 404 is sent. |
| Orchestration.WithTransposeLink | server/app.js:129-131 | The metadata is kept. The keys gain `transpose`, whose value is `base/t/id`, and every other link keeps its value. |
| TransposeApp.RejectingChecks | server/app.js:84-94 | At most three checks fail. None fails exactly when all parameters are present and both `in` checks pass. |
| TransposeApp.ChecksAdmitIntended | server/app.js:88-94 | The checks admit every intended request. Anything else they admit has an inherited name as its provider or its type. |
| TransposeApp.InheritedTypeAdmitted | server/app.js:88-94 | The type `constructor` passes the checks without being a listed type. |
| TransposeApp.Stored | server/app.js:100-117 | On a hit: the cached terms and content. On a miss: the processed terms and the formatted content, or nothing exactly when processing or formatting fails. |
| TransposeApp.TransposeStep | server/app.js:80-137 | (1) Two or more failed checks throw at once with a 400 and no put. (2) Otherwise a record is put exactly when `Stored` gives terms and content, and it holds exactly those under the fresh id and the link id. (3) The handler returns exactly when no check failed and a record was put, and then it sends that record's content with the transpose link. (4) Any failed check sends 400. (5) When no check failed and nothing is put, nothing is sent. |
| TransposeApp.HitSkipsProcessing | server/app.js:103-108 | On a hit the providers are not consulted, and the record put is the cached terms and content under the fresh id. |
| TransposeApp.StoredHasNoTransposeLink | server/app.js:122-131 | Whatever is put from a well-kept table has no transpose link, and the table stays well kept. |
| TransposeApp.RejectedRequestStillStored | server/app.js:84-126 | A playlist request is answered 400, yet a record is put for it. |
| TransposeApp.TransposeStepIntended | server/app.js:84-94 | A request the intended checks refuse gets a single 400 and nothing else. Any other request behaves as in the handler as written. |
| TransposeApp.IntendedAnswersOnce | server/app.js:84-135 | The corrected handler puts a record only for an intended request, and then returns with the content plus the transpose link. A 400 never comes with a put. |
| TransposeApp.HandleTranspose | server/app.js:80-137 | On the query's answer, the reply and the ending are those of `TransposeStep`, and the table gains exactly the record it puts. The table stays well kept. |
| TransposeLegacy.LegacyFormat | server/index.js:245-262 | Formatting a reused record always fails. Formatting fresh results is `FormattedContent`. |
| TransposeLegacy.Gather | server/index.js:77-88 | On a hit: the record's terms and content. On a miss: the processed terms and results, or nothing (the promise never settles) exactly when processing fails. |
| TransposeLegacy.LegacyStep | server/index.js:61-112 | (1) When gathering fails, nothing is put and the request never settles. (2) A record is put exactly when gathering succeeds and formatting what was gathered succeeds, and it holds the gathered terms and the formatted content. (3) A put happens only on a miss and holds no transpose link. (4) The request returns exactly when all three parameters are present and a record is put, and a return sends the put content with the transpose link on the fixed base. (5) A missing parameter sends 400. (6) With all parameters present and nothing put, nothing is sent. (7) Formatting that fails after a successful gather ends the request with a throw. |
| TransposeLegacy.LegacyHitFails | server/index.js:79-97 | A link already in the table makes the handler throw, with nothing stored and nothing sent. |
| TransposeLegacy.CurrentServerAnswersHit | server/app.js:103-135 | The current handler answers the same hit from the cached record, with the fresh transpose link added. |
| TransposeLegacy.MissMatchesCurrent | server/index.js:83-110 | On a miss that processes, the two revisions put the same record and send the same reply. |
| TransposeLegacy.LegacyHandleTranspose | server/index.js:61-112 | On the query's answer, the reply and the ending are those of `LegacyStep`, and the table gains exactly the record it puts. The table stays well kept. |
| ClientApp.DetermineProvider | App.tsx:128-150 | Agrees with the shared parser wherever that parser returns, and gives null wherever it throws. |
| ClientApp.UnknownWordIsNull | App.tsx:143-145 | When the first `.word.` is not a provider name, the app gives null where the shared parser throws. |
| ClientApp.ShareLinksRecognised | App.tsx:136-142 | Spotify and Apple Music share links are recognised. |
| ClientApp.Destination | App.tsx:46-52 | The destination is Apple Music exactly for a Spotify link, and never the link's own provider. |
| ClientApp.App.constructor | App.tsx:35-37 | The links map starts empty. |
| ClientApp.App.Transpose | App.tsx:39-61 | An unrecognised link changes nothing and sends nothing. Otherwise the state becomes loading, and the request names the link and the destination and captures the current links map. |
| ClientApp.App.Settle | App.tsx:62-76 | On success, the links become the captured map with the destination's entry set to the reply, the input is cleared, and the state is done. On failure, only the state changes, back to waiting. |
| ClientApp.App.ChangeText | App.tsx:93-96 | The text becomes the link. A request is issued exactly when the text names a provider, and otherwise the state is unchanged. The issued request is the one `Transpose` issues: the text, the destination provider's name and the links map held before the change. |
| ClientApp.OnlyDestinationChanges | App.tsx:65-68 | A settled conversion changes only the destination's entry of the captured map. |
| ClientApp.DestinationDiffers | App.tsx:46-61 | The request names a provider other than the link's own, and names `apple` exactly for a Spotify link. |

## Left out

- Token handling: `refreshToken`, `getToken` and the secrets manager run before processing. Their failures are not modelled.
- The HTTP layer: axios, the Express routing and the Express error handler are out.
  - A handler that "throws" only reports that it threw; the 500 page Express then sends is not modelled.
  - Express never matches an empty route parameter, but the model still covers the empty-parameter branch of both `/transpose` handlers and of `/t/:id`.
- HandleTranspose: the missing `return` after a 400 is modelled. The "Cannot set headers after they are sent" error is read as the end of the request.
- DynamoDB: the table is an in-memory map, and its network errors and rethrows are out.
  - The put copies the item when it is called, so the transpose link added afterwards is not stored.
  - The link-index query's order is unspecified, so any matching record may answer.
  - The DocumentClient is configured with `convertEmptyValues: true` (server/app.js:39, server/index.js:31), so every empty string in a put item is stored as NULL. The model's table gives back exactly what was put. The real `/t/:id` and a cache hit instead return null wherever the content held "", for example the `''` defaults `formatResults` writes for an album result's `track` (server/app.js:292-296).
- `nanoid(10)` is not modelled: the fresh id is a parameter, and its uniqueness is not assumed.
- Promise scheduling is out. `Promise.all` is modelled as rejecting with the first rejection in provider order. Which rejection comes first in time is not known.
- `processLink`'s check that fewer than two results were found can never fire, since the array always has one entry per provider. It is modelled as absent.
- The second `/t/:id` route in `server/app.js` (a redirect) is never reached, because the first route always answers.
- Orchestration.ProcessOutcome: `getElement` and `search` are abstract parameters. `processLink` calls `getElement(type, id)`, which the adapters do not define: they define only `getElementData` (server/providers/spotify.js:58, server/providers/apple.js:63). `search` does exist in both adapters (server/providers/spotify.js:106, server/providers/apple.js:105), but it destructures `type` from its first argument, and server/app.js:245 passes a bare string there, with the element as the query. So, as written, `type` is undefined and no search yields a link: Spotify's search falls to its default case, whose error its catch turns into the error's absent `data`, and Apple's matches no case and resolves to undefined (or rejects when the request fails). The model instead takes an abstract `search` that returns a `ProviderResult` per provider.
- AppleProvider.FormatQueryString: how axios encodes the Apple `term` parameter is not modelled.
- processLink fails whenever some provider's search finds nothing: a search that resolves to undefined makes keying the results throw, and a missing provider makes `formatResults` throw. No partial result is ever stored or sent.
- TitleInfo.StripExtraTitleInfo: the function's comment shows the title trimmed, but the code keeps the spaces. The model follows the code.
- React rendering, the button components and `openLink` (which opens the converted link on the device) are not modelled.
- ClientApp.App.Transpose: the POST to `/convert` is represented by the request value. The server route that answers it is left out.
- Surrogate code points: `encodeURIComponent` throws a URIError on a lone surrogate. A Dafny `char` cannot hold one, so that case does not arise.

## Findings

| source | as written | input that shows it | evidently intended | confidence | as-written member | corrected member |
|---|---|---|---|---|---|---|
| server/app.js:88-94 | `in` checks also admit names every object inherits | type `constructor` with provider `spotify` | only the listed providers and types pass | not executed | TransposeApp.InheritedTypeAdmitted | TransposeApp.TransposeStepIntended |
| server/app.js:84-94 | no `return` after `res.sendStatus(400)`, so the handler goes on, stores a record and then throws on the second send | provider `spotify`, type `playlist`, id `1` | answer 400 and stop | not executed | TransposeApp.RejectedRequestStillStored | TransposeApp.IntendedAnswersOnce |
| server/index.js:79-97 | the cached `{metadata, links}` is formatted again as if it were per-provider results, so every cache hit throws | any link whose link id is already in the table | reuse the cached content as it is | not executed | TransposeLegacy.LegacyHitFails | TransposeLegacy.CurrentServerAnswersHit |
| server/providers/apple.js:91-92 | `case 'default':` is a string label, not the `default` clause, so an unlisted type resolves to undefined | type `playlist` | an unlisted type fails with "Get Element Failed" / "Search Failed" | not executed | AppleProvider.UnlistedTypeResolvesNothing | AppleProvider.IntendedElementAgrees |
