/** The app's transpose flow: it recognises the provider of a pasted link,
    picks the other provider as the destination, posts the conversion, and
    records the converted link under the destination's key. The component
    state is a class; the request and its reply are modelled as two steps, as
    the promise callback runs after `transpose` has returned. */
module ClientApp {
  import opened Wrappers
  import opened Grammar
  import opened Catalog
  import LinkInfo

  /** The app's own `determineProviderFromLink`: the first `.word.` of the
      link names the provider, and a link without one, or whose word names no
      provider, gives null. It agrees with the shared parser wherever that one
      returns, and gives null where that one throws. */
  function DetermineProvider(link: string): (r: Option<ProviderId>)
    ensures LinkInfo.DetermineProviderFromLink(link).Success? ==> r == LinkInfo.DetermineProviderFromLink(link).value
    ensures LinkInfo.DetermineProviderFromLink(link).Failure? ==> r.None?
  {
    match Leftmost(link, LinkInfo.DottedWordAt, 0)
    case None => None
    case Some((_, w)) => ProviderNamed(w)
  }

  /** An unknown first provider word gives null, where the shared parser throws. */
  lemma UnknownWordIsNull(pre: string, w: string, post: string)
    requires forall q :: 0 <= q < |pre| ==> LinkInfo.DottedWordAt((pre + "." + w + "." + post)[q..]).None?
    requires |w| > 0 && AllIn(w, Word) && w != "spotify" && w != "apple"
    ensures DetermineProvider(pre + "." + w + "." + post).None?
    ensures LinkInfo.DetermineProviderFromLink(pre + "." + w + "." + post).Failure?
  {
    LinkInfo.FirstDottedWordDecides(pre, w, post);
  }

  lemma ShareLinksRecognised(path: string)
    ensures DetermineProvider("https://open.spotify.com/" + path) == Some(Spotify)
    ensures DetermineProvider("https://music.apple.com/" + path) == Some(Apple)
  {
    LinkInfo.SpotifyShareLinkProvider(path);
    LinkInfo.AppleShareLinkProvider(path);
  }

  /** The provider a link is converted to: Apple Music for a Spotify link,
      Spotify for any other. */
  function Destination(source: ProviderId): (r: ProviderId)
    ensures r == Apple <==> source == Spotify
    ensures r != source
  {
    if source == Spotify then Apple else Spotify
  }

  datatype LoadState = Waiting | Loading | Done

  /** The body posted to `/convert`, and the links map the reply callback
      captured when `transpose` ran. */
  datatype ConvertRequest = ConvertRequest(link: string, destProviderID: string, captured: map<string, string>)

  class App {
    var link: string
    var state: LoadState
    var transposedLinks: map<string, string>

    constructor ()
      ensures link == "" && state == Done && transposedLinks == map[]
    {
      link, state, transposedLinks := "", Done, map[];
    }

    /** `transpose`: nothing happens for a link of no known provider;
        otherwise the state becomes loading and the conversion request for
        the destination provider is issued. */
    method Transpose(input: string) returns (request: Option<ConvertRequest>)
      modifies this
      ensures DetermineProvider(input).None? ==>
                request.None? && link == old(link) && state == old(state) && transposedLinks == old(transposedLinks)
      ensures DetermineProvider(input).Some? ==>
                request == Some(ConvertRequest(input, Destination(DetermineProvider(input).value).Name(), old(transposedLinks)))
                && link == old(link) && state == Loading && transposedLinks == old(transposedLinks)
    {
      var provider := DetermineProvider(input);
      if provider.None? {
        return None;
      }
      var destProvider := if provider.value.Name() == "spotify" then "apple" else "spotify";
      state := Loading;
      return Some(ConvertRequest(input, destProvider, transposedLinks));
    }

    /** The reply callbacks: on success the converted link is stored under the
        destination key of the captured map, the input is cleared and the
        state is done; on failure the state returns to waiting. */
    method Settle(request: ConvertRequest, reply: Result<string, string>)
      modifies this
      ensures reply.Success? ==>
                transposedLinks == request.captured[request.destProviderID := reply.value]
                && link == "" && state == Done
      ensures reply.Failure? ==>
                transposedLinks == old(transposedLinks) && link == old(link) && state == Waiting
    {
      match reply {
        case Success(transposedLink) =>
          transposedLinks := request.captured[request.destProviderID := transposedLink];
          link := "";
          state := Done;
        case Failure(_) =>
          state := Waiting;
      }
    }

    /** The text input's change handler: the text becomes the link, then is
        transposed. */
    method ChangeText(text: string) returns (request: Option<ConvertRequest>)
      modifies this
      ensures link == text && transposedLinks == old(transposedLinks)
      ensures request.None? <==> DetermineProvider(text).None?
      ensures request.None? ==> state == old(state)
      ensures request.Some? ==> state == Loading && request.value.link == text
      ensures request == if DetermineProvider(text).None? then None
                         else Some(ConvertRequest(text, Destination(DetermineProvider(text).value).Name(), old(transposedLinks)))
    {
      link := text;
      request := Transpose(text);
    }
  }

  /** A settled conversion changes only the destination's entry of the
      captured map: every other entry keeps its value. */
  lemma OnlyDestinationChanges(request: ConvertRequest, converted: string, key: string)
    requires key != request.destProviderID
    ensures key in request.captured[request.destProviderID := converted] <==> key in request.captured
    ensures key in request.captured ==> request.captured[request.destProviderID := converted][key] == request.captured[key]
  {
  }

  /** The request always names a destination other than the link's own
      provider. */
  lemma DestinationDiffers(input: string)
    requires DetermineProvider(input).Some?
    ensures Destination(DetermineProvider(input).value).Name() != DetermineProvider(input).value.Name()
    ensures Destination(DetermineProvider(input).value).Name() == "apple" <==> DetermineProvider(input) == Some(Spotify)
  {
  }
}
