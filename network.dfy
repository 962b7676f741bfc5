/** The API client (Services/Network.swift): the character-search request, the classification of
    what the transport returns, the remapping of a filtered "not found", and the error messages.
    HTTP itself is an input: what came back is an `Exchange`. */
module Network {
  import opened Wrappers
  import opened Models
  import opened TextFormatting

  const BaseURL: string := "https://rickandmortyapi.com/api"
  const CharactersPath: string := BaseURL + "/character"

  /** The client's own error set. */
  datatype NetworkServiceError = WrongURL | InvalidResponse | InvalidData

  /** What a request can throw: one of the client's errors, or any other error (a transport
      failure, a cancellation) that passes through the client untouched. */
  datatype RequestError = Service(error: NetworkServiceError) | Other

  /** What the transport delivered: it failed, or a response arrived, which may or may not be an
      HTTP response, and whose body may or may not decode to a `T` (`None` when it does not). */
  datatype Exchange<T> = TransportFailed | Received(isHTTP: bool, statusCode: int, body: Option<T>)

  datatype QueryItem = QueryItem(name: string, value: string)

  /** The character-search URL: the fixed path and its query items, in order. */
  datatype CharactersURL = CharactersURL(path: string, queryItems: seq<QueryItem>)

  /** `errorDescription`: a message for every error, three different fixed messages. */
  function ErrorDescription(e: NetworkServiceError): (r: Option<string>)
    ensures r.Some? && r.value != ""
  {
    match e
    case WrongURL => Some("Wrong URL. Cannot download data.")
    case InvalidResponse => Some("Invalid response, check your internet connection.")
    case InvalidData => Some("Data is invalid, try again.")
  }

  /** Different errors are described differently. */
  lemma ErrorDescriptionInjective(e1: NetworkServiceError, e2: NetworkServiceError)
    ensures ErrorDescription(e1) == ErrorDescription(e2) <==> e1 == e2
  {
  }

  /** `buildCharactersURL`: the `page` item, then a `name` item holding the trimmed filter when a
      filter is given and does not trim to nothing. */
  method BuildCharactersURL(page: int, filter: Option<string>) returns (url: CharactersURL)
    ensures url.path == CharactersPath
    ensures 1 <= |url.queryItems| <= 2
    ensures url.queryItems[0] == QueryItem("page", IntToDecimal(page))
    ensures ParseInt(url.queryItems[0].value) == Some(page)
    ensures |url.queryItems| == 2 <==> filter.Some? && Trim(filter.value) != ""
    ensures |url.queryItems| == 2 ==> url.queryItems[1] == QueryItem("name", Trim(filter.value))
  {
    var queryItems := [QueryItem("page", IntToDecimal(page))];
    if filter.Some? {
      var trimmed := Trim(filter.value);
      if trimmed != "" {
        queryItems := queryItems + [QueryItem("name", trimmed)];
      }
    }
    IntDecimalRoundTrip(page);
    url := CharactersURL(CharactersPath, queryItems);
  }

  /** `performRequest`: a transport error passes through; anything but an HTTP 200 is an invalid
      response; a 200 whose body does not decode is invalid data; otherwise the decoded body. */
  function PerformRequest<T>(x: Exchange<T>): (r: Result<T, RequestError>)
    ensures r.Success? <==> x.Received? && x.isHTTP && x.statusCode == 200 && x.body.Some?
    ensures r.Success? ==> r.value == x.body.value
    ensures r == Failure(Service(InvalidResponse)) <==> x.Received? && (!x.isHTTP || x.statusCode != 200)
    ensures r == Failure(Service(InvalidData)) <==> x.Received? && x.isHTTP && x.statusCode == 200 && x.body.None?
    ensures r == Failure(Other) <==> x.TransportFailed?
    ensures r != Failure(Service(WrongURL))
  {
    match x
    case TransportFailed => Failure(Other)
    case Received(isHTTP, statusCode, body) =>
      if !isHTTP || statusCode != 200 then Failure(Service(InvalidResponse))
      else if body.None? then Failure(Service(InvalidData))
      else Success(body.value)
  }

  /** `fetchCharactersList`: with a filter, an invalid response means "no matches" and yields the
      empty list; every other outcome, and every outcome without a filter, is the request's own. */
  function FetchCharactersList(filter: Option<string>, x: Exchange<seq<Character>>): (r: Result<seq<Character>, RequestError>)
    ensures filter.Some? ==> r != Failure(Service(InvalidResponse))
    ensures filter.Some? && PerformRequest(x) == Failure(Service(InvalidResponse)) ==> r == Success([])
    ensures filter.None? || PerformRequest(x) != Failure(Service(InvalidResponse)) ==> r == PerformRequest(x)
    ensures r != Failure(Service(WrongURL))
  {
    var response := PerformRequest(x);
    if response == Failure(Service(InvalidResponse)) && filter.Some? then Success([]) else response
  }

  /** A filter made of whitespace only adds no `name` item to the query, yet a non-200 answer to
      that query still becomes the empty list, because the remap looks at the filter itself. */
  lemma BlankFilterNotFoundIsEmpty(w: string, statusCode: int, body: Option<seq<Character>>)
    requires forall i :: 0 <= i < |w| ==> IsWhitespace(w[i])
    requires statusCode != 200
    ensures Trim(w) == ""
    ensures FetchCharactersList(Some(w), Received(true, statusCode, body)) == Success([])
  {
    TrimEmptyIffBlank(w);
  }

  /** `fetchEpisodeDetails`: a string that does not parse as a URL (`parsesAsURL` is the platform
      parser's verdict) fails with `WrongURL`; otherwise the outcome is the request's. */
  function FetchEpisodeDetails(parsesAsURL: bool, x: Exchange<Episode>): (r: Result<Episode, RequestError>)
    ensures r == Failure(Service(WrongURL)) <==> !parsesAsURL
    ensures parsesAsURL ==> r == PerformRequest(x)
  {
    if !parsesAsURL then Failure(Service(WrongURL)) else PerformRequest(x)
  }
}
