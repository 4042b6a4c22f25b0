/** The outcome types of the remote feed loader and the pure mapping from
    what the HTTP client reports to what the loader delivers. */
module FeedAPI {
  import opened FeedFeature

  /** One byte of an HTTP body (Foundation's `Data` is a sequence of these). */
  newtype Byte = x: int | 0 <= x < 256

  /** The part of an HTTP response the client hands back with the body. */
  datatype HttpResponse = HttpResponse(url: Url, statusCode: int)

  /** Whatever error the client reports (any Swift `Error`; the tests use a domain and a code). */
  datatype ClientError = ClientError(domain: string, code: int)

  /** What one `get` of the HTTP client completes with. */
  datatype ClientResult =
    | Success(data: seq<Byte>, response: HttpResponse)
    | Failure(error: ClientError)

  /** The two error kinds the loader surfaces. */
  datatype LoaderError = Connectivity | InvalidData

  /** What the loader delivers to its caller. */
  datatype LoaderResult =
    | Success(items: seq<FeedItem>)
    | Failure(error: LoaderError)

  /** The loader's completion handler: classifies the client's result.
      `isJson` stands for Foundation's `JSONSerialization.jsonObject`
      succeeding on the body. The response (and so its status code) is
      never looked at, and a body that parses yields no items. */
  function MapResult(r: ClientResult, isJson: seq<Byte> -> bool): (out: LoaderResult)
    // a connectivity error exactly when no response was obtained
    ensures out == LoaderResult.Failure(Connectivity) <==> r.Failure?
    // invalid data exactly when a response came with a body that does not parse
    ensures out == LoaderResult.Failure(InvalidData) <==> r.Success? && !isJson(r.data)
    // success exactly when a response came with a body that parses, and never with items
    ensures out.Success? <==> r.Success? && isJson(r.data)
    ensures out.Success? ==> out.items == []
  {
    match r
    case Success(data, _) =>
      if isJson(data) then LoaderResult.Success([]) else LoaderResult.Failure(InvalidData)
    case Failure(_) => LoaderResult.Failure(Connectivity)
  }

  /** Two responses with the same body map alike, whatever their status codes or URLs. */
  lemma ResponseIgnored(data: seq<Byte>, resp1: HttpResponse, resp2: HttpResponse, isJson: seq<Byte> -> bool)
    ensures MapResult(ClientResult.Success(data, resp1), isJson)
         == MapResult(ClientResult.Success(data, resp2), isJson)
  {
  }

  /** Every client error, whatever its value, becomes the same connectivity failure. */
  lemma ClientErrorIgnored(e1: ClientError, e2: ClientError, isJson: seq<Byte> -> bool)
    ensures MapResult(ClientResult.Failure(e1), isJson) == MapResult(ClientResult.Failure(e2), isJson)
    ensures MapResult(ClientResult.Failure(e1), isJson) == LoaderResult.Failure(Connectivity)
  {
  }

  /** The content of a body that parses does not matter: any two such bodies map alike, to an empty list. */
  lemma JsonContentIgnored(d1: seq<Byte>, d2: seq<Byte>, resp1: HttpResponse, resp2: HttpResponse, isJson: seq<Byte> -> bool)
    requires isJson(d1) && isJson(d2)
    ensures MapResult(ClientResult.Success(d1, resp1), isJson) == LoaderResult.Success([])
    ensures MapResult(ClientResult.Success(d1, resp1), isJson) == MapResult(ClientResult.Success(d2, resp2), isJson)
  {
  }

  /** The status code is not checked: a non-200 response whose body parses is a success.
      (The test of non-200 responses and its sample codes intend every
      non-200 status to be `InvalidData`; the code never reads the status.) */
  lemma Non200WithJsonBodySucceeds(data: seq<Byte>, url: Url, code: int, isJson: seq<Byte> -> bool)
    requires code != 200 && isJson(data)
    ensures MapResult(ClientResult.Success(data, HttpResponse(url, code)), isJson) == LoaderResult.Success([])
    ensures MapResult(ClientResult.Success(data, HttpResponse(url, code)), isJson) != LoaderResult.Failure(InvalidData)
  {
  }
}
