/** The HTTP client seam, as the test double that records every request. */
module HttpClients {
  import opened FeedFeature
  import opened FeedAPI

  /** One recorded request: the URL asked for and the completion to call with its result. */
  datatype Message = Message(url: Url, completion: ClientResult -> LoaderResult)

  /** The URLs of `messages`, in order (Swift's `messages.map { $0.url }`). */
  function Urls(messages: seq<Message>): (urls: seq<Url>)
    ensures |urls| == |messages|
    ensures forall i :: 0 <= i < |messages| ==> urls[i] == messages[i].url
  {
    if |messages| == 0 then [] else Urls(messages[..|messages| - 1]) + [messages[|messages| - 1].url]
  }

  /** A client that answers no request by itself: it records each `get`, and
      the test completes a recorded request later by its index. */
  class HttpClientSpy {
    var requestedURL: Option<Url>
    var messages: seq<Message>

    /** `requestedURL` is the URL of the latest request, if any. */
    ghost predicate Valid()
      reads this
    {
      requestedURL == if |messages| == 0 then None else Some(messages[|messages| - 1].url)
    }

    constructor ()
      ensures Valid()
      ensures messages == [] && requestedURL == None
    {
      requestedURL := None;
      messages := [];
    }

    /** The URLs requested so far, oldest first. */
    function RequestedURLs(): (urls: seq<Url>)
      reads this
      ensures |urls| == |messages|
      ensures forall i :: 0 <= i < |messages| ==> urls[i] == messages[i].url
    {
      Urls(messages)
    }

    /** Records one request, keeping every earlier one as it was. */
    method Get(url: Url, completion: ClientResult -> LoaderResult)
      requires Valid()
      modifies this
      ensures Valid()
      ensures messages == old(messages) + [Message(url, completion)]
      ensures RequestedURLs() == old(RequestedURLs()) + [url]
      ensures requestedURL == Some(url)
    {
      messages := messages + [Message(url, completion)];
      requestedURL := Some(url);
      assert Urls(messages) == Urls(old(messages)) + [url];
    }

    /** Completes request `index` with a client error; returns what its completion delivered. */
    method CompleteWithError(error: ClientError, index: nat := 0) returns (delivered: LoaderResult)
      requires index < |messages|
      ensures delivered == messages[index].completion(ClientResult.Failure(error))
    {
      delivered := messages[index].completion(ClientResult.Failure(error));
    }

    /** Completes request `index` with a response of status `code` for the URL
        that request asked for, carrying `data` (empty by default); returns
        what its completion delivered. */
    method CompleteWithStatus(code: int, data: seq<Byte> := [], index: nat := 0) returns (delivered: LoaderResult)
      requires index < |messages|
      ensures delivered == messages[index].completion(
        ClientResult.Success(data, HttpResponse(messages[index].url, code)))
    {
      var response := HttpResponse(RequestedURLs()[index], code);
      delivered := messages[index].completion(ClientResult.Success(data, response));
    }
  }
}
