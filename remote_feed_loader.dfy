/** The remote feed loader: a fixed URL, a fixed client, and one request per load. */
module RemoteFeedLoaders {
  import opened FeedFeature
  import opened FeedAPI
  import opened HttpClients

  class RemoteFeedLoader {
    const client: HttpClientSpy
    const url: Url
    /** Foundation's JSON parser succeeding on a body; the loader's only foreign call. */
    const isJson: seq<Byte> -> bool

    /** Stores its configuration and asks the client for nothing. */
    constructor (url: Url, client: HttpClientSpy, isJson: seq<Byte> -> bool)
      ensures this.url == url && this.client == client && this.isJson == isJson
    {
      this.url := url;
      this.client := client;
      this.isJson := isJson;
    }

    /** The completion `load` hands to the client. Whatever the response,
        it delivers a connectivity failure exactly for a client failure, an
        empty success exactly for a body that parses, and invalid data for
        any other body. */
    function ResultHandler(): (handler: ClientResult -> LoaderResult)
      ensures forall r :: handler(r) == LoaderResult.Failure(Connectivity) <==> r.Failure?
      ensures forall r :: handler(r) == LoaderResult.Success([]) <==> r.Success? && isJson(r.data)
      ensures forall r :: handler(r) == LoaderResult.Failure(InvalidData) <==> r.Success? && !isJson(r.data)
    {
      r => MapResult(r, isJson)
    }

    /** Issues exactly one request, for the construction-time URL. */
    method Load()
      requires client.Valid()
      modifies client
      ensures client.Valid()
      ensures client.messages == old(client.messages) + [Message(url, ResultHandler())]
      ensures client.RequestedURLs() == old(client.RequestedURLs()) + [url]
    {
      client.Get(url, ResultHandler());
    }
  }
}
