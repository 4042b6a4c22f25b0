# EssentialFeed remote feed loader, modelled in Dafny

The remote feed loader asks an injected HTTP client to fetch one fixed URL
and turns the client's answer into one of three outcomes: a connectivity
failure when the client reports an error, a success with an (always empty)
item list when the body parses as JSON, and an invalid-data failure for any
other body. The HTTP response itself, including its status code, is never
looked at.

The model has five modules:

- `FeedFeature` (`feed_feature.dfy`): the feed item record and the URL,
  UUID and optional values it is built from.
- `FeedAPI` (`feed_api.dfy`): the client's result, the loader's error
  kinds and result, and `MapResult`, the loader's completion handler as a
  total function, with lemmas about what it ignores.
- `HttpClients` (`http_client_spy.dfy`): the test double that stands in for
  the `HTTPClient` protocol. It is a class with a log of recorded requests,
  each holding a URL and the completion to call. `Get` appends to the log.
  The two `complete` overloads call the completion of one recorded request
  and return what it delivered.
- `RemoteFeedLoaders` (`remote_feed_loader.dfy`): the loader class. Its URL,
  client and JSON check are constants; `Load` issues exactly one `Get`.
- `RemoteFeedLoaderTests` (`remote_feed_loader_tests.dfy`): `makeSUT`,
  `expect` and every test scenario as a method. Each scenario returns what
  it observes and, as `passes`, whether the test's own expectation agrees.

Foundation's `JSONSerialization.jsonObject` is a parameter `isJson` (a
predicate on the body's bytes). The concrete facts the tests rely on about it
are stated as preconditions of the scenarios: `"invalid json"` and the empty
body do not parse, and `{"items": []}` does.

Where the test suite and the loader's code disagree, the model follows the
code:

- A client error yields `.connectivity` (RemoteFeedLoader.swift:51-52). The
  test at RemoteFeedLoaderTests.swift:41 expects `.invalidData`, so
  `LoadDeliversErrorOnClientError` proves that test's expectation false.
- A body that parses always yields an empty list (RemoteFeedLoader.swift:46),
  so the two items the test at RemoteFeedLoaderTests.swift:120 expects can
  never be delivered (`LoadDeliversNoItemsOn200HttpResponseWithAnyJson`). As
  written, the test's load is issued and recorded, but the request is never
  completed, so the loader's result mapping is never reached. The second
  item's `image` entry is a `URL` object (RemoteFeedLoaderTests.swift:113),
  which Foundation's serializer refuses, so serialization traps (line 121)
  before the completion.
  `LoadDeliversItemsOn200HttpResponseWithJsonItems` models that: nothing is
  captured and the expectation fails.
- The status code is ignored (the response is bound to `_` at
  RemoteFeedLoader.swift:44). The test name
  `test_load_deliversErrorOnNon200HTTPResponse` and its sample codes
  (RemoteFeedLoaderTests.swift:48, 57) intend every non-200 status to be
  invalid data, but the code never reads the status;
  `Non200WithJsonBodySucceeds` states the code's behaviour. The non-200 test passes
  through only because it completes with status 200 and an empty body
  (RemoteFeedLoaderTests.swift:61), and an empty body is not JSON.

## Model

| member | source | states |
|---|---|---|
| `FeedAPI.MapResult` | EssentialFeed/FeedAPI/RemoteFeedLoader.swift:42-53 | a connectivity failure exactly when the client failed; invalid data exactly when a response came with a body that does not parse; success exactly when the body parses, and a success never carries items |
| `FeedAPI.ResponseIgnored` | EssentialFeed/FeedAPI/RemoteFeedLoader.swift:44 | two responses with the same body map to the same result, whatever their status codes or URLs |
| `FeedAPI.ClientErrorIgnored` | EssentialFeed/FeedAPI/RemoteFeedLoader.swift:51-52 | every client error value maps to the same result, a connectivity failure |
| `FeedAPI.JsonContentIgnored` | EssentialFeed/FeedAPI/RemoteFeedLoader.swift:44-47 | any two bodies that parse map to the same result, success with an empty list |
| `FeedAPI.Non200WithJsonBodySucceeds` | EssentialFeed/FeedAPI/RemoteFeedLoader.swift:44-47 | a non-200 response whose body parses is a success with no items, not invalid data |
| `RemoteFeedLoaders.RemoteFeedLoader.constructor` | EssentialFeed/FeedAPI/RemoteFeedLoader.swift:36-39 | stores url, client and JSON check and touches nothing else, so no request is made; all three are constants |
| `RemoteFeedLoaders.RemoteFeedLoader.ResultHandler` | EssentialFeed/FeedAPI/RemoteFeedLoader.swift:42-53 | the completion handed to the client maps every client result by `MapResult` |
| `RemoteFeedLoaders.RemoteFeedLoader.Load` | EssentialFeed/FeedAPI/RemoteFeedLoader.swift:41-42 | appends exactly one request to the client's log, for the construction-time URL with the loader's handler; earlier requests are unchanged |
| `HttpClients.Urls` | EssentialFeedTests/RemoteFeedLoaderTests.swift:159-161 | the URLs of the messages, one per message, in order |
| `HttpClients.HttpClientSpy.constructor` | EssentialFeedTests/RemoteFeedLoaderTests.swift:157-163 | a new spy has no messages and no last requested URL |
| `HttpClients.HttpClientSpy.RequestedURLs` | EssentialFeedTests/RemoteFeedLoaderTests.swift:159-161 | the requested URLs are the in-order URLs of the message log |
| `HttpClients.HttpClientSpy.Get` | EssentialFeedTests/RemoteFeedLoaderTests.swift:165-169 | appends exactly one message (url, completion), keeps every earlier one, and sets the last requested URL to `url` |
| `HttpClients.HttpClientSpy.CompleteWithError` | EssentialFeedTests/RemoteFeedLoaderTests.swift:171-173 | for an index inside the log (default 0), delivers what that request's completion makes of the client error |
| `HttpClients.HttpClientSpy.CompleteWithStatus` | EssentialFeedTests/RemoteFeedLoaderTests.swift:175-179 | for an index inside the log (default 0), delivers what that request's completion makes of a response for that request's URL with the given status and data (default empty) |
| `RemoteFeedLoaderTests.Utf8OfAscii` | EssentialFeedTests/RemoteFeedLoaderTests.swift:73 | the UTF-8 bytes of an ASCII string: one byte per character, with the character's code |
| `RemoteFeedLoaderTests.Delivery` | EssentialFeedTests/RemoteFeedLoaderTests.swift:171-179 | the client result a completing action hands over: the error, or the data with a response for the request's URL and the given status |
| `RemoteFeedLoaderTests.MakeSut` | EssentialFeedTests/RemoteFeedLoaderTests.swift:141-145 | a fresh spy and a loader on it for the given URL (default `https://a-url.com`), with nothing requested |
| `RemoteFeedLoaderTests.Expect` | EssentialFeedTests/RemoteFeedLoaderTests.swift:147-155 | one load then one action; the captured log holds exactly the mapped result when the action completes the request just made, and is empty otherwise (another request, or a trap before any completion); `passes` is whether it equals the single expected result |
| `RemoteFeedLoaderTests.InitDoesNotRequestDataFromUrl` | EssentialFeedTests/RemoteFeedLoaderTests.swift:14-17 | after construction the spy has no requested URLs |
| `RemoteFeedLoaderTests.LoadRequestsDataFromUrl` | EssentialFeedTests/RemoteFeedLoaderTests.swift:19-30 | one load yields requested URLs `[url]` |
| `RemoteFeedLoaderTests.LoadTwiceRequestsDataFromUrlTwice` | EssentialFeedTests/RemoteFeedLoaderTests.swift:126-138 | two loads yield `[url, url]`, in order and not de-duplicated |
| `RemoteFeedLoaderTests.LoadDeliversErrorOnClientError` | EssentialFeedTests/RemoteFeedLoaderTests.swift:32-45 | a client error is captured as `[connectivity]`, so the test's `invalidData` expectation fails |
| `RemoteFeedLoaderTests.LoadDeliversErrorOnNon200HttpResponse` | EssentialFeedTests/RemoteFeedLoaderTests.swift:48-67 | with an empty body that does not parse, each of the five iterations completes the request its own load made and captures `[invalidData]` |
| `RemoteFeedLoaderTests.LoadDeliversErrorOn200HttpResponseWithInvalidJson` | EssentialFeedTests/RemoteFeedLoaderTests.swift:69-76 | status 200 with body `invalid json` (not JSON) captures `[invalidData]` |
| `RemoteFeedLoaderTests.LoadDeliversNoItemsOn200HttpResponseWithEmptyJsonList` | EssentialFeedTests/RemoteFeedLoaderTests.swift:78-87 | status 200 with body `{"items": []}` (JSON) captures `[success([])]` |
| `RemoteFeedLoaderTests.ItemsJson` | EssentialFeedTests/RemoteFeedLoaderTests.swift:98-118 | the object the two-item test builds holds a URL object under the second item's `image`, so it is not serializable |
| `RemoteFeedLoaderTests.LoadDeliversItemsOn200HttpResponseWithJsonItems` | EssentialFeedTests/RemoteFeedLoaderTests.swift:89-124 | serializing that object traps before any completion, so nothing is captured and the two-item expectation fails |
| `RemoteFeedLoaderTests.LoadDeliversNoItemsOn200HttpResponseWithAnyJson` | EssentialFeedTests/RemoteFeedLoaderTests.swift:120-123 | had any body that parses been delivered with status 200, it would be captured as `[success([])]`, which matches an expectation only when the expected list is empty |

## Left out

- `JSONSerialization.jsonObject` is a Foundation parser; it is the parameter `isJson`, and no JSON parser is modelled.
- `JSONSerialization.data(withJSONObject:)` (RemoteFeedLoaderTests.swift:121) is a Foundation serializer. Only which objects it refuses is modelled (`Serializable`); no bytes are produced. Its runtime trap is the `Trap` action, which completes no request; the model does not capture that a trap ends the whole test run.
- The `HTTPClient` protocol is not an interface here: the loader's client is the spy class, the only implementation the repository has.
- The `FeedLoader` protocol and `LoadFeedResult` (EssentialFeed/Feed Feature/FeedLoader.swift) are declared but not used by the loader.
- `@escaping` closures and asynchrony: a completion is a stored function value, called when the test completes a request; the caller's completion is the value returned by the spy's `complete` methods.
- Deallocation is not modelled. The loader's closure (RemoteFeedLoader.swift:42-53) uses only the client's result and the caller's completion, never the loader itself, so a result still reaches the caller after the loader is gone. The model's handler depends only on constants, which agrees.
- The spy does not prevent completing one request twice; the model does not add such a guard.
- The failable `HTTPURLResponse` initialiser and the force-unwrap in the spy: the response is always built.
- Foundation's `URL`, `Data`, `UUID`, `NSError`: a URL is its text, data is a byte sequence, a UUID its number, a client error a domain and a code.
- Equality of loader results is structural. `Result` is `Equatable` (RemoteFeedLoader.swift:31), but `FeedItem` (EssentialFeed/Feed Feature/FeedItem.swift:10) declares no `Equatable` conformance and is internal to its module. The model assumes the synthesized member-wise equality that the `XCTAssertEqual` at RemoteFeedLoaderTests.swift:154 needs.
- XCTest's `#file`/`#line` plumbing and assertion messages: each scenario returns `passes` instead.
