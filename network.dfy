/** The slice of the browser instrumentation protocol's network and page
    domains that the capture engine reads: request-sent, response-received
    and lifecycle events. */
module Network {
  import opened Results

  type RequestId = string

  /** A header value as the protocol delivers it: either a list of strings
      or any other value, kept here as the text `fmt.Sprint` renders. */
  datatype HeaderValue = Many(values: seq<string>) | Single(text: string)

  /** Header name to value. */
  type Headers = map<string, HeaderValue>

  /** The resource type tag; only the document type is singled out. */
  datatype ResourceType = Document | OtherType(name: string)

  /** Millisecond offsets relative to the request time; a negative value
      means that the phase did not occur. */
  datatype ResourceTiming = ResourceTiming(
    dnsStart: real, dnsEnd: real,
    connectStart: real, connectEnd: real,
    sslStart: real, sslEnd: real,
    sendStart: real, sendEnd: real,
    receiveHeadersStart: real, receiveHeadersEnd: real)

  datatype Request = Request(httpMethod: string, url: string, headers: Headers)

  datatype Response = Response(
    status: int,
    statusText: string,
    headers: Headers,
    mimeType: string,
    protocol: string,
    timing: Option<ResourceTiming>)

  /** `wallTime` is kept as its RFC 3339 rendering. */
  datatype RequestWillBeSent = RequestWillBeSent(
    requestId: RequestId, request: Request, wallTime: string, resourceType: ResourceType)

  datatype ResponseReceived = ResponseReceived(requestId: RequestId, response: Response)

  /** Everything the listener can be handed. */
  datatype Event =
    | RequestSent(sent: RequestWillBeSent)
    | ResponseArrived(received: ResponseReceived)
    | Lifecycle(name: string)
    | Unrelated
}
