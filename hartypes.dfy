/** The HAR 1.2 document shape: `log`, its pages and entries, and the
    `timings` object of an entry. Times are milliseconds, -1 meaning absent. */
module HarTypes {

  datatype NameValuePair = NameValuePair(name: string, value: string)

  datatype Creator = Creator(name: string, version: string)

  /** `pageTimings` is always the empty object here, so it is not modelled. */
  datatype Page = Page(id: string, startedDateTime: string, title: string)

  datatype Timings = Timings(
    blocked: real, dns: real, connect: real, send: real,
    wait: real, receive: real, ssl: real)

  /** Query string and cookies are always empty lists in this program. */
  datatype Request = Request(
    httpMethod: string, url: string, httpVersion: string,
    headers: seq<NameValuePair>, headersSize: int, bodySize: int)

  datatype Content = Content(mimeType: string, size: int)

  datatype Response = Response(
    status: int, statusText: string, httpVersion: string,
    headers: seq<NameValuePair>, content: Content, redirectURL: string,
    headersSize: int, bodySize: int)

  datatype Entry = Entry(
    pageref: string, startedDateTime: string,
    request: Request, response: Response,
    timings: Timings, time: real)

  datatype Log = Log(
    version: string, browser: Creator, creator: Creator,
    pages: seq<Page>, entries: seq<Entry>)

  datatype Har = Har(log: Log)
}
