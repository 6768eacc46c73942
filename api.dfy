/**
 * The API client of the URL-shortener frontend: the requests each exported
 * operation issues, the response interceptor's error messages, the
 * application-level `success` gate and the records built from response bodies.
 * The HTTP transport itself is the parameter `send`, which gives the outcome
 * of a request.
 */
module Api {
  import opened Wrappers
  import opened JsValues
  import opened Segments

  datatype HttpMethod = HttpGet | HttpPost | HttpDelete

  /** A request relative to the client's base URL: method, path, JSON body and query parameters. */
  datatype Request = Request(verb: HttpMethod, path: string, body: Value, params: Value)

  /** How the transport rejects a call, as the error interceptor tells the cases apart. */
  datatype TransportError =
    | HttpError(data: Value)  // `error.response` is set: the server answered with an error status and this body
    | NoResponse              // only `error.request` is set: the request went out and nothing came back
    | NotSent                 // neither is set: the request could not be made

  /** The outcome of one request: the body of a successful response, or a rejection. */
  datatype Outcome = Responded(data: Value) | Rejected(error: TransportError)

  const ServerErrorMessage := "Server error occurred"
  const CannotConnectMessage := "Cannot connect to server. Please check if the API is running."
  const RequestFailedMessage := "Request failed. Please try again."

  const ShortenFailedMessage := "Failed to shorten URL"
  const NotFoundMessage := "URL not found"
  const FetchFailedMessage := "Failed to fetch URLs"
  const DeleteFailedMessage := "Failed to delete URL"

  /** What the client returns for a newly shortened URL. */
  datatype ShortenedUrl = ShortenedUrl(shortUrl: string, code: string, originalUrl: Value)

  /** What the client returns for one stored URL. */
  datatype UrlRecord = UrlRecord(code: Value, originalUrl: Value, shortUrl: Value, clicks: Value, createdAt: Value)

  /** One page of the URL list. */
  datatype UrlPage = UrlPage(urls: seq<UrlRecord>, totalPages: Value, currentPage: Value, totalCount: Value)

  /** The error interceptor: the error every rejected call is turned into. */
  function RejectionError(e: TransportError): (t: Thrown)
    ensures e.NoResponse? ==> t == Error(Str(CannotConnectMessage))
    ensures e.NotSent? ==> t == Error(Str(RequestFailedMessage))
    ensures e.HttpError? && Nullish(e.data) ==> t == TypeError
    ensures e.HttpError? && !Nullish(e.data) ==>
      t.Error? && Truthy(t.message) &&
      (Truthy(Field(e.data, "error")) ==> t.message == Field(e.data, "error")) &&
      (!Truthy(Field(e.data, "error")) && Truthy(Field(e.data, "message")) ==> t.message == Field(e.data, "message")) &&
      (!Truthy(Field(e.data, "error")) && !Truthy(Field(e.data, "message")) ==> t.message == Str(ServerErrorMessage))
  {
    match e
    case HttpError(data) =>
      if Nullish(data) then TypeError
      else Error(Or(Or(Field(data, "error"), Field(data, "message")), Str(ServerErrorMessage)))
    case NoResponse => Error(Str(CannotConnectMessage))
    case NotSent => Error(Str(RequestFailedMessage))
  }

  /** The body of a successful response, or the interceptor's error for a rejected one. */
  function ResponseData(o: Outcome): Result<Value, Thrown> {
    match o
    case Responded(data) => Success(data)
    case Rejected(e) => Failure(RejectionError(e))
  }

  /** The body reports application-level success. */
  predicate Succeeded(data: Value) {
    !Nullish(data) && Truthy(Field(data, "success"))
  }

  /** The error thrown for a body without a truthy `success`: the body's `error` when
      truthy, otherwise the operation's own message. */
  function AppError(data: Value, fallback: string): Thrown {
    Error(Or(Field(data, "error"), Str(fallback)))
  }

  /** `if (!response.data.success) throw new Error(response.data.error || fallback)` */
  function CheckSuccess(data: Value, fallback: string): (r: Result<(), Thrown>)
    ensures r.Success? <==> Succeeded(data)
    ensures Nullish(data) ==> r == Failure(TypeError)
    ensures !Nullish(data) && !Succeeded(data) ==> r == Failure(AppError(data, fallback))
  {
    var success :- Member(data, "success");
    if Truthy(success) then Success(()) else Failure(AppError(data, fallback))
  }

  /** `v.split('/').pop()`, which throws unless `v` is a string. */
  function SplitPop(v: Value): (r: Result<string, Thrown>)
    ensures r.Success? <==> v.Str?
    ensures r.Failure? ==> r.error == TypeError
    ensures r.Success? ==> '/' !in r.value && EndsWith(v.s, r.value)
    ensures r.Success? ==> r.value == LastSegment(v.s)
  {
    if v.Str? then Success(LastSegment(v.s)) else Failure(TypeError)
  }

  // ---- shortenUrl ----

  function ShortenRequest(originalUrl: string): Request {
    Request(HttpPost, "/api/Url/shorten", Obj(map["url" := Str(originalUrl)]), Undefined)
  }

  /** `shortenUrl(originalUrl)` */
  function ShortenUrl(send: Request -> Outcome, originalUrl: string): (r: Result<ShortenedUrl, Thrown>)
    ensures var o := send(ShortenRequest(originalUrl));
      r.Success? <==> o.Responded? && Succeeded(o.data) && Field(o.data, "shortUrl").Str?
    ensures var o := send(ShortenRequest(originalUrl));
      r.Success? ==>
        && r.value.shortUrl == Field(o.data, "shortUrl").s
        && r.value.originalUrl == Field(o.data, "originalUrl")
        && '/' !in r.value.code
        && EndsWith(r.value.shortUrl, r.value.code)
        && r.value.code == LastSegment(r.value.shortUrl)
        && ('/' !in r.value.shortUrl ==> r.value.code == r.value.shortUrl)
    ensures var o := send(ShortenRequest(originalUrl));
      o.Responded? && Succeeded(o.data) && !Field(o.data, "shortUrl").Str? ==> r == Failure(TypeError)
  {
    var data :- ResponseData(send(ShortenRequest(originalUrl)));
    var _ :- CheckSuccess(data, ShortenFailedMessage);
    var shortUrl := Field(data, "shortUrl");
    var code :- SplitPop(shortUrl);
    Success(ShortenedUrl(shortUrl.s, code, Field(data, "originalUrl")))
  }

  // ---- getUrlByCode and getUrlStats ----

  function CodeRequest(code: string): Request {
    Request(HttpGet, "/" + code, Undefined, Undefined)
  }

  /** The record both lookups build: the code passed in, the body's fields, and
      `clicks` defaulted to 0. */
  function CodeRecord(code: string, data: Value): UrlRecord {
    UrlRecord(Str(code), Field(data, "originalUrl"), Field(data, "shortUrl"),
              Or(Field(data, "clicks"), Num(0)), Field(data, "createdAt"))
  }

  /** `getUrlByCode(code)` */
  function GetUrlByCode(send: Request -> Outcome, code: string): (r: Result<UrlRecord, Thrown>)
    ensures var o := send(CodeRequest(code));
      r.Success? <==> o.Responded? && Succeeded(o.data)
    ensures var o := send(CodeRequest(code));
      r.Success? ==>
        && r.value.code == Str(code)
        && r.value.originalUrl == Field(o.data, "originalUrl")
        && r.value.shortUrl == Field(o.data, "shortUrl")
        && r.value.createdAt == Field(o.data, "createdAt")
        && r.value.clicks == (if Truthy(Field(o.data, "clicks")) then Field(o.data, "clicks") else Num(0))
  {
    var data :- ResponseData(send(CodeRequest(code)));
    var _ :- CheckSuccess(data, NotFoundMessage);
    Success(CodeRecord(code, data))
  }

  /** `getUrlStats(code)`: the same request and the same record as `getUrlByCode`. */
  function GetUrlStats(send: Request -> Outcome, code: string): (r: Result<UrlRecord, Thrown>)
    ensures var o := send(CodeRequest(code));
      r.Success? <==> o.Responded? && Succeeded(o.data)
    ensures var o := send(CodeRequest(code));
      r.Success? ==>
        && r.value.code == Str(code)
        && r.value.originalUrl == Field(o.data, "originalUrl")
        && r.value.shortUrl == Field(o.data, "shortUrl")
        && r.value.createdAt == Field(o.data, "createdAt")
        && r.value.clicks == (if Truthy(Field(o.data, "clicks")) then Field(o.data, "clicks") else Num(0))
  {
    var data :- ResponseData(send(CodeRequest(code)));
    var _ :- CheckSuccess(data, NotFoundMessage);
    Success(CodeRecord(code, data))
  }

  // ---- getAllUrls ----

  /** A parameter with a default: the default replaces `undefined` only. */
  function WithDefault(v: Value, default: Value): Value {
    if v.Undefined? then default else v
  }

  function ListRequest(page: Value, limit: Value): Request {
    Request(HttpGet, "/api/Url/list", Undefined,
            Obj(map["page" := WithDefault(page, Num(1)), "pageSize" := WithDefault(limit, Num(10))]))
  }

  /** `response.data.urls || response.data.items || []` */
  function ListSource(data: Value): Value {
    Or(Or(Field(data, "urls"), Field(data, "items")), Arr([]))
  }

  /** The `.map` callback over list elements. */
  function ListEntry(url: Value): (r: Result<UrlRecord, Thrown>)
    ensures r.Success? <==> !Nullish(url) && (!Truthy(Field(url, "shortUrl")) || Field(url, "shortUrl").Str?)
    ensures r.Failure? ==> r.error == TypeError
    ensures r.Success? ==>
      && r.value.shortUrl == Field(url, "shortUrl")
      && (Truthy(r.value.shortUrl) ==> r.value.shortUrl.Str? && r.value.code == Str(LastSegment(r.value.shortUrl.s)))
      && (!Truthy(r.value.shortUrl) ==> r.value.code == Field(url, "code"))
      && r.value.originalUrl == Field(url, "originalUrl")
      && r.value.createdAt == Field(url, "createdAt")
      && r.value.clicks == (if Truthy(Field(url, "clicks")) then Field(url, "clicks") else Num(0))
  {
    var shortUrl :- Member(url, "shortUrl");
    var code :- if Truthy(shortUrl) then
                  var c :- SplitPop(shortUrl); Success(Str(c))
                else Member(url, "code");
    Success(UrlRecord(code, Field(url, "originalUrl"), shortUrl,
                      Or(Field(url, "clicks"), Num(0)), Field(url, "createdAt")))
  }

  /** `elems.map(ListEntry)`: one record per element, in order; the first element
      whose callback throws makes the whole map throw that. */
  function MapEntries(elems: seq<Value>): (r: Result<seq<UrlRecord>, Thrown>)
    ensures r.Success? <==> forall i :: 0 <= i < |elems| ==> ListEntry(elems[i]).Success?
    ensures r.Success? ==> |r.value| == |elems|
    ensures r.Success? ==> forall i :: 0 <= i < |elems| ==> r.value[i] == ListEntry(elems[i]).value
    ensures r.Failure? ==>
      exists k :: 0 <= k < |elems| && ListEntry(elems[k]).Failure? && r.error == ListEntry(elems[k]).error &&
        forall j :: 0 <= j < k ==> ListEntry(elems[j]).Success?
  {
    if elems == [] then Success([])
    else
      var head :- ListEntry(elems[0]);
      var tail := MapEntries(elems[1..]);
      if tail.Failure? then
        assert forall j :: 1 <= j < |elems| ==> elems[1..][j - 1] == elems[j];
        Failure(tail.error)
      else
        Success([head] + tail.value)
  }

  /** `getAllUrls(page, limit)` */
  function GetAllUrls(send: Request -> Outcome, page: Value, limit: Value): (r: Result<UrlPage, Thrown>)
    ensures var o := send(ListRequest(page, limit));
      r.Success? <==>
        && o.Responded? && Succeeded(o.data) && ListSource(o.data).Arr?
        && forall i :: 0 <= i < |ListSource(o.data).elems| ==> ListEntry(ListSource(o.data).elems[i]).Success?
    ensures var o := send(ListRequest(page, limit));
      r.Success? ==>
        && |r.value.urls| == |ListSource(o.data).elems|
        && (forall i :: 0 <= i < |r.value.urls| ==> r.value.urls[i] == ListEntry(ListSource(o.data).elems[i]).value)
        && r.value.totalPages == (if Truthy(Field(o.data, "totalPages")) then Field(o.data, "totalPages") else Num(1))
        && r.value.currentPage == (if Truthy(Field(o.data, "currentPage")) then Field(o.data, "currentPage")
                                   else if page.Undefined? then Num(1) else page)
        && r.value.totalCount == (if Truthy(Field(o.data, "totalCount")) then Field(o.data, "totalCount")
                                  else Num(|r.value.urls|))
  {
    var data :- ResponseData(send(ListRequest(page, limit)));
    var _ :- CheckSuccess(data, FetchFailedMessage);
    var source := ListSource(data);
    if !source.Arr? then Failure(TypeError)  // `.map` is not a function of it
    else
      var urls :- MapEntries(source.elems);
      Success(UrlPage(urls,
                      Or(Field(data, "totalPages"), Num(1)),
                      Or(Field(data, "currentPage"), WithDefault(page, Num(1))),
                      Or(Field(data, "totalCount"), Num(|urls|))))
  }

  // ---- deleteUrl ----

  function DeleteRequest(code: string): Request {
    Request(HttpDelete, "/api/Url/" + code, Undefined, Undefined)
  }

  /** `deleteUrl(code)`: the body itself on success. */
  function DeleteUrl(send: Request -> Outcome, code: string): (r: Result<Value, Thrown>)
    ensures var o := send(DeleteRequest(code));
      r.Success? <==> o.Responded? && Succeeded(o.data)
    ensures r.Success? ==> r.value == send(DeleteRequest(code)).data
  {
    var data :- ResponseData(send(DeleteRequest(code)));
    var _ :- CheckSuccess(data, DeleteFailedMessage);
    Success(data)
  }
}
