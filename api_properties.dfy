/**
 * Properties of the API client that relate several operations, or an
 * operation to the body it decodes.
 */
module ApiProperties {
  import opened Wrappers
  import opened JsValues
  import opened Segments
  import opened Api

  /** An operation whose one call is rejected fails with the interceptor's error,
      whatever the operation; a call that got no response fails with the
      connection message. */
  lemma RejectionFailsEveryOperation(send: Request -> Outcome, e: TransportError,
                                     url: string, code: string, page: Value, limit: Value)
    ensures send(ShortenRequest(url)) == Rejected(e) ==> ShortenUrl(send, url) == Failure(RejectionError(e))
    ensures send(CodeRequest(code)) == Rejected(e) ==> GetUrlByCode(send, code) == Failure(RejectionError(e))
    ensures send(CodeRequest(code)) == Rejected(e) ==> GetUrlStats(send, code) == Failure(RejectionError(e))
    ensures send(ListRequest(page, limit)) == Rejected(e) ==> GetAllUrls(send, page, limit) == Failure(RejectionError(e))
    ensures send(DeleteRequest(code)) == Rejected(e) ==> DeleteUrl(send, code) == Failure(RejectionError(e))
    ensures send(ShortenRequest(url)) == Rejected(NoResponse) ==>
      ShortenUrl(send, url) == Failure(Error(Str(CannotConnectMessage)))
  {
  }

  /** The interceptor never produces an empty message: a rejection becomes an
      `Error` with a truthy message, except for an error response without a body,
      whose `.error` read throws. */
  lemma RejectionMessageNonEmpty(e: TransportError)
    ensures RejectionError(e) == TypeError <==> e.HttpError? && Nullish(e.data)
    ensures RejectionError(e).Error? ==> Truthy(RejectionError(e).message)
  {
  }

  /** A body without a truthy `success` fails each operation with the body's `error`
      when that is truthy, otherwise with the operation's own message; no record
      is returned. */
  lemma FalsySuccessFails(send: Request -> Outcome, data: Value,
                          url: string, code: string, page: Value, limit: Value)
    requires !Nullish(data) && !Truthy(Field(data, "success"))
    ensures send(ShortenRequest(url)) == Responded(data) ==>
      ShortenUrl(send, url) == Failure(Error(if Truthy(Field(data, "error")) then Field(data, "error") else Str(ShortenFailedMessage)))
    ensures send(CodeRequest(code)) == Responded(data) ==>
      GetUrlByCode(send, code) == Failure(Error(if Truthy(Field(data, "error")) then Field(data, "error") else Str(NotFoundMessage)))
    ensures send(CodeRequest(code)) == Responded(data) ==>
      GetUrlStats(send, code) == Failure(Error(if Truthy(Field(data, "error")) then Field(data, "error") else Str(NotFoundMessage)))
    ensures send(ListRequest(page, limit)) == Responded(data) ==>
      GetAllUrls(send, page, limit) == Failure(Error(if Truthy(Field(data, "error")) then Field(data, "error") else Str(FetchFailedMessage)))
    ensures send(DeleteRequest(code)) == Responded(data) ==>
      DeleteUrl(send, code) == Failure(Error(if Truthy(Field(data, "error")) then Field(data, "error") else Str(DeleteFailedMessage)))
  {
  }

  /** `getUrlStats` issues the same request as `getUrlByCode` and returns the same
      record, which echoes the code it was given. */
  lemma StatsAgreesWithLookup(send: Request -> Outcome, code: string)
    ensures GetUrlStats(send, code) == GetUrlByCode(send, code)
    ensures GetUrlByCode(send, code).Success? ==> GetUrlByCode(send, code).value.code == Str(code)
  {
  }

  /** Where the list comes from: `urls` whenever it is an array, even an empty one;
      otherwise `items` when `urls` is falsy; otherwise nothing. */
  lemma ListSourceChoice(data: Value)
    ensures Field(data, "urls").Arr? ==> ListSource(data) == Field(data, "urls")
    ensures !Truthy(Field(data, "urls")) && Truthy(Field(data, "items")) ==> ListSource(data) == Field(data, "items")
    ensures !Truthy(Field(data, "urls")) && !Truthy(Field(data, "items")) ==> ListSource(data) == Arr([])
  {
  }

  /** A list body with a truthy `success` is mapped element by element, in order:
      each record's code is the last segment of its truthy `shortUrl`, else its own
      `code`, and its clicks are its truthy `clicks`, else 0. */
  lemma ListRecordsFollowSource(send: Request -> Outcome, page: Value, limit: Value, data: Value, i: nat)
    requires send(ListRequest(page, limit)) == Responded(data)
    requires GetAllUrls(send, page, limit).Success?
    requires i < |GetAllUrls(send, page, limit).value.urls|
    ensures ListSource(data).Arr? && i < |ListSource(data).elems|
    ensures var rec, url := GetAllUrls(send, page, limit).value.urls[i], ListSource(data).elems[i];
      && rec.shortUrl == Field(url, "shortUrl")
      && rec.originalUrl == Field(url, "originalUrl")
      && rec.createdAt == Field(url, "createdAt")
      && rec.code == (if Truthy(Field(url, "shortUrl")) then Str(LastSegment(Field(url, "shortUrl").s)) else Field(url, "code"))
      && rec.clicks == (if Truthy(Field(url, "clicks")) then Field(url, "clicks") else Num(0))
  {
    var urls := MapEntries(ListSource(data).elems);
    assert urls.Success?;
    var url := ListSource(data).elems[i];
    assert ListEntry(url).Success?;
  }

  /** The paging fields fall back when the body's are absent or zero: one page,
      the requested page (1 when none was passed), and the number of records. */
  lemma PagingDefaults(send: Request -> Outcome, page: Value, limit: Value, data: Value)
    requires send(ListRequest(page, limit)) == Responded(data)
    requires GetAllUrls(send, page, limit).Success?
    ensures var p := GetAllUrls(send, page, limit).value;
      && p.totalPages == (if Truthy(Field(data, "totalPages")) then Field(data, "totalPages") else Num(1))
      && p.currentPage == (if Truthy(Field(data, "currentPage")) then Field(data, "currentPage")
                           else if page.Undefined? then Num(1) else page)
      && p.totalCount == (if Truthy(Field(data, "totalCount")) then Field(data, "totalCount") else Num(|p.urls|))
  {
  }

  /** A truthy `urls` or `items` that is not an array cannot be mapped. */
  lemma NonArrayListThrows(send: Request -> Outcome, page: Value, limit: Value, data: Value)
    requires send(ListRequest(page, limit)) == Responded(data)
    requires Succeeded(data) && !ListSource(data).Arr?
    ensures GetAllUrls(send, page, limit) == Failure(TypeError)
  {
  }

  // ---- worked examples ----

  const ExampleShortUrl := "http://localhost:5000/tf73lk"

  /** The code in a short URL is what follows its last slash. */
  lemma ExampleCodeExtraction()
    ensures LastSegment(ExampleShortUrl) == "tf73lk"
  {
    var s := ExampleShortUrl;
    assert |s| == 28;
    assert s[22..] == "tf73lk";
    assert s[21] == '/';
    LastSegmentUnique(s, "tf73lk");
  }

  /** A successful shorten response yields the short URL, its code and the original URL. */
  lemma ExampleShorten(send: Request -> Outcome)
    requires send(ShortenRequest("https://example.com")) ==
      Responded(Obj(map["success" := Bool(true), "shortUrl" := Str(ExampleShortUrl),
                        "originalUrl" := Str("https://example.com")]))
    ensures ShortenUrl(send, "https://example.com") ==
      Success(ShortenedUrl(ExampleShortUrl, "tf73lk", Str("https://example.com")))
  {
    var data := Obj(map["success" := Bool(true), "shortUrl" := Str(ExampleShortUrl),
                        "originalUrl" := Str("https://example.com")]);
    assert Field(data, "success") == Bool(true);
    assert Field(data, "shortUrl") == Str(ExampleShortUrl);
    assert Field(data, "originalUrl") == Str("https://example.com");
    assert CheckSuccess(data, ShortenFailedMessage) == Success(());
    ExampleCodeExtraction();
    assert SplitPop(Str(ExampleShortUrl)) == Success("tf73lk");
  }

  /** A failed shorten response is reported with its own error text. */
  lemma ExampleShortenRejected(send: Request -> Outcome, url: string)
    requires send(ShortenRequest(url)) == Responded(Obj(map["success" := Bool(false), "error" := Str("bad url")]))
    ensures ShortenUrl(send, url) == Failure(Error(Str("bad url")))
  {
  }

  /** A list under `items` with no paging fields: one record, one page, a count of one. */
  lemma ExampleItemsList(send: Request -> Outcome)
    requires send(ListRequest(Undefined, Undefined)) ==
      Responded(Obj(map["success" := Bool(true),
                        "items" := Arr([Obj(map["code" := Str("abc12"), "originalUrl" := Str("u1"), "clicks" := Num(3)])])]))
    ensures GetAllUrls(send, Undefined, Undefined) ==
      Success(UrlPage([UrlRecord(Str("abc12"), Str("u1"), Undefined, Num(3), Undefined)], Num(1), Num(1), Num(1)))
  {
    var entry := Obj(map["code" := Str("abc12"), "originalUrl" := Str("u1"), "clicks" := Num(3)]);
    assert ListEntry(entry) == Success(UrlRecord(Str("abc12"), Str("u1"), Undefined, Num(3), Undefined));
    var mapped := MapEntries([entry]);
    assert mapped.Success? && |mapped.value| == 1;
    assert [entry][0] == entry;
    assert mapped.value[0] == ListEntry([entry][0]).value;
    assert mapped.value == [mapped.value[0]];
    assert mapped == Success([UrlRecord(Str("abc12"), Str("u1"), Undefined, Num(3), Undefined)]);
  }
}
