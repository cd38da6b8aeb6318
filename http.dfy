/** The HTTP side of the example: a response whose `compose` joins two texts,
    the stubbed `httpGet`, and a `Service` whose `safeRequest` catches what
    `httpGet` throws. */
module Http {
  import opened Runtime
  import opened SafeResults

  /** The one URL the stub refuses. */
  const SUPER_SECRET_URL: string := "https://www.apple.com"

  /** What `compose` puts between the two texts. */
  const SEPARATOR: string := " composed with "

  datatype HttpResponse = HttpResponse(data: string)

  /** `toString` prints the response's data. */
  function ToString(r: HttpResponse): string {
    r.data
  }

  /** `r compose other`: the text of `r`, the separator, then the text of `other`. */
  function Compose(r: HttpResponse, other: HttpResponse): (c: HttpResponse)
    ensures |c.data| == |r.data| + |SEPARATOR| + |other.data|
    ensures c.data[..|r.data|] == r.data
    ensures c.data[|r.data|..|r.data| + |SEPARATOR|] == SEPARATOR
    ensures c.data[|r.data| + |SEPARATOR|..] == other.data
  {
    HttpResponse(ToString(r) + SEPARATOR + ToString(other))
  }

  /** The nesting of `compose` cannot be seen in the text it builds. */
  lemma ComposeAssociative(a: HttpResponse, b: HttpResponse, c: HttpResponse)
    ensures Compose(a, Compose(b, c)) == Compose(Compose(a, b), c)
  {
  }

  /** The order of `compose`'s arguments can. */
  lemma ComposeNotCommutative()
    ensures Compose(HttpResponse("a"), HttpResponse("b")) != Compose(HttpResponse("b"), HttpResponse("a"))
  {
  }

  /** The stubbed `httpGet`: throws for the secret URL, otherwise answers with the URL itself. */
  function HttpGet(url: string): (o: Outcome<HttpResponse>)
    ensures o.Threw? <==> url == SUPER_SECRET_URL
    ensures o.Threw? ==> o.thrown == Throwable("Exception for " + url)
    ensures o.Returned? ==> o.value == HttpResponse(url)
  {
    if url == SUPER_SECRET_URL then
      Threw(Throwable("Exception for " + url))
    else
      Returned(HttpResponse(url))
  }

  datatype Service = Service(url: string)

  /** `safeRequest`: calls `httpGet` and catches whatever it throws, so it never throws itself. */
  function SafeRequest(s: Service): (r: SafeResult<HttpResponse>)
    ensures Canonical(r)
    ensures IsSuccess(r) <==> s.url != SUPER_SECRET_URL
    ensures IsSuccess(r) ==> r == SafeResult(Some(HttpResponse(s.url)), None)
    ensures !IsSuccess(r) ==> r == SafeResult(None, Some(Throwable("Exception for " + s.url)))
  {
    match HttpGet(s.url)
    case Returned(data) => SafeResult(Some(data), None)
    case Threw(thrown) => SafeResult(None, Some(thrown))
  }

  /** Whatever `httpGet` does, `safeRequest` is its try/catch. */
  lemma SafeRequestCatches(s: Service)
    ensures SafeRequest(s) == Catching(HttpGet(s.url))
  {
  }
}
