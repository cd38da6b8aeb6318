/** `ComposedService`: a non-empty, ordered list of services folded into one
    `SafeResult<HttpResponse>`. The fold stops at the first failure and combines
    successes as `newest compose accumulated`. */
module ComposedServices {
  import opened Runtime
  import opened SafeResults
  import opened Http

  /** A first service and the (possibly empty) remaining ones, in order. */
  datatype ComposedService = ComposedService(first: Service, rest: seq<Service>)

  function Services(c: ComposedService): seq<Service> {
    [c.first] + c.rest
  }

  /** The fold's closure: bind on the accumulator, request the current service,
      and map its response onto `currentData compose accumulatedData`. */
  function Step(acc: SafeResult<HttpResponse>, current: Service): (r: SafeResult<HttpResponse>)
    ensures !IsSuccess(acc) ==> r == SafeResult(None, acc.err)
    ensures IsSuccess(acc) && current.url == SUPER_SECRET_URL ==>
              r == SafeResult(None, SafeRequest(current).err)
    ensures IsSuccess(acc) && current.url != SUPER_SECRET_URL ==>
              r == SafeResult(Some(Compose(HttpResponse(current.url), acc.data.value)), None)
  {
    FlatSequence(acc, (accumulatedData: HttpResponse) =>
      Sequence(SafeRequest(current), (currentData: HttpResponse) =>
        Returned(Compose(currentData, accumulatedData))))
  }

  /** Kotlin's `fold`: a left fold of `Step` over the services, from `acc`. */
  function Fold(acc: SafeResult<HttpResponse>, rest: seq<Service>): SafeResult<HttpResponse>
    decreases |rest|
  {
    if rest == [] then acc else Fold(Step(acc, rest[0]), rest[1..])
  }

  /** `getDataOrErrors`. */
  function GetDataOrErrors(c: ComposedService): SafeResult<HttpResponse> {
    if |c.rest| == 0 then
      SafeRequest(c.first)
    else
      Fold(SafeRequest(c.first), c.rest)
  }

  // ---------------------------------------------------------------------------
  // Reference definitions of the outcome.

  predicate AllSucceed(ss: seq<Service>) {
    forall i :: 0 <= i < |ss| ==> ss[i].url != SUPER_SECRET_URL
  }

  /** The index of the first service whose request fails, if any. */
  function FirstFailure(ss: seq<Service>): (k: Option<nat>)
    ensures k.Some? ==> k.value < |ss| && ss[k.value].url == SUPER_SECRET_URL
    ensures k.Some? ==> forall j :: 0 <= j < k.value ==> ss[j].url != SUPER_SECRET_URL
    ensures k.None? <==> AllSucceed(ss)
  {
    if ss == [] then None
    else if ss[0].url == SUPER_SECRET_URL then Some(0)
    else match FirstFailure(ss[1..])
      case None => None
      case Some(k) =>
        assert forall j :: 0 < j <= k ==> ss[j] == ss[1..][j - 1];
        Some(k + 1)
  }

  /** The responses of services that all succeed, in order. */
  function Responses(ss: seq<Service>): (rs: seq<HttpResponse>)
    ensures |rs| == |ss|
  {
    if ss == [] then [] else [HttpResponse(ss[0].url)] + Responses(ss[1..])
  }

  function Urls(ss: seq<Service>): (us: seq<string>)
    ensures |us| == |ss|
  {
    if ss == [] then [] else [ss[0].url] + Urls(ss[1..])
  }

  lemma {:induction false} ResponsesAt(ss: seq<Service>)
    ensures forall i :: 0 <= i < |ss| ==> Responses(ss)[i] == HttpResponse(ss[i].url)
  {
    if ss != [] {
      ResponsesAt(ss[1..]);
      assert forall i :: 0 < i < |ss| ==> ss[i] == ss[1..][i - 1];
    }
  }

  lemma {:induction false} UrlsAt(ss: seq<Service>)
    ensures forall i :: 0 <= i < |ss| ==> Urls(ss)[i] == ss[i].url
  {
    if ss != [] {
      UrlsAt(ss[1..]);
      assert forall i :: 0 < i < |ss| ==> ss[i] == ss[1..][i - 1];
    }
  }

  /** `rn compose (... (r1 compose r0))`: the newest response first, nested towards the oldest. */
  function Composed(rs: seq<HttpResponse>): HttpResponse
    requires |rs| > 0
    decreases |rs|
  {
    if |rs| == 1 then rs[0] else Compose(rs[|rs| - 1], Composed(rs[..|rs| - 1]))
  }

  function Reversed<T>(s: seq<T>): (r: seq<T>)
    ensures |r| == |s|
    ensures forall i :: 0 <= i < |s| ==> r[i] == s[|s| - 1 - i]
  {
    if s == [] then [] else [s[|s| - 1]] + Reversed(s[..|s| - 1])
  }

  /** The parts, left to right, with the separator between each two. */
  function Join(parts: seq<string>): string
    requires |parts| > 0
  {
    if |parts| == 1 then parts[0] else parts[0] + SEPARATOR + Join(parts[1..])
  }

  // ---------------------------------------------------------------------------
  // The fold.

  /** Once the accumulator is a failure, the services that follow make no difference:
      the same failure, with the same error, comes out. */
  lemma {:induction false} FoldAfterFailure(acc: SafeResult<HttpResponse>, rest: seq<Service>)
    requires !IsSuccess(acc)
    ensures Fold(acc, rest) == SafeResult(None, acc.err)
    decreases |rest|
  {
    if rest != [] {
      FoldAfterFailure(Step(acc, rest[0]), rest[1..]);
    }
  }

  /** One successful step wraps the new response around the composition so far. */
  lemma StepExtendsComposition(prefix: seq<HttpResponse>, current: Service)
    requires |prefix| > 0 && current.url != SUPER_SECRET_URL
    ensures Step(SafeResult(Some(Composed(prefix)), None), current)
            == SafeResult(Some(Composed(prefix + [HttpResponse(current.url)])), None)
  {
    assert (prefix + [HttpResponse(current.url)])[..|prefix|] == prefix;
  }

  lemma AllSucceedTail(ss: seq<Service>)
    requires ss != [] && AllSucceed(ss)
    ensures AllSucceed(ss[1..])
  {
    forall i | 0 <= i < |ss[1..]| ensures ss[1..][i].url != SUPER_SECRET_URL {
      assert ss[1..][i] == ss[i + 1];
    }
  }

  lemma AppendResponses(prefix: seq<HttpResponse>, ss: seq<Service>)
    requires ss != []
    ensures prefix + [HttpResponse(ss[0].url)] + Responses(ss[1..]) == prefix + Responses(ss)
  {
  }

  /** From a composed success, services that all succeed extend the composition. */
  lemma {:induction false} FoldAllSucceed(prefix: seq<HttpResponse>, rest: seq<Service>)
    requires |prefix| > 0
    requires AllSucceed(rest)
    ensures Fold(SafeResult(Some(Composed(prefix)), None), rest)
            == SafeResult(Some(Composed(prefix + Responses(rest))), None)
    decreases |rest|
  {
    if rest == [] {
      assert prefix + Responses(rest) == prefix;
    } else {
      var acc := SafeResult(Some(Composed(prefix)), None);
      var next := prefix + [HttpResponse(rest[0].url)];
      assert Fold(acc, rest) == Fold(Step(acc, rest[0]), rest[1..]);
      StepExtendsComposition(prefix, rest[0]);
      AllSucceedTail(rest);
      FoldAllSucceed(next, rest[1..]);
      AppendResponses(prefix, rest);
    }
  }

  /** From a success, the first failing service decides the outcome: its error is the one kept. */
  lemma {:induction false} FoldFirstFailure(acc: SafeResult<HttpResponse>, rest: seq<Service>, k: nat)
    requires IsSuccess(acc)
    requires k < |rest| && rest[k].url == SUPER_SECRET_URL
    requires forall j :: 0 <= j < k ==> rest[j].url != SUPER_SECRET_URL
    ensures Fold(acc, rest) == SafeResult(None, SafeRequest(rest[k]).err)
    decreases k
  {
    if k == 0 {
      FoldAfterFailure(Step(acc, rest[0]), rest[1..]);
    } else {
      assert forall j :: 0 <= j < k - 1 ==> rest[1..][j] == rest[j + 1];
      FoldFirstFailure(Step(acc, rest[0]), rest[1..], k - 1);
    }
  }

  // ---------------------------------------------------------------------------
  // What `getDataOrErrors` returns.

  /** With no further services the first request is the answer, and the `isEmpty`
      branch agrees with what the fold would give: no `compose` happens. */
  lemma NoRestIsFirstRequest(c: ComposedService)
    requires c.rest == []
    ensures GetDataOrErrors(c) == SafeRequest(c.first)
    ensures Fold(SafeRequest(c.first), c.rest) == GetDataOrErrors(c)
  {
  }

  /** If service k is the first to fail, the result is a failure carrying that service's error. */
  lemma FirstFailureWins(c: ComposedService, k: nat)
    requires k < |Services(c)| && Services(c)[k].url == SUPER_SECRET_URL
    requires forall j :: 0 <= j < k ==> Services(c)[j].url != SUPER_SECRET_URL
    ensures GetDataOrErrors(c) == SafeResult(None, SafeRequest(Services(c)[k]).err)
    ensures GetDataOrErrors(c) == SafeResult(None, Some(Throwable("Exception for " + SUPER_SECRET_URL)))
  {
    var all := Services(c);
    if k == 0 {
      FoldAfterFailure(SafeRequest(c.first), c.rest);
    } else {
      assert all[k] == c.rest[k - 1];
      assert all[0] == c.first;
      assert forall j :: 0 <= j < k - 1 ==> c.rest[j] == all[j + 1];
      FoldFirstFailure(SafeRequest(c.first), c.rest, k - 1);
    }
  }

  /** If every service succeeds, the responses are composed newest first, and no error is left. */
  lemma AllSucceedComposes(c: ComposedService)
    requires AllSucceed(Services(c))
    ensures GetDataOrErrors(c) == SafeResult(Some(Composed(Responses(Services(c)))), None)
  {
    var all := Services(c);
    assert all[0] == c.first;
    assert AllSucceed(c.rest) by {
      forall i | 0 <= i < |c.rest| ensures c.rest[i].url != SUPER_SECRET_URL {
        assert c.rest[i] == all[i + 1];
      }
    }
    var seed := [HttpResponse(c.first.url)];
    FoldAllSucceed(seed, c.rest);
    assert all[1..] == c.rest;
  }

  /** The whole outcome: the first failure's error, or the composition of all responses;
      never both and never neither. */
  lemma GetDataOrErrorsOutcome(c: ComposedService)
    ensures GetDataOrErrors(c) == match FirstFailure(Services(c))
                                  case Some(k) => SafeResult(None, SafeRequest(Services(c)[k]).err)
                                  case None => SafeResult(Some(Composed(Responses(Services(c)))), None)
    ensures Canonical(GetDataOrErrors(c))
    ensures IsSuccess(GetDataOrErrors(c)) <==> AllSucceed(Services(c))
  {
    match FirstFailure(Services(c))
    case Some(k) => FirstFailureWins(c, k);
    case None => AllSucceedComposes(c);
  }

  /** The composed text lists the data newest first, joined by the separator. */
  lemma {:induction false} ComposedIsNewestFirst(rs: seq<HttpResponse>)
    requires |rs| > 0
    ensures Composed(rs).data == Join(Reversed(seq(|rs|, i requires 0 <= i < |rs| => rs[i].data)))
    decreases |rs|
  {
    var texts := seq(|rs|, i requires 0 <= i < |rs| => rs[i].data);
    if |rs| > 1 {
      var init := rs[..|rs| - 1];
      var initTexts := seq(|init|, i requires 0 <= i < |init| => init[i].data);
      ComposedIsNewestFirst(init);
      assert initTexts == texts[..|texts| - 1];
      assert Reversed(texts) == [rs[|rs| - 1].data] + Reversed(initTexts);
      assert Reversed(texts)[1..] == Reversed(initTexts);
    }
  }

  /** For services that all succeed, the final text is their URLs, newest first. */
  lemma AllSucceedText(c: ComposedService)
    requires AllSucceed(Services(c))
    ensures GetDataOrErrors(c).data.Some?
    ensures GetDataOrErrors(c).data.value.data == Join(Reversed(Urls(Services(c))))
  {
    AllSucceedComposes(c);
    var rs := Responses(Services(c));
    ComposedIsNewestFirst(rs);
    ResponsesAt(Services(c));
    UrlsAt(Services(c));
    assert seq(|rs|, i requires 0 <= i < |rs| => rs[i].data) == Urls(Services(c));
  }

  // ---------------------------------------------------------------------------
  // The fold as a loop that records the requests it makes.

  /** A prefix of the URLs that stops only at a failure stops at the first one. */
  lemma StopsAtFirstFailure(all: seq<Service>, requested: seq<string>)
    requires 1 <= |requested| <= |all|
    requires requested == Urls(all)[..|requested|]
    requires forall i :: 0 <= i < |requested| - 1 ==> requested[i] != SUPER_SECRET_URL
    requires |requested| < |all| ==> requested[|requested| - 1] == SUPER_SECRET_URL
    ensures match FirstFailure(all)
            case Some(k) => |requested| == k + 1
            case None => |requested| == |all|
  {
    var n := |requested|;
    UrlsAt(all);
    assert requested[n - 1] == all[n - 1].url;
    forall j | 0 <= j < n - 1 ensures all[j].url != SUPER_SECRET_URL {
      assert requested[j] == all[j].url;
    }
    match FirstFailure(all)
    case Some(k) =>
      assert all[k].url == SUPER_SECRET_URL;
    case None =>
  }

  /** Runs the fold one service at a time and records the URL of every
      request made: a prefix of the services, ending at the first failure. */
  method GetDataOrErrorsTraced(c: ComposedService) returns (r: SafeResult<HttpResponse>, requested: seq<string>)
    ensures r == GetDataOrErrors(c)
    ensures 1 <= |requested| <= |Services(c)|
    ensures requested == Urls(Services(c))[..|requested|]
    ensures forall i :: 0 <= i < |requested| - 1 ==> requested[i] != SUPER_SECRET_URL
    ensures |requested| < |Services(c)| ==> requested[|requested| - 1] == SUPER_SECRET_URL
    ensures match FirstFailure(Services(c))
            case Some(k) => |requested| == k + 1
            case None => |requested| == |Services(c)|
  {
    var all := Services(c);
    r := SafeRequest(c.first);
    requested := [c.first.url];
    var i := 0;
    while i < |c.rest|
      invariant 0 <= i <= |c.rest|
      invariant Fold(r, c.rest[i..]) == Fold(SafeRequest(c.first), c.rest)
      invariant 1 <= |requested| <= i + 1
      invariant forall j :: 0 <= j < |requested| ==> requested[j] == all[j].url
      invariant forall j :: 0 <= j < |requested| - 1 ==> requested[j] != SUPER_SECRET_URL
      invariant IsSuccess(r) ==> |requested| == i + 1 && requested[|requested| - 1] != SUPER_SECRET_URL
      invariant !IsSuccess(r) ==> requested[|requested| - 1] == SUPER_SECRET_URL
    {
      ghost var before := r;
      assert Fold(r, c.rest[i..]) == Fold(Step(r, c.rest[i]), c.rest[i + 1..]) by {
        assert c.rest[i..][0] == c.rest[i] && c.rest[i..][1..] == c.rest[i + 1..];
      }
      if IsSuccess(r) {
        // the bind passes the accumulated value on: this service is requested
        var current := c.rest[i];
        var response := SafeRequest(current);
        assert all[|requested|] == current;
        requested := requested + [current.url];
        var accumulatedData := r.data.value;
        r := Sequence(response, (currentData: HttpResponse) => Returned(Compose(currentData, accumulatedData)));
      } else {
        // the bind short-circuits: no request is made
        r := SafeResult(None, r.err);
      }
      assert r == Step(before, c.rest[i]);
      i := i + 1;
    }
    assert c.rest[i..] == [];
    UrlsAt(all);
    assert requested == Urls(all)[..|requested|];
    StopsAtFirstFailure(all, requested);
  }

  // ---------------------------------------------------------------------------
  // The driver's four compositions.

  const GOOD_URL: string := "https://www.android.com"

  /** `ComposedService(good)`: the success handler gets the good URL's response. */
  lemma SingleGoodService()
    ensures EndSequence(GetDataOrErrors(ComposedService(Service(GOOD_URL), [])))
            == SuccessCalled(HttpResponse(GOOD_URL))
  {
  }

  /** `ComposedService(bad)`: the failure handler gets the stub's exception. */
  lemma SingleBadService()
    ensures EndSequence(GetDataOrErrors(ComposedService(Service(SUPER_SECRET_URL), [])))
            == FailureCalled(Some(Throwable("Exception for https://www.apple.com")))
  {
    assert "Exception for " + SUPER_SECRET_URL == "Exception for https://www.apple.com";
  }

  /** `ComposedService(good, good, good, bad, good)`: the fourth service's error
      reaches the failure handler. */
  lemma EarlyFailure()
    ensures EndSequence(GetDataOrErrors(ComposedService(Service(GOOD_URL),
              [Service(GOOD_URL), Service(GOOD_URL), Service(SUPER_SECRET_URL), Service(GOOD_URL)])))
            == FailureCalled(Some(Throwable("Exception for https://www.apple.com")))
  {
    var c := ComposedService(Service(GOOD_URL),
               [Service(GOOD_URL), Service(GOOD_URL), Service(SUPER_SECRET_URL), Service(GOOD_URL)]);
    assert Services(c)[3].url == SUPER_SECRET_URL;
    assert Services(c) == [Service(GOOD_URL), Service(GOOD_URL), Service(GOOD_URL), Service(SUPER_SECRET_URL), Service(GOOD_URL)];
    FirstFailureWins(c, 3);
    assert "Exception for " + SUPER_SECRET_URL == "Exception for https://www.apple.com";
  }

  /** `ComposedService(good, good, good, good, good)`: five copies of the good URL
      joined by the separator. */
  lemma AllGood()
    ensures EndSequence(GetDataOrErrors(ComposedService(Service(GOOD_URL),
              [Service(GOOD_URL), Service(GOOD_URL), Service(GOOD_URL), Service(GOOD_URL)])))
            == SuccessCalled(HttpResponse(Join([GOOD_URL, GOOD_URL, GOOD_URL, GOOD_URL, GOOD_URL])))
  {
    var g := Service(GOOD_URL);
    var c := ComposedService(g, [g, g, g, g]);
    assert Services(c) == [g, g, g, g, g];
    AllSucceedText(c);
    UrlsAt(Services(c));
    assert Reversed(Urls(Services(c))) == [GOOD_URL, GOOD_URL, GOOD_URL, GOOD_URL, GOOD_URL];
  }
}
