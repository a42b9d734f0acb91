/** The 1688 image-search client `Alibaba1688Searcher`: it keeps the signing
    token, the request headers and the session cookies, fetches the product
    image with bounded retries, uploads it with a signed request, and collects
    the result cards from the search page.

    Everything that leaves the process is a parameter: the browser's cookies,
    every HTTP reply (indexed by attempt and request kind), Base64, MD5,
    `json.dumps`, the upload endpoint and the search page. The methods return
    the requests and pauses they make as a trace of `Action`s. */
module Searcher {

  import opened Wrappers
  import opened Strings
  import Sorting

  const TokenCookie: string := "_m_h5_tk"
  const SignAppKey: string := "12574478"
  const ImageReferer: string := "https://echotik.live/"
  const CdnHost: string := "cdn.echotik.shop"
  const CdnReplacement: string := "echotik.live/storage"
  /** A 1x1 transparent PNG, returned when every image fetch fails. */
  const Placeholder: string := "iVBORw0KGgoAAAANSUhEUgAAAAEAAAABCAQAAAC1HAwCAAAAC0lEQVR42mNkYAAAAAYAAjCB0C8AAAAASUVORK5CYII="
  const MaxAttempts: nat := 3
  const MaxPolls: nat := 5
  const MaxCards: nat := 10

  /** The headers `_init_token_and_headers` installs, as name/value pairs
      in the order the source lists them. */
  function SearchHeaders(): (h: seq<(string, string)>)
    ensures |h| == 14
  {
    seq(14, i requires 0 <= i < 14 => SearchHeader(i))
  }

  function SearchHeader(i: nat): (string, string)
    requires i < 14
  {
    if i == 0 then ("User-Agent", "Mozilla/5.0 (Windows NT 10.0; Win64; x64) AppleWebKit/537.36 (KHTML, like Gecko) Chrome/134.0.0.0 Safari/537.36")
    else if i == 1 then ("Accept", "application/json")
    else if i == 2 then ("Accept-Language", "zh-CN,zh;q=0.9")
    else if i == 3 then ("Content-Type", "application/x-www-form-urlencoded")
    else if i == 4 then ("Origin", "https://re.1688.com")
    else if i == 5 then ("Referer", "https://re.1688.com/")
    else if i == 6 then ("Cache-Control", "no-cache")
    else if i == 7 then ("Pragma", "no-cache")
    else if i == 8 then ("sec-ch-ua", "\"Chromium\";v=\"134\", \"Not:A-Brand\";v=\"24\", \"Google Chrome\";v=\"134\"")
    else if i == 9 then ("sec-ch-ua-mobile", "?0")
    else if i == 10 then ("sec-ch-ua-platform", "\"Windows\"")
    else if i == 11 then ("sec-fetch-dest", "empty")
    else if i == 12 then ("sec-fetch-mode", "cors")
    else ("sec-fetch-site", "same-site")
  }

  // ---------------------------------------------------------------- cookies

  datatype Cookie = Cookie(name: string, value: string)

  /** The cookie jar after `session.cookies.set` for each cookie in order. */
  function SetAll(jar: map<string, string>, cs: seq<Cookie>): map<string, string> {
    if |cs| == 0 then jar
    else SetAll(jar, cs[..|cs| - 1])[cs[|cs| - 1].name := cs[|cs| - 1].value]
  }

  /** The value of the last cookie named `n`. */
  function LastValue(cs: seq<Cookie>, n: string): (r: Option<string>)
    ensures r.Some? ==> Cookie(n, r.value) in cs
    ensures r.None? <==> forall c :: c in cs ==> c.name != n
  {
    if |cs| == 0 then None
    else if cs[|cs| - 1].name == n then Some(cs[|cs| - 1].value)
    else
      assert cs == cs[..|cs| - 1] + [cs[|cs| - 1]];
      LastValue(cs[..|cs| - 1], n)
  }

  /** After setting the cookies, each name holds the value of its last
      cookie, and names no cookie mentions keep their old value. */
  lemma {:induction false} SetAllLastWins(jar: map<string, string>, cs: seq<Cookie>, n: string)
    ensures LastValue(cs, n).Some? ==> n in SetAll(jar, cs) && SetAll(jar, cs)[n] == LastValue(cs, n).value
    ensures LastValue(cs, n).None? ==> (n in SetAll(jar, cs) <==> n in jar)
    ensures LastValue(cs, n).None? && n in jar ==> SetAll(jar, cs)[n] == jar[n]
  {
    if |cs| > 0 {
      SetAllLastWins(jar, cs[..|cs| - 1], n);
    }
  }

  /** The signing token in a `_m_h5_tk` cookie value: the text before its
      first underscore. */
  function TokenOf(v: string): (t: string)
    ensures '_' !in t && StartsWith(v, t)
    ensures |t| < |v| ==> v[|t|] == '_'
  {
    match FirstIndexOf(v, '_')
    case None => assert Split(v, '_') == [v]; Split(v, '_')[0]
    case Some(i) => assert Split(v, '_')[0] == v[..i]; Split(v, '_')[0]
  }

  /** `self.m_h5_tk` after the cookie loop: set from the last `_m_h5_tk`
      cookie, unchanged when there is none. */
  function TokenAfter(token: Option<string>, cs: seq<Cookie>): Option<string> {
    match LastValue(cs, TokenCookie)
    case None => token
    case Some(v) => Some(TokenOf(v))
  }

  // ---------------------------------------------------------------- fetches

  /** An HTTP reply, or the exception `requests.get` raised. */
  datatype Reply = Reply(status: int, body: seq<bv8>) | Raised

  /** The request an image fetch sends: the URL as given, the same URL with
      itself as referer, or a rewritten URL. */
  datatype GetKind = Primary | AltReferer | AltUrl

  /** What the client does that the outside world sees. */
  datatype Action =
    | Get(kind: GetKind, url: string, referer: string, reply: Reply)
    | Sleep(seconds: nat)
    | Post(sign: string, form: string)
    | Poll(attempt: nat)

  /** The body an attempt obtained (if any) and the actions it took. */
  datatype Outcome = Outcome(found: Option<seq<bv8>>, trace: seq<Action>)

  /** Which of the two fetch loops: `_image_to_base64` or `download_image`. */
  datatype FetchMode = ToBase64 | Download

  predicate Is200(r: Reply) {
    r.Reply? && r.status == 200
  }

  predicate IsSuccess(a: Action) {
    a.Get? && Is200(a.reply)
  }

  /** The pause after a failed attempt `k`: `2 * (k + 1)` seconds, except
      after the last attempt. */
  function Pause(k: nat): seq<Action> {
    if k < MaxAttempts - 1 then [Sleep(2 * (k + 1))] else []
  }

  /** `https://echotik.live/storage/products/<parts[-2]>/<parts[-1]>`,
      written as the join of its path segments. */
  function AltImageUrl(url: string): string
    requires |Split(url, '/')| >= 2
  {
    var parts := Split(url, '/');
    Join(["https:", "", "echotik.live", "storage", "products", parts[|parts| - 2], parts[|parts| - 1]], '/')
  }

  /** One attempt of `_image_to_base64`: the primary request first; the
      fallbacks only after a 403 on an attempt that is not the last; a body
      only from a 200, the last request made. */
  function ImageAttempt(url: string, k: nat, fetch: (nat, GetKind, string) -> Reply): (o: Outcome)
    ensures 1 <= |o.trace| <= 4 && o.trace[0] == Get(Primary, url, ImageReferer, fetch(k, Primary, url))
    ensures |o.trace| > 1 && o.trace[1].Get? ==>
      fetch(k, Primary, url).Reply? && fetch(k, Primary, url).status == 403 && k < MaxAttempts - 1
    ensures o.found.Some? ==> IsSuccess(o.trace[|o.trace| - 1]) && o.found.value == o.trace[|o.trace| - 1].reply.body
  {
    var r := fetch(k, Primary, url);
    var primary := Get(Primary, url, ImageReferer, r);
    if r.Raised? then Outcome(None, [primary] + Pause(k))
    else if r.status == 200 then Outcome(Some(r.body), [primary])
    else if r.status == 403 && k < MaxAttempts - 1 then
      var a := fetch(k, AltReferer, url);
      var first := [primary, Get(AltReferer, url, url, a)];
      if Is200(a) then Outcome(Some(a.body), first)
      else if Contains(url, "echotik.shop") && |Split(url, '/')| >= 5 then
        var alt := AltImageUrl(url);
        var b := fetch(k, AltUrl, alt);
        var second := first + [Get(AltUrl, alt, ImageReferer, b)];
        if Is200(b) then Outcome(Some(b.body), second)
        else Outcome(None, second + Pause(k))
      else Outcome(None, first + Pause(k))
    else Outcome(None, [primary] + Pause(k))
  }

  /** One attempt of `download_image`: the primary request first; the CDN
      rewrite only after a reply that is not a 200, for a URL on the CDN
      host; a body only from a 200, the last request made. */
  function DownloadAttempt(url: string, k: nat, fetch: (nat, GetKind, string) -> Reply): (o: Outcome)
    ensures 1 <= |o.trace| <= 3 && o.trace[0] == Get(Primary, url, "", fetch(k, Primary, url))
    ensures |o.trace| > 1 && o.trace[1].Get? ==>
      fetch(k, Primary, url).Reply? && fetch(k, Primary, url).status != 200 && Contains(url, CdnHost)
      && o.trace[1].url == ReplaceAll(url, CdnHost, CdnReplacement)
    ensures o.found.Some? ==> IsSuccess(o.trace[|o.trace| - 1]) && o.found.value == o.trace[|o.trace| - 1].reply.body
  {
    var r := fetch(k, Primary, url);
    var primary := Get(Primary, url, "", r);
    if r.Raised? then Outcome(None, [primary] + Pause(k))
    else if r.status == 200 then Outcome(Some(r.body), [primary])
    else if Contains(url, CdnHost) then
      var alt := ReplaceAll(url, CdnHost, CdnReplacement);
      var b := fetch(k, AltUrl, alt);
      var second := [primary, Get(AltUrl, alt, "", b)];
      if Is200(b) then Outcome(Some(b.body), second)
      else Outcome(None, second + Pause(k))
    else Outcome(None, [primary] + Pause(k))
  }

  function Attempt(mode: FetchMode, url: string, k: nat, fetch: (nat, GetKind, string) -> Reply): Outcome {
    match mode
    case ToBase64 => ImageAttempt(url, k, fetch)
    case Download => DownloadAttempt(url, k, fetch)
  }

  /** The outcome each of the three attempts would have. */
  function Attempts(mode: FetchMode, url: string, fetch: (nat, GetKind, string) -> Reply): (os: seq<Outcome>)
    ensures |os| == MaxAttempts
    ensures forall k :: 0 <= k < MaxAttempts ==> os[k] == Attempt(mode, url, k, fetch)
  {
    seq(MaxAttempts, k requires 0 <= k => Attempt(mode, url, k, fetch))
  }

  /** Attempts `k`, `k + 1`, ... in order, stopping at the first that
      obtains a body. */
  function RetryFrom(os: seq<Outcome>, k: nat): Outcome
    decreases |os| - k
  {
    if k >= |os| then Outcome(None, [])
    else if os[k].found.Some? then os[k]
    else
      var rest := RetryFrom(os, k + 1);
      Outcome(rest.found, os[k].trace + rest.trace)
  }

  /** After a failed attempt, the retry goes on with the next one. */
  lemma RetryStep(os: seq<Outcome>, k: nat, done: seq<Action>)
    requires k < |os| && os[k].found.None?
    ensures RetryFrom(os, k).found == RetryFrom(os, k + 1).found
    ensures done + RetryFrom(os, k).trace == (done + os[k].trace) + RetryFrom(os, k + 1).trace
  {
  }

  /** The retry loop of `_image_to_base64` or `download_image`. */
  function Retry(mode: FetchMode, url: string, fetch: (nat, GetKind, string) -> Reply): Outcome {
    RetryFrom(Attempts(mode, url, fetch), 0)
  }

  function CountPrimary(t: seq<Action>): nat {
    if |t| == 0 then 0
    else (if t[0].Get? && t[0].kind == Primary then 1 else 0) + CountPrimary(t[1..])
  }

  /** The lengths of the pauses in `t`, in order. */
  function Sleeps(t: seq<Action>): seq<nat> {
    if |t| == 0 then []
    else (if t[0].Sleep? then [t[0].seconds] else []) + Sleeps(t[1..])
  }

  /** The pauses that would follow attempts `k`, `k + 1`, ... if all failed. */
  function SleepPlan(k: nat): seq<nat>
    decreases MaxAttempts - k
  {
    if k >= MaxAttempts - 1 then [] else [2 * (k + 1)] + SleepPlan(k + 1)
  }

  lemma {:induction false} CountPrimaryConcat(a: seq<Action>, b: seq<Action>)
    ensures CountPrimary(a + b) == CountPrimary(a) + CountPrimary(b)
  {
    if |a| > 0 {
      assert (a + b)[0] == a[0];
      assert (a + b)[1..] == a[1..] + b;
      CountPrimaryConcat(a[1..], b);
    } else {
      assert a + b == b;
    }
  }

  lemma {:induction false} SleepsConcat(a: seq<Action>, b: seq<Action>)
    ensures Sleeps(a + b) == Sleeps(a) + Sleeps(b)
  {
    if |a| > 0 {
      assert (a + b)[0] == a[0];
      assert (a + b)[1..] == a[1..] + b;
      SleepsConcat(a[1..], b);
    } else {
      assert a + b == b;
    }
  }

  /** The requests of one attempt: the primary request, then fallbacks. */
  predicate Requests(g: seq<Action>) {
    |g| > 0 && g[0].Get? && g[0].kind == Primary
    && forall i :: 1 <= i < |g| ==> g[i].Get? && g[i].kind != Primary
  }

  /** A body was found exactly when the last request succeeded, it is that
      reply's body, and no earlier request succeeded. */
  predicate SuccessLast(t: seq<Action>, found: Option<seq<bv8>>) {
    (found.Some? ==> |t| > 0 && IsSuccess(t[|t| - 1]) && found.value == t[|t| - 1].reply.body
                     && forall i :: 0 <= i < |t| - 1 ==> !IsSuccess(t[i]))
    && (found.None? ==> forall i :: 0 <= i < |t| ==> !IsSuccess(t[i]))
  }

  /** An attempt is its requests, followed by the pause when it failed. */
  lemma AttemptRequests(mode: FetchMode, url: string, k: nat, fetch: (nat, GetKind, string) -> Reply) returns (g: seq<Action>)
    ensures var a := Attempt(mode, url, k, fetch);
      Requests(g) && SuccessLast(g, a.found)
      && a.trace == (if a.found.Some? then g else g + Pause(k))
  {
    match mode
    case ToBase64 => g := ImageRequests(url, k, fetch);
    case Download => g := DownloadRequests(url, k, fetch);
  }

  /** The body of the attempt is the body of its last request, if that
      request succeeded. */
  predicate FoundBy(last: Action, found: Option<seq<bv8>>) {
    (found.Some? ==> IsSuccess(last) && found.value == last.reply.body)
    && (found.None? ==> !IsSuccess(last))
  }

  lemma SuccessOne(p: Action, found: Option<seq<bv8>>)
    requires FoundBy(p, found)
    ensures SuccessLast([p], found)
  {
  }

  lemma SuccessTwo(p: Action, q: Action, found: Option<seq<bv8>>)
    requires !IsSuccess(p) && FoundBy(q, found)
    ensures SuccessLast([p, q], found)
  {
  }

  lemma SuccessThree(p: Action, q: Action, s: Action, found: Option<seq<bv8>>)
    requires !IsSuccess(p) && !IsSuccess(q) && FoundBy(s, found)
    ensures SuccessLast([p, q, s], found)
  {
  }

  lemma ImageRequests(url: string, k: nat, fetch: (nat, GetKind, string) -> Reply) returns (g: seq<Action>)
    ensures var a := ImageAttempt(url, k, fetch);
      Requests(g) && SuccessLast(g, a.found)
      && a.trace == (if a.found.Some? then g else g + Pause(k))
  {
    var r := fetch(k, Primary, url);
    if r.Raised? || r.status == 200 || !(r.status == 403 && k < MaxAttempts - 1) {
      var primary := Get(Primary, url, ImageReferer, r);
      g := [primary];
      SuccessOne(primary, ImageAttempt(url, k, fetch).found);
    } else {
      g := ImageFallbackRequests(url, k, fetch);
    }
  }

  /** The attempt of `_image_to_base64` after a 403 that is not the last. */
  lemma ImageFallbackRequests(url: string, k: nat, fetch: (nat, GetKind, string) -> Reply) returns (g: seq<Action>)
    requires fetch(k, Primary, url).Reply? && fetch(k, Primary, url).status == 403 && k < MaxAttempts - 1
    ensures var a := ImageAttempt(url, k, fetch);
      Requests(g) && SuccessLast(g, a.found)
      && a.trace == (if a.found.Some? then g else g + Pause(k))
  {
    var o := ImageAttempt(url, k, fetch);
    var primary := Get(Primary, url, ImageReferer, fetch(k, Primary, url));
    var a := fetch(k, AltReferer, url);
    var second := Get(AltReferer, url, url, a);
    if Is200(a) || !(Contains(url, "echotik.shop") && |Split(url, '/')| >= 5) {
      g := [primary, second];
      SuccessTwo(primary, second, o.found);
    } else {
      var alt := AltImageUrl(url);
      var third := Get(AltUrl, alt, ImageReferer, fetch(k, AltUrl, alt));
      g := [primary, second, third];
      SuccessThree(primary, second, third, o.found);
    }
  }

  lemma DownloadRequests(url: string, k: nat, fetch: (nat, GetKind, string) -> Reply) returns (g: seq<Action>)
    ensures var a := DownloadAttempt(url, k, fetch);
      Requests(g) && SuccessLast(g, a.found)
      && a.trace == (if a.found.Some? then g else g + Pause(k))
  {
    var o := DownloadAttempt(url, k, fetch);
    var r := fetch(k, Primary, url);
    var primary := Get(Primary, url, "", r);
    if r.Raised? || r.status == 200 || !Contains(url, CdnHost) {
      g := [primary];
      SuccessOne(primary, o.found);
    } else {
      var alt := ReplaceAll(url, CdnHost, CdnReplacement);
      var second := Get(AltUrl, alt, "", fetch(k, AltUrl, alt));
      g := [primary, second];
      SuccessTwo(primary, second, o.found);
    }
  }

  lemma {:induction false} FallbacksCount(t: seq<Action>)
    requires forall i :: 0 <= i < |t| ==> t[i].Get? && t[i].kind != Primary
    ensures CountPrimary(t) == 0 && Sleeps(t) == []
  {
    if |t| > 0 {
      FallbacksCount(t[1..]);
    }
  }

  lemma RequestsCount(g: seq<Action>)
    requires Requests(g)
    ensures CountPrimary(g) == 1 && Sleeps(g) == []
  {
    FallbacksCount(g[1..]);
  }

  /** One primary request; the planned pause exactly when the attempt
      failed before the last; success only in the last request. */
  predicate Shaped(o: Outcome, k: nat) {
    CountPrimary(o.trace) == 1
    && Sleeps(o.trace) == (if o.found.Some? || k >= MaxAttempts - 1 then [] else [2 * (k + 1)])
    && SuccessLast(o.trace, o.found)
  }

  lemma AttemptShape(mode: FetchMode, url: string, k: nat, fetch: (nat, GetKind, string) -> Reply)
    ensures Shaped(Attempt(mode, url, k, fetch), k)
  {
    var g := AttemptRequests(mode, url, k, fetch);
    RequestsCount(g);
    CountPrimaryConcat(g, Pause(k));
    SleepsConcat(g, Pause(k));
    var t := g + Pause(k);
    forall i | 0 <= i < |t| && i >= |g| ensures !IsSuccess(t[i]) {
      assert t[i] == Pause(k)[i - |g|];
    }
  }

  predicate AllShaped(os: seq<Outcome>) {
    |os| == MaxAttempts && forall k :: 0 <= k < |os| ==> Shaped(os[k], k)
  }

  lemma AttemptsShaped(mode: FetchMode, url: string, fetch: (nat, GetKind, string) -> Reply)
    ensures AllShaped(Attempts(mode, url, fetch))
  {
    var os := Attempts(mode, url, fetch);
    forall k | 0 <= k < |os| ensures Shaped(os[k], k) {
      AttemptShape(mode, url, k, fetch);
    }
  }

  lemma {:induction false} PrimaryBoundFrom(os: seq<Outcome>, k: nat)
    requires AllShaped(os) && k <= |os|
    decreases |os| - k
    ensures CountPrimary(RetryFrom(os, k).trace) <= MaxAttempts - k
  {
    if k < |os| {
      assert Shaped(os[k], k);
      if os[k].found.None? {
        PrimaryBoundFrom(os, k + 1);
        CountPrimaryConcat(os[k].trace, RetryFrom(os, k + 1).trace);
      }
    }
  }

  lemma {:induction false} SleepsFrom(os: seq<Outcome>, k: nat)
    requires AllShaped(os)
    decreases |os| - k
    ensures var s := Sleeps(RetryFrom(os, k).trace); |s| <= |SleepPlan(k)| && s == SleepPlan(k)[..|s|]
  {
    if k < |os| {
      assert Shaped(os[k], k);
      if os[k].found.None? {
        var rest := RetryFrom(os, k + 1).trace;
        SleepsFrom(os, k + 1);
        SleepsConcat(os[k].trace, rest);
        if k == MaxAttempts - 1 {
          assert rest == [];
        } else {
          assert SleepPlan(k) == [2 * (k + 1)] + SleepPlan(k + 1);
        }
      }
    }
  }

  lemma {:induction false} FirstSuccessFrom(os: seq<Outcome>, k: nat)
    requires AllShaped(os)
    decreases |os| - k
    ensures SuccessLast(RetryFrom(os, k).trace, RetryFrom(os, k).found)
  {
    if k < |os| {
      assert Shaped(os[k], k);
      if os[k].found.None? {
        FirstSuccessFrom(os, k + 1);
        SuccessAfterFailure(os[k].trace, RetryFrom(os, k + 1));
      }
    }
  }

  /** Actions without a success, followed by a retry, keep the retry's
      first success last. */
  lemma SuccessAfterFailure(a: seq<Action>, rest: Outcome)
    requires SuccessLast(a, None) && SuccessLast(rest.trace, rest.found)
    ensures SuccessLast(a + rest.trace, rest.found)
  {
    var t := a + rest.trace;
    assert forall i :: 0 <= i < |a| ==> t[i] == a[i];
    assert forall i :: |a| <= i < |t| ==> t[i] == rest.trace[i - |a|];
  }

  /** The retry loop makes at most three primary requests. */
  lemma RetryPrimaryBound(mode: FetchMode, url: string, fetch: (nat, GetKind, string) -> Reply)
    ensures CountPrimary(Retry(mode, url, fetch).trace) <= MaxAttempts
  {
    AttemptsShaped(mode, url, fetch);
    PrimaryBoundFrom(Attempts(mode, url, fetch), 0);
  }

  /** The loop pauses 2 and then 4 seconds between attempts, and never
      after its last attempt or after a success. */
  lemma RetrySleeps(mode: FetchMode, url: string, fetch: (nat, GetKind, string) -> Reply)
    ensures var s := Sleeps(Retry(mode, url, fetch).trace); |s| <= 2 && s == [2, 4][..|s|]
  {
    AttemptsShaped(mode, url, fetch);
    SleepsFrom(Attempts(mode, url, fetch), 0);
    assert SleepPlan(0) == [2, 4];
  }

  /** The loop yields the body of the first 200 reply it receives, and
      nothing when it receives none. */
  lemma RetryFirstSuccess(mode: FetchMode, url: string, fetch: (nat, GetKind, string) -> Reply)
    ensures SuccessLast(Retry(mode, url, fetch).trace, Retry(mode, url, fetch).found)
  {
    AttemptsShaped(mode, url, fetch);
    FirstSuccessFrom(Attempts(mode, url, fetch), 0);
  }

  /** The alternate image URL keeps the last two path segments. */
  lemma AltImageUrlSegments(url: string)
    requires |Split(url, '/')| >= 5
    ensures var parts := Split(url, '/');
      var alt := Split(AltImageUrl(url), '/');
      |alt| == 7 && alt[5] == parts[|parts| - 2] && alt[6] == parts[|parts| - 1]
  {
    var parts := Split(url, '/');
    var segments := ["https:", "", "echotik.live", "storage", "products", parts[|parts| - 2], parts[|parts| - 1]];
    assert Join(segments, '/') == AltImageUrl(url);
    SplitJoin(segments, '/');
  }

  /** The CDN rewrite of `download_image` replaces the one host occurrence
      in place. */
  lemma CdnRewrite(scheme: string, path: string)
    requires forall j: nat :: j != |scheme| ==> !OccursAt(scheme + CdnHost + path, CdnHost, j)
    ensures ReplaceAll(scheme + CdnHost + path, CdnHost, CdnReplacement) == scheme + CdnReplacement + path
  {
    ReplaceSingle(scheme, CdnHost, path, CdnReplacement);
  }

  /** The result of `_image_to_base64`: the Base64 of the first body
      obtained, or the placeholder. */
  function Base64Of(o: Outcome, encode: seq<bv8> -> string): string {
    match o.found
    case Some(body) => encode(body)
    case None => Placeholder
  }

  // ---------------------------------------------------------------- upload

  /** The JSON body of the upload reply: its `ret` list and `data.imageId`. */
  datatype UploadReply = UploadReply(ret: Option<seq<string>>, imageId: Option<string>)

  /** An HTTP reply to the upload; `json` is `None` when the body is not JSON. */
  datatype PostReply = PostReply(status: int, json: Option<UploadReply>)

  /** The image element of a result card: absent, present without a
      `style` attribute, or present with one. */
  datatype ImageElement = NoImage | Unstyled | Styled(style: string)

  /** A search result card: the `href` of each link (`None` when the link
      has none), its image element, and the title and price texts (`None`
      when the element is absent). */
  datatype Card = Card(hrefs: seq<Option<string>>, image: ImageElement, title: Option<string>, price: Option<string>)

  /** One parsed search result. */
  datatype Listing = Listing(title: string, price: string, productUrl: string, imageUrl: string)

  /** The outside world the client talks to. */
  datatype Services = Services(
    browser: Option<seq<Cookie>>,
    fetch: (nat, GetKind, string) -> Reply,
    encode: seq<bv8> -> string,
    dumps: string -> string,
    md5: string -> string,
    post: (string, string) -> PostReply,
    poll: nat -> Option<seq<Card>>)

  /** An f-string renders a missing token as `None`. */
  function TokenText(token: Option<string>): string {
    match token
    case None => "None"
    case Some(t) => t
  }

  /** The string whose MD5 is the request signature. */
  function SignContent(token: Option<string>, timestamp: string, json: string): string {
    TokenText(token) + "&" + timestamp + "&" + SignAppKey + "&" + json
  }

  /** The signed string splits back into token, timestamp, application key
      and the posted JSON. */
  lemma SignContentParts(token: Option<string>, timestamp: string, json: string)
    requires '&' !in TokenText(token) && '&' !in timestamp
    ensures Split(SignContent(token, timestamp, json), '&') == [TokenText(token), timestamp, SignAppKey] + Split(json, '&')
  {
    var t := TokenText(token);
    assert SignContent(token, timestamp, json) == t + ['&'] + (timestamp + ['&'] + (SignAppKey + ['&'] + json));
    assert '&' !in SignAppKey;
    SplitThree(t, timestamp, SignAppKey, '&', json);
  }

  /** The envelope check: `ret[0]` exists and starts with `SUCCESS`. */
  predicate Accepted(r: UploadReply) {
    r.ret.Some? && |r.ret.value| > 0 && StartsWith(r.ret.value[0], "SUCCESS")
  }

  datatype Upload = Upload(result: Result<UploadReply>, trace: seq<Action>)

  /** `upload_image` once the token is `token`: the image fetches come
      first, at most one post follows them, and a success is an accepted
      reply to that post. */
  function UploadWith(token: Option<string>, url: string, timestamp: string, env: Services): (u: Upload)
    ensures var fetched := Retry(ToBase64, url, env.fetch).trace;
      fetched <= u.trace && |u.trace| <= |fetched| + 1
      && (|u.trace| > |fetched| ==> u.trace[|fetched|].Post?)
    ensures u.result.Ok? ==> Accepted(u.result.value) && |u.trace| == |Retry(ToBase64, url, env.fetch).trace| + 1
  {
    var fetched := Retry(ToBase64, url, env.fetch);
    var b64 := Base64Of(fetched, env.encode);
    if |b64| == 0 then Upload(Err("image to base64 failed"), fetched.trace)
    else
      var json := env.dumps(b64);
      var sign := env.md5(SignContent(token, timestamp, json));
      var reply := env.post(sign, json);
      var trace := fetched.trace + [Post(sign, json)];
      if reply.status != 200 then Upload(Err("request failed"), trace)
      else match reply.json
        case None => Upload(Err("response is not JSON"), trace)
        case Some(r) => if Accepted(r) then Upload(Ok(r), trace) else Upload(Err("upload failed"), trace)
  }

  /** The upload posts the JSON it signed, signed with the MD5 of
      `token&timestamp&12574478&json`, and succeeds exactly when the reply
      is a 200 whose envelope is accepted. */
  lemma UploadContract(token: Option<string>, url: string, timestamp: string, env: Services)
    ensures var u := UploadWith(token, url, timestamp, env);
      var b64 := Base64Of(Retry(ToBase64, url, env.fetch), env.encode);
      (|b64| == 0 ==> u.result.Err? && u.trace == Retry(ToBase64, url, env.fetch).trace)
      && (|b64| > 0 ==>
            |u.trace| > 0 && u.trace[|u.trace| - 1] == Post(env.md5(SignContent(token, timestamp, env.dumps(b64))), env.dumps(b64))
            && (u.result.Ok? <==> env.post(u.trace[|u.trace| - 1].sign, env.dumps(b64)).status == 200
                                  && env.post(u.trace[|u.trace| - 1].sign, env.dumps(b64)).json.Some?
                                  && Accepted(env.post(u.trace[|u.trace| - 1].sign, env.dumps(b64)).json.value))
            && (u.result.Ok? ==> u.result.value == env.post(u.trace[|u.trace| - 1].sign, env.dumps(b64)).json.value))
  {
  }

  // ---------------------------------------------------------------- search page

  predicate IsQuote(c: char) { c == '"' || c == '\'' }

  /** Where the lazy group of `url\(["']?(.*?)["']?\)` stops when it starts
      at `k`: the first `)`, or quote followed by `)`; `.` does not cross a
      newline. */
  function LazyEnd(s: string, k: nat): (r: Option<nat>)
    decreases |s| - k
    ensures r.Some? ==> k <= r.value < |s|
    ensures r.Some? ==> s[r.value] == ')' || (IsQuote(s[r.value]) && r.value + 1 < |s| && s[r.value + 1] == ')')
    ensures r.Some? ==> forall j :: k <= j < r.value ==> s[j] != '\n' && s[j] != ')'
  {
    if k >= |s| then None
    else if s[k] == ')' || (IsQuote(s[k]) && k + 1 < |s| && s[k + 1] == ')') then Some(k)
    else if s[k] == '\n' then None
    else LazyEnd(s, k + 1)
  }

  /** The group of a match starting at the `url(` at `i`. */
  function UrlMatchAt(s: string, i: nat): Option<string>
    requires OccursAt(s, "url(", i)
  {
    var j := i + 4;
    var start := if j < |s| && IsQuote(s[j]) then j + 1 else j;
    match LazyEnd(s, start)
    case None => None
    case Some(e) => Some(s[start..e])
  }

  /** `re.search(r'url\(["\']?(.*?)["\']?\)', s).group(1)`. */
  function UrlSearch(s: string, from: nat): (r: Option<string>)
    decreases |s| - from
    ensures r.Some? ==> ')' !in r.value && '\n' !in r.value
  {
    match IndexFrom(s, "url(", from)
    case None => None
    case Some(i) =>
      match UrlMatchAt(s, i)
      case Some(g) => Some(g)
      case None => UrlSearch(s, i + 1)
  }

  /** The image URL `search_by_image` reads from a card's style. */
  function StyleImageUrl(style: string): string {
    if Contains(style, "url(") then
      match UrlSearch(style, 0)
      case Some(g) => g
      case None => ""
    else ""
  }

  /** A quoted `url("...")` yields exactly the quoted text. */
  lemma StyleImageUrlQuoted(pre: string, u: string, post: string)
    requires forall j: nat :: j < |pre| ==> !OccursAt(pre + "url(\"" + u + "\")" + post, "url(", j)
    requires ')' !in u && '\n' !in u
    ensures StyleImageUrl(pre + "url(\"" + u + "\")" + post) == u
  {
    var s := pre + "url(\"" + u + "\")" + post;
    var i := |pre|;
    assert s[i..i + 4] == "url(";
    assert OccursAt(s, "url(", i);
    assert IndexFrom(s, "url(", 0) == Some(i);
    var start := i + 5;
    assert s[i + 4] == '"';
    assert s[start..start + |u|] == u;
    var e := start + |u|;
    assert s[e] == '"' && s[e + 1] == ')';
    LazyEndAt(s, start, e);
  }

  lemma {:induction false} LazyEndAt(s: string, k: nat, e: nat)
    requires k <= e < |s|
    requires forall j :: k <= j < e ==> s[j] != '\n' && s[j] != ')' && !(IsQuote(s[j]) && s[j + 1] == ')')
    requires s[e] == ')' || (IsQuote(s[e]) && e + 1 < |s| && s[e + 1] == ')')
    decreases e - k
    ensures LazyEnd(s, k) == Some(e)
  {
    if k < e {
      LazyEndAt(s, k + 1, e);
    }
  }

  /** A link `search_by_image` accepts. */
  predicate IsDetailLink(h: string) {
    Contains(h, "detail.1688.com") || Contains(h, "dj.1688.com")
  }

  /** The first non-empty `href` that is a detail link. */
  function FirstDetailLink(hrefs: seq<Option<string>>): Option<string> {
    if |hrefs| == 0 then None
    else
      match hrefs[0]
      case Some(h) =>
        if |h| > 0 && IsDetailLink(h) then Some(h) else FirstDetailLink(hrefs[1..])
      case None => FirstDetailLink(hrefs[1..])
  }

  /** The link found is a non-empty detail link among the `href`s, and no
      link is found exactly when there is none. */
  lemma {:induction false} FirstDetailLinkSpec(hrefs: seq<Option<string>>)
    ensures var r := FirstDetailLink(hrefs);
      (r.Some? ==> Some(r.value) in hrefs && |r.value| > 0 && IsDetailLink(r.value))
      && (r.None? <==> forall h :: Some(h) in hrefs ==> |h| == 0 || !IsDetailLink(h))
  {
    if |hrefs| > 0 {
      assert hrefs == [hrefs[0]] + hrefs[1..];
      FirstDetailLinkSpec(hrefs[1..]);
    }
  }

  /** One card as `search_by_image` parses it; `None` when the card is
      skipped (no link, a lookup raised, or the data is incomplete). The
      listing keeps the card's title and price and the first detail link;
      a card with a link, a styled image that yields a URL, a price and a
      non-empty title is never skipped. */
  function ParseCard(c: Card): (r: Option<Listing>)
    ensures r.Some? ==>
      FirstDetailLink(c.hrefs) == Some(r.value.productUrl) && c.image.Styled?
      && r.value.imageUrl == StyleImageUrl(c.image.style) && |r.value.imageUrl| > 0
      && c.title == Some(r.value.title) && |r.value.title| > 0 && c.price == Some(r.value.price)
    ensures (FirstDetailLink(c.hrefs).Some? && c.image.Styled? && |StyleImageUrl(c.image.style)| > 0
             && c.title.Some? && |c.title.value| > 0 && c.price.Some?) ==> r.Some?
  {
    match FirstDetailLink(c.hrefs)
    case None => None
    case Some(link) =>
      match c.image
      case NoImage => None
      case Unstyled => None
      case Styled(style) =>
        var image := StyleImageUrl(style);
        match c.title
        case None => None
        case Some(title) =>
          match c.price
          case None => None
          case Some(price) =>
            if |image| > 0 && |title| > 0 then Some(Listing(title, price, link, image)) else None
  }

  /** The listings present in `os`, in order: each comes from `os`, and
      none of `os` is dropped. */
  function Present(os: seq<Option<Listing>>): (r: seq<Listing>)
    ensures |r| <= |os|
    ensures forall k :: 0 <= k < |r| ==> Some(r[k]) in os
    ensures forall i :: 0 <= i < |os| && os[i].Some? ==> os[i].value in r
  {
    if |os| == 0 then []
    else
      var last := os[|os| - 1];
      var front := Present(os[..|os| - 1]);
      assert forall k :: 0 <= k < |front| ==> Some(front[k]) in os;
      assert forall i :: 0 <= i < |os| - 1 ==> os[..|os| - 1][i] == os[i];
      front + if last.Some? then [last.value] else []
  }

  /** `r` holds the values of `os` at the increasing positions `idx`. */
  predicate Picks(os: seq<Option<Listing>>, r: seq<Listing>, idx: seq<nat>) {
    |idx| == |r|
    && (forall k :: 0 <= k < |idx| ==> idx[k] < |os| && os[idx[k]] == Some(r[k]))
    && (forall k, l :: 0 <= k < l < |idx| ==> idx[k] < idx[l])
  }

  /** `Present(os)` is the listings of `os` in their order, every one of
      them: `idx` gives the position each comes from. */
  lemma {:induction false} PresentOrder(os: seq<Option<Listing>>) returns (idx: seq<nat>)
    decreases |os|
    ensures Picks(os, Present(os), idx)
    ensures forall i :: 0 <= i < |os| && os[i].Some? ==> i in idx
  {
    if |os| == 0 {
      return [];
    }
    var n := |os| - 1;
    var fi := PresentOrder(os[..n]);
    PicksPrefix(os, n, Present(os[..n]), fi);
    PresentNext(os, n);
    assert os[..n + 1] == os;
    if os[n].Some? {
      idx := fi + [n];
      PicksSnoc(os, Present(os[..n]), fi);
    } else {
      idx := fi;
    }
    forall i | 0 <= i < |os| && os[i].Some? ensures i in idx {
      if i < n {
        assert os[..n][i] == os[i];
      }
    }
  }

  /** Positions in a prefix are positions in the whole. */
  lemma PicksPrefix(os: seq<Option<Listing>>, n: nat, r: seq<Listing>, idx: seq<nat>)
    requires n <= |os| && Picks(os[..n], r, idx)
    ensures Picks(os, r, idx) && forall k :: 0 <= k < |idx| ==> idx[k] < n
  {
    assert forall k :: 0 <= k < |idx| ==> os[..n][idx[k]] == os[idx[k]];
  }

  /** A listing in the last place extends the picks by its position. */
  lemma PicksSnoc(os: seq<Option<Listing>>, r: seq<Listing>, idx: seq<nat>)
    requires |os| > 0 && os[|os| - 1].Some? && Picks(os, r, idx)
    requires forall k :: 0 <= k < |idx| ==> idx[k] < |os| - 1
    ensures Picks(os, r + [os[|os| - 1].value], idx + [|os| - 1])
  {
  }

  /** The first `n` listings present in `os`, in order: `idx` gives their
      positions, and every listing up to the last one taken is taken. */
  lemma TakeOrder(os: seq<Option<Listing>>, n: nat) returns (idx: seq<nat>)
    ensures var p := Sorting.Take(Present(os), n);
      Picks(os, p, idx)
      && (forall i :: 0 <= i < |os| && os[i].Some? && (|p| < n || (|p| > 0 && i <= idx[|p| - 1])) ==> i in idx)
  {
    var all := PresentOrder(os);
    var r := Present(os);
    var p := Sorting.Take(r, n);
    idx := all[..|p|];
    PicksTake(os, r, all, |p|);
    if |p| < n {
      assert idx == all;
    } else if |p| > 0 {
      PrefixKeepsSmaller(all, |p|);
    }
  }

  /** In an increasing sequence, every value up to the one at `m - 1` lies
      in the first `m` places. */
  lemma PrefixKeepsSmaller(all: seq<nat>, m: nat)
    requires 0 < m <= |all|
    requires forall k, l :: 0 <= k < l < |all| ==> all[k] < all[l]
    ensures forall i :: i in all && i <= all[m - 1] ==> i in all[..m]
  {
    forall i | i in all && i <= all[m - 1] ensures i in all[..m] {
      var j :| 0 <= j < |all| && all[j] == i;
      IncreasingAt(all, j, m - 1);
      assert all[..m][j] == i;
    }
  }

  /** The first `m` picks are the picks of the first `m` listings. */
  lemma PicksTake(os: seq<Option<Listing>>, r: seq<Listing>, idx: seq<nat>, m: nat)
    requires Picks(os, r, idx) && m <= |r|
    ensures Picks(os, r[..m], idx[..m])
  {
  }

  /** In an increasing sequence, a position holding no more than position
      `b` holds is at most `b`. */
  lemma IncreasingAt(idx: seq<nat>, a: nat, b: nat)
    requires a < |idx| && b < |idx| && idx[a] <= idx[b]
    requires forall k, l :: 0 <= k < l < |idx| ==> idx[k] < idx[l]
    ensures a <= b
  {
  }

  /** The listings present in one more element. */
  lemma PresentNext(os: seq<Option<Listing>>, i: nat)
    requires i < |os|
    ensures Present(os[..i + 1]) == Present(os[..i]) + if os[i].Some? then [os[i].value] else []
  {
    assert os[..i + 1][..i] == os[..i];
  }

  lemma {:induction false} PresentConcat(a: seq<Option<Listing>>, b: seq<Option<Listing>>)
    decreases |b|
    ensures Present(a + b) == Present(a) + Present(b)
  {
    if |b| > 0 {
      assert (a + b)[..|a + b| - 1] == a + b[..|b| - 1];
      assert (a + b)[|a + b| - 1] == b[|b| - 1];
      PresentConcat(a, b[..|b| - 1]);
    } else {
      assert a + b == a;
    }
  }

  /** Once ten listings are present in a prefix, the rest does not matter
      to the first ten. */
  lemma PresentTake(os: seq<Option<Listing>>, i: nat, n: nat)
    requires i <= |os| && |Present(os[..i])| == n
    ensures Sorting.Take(Present(os), n) == Present(os[..i])
  {
    var front, back := os[..i], os[i..];
    assert front + back == os;
    PresentConcat(front, back);
    var a := Present(front);
    assert (a + Present(back))[..n] == a;
  }

  /** A card is kept only with a detail link, an image and a title, and is
      kept whenever it has all three along with a price. */
  lemma ParseCardSpec(c: Card)
    ensures var r := ParseCard(c);
      (r.Some? ==> IsDetailLink(r.value.productUrl) && |r.value.imageUrl| > 0 && |r.value.title| > 0
                   && Some(r.value.productUrl) in c.hrefs && c.title == Some(r.value.title) && c.price == Some(r.value.price))
      && (r.None? <==> FirstDetailLink(c.hrefs).None? || !c.image.Styled? || c.title.None? || c.price.None?
                       || |StyleImageUrl(c.image.style)| == 0 || |c.title.value| == 0)
  {
    FirstDetailLinkSpec(c.hrefs);
  }

  /** The listings of the cards that parse: never more than the cards,
      each parsed from one of them, and none of them dropped. */
  function ParseCards(cs: seq<Card>): (r: seq<Listing>)
    ensures |r| <= |cs|
    ensures forall l :: l in r ==> exists i :: 0 <= i < |cs| && ParseCard(cs[i]) == Some(l)
    ensures forall i :: 0 <= i < |cs| && ParseCard(cs[i]).Some? ==> ParseCard(cs[i]).value in r
  {
    var os := Sorting.Map(ParseCard, cs);
    assert forall l :: Some(l) in os ==> exists i :: 0 <= i < |cs| && ParseCard(cs[i]) == Some(l);
    Present(os)
  }

  /** The listings are those of the parsing cards in card order: `idx`
      gives the card each comes from. */
  lemma ParseCardsOrder(cs: seq<Card>) returns (idx: seq<nat>)
    ensures var r := ParseCards(cs);
      |idx| == |r|
      && (forall k :: 0 <= k < |idx| ==> idx[k] < |cs| && ParseCard(cs[idx[k]]) == Some(r[k]))
      && (forall k, l :: 0 <= k < l < |idx| ==> idx[k] < idx[l])
      && (forall i :: 0 <= i < |cs| && ParseCard(cs[i]).Some? ==> i in idx)
  {
    var os := Sorting.Map(ParseCard, cs);
    idx := PresentOrder(os);
    assert forall i :: 0 <= i < |cs| ==> os[i] == ParseCard(cs[i]);
  }

  /** Every listing kept is complete. */
  lemma ParseCardsShape(cs: seq<Card>)
    ensures forall l :: l in ParseCards(cs) ==> IsDetailLink(l.productUrl) && |l.imageUrl| > 0 && |l.title| > 0
  {
    var os := Sorting.Map(ParseCard, cs);
    forall i | 0 <= i < |cs| ensures os[i].Some? ==> IsDetailLink(os[i].value.productUrl) && |os[i].value.imageUrl| > 0 && |os[i].value.title| > 0 {
      ParseCardSpec(cs[i]);
    }
  }

  /** What the polling loop leaves in `offers` (`None` when its last attempt
      raised), with the polls it made. */
  datatype Polled = Polled(offers: Option<seq<Card>>, trace: seq<Action>)

  /** The polls from attempt `k` on: none past the fifth, each one
      starting with poll `k`, and any cards found are those of the last
      poll made. */
  function PollFrom(poll: nat -> Option<seq<Card>>, k: nat): (p: Polled)
    decreases MaxPolls - k
    ensures k >= MaxPolls ==> p == Polled(Some([]), [])
    ensures k < MaxPolls ==> 0 < |p.trace| <= MaxPolls - k && p.trace[0] == Poll(k)
    ensures p.offers.Some? && |p.offers.value| > 0 ==> |p.trace| > 0 && p.offers == poll(k + |p.trace| - 1)
  {
    if k >= MaxPolls then Polled(Some([]), [])
    else
      match poll(k)
      case Some(cs) =>
        if |cs| > 0 then Polled(Some(cs), [Poll(k)])
        else var rest := PollFrom(poll, k + 1); Polled(rest.offers, [Poll(k)] + rest.trace)
      case None =>
        if k == MaxPolls - 1 then Polled(None, [Poll(k)])
        else var rest := PollFrom(poll, k + 1); Polled(rest.offers, [Poll(k)] + rest.trace)
  }

  /** Whether poll `k` ends the polling: it returned cards, or it was the
      last one and raised. */
  predicate PollStops(poll: nat -> Option<seq<Card>>, k: nat) {
    match poll(k)
    case Some(cs) => |cs| > 0
    case None => k == MaxPolls - 1
  }

  /** One poll, after the polls `done`: either it ends the polling with its
      own result, or the polling goes on with the next one. */
  lemma PollStep(poll: nat -> Option<seq<Card>>, k: nat, done: seq<Action>)
    requires k < MaxPolls
    ensures var here := PollFrom(poll, k);
      (PollStops(poll, k) ==> Polled(here.offers, done + here.trace) == Polled(poll(k), done + [Poll(k)]))
      && (!PollStops(poll, k) ==>
            (here.offers == PollFrom(poll, k + 1).offers
             && done + here.trace == (done + [Poll(k)]) + PollFrom(poll, k + 1).trace))
  {
  }

  /** The polls are attempts `k`, `k + 1`, ... in order, at most five in all;
      cards come only from the last poll, and no earlier poll had any. */
  lemma {:induction false} PollShape(poll: nat -> Option<seq<Card>>, k: nat)
    requires k <= MaxPolls
    decreases MaxPolls - k
    ensures var p := PollFrom(poll, k);
      |p.trace| <= MaxPolls - k
      && (forall i :: 0 <= i < |p.trace| ==> p.trace[i] == Poll(k + i))
      && (forall i :: k <= i < k + |p.trace| - 1 ==> poll(i).None? || |poll(i).value| == 0)
      && (p.offers.Some? && |p.offers.value| > 0 ==> |p.trace| > 0 && poll(k + |p.trace| - 1) == p.offers)
      && (p.offers.None? ==> |p.trace| > 0 && k + |p.trace| == MaxPolls && poll(MaxPolls - 1).None?)
  {
    if k < MaxPolls {
      var cont := match poll(k) case Some(cs) => |cs| == 0 case None => k < MaxPolls - 1;
      if cont {
        PollShape(poll, k + 1);
      }
    }
  }

  datatype Search = Search(products: seq<Listing>, trace: seq<Action>)

  /** `search_by_image` once the token is `token`: every failure yields
      `[]`; the upload's actions come first, and listings only follow a
      successful upload. */
  function SearchWith(token: Option<string>, url: string, timestamp: string, env: Services): (s: Search)
    ensures |s.products| <= MaxCards
    ensures UploadWith(token, url, timestamp, env).trace <= s.trace
    ensures s.products != [] ==> UploadWith(token, url, timestamp, env).result.Ok?
  {
    var up := UploadWith(token, url, timestamp, env);
    if up.result.Err? then Search([], up.trace)
    else match up.result.value.imageId
      case None => Search([], up.trace)
      case Some(id) =>
        if |id| == 0 then Search([], up.trace)
        else
          var polled := PollFrom(env.poll, 0);
          match polled.offers
          case None => Search([], up.trace + polled.trace)
          case Some(cs) => Search(ParseCards(Sorting.Take(cs, MaxCards)), up.trace + polled.trace)
  }

  /** Whether the upload gave an image id to poll with. */
  predicate Uploaded(up: Upload) {
    up.result.Ok? && up.result.value.imageId.Some? && |up.result.value.imageId.value| > 0
  }

  /** Listings only after an upload with an image id and a poll that found
      cards; then they are the listings of the parsing cards among the first
      ten, in card order, every one of them: `idx` gives the card each comes
      from. Every listing is complete. */
  lemma SearchShape(token: Option<string>, url: string, timestamp: string, env: Services) returns (idx: seq<nat>)
    ensures var s, up, polled := SearchWith(token, url, timestamp, env), UploadWith(token, url, timestamp, env), PollFrom(env.poll, 0);
      (forall l :: l in s.products ==> IsDetailLink(l.productUrl) && |l.imageUrl| > 0 && |l.title| > 0)
      && (s.trace == up.trace + if Uploaded(up) then polled.trace else [])
      && (s.products != [] ==> Uploaded(up) && polled.offers.Some?)
      && (Uploaded(up) && polled.offers.Some? ==>
            var cs := polled.offers.value;
            |idx| == |s.products|
            && (forall k :: 0 <= k < |idx| ==> idx[k] < MaxCards && idx[k] < |cs| && ParseCard(cs[idx[k]]) == Some(s.products[k]))
            && (forall k, l :: 0 <= k < l < |idx| ==> idx[k] < idx[l])
            && (forall i :: 0 <= i < |cs| && i < MaxCards && ParseCard(cs[i]).Some? ==> i in idx))
  {
    idx := [];
    var up := UploadWith(token, url, timestamp, env);
    var polled := PollFrom(env.poll, 0);
    if Uploaded(up) && polled.offers.Some? {
      var cs := polled.offers.value;
      var first := Sorting.Take(cs, MaxCards);
      ParseCardsShape(first);
      idx := ParseCardsOrder(first);
      assert forall i :: 0 <= i < |first| ==> first[i] == cs[i];
    }
  }

  // ---------------------------------------------------------------- soup search

  /** The first link whose `href` contains `detail.1688.com`, as the CSS
      selector `a[href*='detail.1688.com']` finds it. */
  function FirstSoupLink(hrefs: seq<Option<string>>): (r: Option<string>)
    ensures r.Some? ==> Some(r.value) in hrefs && Contains(r.value, "detail.1688.com")
    ensures r.None? <==> forall h :: Some(h) in hrefs ==> !Contains(h, "detail.1688.com")
  {
    if |hrefs| == 0 then None
    else
      assert hrefs == [hrefs[0]] + hrefs[1..];
      match hrefs[0]
      case Some(h) => if Contains(h, "detail.1688.com") then Some(h) else FirstSoupLink(hrefs[1..])
      case None => FirstSoupLink(hrefs[1..])
  }

  /** The image URL `search_similar_products` cuts out of a style:
      `style.split('url(')[1].split(')')[0].strip('"')`, `None` where the
      split raises. */
  function SoupImageUrl(style: string): Option<string> {
    if Contains(style, "background-image") then
      match SecondPart(style, "url(")
      case None => None
      case Some(x) => Some(StripBy(Split(x, ')')[0], IsDoubleQuote))
    else Some("")
  }

  /** A quoted `url("...")` after `background-image` yields the quoted text. */
  lemma SoupImageUrlQuoted(pre: string, u: string, post: string)
    requires Contains(pre, "background-image")
    requires forall j: nat :: j != |pre| ==> !OccursAt(pre + "url(" + ("\"" + u + "\")" + post), "url(", j)
    requires ')' !in u && |u| > 0 && u[0] != '"' && u[|u| - 1] != '"'
    ensures SoupImageUrl(pre + "url(" + ("\"" + u + "\")" + post)) == Some(u)
  {
    SoupImageUrlAfter(pre, "\"" + u + "\")" + post);
    QuotedUpToParen(u, post);
    StripQuotes(u);
  }

  /** The text before the first `)` of `"u")...` is `"u"`. */
  lemma QuotedUpToParen(u: string, post: string)
    requires ')' !in u
    ensures Split("\"" + u + "\")" + post, ')')[0] == "\"" + u + "\""
  {
    var quoted := "\"" + u + "\"";
    assert "\"" + u + "\")" + post == quoted + [')'] + post;
    SplitAfterFree(quoted, ')', post);
  }

  /** With one `url(` after `background-image`, the image is the text up to
      the next `)`, stripped of double quotes. */
  lemma SoupImageUrlAfter(pre: string, rest: string)
    requires Contains(pre, "background-image")
    requires forall j: nat :: j != |pre| ==> !OccursAt(pre + "url(" + rest, "url(", j)
    ensures SoupImageUrl(pre + "url(" + rest) == Some(StripBy(Split(rest, ')')[0], IsDoubleQuote))
  {
    assert pre + "url(" + rest == pre + ("url(" + rest);
    ContainsExtend(pre, "background-image", "url(" + rest);
    SecondPartSingle(pre, "url(", rest);
  }

  /** `strip('"')` removes exactly one surrounding pair of quotes from a
      text that neither starts nor ends with one. */
  lemma StripQuotes(u: string)
    requires |u| > 0 && u[0] != '"' && u[|u| - 1] != '"'
    ensures StripBy("\"" + u + "\"", IsDoubleQuote) == u
  {
    var s := "\"" + u + "\"";
    var t := u + "\"";
    assert s[1..] == t;
    assert DropLeading(t, IsDoubleQuote) == t;
    assert DropLeading(s, IsDoubleQuote) == t;
    assert t[..|t| - 1] == u;
    assert DropTrailing(u, IsDoubleQuote) == u;
  }

  /** A title or price as `search_similar_products` reads it: stripped of
      whitespace at both ends, or empty when the element is missing. */
  function StrippedText(t: Option<string>): (r: string)
    ensures t.None? ==> r == ""
    ensures |r| > 0 ==> !IsSpace(r[0]) && !IsSpace(r[|r| - 1])
    ensures t.Some? ==> exists i :: OccursAt(t.value, r, i)
  {
    match t
    case None => ""
    case Some(s) =>
      StripByEnds(s, IsSpace);
      StripBySlice(s, IsSpace);
      StripBy(s, IsSpace)
  }

  /** One card as `search_similar_products` parses it: kept exactly when it
      has a detail link and an image element whose style (empty when the
      element has none) does not make the split raise; the title and price
      may be empty. */
  function SoupCard(c: Card): (r: Option<Listing>)
    ensures r.Some? <==>
      FirstSoupLink(c.hrefs).Some? && !c.image.NoImage?
      && SoupImageUrl(if c.image.Styled? then c.image.style else "").Some?
    ensures r.Some? ==>
      FirstSoupLink(c.hrefs) == Some(r.value.productUrl)
      && r.value.title == StrippedText(c.title) && r.value.price == StrippedText(c.price)
    ensures r.Some? && c.image.Unstyled? ==> r.value.imageUrl == ""
  {
    match FirstSoupLink(c.hrefs)
    case None => None
    case Some(link) =>
      if c.image.NoImage? then None
      else
        var style := if c.image.Styled? then c.image.style else "";
        match SoupImageUrl(style)
        case None => None
        case Some(image) =>
          Some(Listing(StrippedText(c.title), StrippedText(c.price), link, image))
  }

  /** The listings of the cards that parse: each parsed from one of the
      cards, and none of them dropped. */
  function SoupCards(cs: seq<Card>): (r: seq<Listing>)
    ensures |r| <= |cs|
    ensures forall l :: l in r ==> exists i :: 0 <= i < |cs| && SoupCard(cs[i]) == Some(l)
    ensures forall i :: 0 <= i < |cs| && SoupCard(cs[i]).Some? ==> SoupCard(cs[i]).value in r
  {
    var os := Sorting.Map(SoupCard, cs);
    assert forall l :: Some(l) in os ==> exists i :: 0 <= i < |cs| && SoupCard(cs[i]) == Some(l);
    Present(os)
  }

  /** The ten listings `search_similar_products` returns are those of the
      first parsing cards in card order: `idx` gives the card each comes
      from, and every parsing card up to the last one taken is taken (all
      of them when fewer than ten parse). */
  lemma SoupSearchOrder(cs: seq<Card>) returns (idx: seq<nat>)
    ensures var p := Sorting.Take(SoupCards(cs), MaxCards);
      |idx| == |p|
      && (forall k :: 0 <= k < |idx| ==> idx[k] < |cs| && SoupCard(cs[idx[k]]) == Some(p[k]))
      && (forall k, l :: 0 <= k < l < |idx| ==> idx[k] < idx[l])
      && (forall i :: 0 <= i < |cs| && SoupCard(cs[i]).Some? && (|p| < MaxCards || i <= idx[MaxCards - 1]) ==> i in idx)
  {
    var os := Sorting.Map(SoupCard, cs);
    idx := TakeOrder(os, MaxCards);
    assert SoupCards(cs) == Present(os);
    var p := Sorting.Take(SoupCards(cs), MaxCards);
    var m := if |p| < MaxCards then |cs| else idx[MaxCards - 1];
    CardPicks(SoupCard, cs, p, idx, m);
  }

  /** Picks among the parses of the cards, stated card by card: every
      parsing card up to position `m` is picked. */
  lemma CardPicks(parse: Card -> Option<Listing>, cs: seq<Card>, p: seq<Listing>, idx: seq<nat>, m: int)
    requires Picks(Sorting.Map(parse, cs), p, idx)
    requires forall i :: 0 <= i < |cs| && Sorting.Map(parse, cs)[i].Some? && i <= m ==> i in idx
    ensures |idx| == |p|
    ensures forall k :: 0 <= k < |idx| ==> idx[k] < |cs| && parse(cs[idx[k]]) == Some(p[k])
    ensures forall k, l :: 0 <= k < l < |idx| ==> idx[k] < idx[l]
    ensures forall i :: 0 <= i < |cs| && parse(cs[i]).Some? && i <= m ==> i in idx
  {
    var os := Sorting.Map(parse, cs);
    assert forall i :: 0 <= i < |cs| ==> os[i] == parse(cs[i]);
  }

  // ---------------------------------------------------------------- the client

  class Alibaba1688Searcher {
    var mH5Tk: Option<string>
    var headers: Option<seq<(string, string)>>
    var cookies: map<string, string>

    constructor()
      ensures mH5Tk == None && headers == None && cookies == map[]
    {
      mH5Tk := None;
      headers := None;
      cookies := map[];
    }

    /** `upload_image` initialises first when the token or the headers are
        missing or empty. */
    predicate Ready()
      reads this
    {
      mH5Tk.Some? && |mH5Tk.value| > 0 && headers.Some? && |headers.value| > 0
    }

    /** `_init_token_and_headers`: `browser` is the cookie list the page
        yields, `None` when loading it raises. */
    method InitTokenAndHeaders(browser: Option<seq<Cookie>>) returns (ok: bool)
      modifies this
      ensures ok <==> browser.Some?
      ensures !ok ==> mH5Tk == old(mH5Tk) && headers == old(headers) && cookies == old(cookies)
      ensures ok ==> cookies == SetAll(old(cookies), browser.value)
      ensures ok ==> mH5Tk == TokenAfter(old(mH5Tk), browser.value)
      ensures ok ==> headers == Some(SearchHeaders())
    {
      if browser.None? {
        return false;
      }
      var cs := browser.value;
      var i := 0;
      while i < |cs|
        invariant 0 <= i <= |cs|
        invariant cookies == SetAll(old(cookies), cs[..i])
        invariant mH5Tk == TokenAfter(old(mH5Tk), cs[..i])
      {
        assert cs[..i + 1][..i] == cs[..i];
        cookies := cookies[cs[i].name := cs[i].value];
        if cs[i].name == TokenCookie {
          mH5Tk := Some(TokenOf(cs[i].value));
        }
        i := i + 1;
      }
      assert cs[..i] == cs;
      headers := Some(SearchHeaders());
      ok := true;
    }

    /** `_image_to_base64`: never fails; the first body fetched, encoded,
        or the placeholder. */
    method ImageToBase64(url: string, fetch: (nat, GetKind, string) -> Reply, encode: seq<bv8> -> string)
      returns (b64: string, trace: seq<Action>)
      ensures b64 == Base64Of(Retry(ToBase64, url, fetch), encode)
      ensures trace == Retry(ToBase64, url, fetch).trace
    {
      var found;
      found, trace := RetryLoop(ToBase64, url, fetch);
      b64 := if found.Some? then encode(found.value) else Placeholder;
    }

    /** `download_image`: the first body fetched, or an error after three
        failed attempts. */
    method DownloadImage(url: string, fetch: (nat, GetKind, string) -> Reply)
      returns (r: Result<seq<bv8>>, trace: seq<Action>)
      ensures r.Ok? <==> Retry(Download, url, fetch).found.Some?
      ensures r.Ok? ==> r.value == Retry(Download, url, fetch).found.value
      ensures trace == Retry(Download, url, fetch).trace
    {
      var found;
      found, trace := RetryLoop(Download, url, fetch);
      r := if found.Some? then Ok(found.value) else Err("cannot download image");
    }

    /** The attempt loop both fetchers run. */
    static method RetryLoop(mode: FetchMode, url: string, fetch: (nat, GetKind, string) -> Reply)
      returns (found: Option<seq<bv8>>, trace: seq<Action>)
      ensures Outcome(found, trace) == Retry(mode, url, fetch)
    {
      ghost var os := Attempts(mode, url, fetch);
      trace := [];
      var k := 0;
      while k < MaxAttempts
        invariant 0 <= k <= MaxAttempts
        invariant RetryFrom(os, 0).found == RetryFrom(os, k).found
        invariant RetryFrom(os, 0).trace == trace + RetryFrom(os, k).trace
      {
        var body, actions := TryOnce(mode, url, k, fetch);
        assert os[k] == Outcome(body, actions);
        if body.Some? {
          return body, trace + actions;
        }
        RetryStep(os, k, trace);
        trace := trace + actions;
        k := k + 1;
      }
      found := None;
      assert trace + [] == trace;
    }

    /** One attempt of either loop. */
    static method TryOnce(mode: FetchMode, url: string, k: nat, fetch: (nat, GetKind, string) -> Reply)
      returns (found: Option<seq<bv8>>, actions: seq<Action>)
      ensures Outcome(found, actions) == Attempt(mode, url, k, fetch)
    {
      if mode == ToBase64 {
        found, actions := TryImage(url, k, fetch);
      } else {
        found, actions := TryDownload(url, k, fetch);
      }
    }

    /** One attempt of `_image_to_base64`: the primary request with the
        fixed referer; on a 403 before the last attempt, the same URL with
        itself as referer, then the rewritten storage URL. */
    static method TryImage(url: string, k: nat, fetch: (nat, GetKind, string) -> Reply)
      returns (found: Option<seq<bv8>>, actions: seq<Action>)
      ensures Outcome(found, actions) == ImageAttempt(url, k, fetch)
    {
      var r := fetch(k, Primary, url);
      actions := [Get(Primary, url, ImageReferer, r)];
      if r.Reply? && r.status == 200 {
        return Some(r.body), actions;
      }
      if r.Reply? && r.status == 403 && k < MaxAttempts - 1 {
        var a := fetch(k, AltReferer, url);
        actions := actions + [Get(AltReferer, url, url, a)];
        if Is200(a) {
          return Some(a.body), actions;
        }
        if Contains(url, "echotik.shop") {
          var parts := Split(url, '/');
          if |parts| >= 5 {
            var alt := AltImageUrl(url);
            var b := fetch(k, AltUrl, alt);
            actions := actions + [Get(AltUrl, alt, ImageReferer, b)];
            if Is200(b) {
              return Some(b.body), actions;
            }
          }
        }
      }
      found := None;
      actions := actions + Pause(k);
    }

    /** One attempt of `download_image`: the primary request, then the CDN
        URL rewritten to the storage host. */
    static method TryDownload(url: string, k: nat, fetch: (nat, GetKind, string) -> Reply)
      returns (found: Option<seq<bv8>>, actions: seq<Action>)
      ensures Outcome(found, actions) == DownloadAttempt(url, k, fetch)
    {
      var r := fetch(k, Primary, url);
      actions := [Get(Primary, url, "", r)];
      if r.Reply? && r.status == 200 {
        return Some(r.body), actions;
      }
      if r.Reply? && Contains(url, CdnHost) {
        var alt := ReplaceAll(url, CdnHost, CdnReplacement);
        var b := fetch(k, AltUrl, alt);
        actions := actions + [Get(AltUrl, alt, "", b)];
        if Is200(b) {
          return Some(b.body), actions;
        }
      }
      found := None;
      actions := actions + Pause(k);
    }

    /** `upload_image`: initialises when not ready (an initialisation failure
        is an error), then fetches, signs and posts. */
    method UploadImage(url: string, timestamp: string, env: Services) returns (r: Result<UploadReply>, trace: seq<Action>)
      modifies this
      ensures old(Ready()) ==> mH5Tk == old(mH5Tk) && headers == old(headers) && cookies == old(cookies)
      ensures !old(Ready()) && env.browser.None? ==>
        r.Err? && trace == [] && mH5Tk == old(mH5Tk) && headers == old(headers) && cookies == old(cookies)
      ensures !old(Ready()) && env.browser.Some? ==>
        cookies == SetAll(old(cookies), env.browser.value) && mH5Tk == TokenAfter(old(mH5Tk), env.browser.value)
        && headers == Some(SearchHeaders())
      ensures old(Ready()) || env.browser.Some? ==> Upload(r, trace) == UploadWith(mH5Tk, url, timestamp, env)
    {
      if !Ready() {
        var ok := InitTokenAndHeaders(env.browser);
        if !ok {
          return Err("initialisation failed"), [];
        }
      }
      var b64, fetched := ImageToBase64(url, env.fetch, env.encode);
      if |b64| == 0 {
        return Err("image to base64 failed"), fetched;
      }
      var json := env.dumps(b64);
      var sign := env.md5(SignContent(mH5Tk, timestamp, json));
      var reply := env.post(sign, json);
      trace := fetched + [Post(sign, json)];
      if reply.status != 200 {
        return Err("request failed"), trace;
      }
      if reply.json.None? {
        return Err("response is not JSON"), trace;
      }
      if !Accepted(reply.json.value) {
        return Err("upload failed"), trace;
      }
      r := Ok(reply.json.value);
    }

    /** `search_by_image`: never raises; any failure yields `[]`. */
    method SearchByImage(url: string, timestamp: string, env: Services) returns (products: seq<Listing>, trace: seq<Action>)
      modifies this
      ensures old(Ready()) ==> mH5Tk == old(mH5Tk) && headers == old(headers) && cookies == old(cookies)
      ensures !old(Ready()) && env.browser.None? ==>
        products == [] && trace == [] && mH5Tk == old(mH5Tk) && headers == old(headers) && cookies == old(cookies)
      ensures !old(Ready()) && env.browser.Some? ==>
        cookies == SetAll(old(cookies), env.browser.value) && mH5Tk == TokenAfter(old(mH5Tk), env.browser.value)
        && headers == Some(SearchHeaders())
      ensures old(Ready()) || env.browser.Some? ==> Search(products, trace) == SearchWith(mH5Tk, url, timestamp, env)
    {
      var up;
      up, trace := UploadImage(url, timestamp, env);
      if up.Err? {
        return [], trace;
      }
      if up.value.imageId.None? || |up.value.imageId.value| == 0 {
        return [], trace;
      }
      var offers, polls := PollResults(env.poll);
      trace := trace + polls;
      if offers.None? {
        return [], trace;
      }
      products := ParseResults(Sorting.Take(offers.value, MaxCards));
    }

    /** The polling loop: up to five looks for result cards; a failure on
        the last look is an error (`None`). */
    static method PollResults(poll: nat -> Option<seq<Card>>) returns (offers: Option<seq<Card>>, polls: seq<Action>)
      ensures Polled(offers, polls) == PollFrom(poll, 0)
    {
      polls := [];
      var attempt := 0;
      while attempt < MaxPolls
        invariant 0 <= attempt <= MaxPolls
        invariant PollFrom(poll, 0) == Polled(PollFrom(poll, attempt).offers, polls + PollFrom(poll, attempt).trace)
      {
        var p := poll(attempt);
        PollStep(poll, attempt, polls);
        polls := polls + [Poll(attempt)];
        if p.None? {
          if attempt == MaxPolls - 1 {
            return None, polls;
          }
        } else if |p.value| > 0 {
          return p, polls;
        }
        attempt := attempt + 1;
      }
      offers := Some([]);
      assert polls + [] == polls;
    }

    /** The card loop of `search_by_image`. */
    static method ParseResults(cards: seq<Card>) returns (products: seq<Listing>)
      ensures products == ParseCards(cards)
    {
      ghost var parsed := Sorting.Map(ParseCard, cards);
      products := [];
      var i := 0;
      while i < |cards|
        invariant 0 <= i <= |cards|
        invariant products == Present(parsed[..i])
      {
        PresentNext(parsed, i);
        var card := ParseCard(cards[i]);
        if card.Some? {
          products := products + [card.value];
        }
        i := i + 1;
      }
      assert parsed[..i] == parsed;
    }

    /** `search_similar_products`: the parsed cards of the page, cut at ten;
        `page` is `None` when the page does not load. */
    method SearchSimilarProducts(imageId: string, page: Option<seq<Card>>) returns (products: seq<Listing>)
      ensures page.None? ==> products == []
      ensures page.Some? ==> products == Sorting.Take(SoupCards(page.value), MaxCards)
    {
      if page.None? {
        return [];
      }
      products := FirstPresent(Sorting.Map(SoupCard, page.value), MaxCards);
    }

    static method FirstPresent(os: seq<Option<Listing>>, n: nat) returns (products: seq<Listing>)
      requires n > 0
      ensures products == Sorting.Take(Present(os), n)
    {
      products := [];
      var i := 0;
      while i < |os|
        invariant 0 <= i <= |os|
        invariant products == Present(os[..i])
        invariant |products| < n
      {
        PresentNext(os, i);
        if os[i].Some? {
          products := products + [os[i].value];
          if |products| >= n {
            PresentTake(os, i + 1, n);
            return;
          }
        }
        i := i + 1;
      }
      assert os[..i] == os;
    }
  }
}
