/** The EchoTik product crawler (crawler.py): the header update from a
    cookie, the retrying API request, the stripping of bulky fields, the
    merge into the day's file with one record per product id, the file
    name, and the page loop. The HTTP client, the JSON codec and the clock
    are parameters. */
module Crawler {

  import opened Wrappers
  import opened Strings
  import Sorting

  const MaxRetries: nat := 3
  const RetryDelay: nat := 5
  const CookieHeader := "Cookie"
  const AuthHeader := "authorization"
  const TokenKey := "token="
  const Bearer := "Bearer "
  const CategoryParam := "product_categories"
  const KeywordParam := "keyword"
  /** Stand-ins for the account credentials the crawler ships with; the
      model treats them as opaque text. */
  const BearerToken := "<account token>"
  const SessionCookie := "AGL_USER_ID=<user id>; is_first_visit=false; lang=zh-CN; region=MY; currency=MYR; token=<session token>"

  /** A decoded JSON value; an object keeps its keys in insertion order. */
  datatype Json =
    | JNull
    | JBool(b: bool)
    | JNum(n: real)
    | JStr(s: string)
    | JList(items: seq<Json>)
    | JObject(fields: seq<(string, Json)>)

  /** `d.get(k)` on an object's fields. */
  function Lookup(fields: seq<(string, Json)>, k: string): Option<Json> {
    if |fields| == 0 then None
    else if fields[0].0 == k then Some(fields[0].1)
    else Lookup(fields[1..], k)
  }

  /** A lookup finds the first pair with the key, and nothing exactly when
      no pair has it. */
  lemma {:induction false} LookupSpec(fields: seq<(string, Json)>, k: string)
    ensures var r := Lookup(fields, k);
      (r.None? <==> forall i :: 0 <= i < |fields| ==> fields[i].0 != k) &&
      (r.Some? ==> exists i :: 0 <= i < |fields| && fields[i] == (k, r.value) && forall j :: 0 <= j < i ==> fields[j].0 != k)
  {
    if |fields| > 0 && fields[0].0 != k {
      LookupSpec(fields[1..], k);
      if Lookup(fields, k).Some? {
        var i :| 0 <= i < |fields| - 1 && fields[1..][i] == (k, Lookup(fields, k).value) && forall j :: 0 <= j < i ==> fields[1..][j].0 != k;
        assert fields[i + 1] == (k, Lookup(fields, k).value);
      }
    }
  }

  // ---------------------------------------------------------------------
  // update_cookie

  /** The greedy `[^;]+` run that starts at `i`. */
  function RunFrom(s: string, i: nat): (r: string)
    requires i <= |s|
    decreases |s| - i
    ensures i + |r| <= |s| && s[i..i + |r|] == r
    ensures ';' !in r
    ensures i + |r| == |s| || s[i + |r|] == ';'
  {
    if i == |s| || s[i] == ';' then "" else [s[i]] + RunFrom(s, i + 1)
  }

  /** The pattern `token=([^;]+)` matches at `j`. */
  predicate TokenAt(s: string, j: nat) {
    OccursAt(s, TokenKey, j) && j + |TokenKey| < |s| && s[j + |TokenKey|] != ';'
  }

  /** The leftmost match position at or after `from`. */
  function TokenFrom(s: string, from: nat): (r: Option<nat>)
    decreases |s| - from
    ensures r.Some? ==> from <= r.value && TokenAt(s, r.value)
    ensures r.Some? ==> forall j :: from <= j < r.value ==> !TokenAt(s, j)
    ensures r.None? ==> forall j :: from <= j ==> !TokenAt(s, j)
  {
    if from + |TokenKey| >= |s| then None
    else if TokenAt(s, from) then Some(from)
    else TokenFrom(s, from + 1)
  }

  /** `re.search(r'token=([^;]+)', cookie).group(1)`, if it matches: a
      non-empty text without `;`, found exactly when the pattern matches
      somewhere. */
  function Token(cookie: string): (r: Option<string>)
    ensures r.Some? <==> exists j :: TokenAt(cookie, j)
    ensures r.Some? ==> |r.value| > 0 && ';' !in r.value
  {
    match TokenFrom(cookie, 0)
    case None => None
    case Some(j) => Some(RunFrom(cookie, j + |TokenKey|))
  }

  /** The token is the whole run of non-`;` characters after the leftmost
      `token=` that is followed by one. */
  lemma TokenSpec(cookie: string)
    ensures Token(cookie).Some? ==> var t := Token(cookie).value;
      exists j: nat :: TokenAt(cookie, j) && (forall i :: 0 <= i < j ==> !TokenAt(cookie, i)) &&
        j + |TokenKey| + |t| <= |cookie| && cookie[j..j + |TokenKey| + |t|] == TokenKey + t &&
        (j + |TokenKey| + |t| == |cookie| || cookie[j + |TokenKey| + |t|] == ';')
  {
    match TokenFrom(cookie, 0)
    case None =>
    case Some(j) =>
      TokenRunAt(cookie, j);
  }

  /** The run after a match at `j` ends the `token=` text at a `;` or at
      the end of the cookie. */
  lemma TokenRunAt(cookie: string, j: nat)
    requires TokenAt(cookie, j)
    ensures var t := RunFrom(cookie, j + |TokenKey|); var e := j + |TokenKey| + |t|;
      e <= |cookie| && cookie[j..e] == TokenKey + t && (e == |cookie| || cookie[e] == ';')
  {
    var t := RunFrom(cookie, j + |TokenKey|);
    var e := j + |TokenKey| + |t|;
    assert cookie[j..e] == cookie[j..j + |TokenKey|] + cookie[j + |TokenKey|..e];
  }

  // ---------------------------------------------------------------------
  // _make_request

  /** One HTTP exchange: the status, the body decoded as JSON (`None` when
      it is not JSON) and the body text; `Failed` when `requests` raises. */
  datatype ApiReply = ApiReply(status: int, payload: Option<Json>, text: string) | Failed

  /** The payload, no data after all attempts, or an exception that
      escapes to the caller. */
  datatype RequestResult = Payload(json: Json) | GaveUp | Escaped

  /** The random pause before a request, a request, and the back-off
      after a raised request. */
  datatype Event = Delay | Request(page: int, attempt: nat) | Backoff(seconds: nat)

  datatype Attempts = Attempts(result: RequestResult, events: seq<Event>)

  /** A truthy list under `data`. */
  predicate HasRecords(fields: seq<(string, Json)>) {
    match Lookup(fields, "data")
    case Some(JList(items)) => |items| > 0
    case _ => false
  }

  /** `response_data.get('data', [])` where it is a list. */
  function Records(fields: seq<(string, Json)>): seq<Json> {
    match Lookup(fields, "data")
    case Some(JList(items)) => items
    case _ => []
  }

  /** What one reply decides: `Some` ends the loop, `None` goes on. A 200
      whose JSON is not an object raises on `.get`. */
  function Verdict(reply: ApiReply): (r: Option<RequestResult>)
    ensures r != Some(GaveUp)
    ensures r.Some? ==> reply.ApiReply? && reply.status == 200 && reply.payload.Some?
    ensures r.Some? && r.value.Payload? ==>
      r.value.json == reply.payload.value && r.value.json.JObject? && HasRecords(r.value.json.fields)
    ensures r == Some(Escaped) <==> reply.ApiReply? && reply.status == 200 && reply.payload.Some? && !reply.payload.value.JObject?
  {
    match reply
    case Failed => None
    case ApiReply(status, payload, _) =>
      if status != 200 || payload.None? then None
      else match payload.value
        case JObject(fields) => if HasRecords(fields) then Some(Payload(payload.value)) else None
        case _ => Some(Escaped)
  }

  function AttemptEvents(page: int, k: nat, reply: ApiReply): seq<Event> {
    [Delay, Request(page, k)] + (if reply.Failed? && k < MaxRetries - 1 then [Backoff(RetryDelay)] else [])
  }

  /** The attempts from `k` on; `get(page, k)` is the reply to attempt `k`.
      Each attempt starts with the pause and the request, and adds at
      most three events; past the last attempt there is no data. */
  function RequestFrom(page: int, k: nat, get: (int, nat) -> ApiReply): (a: Attempts)
    decreases MaxRetries - k
    ensures k >= MaxRetries ==> a == Attempts(GaveUp, [])
    ensures k < MaxRetries ==> |a.events| >= 2 && a.events[..2] == [Delay, Request(page, k)]
    ensures k <= MaxRetries ==> |a.events| <= 3 * (MaxRetries - k)
  {
    if k >= MaxRetries then Attempts(GaveUp, [])
    else
      var reply := get(page, k);
      match Verdict(reply)
      case Some(r) => Attempts(r, AttemptEvents(page, k, reply))
      case None =>
        var rest := RequestFrom(page, k + 1, get);
        Attempts(rest.result, AttemptEvents(page, k, reply) + rest.events)
  }

  /** The attempt numbers of the requests in a trace. */
  function Requests(events: seq<Event>): seq<nat> {
    if |events| == 0 then []
    else (if events[0].Request? then [events[0].attempt] else []) + Requests(events[1..])
  }

  lemma {:induction false} RequestsConcat(a: seq<Event>, b: seq<Event>)
    decreases |a|
    ensures Requests(a + b) == Requests(a) + Requests(b)
  {
    if |a| == 0 {
      assert a + b == b;
    } else {
      assert (a + b)[0] == a[0];
      assert (a + b)[1..] == a[1..] + b;
      RequestsConcat(a[1..], b);
    }
  }

  lemma AttemptRequests(page: int, k: nat, reply: ApiReply)
    ensures Requests(AttemptEvents(page, k, reply)) == [k]
  {
    var tail: seq<Event> := if reply.Failed? && k < MaxRetries - 1 then [Backoff(RetryDelay)] else [];
    assert Requests(tail) == [] by {
      if |tail| > 0 { assert tail[1..] == []; }
    }
    var e := AttemptEvents(page, k, reply);
    assert e == [Delay] + ([Request(page, k)] + tail);
    assert e[1..] == [Request(page, k)] + tail;
    assert e[1..][1..] == tail;
  }

  /** The attempts are numbered `k, k+1, ...` and there are at most
      `MaxRetries - k` of them. */
  lemma {:induction false} RequestCount(page: int, k: nat, get: (int, nat) -> ApiReply)
    requires k <= MaxRetries
    decreases MaxRetries - k
    ensures var rs := Requests(RequestFrom(page, k, get).events);
      |rs| <= MaxRetries - k && forall i :: 0 <= i < |rs| ==> rs[i] == k + i
  {
    if k < MaxRetries {
      var reply := get(page, k);
      AttemptRequests(page, k, reply);
      if Verdict(reply).None? {
        var rest := RequestFrom(page, k + 1, get);
        RequestsConcat(AttemptEvents(page, k, reply), rest.events);
        RequestCount(page, k + 1, get);
      }
    }
  }

  /** A payload is the JSON of a 200 reply whose `data` is a non-empty
      list; no payload at all means every attempt went on. */
  lemma {:induction false} RequestContract(page: int, k: nat, get: (int, nat) -> ApiReply)
    decreases MaxRetries - k
    ensures var r := RequestFrom(page, k, get).result;
      r.Payload? ==> (r.json.JObject? && HasRecords(r.json.fields) &&
        exists j :: k <= j < MaxRetries && get(page, j).ApiReply? && get(page, j).status == 200 &&
          get(page, j).payload == Some(r.json))
    ensures RequestFrom(page, k, get).result.GaveUp? <==> forall j :: k <= j < MaxRetries ==> Verdict(get(page, j)).None?
  {
    if k < MaxRetries {
      if Verdict(get(page, k)).None? {
        RequestContract(page, k + 1, get);
      }
    }
  }

  lemma RequestStep(page: int, k: nat, get: (int, nat) -> ApiReply, done: seq<Event>)
    requires k < MaxRetries && Verdict(get(page, k)).None?
    ensures var rest := RequestFrom(page, k + 1, get);
      var here := RequestFrom(page, k, get);
      here.result == rest.result &&
      done + here.events == (done + AttemptEvents(page, k, get(page, k))) + rest.events
  {
  }

  // ---------------------------------------------------------------------
  // _save_data: stripping

  /** The complex fields `_save_data` leaves out. */
  const Excluded: set<string> := {"seller", "sale_props", "skus", "sales_trending"}

  /** The record's fields without the excluded keys, in their order. */
  function Strip(fields: seq<(string, Json)>): seq<(string, Json)> {
    if |fields| == 0 then []
    else (if fields[0].0 in Excluded then [] else [fields[0]]) + Strip(fields[1..])
  }

  lemma {:induction false} StripConcat(a: seq<(string, Json)>, b: seq<(string, Json)>)
    decreases |a|
    ensures Strip(a + b) == Strip(a) + Strip(b)
  {
    if |a| == 0 {
      assert a + b == b;
    } else {
      assert (a + b)[0] == a[0];
      assert (a + b)[1..] == a[1..] + b;
      StripConcat(a[1..], b);
    }
  }

  /** A stripped record holds exactly the pairs of the original whose key
      is not excluded, and looking a key up in it gives what the original
      gives unless the key is excluded. */
  lemma {:induction false} StripSpec(fields: seq<(string, Json)>, k: string, v: Json)
    decreases |fields|
    ensures (k, v) in Strip(fields) <==> (k, v) in fields && k !in Excluded
    ensures Lookup(Strip(fields), k) == if k in Excluded then None else Lookup(fields, k)
  {
    if |fields| > 0 {
      StripSpec(fields[1..], k, v);
      assert fields == [fields[0]] + fields[1..];
      var rest := Strip(fields[1..]);
      if fields[0].0 !in Excluded {
        assert Strip(fields) == [fields[0]] + rest;
        assert Strip(fields)[1..] == rest;
      } else {
        assert Strip(fields) == rest;
      }
    }
  }

  /** `dict(product)` without the excluded keys, or the object unchanged
      when it is not one (the caller never passes one). */
  function StripObject(p: Json): Json {
    if p.JObject? then JObject(Strip(p.fields)) else p
  }

  /** The stripped records, or `None` when a record is not an object
      (`product.items()` raises). */
  function Simplified(products: seq<Json>): Option<seq<Json>> {
    if |products| == 0 then Some([])
    else
      var last := products[|products| - 1];
      match Simplified(products[..|products| - 1])
      case None => None
      case Some(init) => if last.JObject? then Some(init + [JObject(Strip(last.fields))]) else None
  }

  /** Simplifying fails exactly when a record is not an object, and
      otherwise strips every record in place. */
  lemma {:induction false} SimplifiedSpec(products: seq<Json>)
    ensures Simplified(products).Some? <==> forall i :: 0 <= i < |products| ==> products[i].JObject?
    ensures Simplified(products).Some? ==> var r := Simplified(products).value;
      |r| == |products| && forall i :: 0 <= i < |products| ==> r[i] == JObject(Strip(products[i].fields))
  {
    if |products| > 0 {
      var init := products[..|products| - 1];
      SimplifiedSpec(init);
      assert forall i :: 0 <= i < |init| ==> init[i] == products[i];
    }
  }

  /** A failure on a prefix is a failure on the whole list. */
  lemma {:induction false} SimplifiedPrefix(products: seq<Json>, n: nat)
    requires n <= |products| && Simplified(products[..n]).None?
    decreases |products| - n
    ensures Simplified(products).None?
  {
    if n < |products| {
      assert products[..n + 1][..n] == products[..n];
      SimplifiedPrefix(products, n + 1);
    } else {
      assert products[..n] == products;
    }
  }

  // ---------------------------------------------------------------------
  // _save_data: file name

  /** `params.get(k)` is truthy. */
  predicate IsSet(params: map<string, string>, k: string) {
    k in params && |params[k]| > 0
  }

  /** The parts of the day's file name: `products` first, the date last,
      with the category part and then the keyword part between them when
      those are set. */
  function NameParts(params: map<string, string>, date: string): (parts: seq<string>)
    ensures |parts| == 2 + (if IsSet(params, CategoryParam) then 1 else 0) + (if IsSet(params, KeywordParam) then 1 else 0)
    ensures parts[0] == "products" && parts[|parts| - 1] == date
    ensures IsSet(params, CategoryParam) ==> parts[1] == "cat" + params[CategoryParam]
    ensures IsSet(params, KeywordParam) ==> parts[|parts| - 2] == "kw" + params[KeywordParam]
  {
    ["products"]
      + (if IsSet(params, CategoryParam) then ["cat" + params[CategoryParam]] else [])
      + (if IsSet(params, KeywordParam) then ["kw" + params[KeywordParam]] else [])
      + [date]
  }

  /** The day's file: `products`, the category and keyword parts when set,
      and the date, joined by `_`. */
  function FileName(params: map<string, string>, date: string): string {
    Join(NameParts(params, date), '_') + ".json"
  }

  /** When the parts hold no `_`, the name splits back into them. */
  lemma FileNameParts(params: map<string, string>, date: string)
    requires '_' !in date
    requires IsSet(params, CategoryParam) ==> '_' !in params[CategoryParam]
    requires IsSet(params, KeywordParam) ==> '_' !in params[KeywordParam]
    ensures var name := FileName(params, date);
      EndsWith(name, ".json") && Split(name[..|name| - 5], '_') == NameParts(params, date)
  {
    var parts := NameParts(params, date);
    var name := FileName(params, date);
    assert name[..|name| - 5] == Join(parts, '_');
    assert forall k :: 0 <= k < |parts| ==> '_' !in parts[k];
    SplitJoin(parts, '_');
  }

  /** A keyword-only crawl writes `products_kw<keyword>_<date>.json`. */
  lemma KeywordFileName(params: map<string, string>, date: string)
    requires !IsSet(params, CategoryParam) && IsSet(params, KeywordParam)
    ensures FileName(params, date) == "products_kw" + params[KeywordParam] + "_" + date + ".json"
  {
    var parts := NameParts(params, date);
    assert parts == ["products", "kw" + params[KeywordParam], date];
    assert parts[1..][1..] == [date];
    assert Join(parts[1..][1..], '_') == date;
    assert Join(parts[1..], '_') == "kw" + params[KeywordParam] + "_" + date;
    assert Join(parts, '_') == "products" + "_" + ("kw" + params[KeywordParam] + "_" + date);
  }

  /** A crawl with a category writes a name that starts with
      `products_cat<category>_`. */
  lemma CategoryFileName(params: map<string, string>, date: string)
    requires IsSet(params, CategoryParam)
    ensures StartsWith(FileName(params, date), "products_cat" + params[CategoryParam] + "_")
  {
    var parts := NameParts(params, date);
    var p := "products_cat" + params[CategoryParam] + "_";
    var name := FileName(params, date);
    assert parts[0] == "products" && parts[1] == "cat" + params[CategoryParam];
    assert Join(parts, '_') == parts[0] + ['_'] + (parts[1] + ['_'] + Join(parts[2..], '_'));
    assert name == p + Join(parts[2..], '_') + ".json";
  }

  // ---------------------------------------------------------------------
  // _save_data: merge

  /** A product id as a Python dict key: `True == 1` and `1 == 1.0`. */
  datatype Key = NumKey(n: real) | StrKey(s: string) | NullKey

  /** The key of a hashable id; lists and objects are unhashable. */
  function KeyOf(id: Json): Option<Key> {
    match id
    case JNull => Some(NullKey)
    case JBool(b) => Some(NumKey(if b then 1.0 else 0.0))
    case JNum(n) => Some(NumKey(n))
    case JStr(s) => Some(StrKey(s))
    case _ => None
  }

  /** `p['product_id']` as a key, `None` when it raises. */
  function KeyFor(p: Json): Option<Key> {
    if !p.JObject? then None
    else match Lookup(p.fields, "product_id")
      case None => None
      case Some(id) => KeyOf(id)
  }

  /** An insertion-ordered dict. */
  type Dict = seq<(Key, Json)>

  /** Each record paired with its key, or `None` when a key raises. */
  function Keyed(ps: seq<Json>): Option<Dict> {
    if |ps| == 0 then Some([])
    else match (KeyFor(ps[0]), Keyed(ps[1..]))
      case (Some(k), Some(rest)) => Some([(k, ps[0])] + rest)
      case _ => None
  }

  /** Keying fails exactly when some record has no hashable
      `product_id`, and otherwise pairs every record with its key. */
  lemma {:induction false} KeyedSpec(ps: seq<Json>)
    ensures Keyed(ps).Some? <==> forall i :: 0 <= i < |ps| ==> KeyFor(ps[i]).Some?
    ensures Keyed(ps).Some? ==> (|Keyed(ps).value| == |ps| &&
      forall i :: 0 <= i < |ps| ==> Keyed(ps).value[i] == (KeyFor(ps[i]).value, ps[i]))
  {
    if |ps| > 0 {
      KeyedSpec(ps[1..]);
      assert forall i :: 1 <= i < |ps| ==> ps[i] == ps[1..][i - 1];
    }
  }

  predicate HasKey(d: Dict, k: Key) {
    exists i :: 0 <= i < |d| && d[i].0 == k
  }

  predicate DistinctKeys(d: Dict) {
    forall i, j :: 0 <= i < j < |d| ==> d[i].0 != d[j].0
  }

  function IndexOfKey(d: Dict, k: Key): (r: Option<nat>)
    ensures r.Some? ==> r.value < |d| && d[r.value].0 == k
    ensures r.None? ==> !HasKey(d, k)
  {
    if |d| == 0 then None
    else if d[|d| - 1].0 == k then Some(|d| - 1)
    else match IndexOfKey(d[..|d| - 1], k)
      case None => None
      case Some(i) => Some(i)
  }

  /** `d[k] = v`: replace in place, or append a new key. */
  function Put(d: Dict, k: Key, v: Json): Dict {
    match IndexOfKey(d, k)
    case Some(i) => d[i := (k, v)]
    case None => d + [(k, v)]
  }

  /** `{k: v for k, v in ps}`. */
  function Build(ps: Dict): Dict
    decreases |ps|
  {
    if |ps| == 0 then []
    else Put(Build(ps[..|ps| - 1]), ps[|ps| - 1].0, ps[|ps| - 1].1)
  }

  /** The value of the last pair with key `k`. */
  function LastFor(ps: Dict, k: Key): (v: Json)
    requires HasKey(ps, k)
    decreases |ps|
    ensures exists j :: 0 <= j < |ps| && ps[j] == (k, v) && forall i :: j < i < |ps| ==> ps[i].0 != k
  {
    if ps[|ps| - 1].0 == k then ps[|ps| - 1].1
    else
      assert HasKey(ps[..|ps| - 1], k) by {
        var i :| 0 <= i < |ps| && ps[i].0 == k;
        assert ps[..|ps| - 1][i].0 == k;
      }
      var v := LastFor(ps[..|ps| - 1], k);
      v
  }

  /** The index of the first pair with key `k`. */
  function FirstAt(ps: Dict, k: Key): (r: nat)
    requires HasKey(ps, k)
    ensures r < |ps| && ps[r].0 == k && forall j :: 0 <= j < r ==> ps[j].0 != k
  {
    if ps[0].0 == k then 0
    else
      assert HasKey(ps[1..], k) by {
        var i :| 0 <= i < |ps| && ps[i].0 == k;
        assert ps[1..][i - 1].0 == k;
      }
      1 + FirstAt(ps[1..], k)
  }

  /** Extending the pairs by `x` adds `x`'s key and keeps, for other
      keys, the last values of the rest. */
  lemma SnocKeys(ps: Dict)
    requires |ps| > 0
    ensures var init, x := ps[..|ps| - 1], ps[|ps| - 1];
      (forall k :: HasKey(ps, k) <==> HasKey(init, k) || k == x.0) &&
      (forall k :: HasKey(init, k) && k != x.0 ==> LastFor(ps, k) == LastFor(init, k))
  {
    var init, x := ps[..|ps| - 1], ps[|ps| - 1];
    forall k ensures HasKey(ps, k) <==> HasKey(init, k) || k == x.0 {
      if HasKey(init, k) {
        var i :| 0 <= i < |init| && init[i].0 == k;
        assert ps[i].0 == k;
      }
      if HasKey(ps, k) && k != x.0 {
        var i :| 0 <= i < |ps| && ps[i].0 == k;
        assert init[i].0 == k;
      }
    }
  }

  /** Extending the pairs keeps the first position of a key already there. */
  lemma SnocFirst(ps: Dict, k: Key)
    requires |ps| > 0 && HasKey(ps[..|ps| - 1], k)
    ensures HasKey(ps, k) && FirstAt(ps, k) == FirstAt(ps[..|ps| - 1], k) < |ps| - 1
  {
    var init := ps[..|ps| - 1];
    var b := FirstAt(init, k);
    assert ps[b] == init[b];
    assert HasKey(ps, k);
    var a := FirstAt(ps, k);
    assert a <= b;
    assert init[a] == ps[a];
  }

  /** A key new to the pairs first occurs at the last position. */
  lemma SnocFirstNew(ps: Dict)
    requires |ps| > 0 && !HasKey(ps[..|ps| - 1], ps[|ps| - 1].0)
    ensures HasKey(ps, ps[|ps| - 1].0) && FirstAt(ps, ps[|ps| - 1].0) == |ps| - 1
  {
    var init, k := ps[..|ps| - 1], ps[|ps| - 1].0;
    forall j | 0 <= j < |ps| - 1 ensures ps[j].0 != k {
      assert init[j] == ps[j];
    }
  }

  /** `Put` on a present key rewrites that entry and keeps every key in
      its place; on a new key it appends the pair. */
  lemma PutSpec(d: Dict, k: Key, v: Json)
    ensures var e := Put(d, k, v);
      (HasKey(d, k) ==> |e| == |d| && forall i :: 0 <= i < |d| ==> e[i].0 == d[i].0 && (d[i].0 != k ==> e[i] == d[i])) &&
      (!HasKey(d, k) ==> e == d + [(k, v)])
  {
  }

  /** Two dicts with the same key at every position have the same keys. */
  lemma SameKeys(d: Dict, e: Dict)
    requires |d| == |e| && forall i :: 0 <= i < |d| ==> e[i].0 == d[i].0
    ensures forall k :: HasKey(e, k) <==> HasKey(d, k)
    ensures DistinctKeys(d) ==> DistinctKeys(e)
  {
    forall k ensures HasKey(e, k) <==> HasKey(d, k) {
      if HasKey(d, k) {
        var i :| 0 <= i < |d| && d[i].0 == k;
        assert e[i].0 == k;
      }
      if HasKey(e, k) {
        var i :| 0 <= i < |e| && e[i].0 == k;
        assert d[i].0 == k;
      }
    }
  }

  /** Appending a new key adds exactly that key and keeps keys distinct. */
  lemma AppendKey(d: Dict, k: Key, v: Json)
    requires !HasKey(d, k)
    ensures forall k' :: HasKey(d + [(k, v)], k') <==> HasKey(d, k') || k' == k
    ensures DistinctKeys(d) ==> DistinctKeys(d + [(k, v)])
  {
    var e := d + [(k, v)];
    forall k' ensures HasKey(e, k') <==> HasKey(d, k') || k' == k {
      if k' == k {
        assert e[|d|].0 == k';
      }
      if HasKey(d, k') {
        var i :| 0 <= i < |d| && d[i].0 == k';
        assert e[i].0 == k';
      }
      if HasKey(e, k') && k' != k {
        var i :| 0 <= i < |e| && e[i].0 == k';
        assert i < |d| && d[i].0 == k';
      }
    }
    assert e[|d|].0 == k;
  }

  /** The dict holds one entry per distinct key of `ps`. */
  lemma {:induction false} BuildKeys(ps: Dict)
    decreases |ps|
    ensures DistinctKeys(Build(ps)) && forall k :: HasKey(Build(ps), k) <==> HasKey(ps, k)
  {
    if |ps| > 0 {
      var init, x := ps[..|ps| - 1], ps[|ps| - 1];
      var d0 := Build(init);
      BuildKeys(init);
      SnocKeys(ps);
      PutSpec(d0, x.0, x.1);
      if HasKey(d0, x.0) {
        SameKeys(d0, Put(d0, x.0, x.1));
      } else {
        AppendKey(d0, x.0, x.1);
      }
    }
  }

  /** Each entry holds the value of its key's last pair. */
  lemma {:induction false} BuildValues(ps: Dict)
    decreases |ps|
    ensures forall i :: 0 <= i < |Build(ps)| ==> HasKey(ps, Build(ps)[i].0) && Build(ps)[i].1 == LastFor(ps, Build(ps)[i].0)
  {
    if |ps| > 0 {
      var init, x := ps[..|ps| - 1], ps[|ps| - 1];
      var d0, d := Build(init), Build(ps);
      BuildValues(init);
      BuildKeys(init);
      SnocKeys(ps);
      PutSpec(d0, x.0, x.1);
      forall i | 0 <= i < |d| ensures HasKey(ps, d[i].0) && d[i].1 == LastFor(ps, d[i].0) {
        if d[i].0 != x.0 {
          assert d[i] == d0[i];
        }
      }
    }
  }

  /** The keys of `d` come in the order they first occur in `ps`. */
  predicate FirstOrder(ps: Dict, d: Dict) {
    forall i, j :: 0 <= i < j < |d| ==>
      HasKey(ps, d[i].0) && HasKey(ps, d[j].0) && FirstAt(ps, d[i].0) < FirstAt(ps, d[j].0)
  }

  /** The entries come in the order their keys first occur. */
  lemma {:induction false} BuildOrder(ps: Dict)
    decreases |ps|
    ensures FirstOrder(ps, Build(ps))
  {
    if |ps| > 0 {
      var init, x := ps[..|ps| - 1], ps[|ps| - 1];
      var d0, d := Build(init), Build(ps);
      BuildOrder(init);
      BuildValues(init);
      BuildKeys(init);
      PutSpec(d0, x.0, x.1);
      forall i, j | 0 <= i < j < |d|
        ensures HasKey(ps, d[i].0) && HasKey(ps, d[j].0) && FirstAt(ps, d[i].0) < FirstAt(ps, d[j].0)
      {
        assert d[i].0 == d0[i].0;
        SnocFirst(ps, d0[i].0);
        if j < |d0| {
          assert d[j].0 == d0[j].0;
          assert FirstAt(init, d0[i].0) < FirstAt(init, d0[j].0);
          SnocFirst(ps, d0[j].0);
        } else {
          assert d[j] == x;
          SnocFirstNew(ps);
        }
      }
    }
  }

  /** Later records win: when the incoming records hold the key, the
      merged value is the last incoming record's, whatever the existing file holds. */
  lemma {:induction false} IncomingWins(existing: Dict, incoming: Dict, k: Key)
    requires HasKey(incoming, k)
    decreases |incoming|
    ensures HasKey(existing + incoming, k) && LastFor(existing + incoming, k) == LastFor(incoming, k)
  {
    var all := existing + incoming;
    var n := |incoming| - 1;
    assert all[|all| - 1] == incoming[n];
    assert all[..|all| - 1] == existing + incoming[..n];
    if incoming[n].0 != k {
      assert HasKey(incoming[..n], k) by {
        var i :| 0 <= i < |incoming| && incoming[i].0 == k;
        assert incoming[..n][i].0 == k;
      }
      IncomingWins(existing, incoming[..n], k);
    }
  }

  function Values(d: Dict): (vs: seq<Json>)
    ensures |vs| == |d| && forall i :: 0 <= i < |d| ==> vs[i] == d[i].1
  {
    seq(|d|, i requires 0 <= i < |d| => d[i].1)
  }

  /** `list({p['product_id']: p for p in ps}.values())`, or `None` when a
      record has no hashable `product_id`. */
  function Merge(ps: seq<Json>): (r: Option<seq<Json>>)
    ensures r.None? <==> exists i :: 0 <= i < |ps| && KeyFor(ps[i]).None?
    ensures r.Some? ==> forall v :: v in r.value ==> v in ps
  {
    KeyedSpec(ps);
    match Keyed(ps)
    case None => None
    case Some(d) =>
      BuildValues(d);
      assert forall v :: v in Values(Build(d)) ==> v in ps by {
        forall v | v in Values(Build(d)) ensures v in ps {
          var i :| 0 <= i < |Build(d)| && Build(d)[i].1 == v;
          var j :| 0 <= j < |d| && d[j] == (Build(d)[i].0, v) && forall l :: j < l < |d| ==> d[l].0 != Build(d)[i].0;
          assert d[j] == (KeyFor(ps[j]).value, ps[j]);
        }
      }
      Some(Values(Build(d)))
  }

  /** The records already in the day's file: none when the file is absent
      or does not decode; `None` when it decodes to something that is not
      a list (`existing + simplified` raises). */
  function Existing(files: map<string, string>, name: string, decode: string -> Option<Json>): Option<seq<Json>> {
    if name !in files then Some([])
    else match decode(files[name])
      case None => Some([])
      case Some(JList(items)) => Some(items)
      case Some(_) => None
  }

  /** The list `_save_data` writes, or `None` when it raises. */
  function Saved(files: map<string, string>, params: map<string, string>, products: seq<Json>,
                 date: string, decode: string -> Option<Json>): (r: Option<seq<Json>>)
    ensures r.Some? ==> Simplified(products).Some? && Existing(files, FileName(params, date), decode).Some?
    ensures r.Some? ==> forall v :: v in r.value ==>
      v in Existing(files, FileName(params, date), decode).value + Simplified(products).value
  {
    match Simplified(products)
    case None => None
    case Some(simple) =>
      match Existing(files, FileName(params, date), decode)
      case None => None
      case Some(existing) => Merge(existing + simple)
  }

  // ---------------------------------------------------------------------
  // crawl

  /** The reply oracle, the day and the JSON codec of one crawl. */
  datatype Backend = Backend(get: (int, nat) -> ApiReply, date: string,
                             decode: string -> Option<Json>, encode: Json -> string)

  /** `meta.get('last_page', 0)` as a number, or `None` when reading it
      or comparing with it raises. */
  function LastPage(fields: seq<(string, Json)>): Option<real> {
    match Lookup(fields, "meta")
    case None => Some(0.0)
    case Some(JObject(meta)) =>
      (match Lookup(meta, "last_page")
       case None => Some(0.0)
       case Some(JNum(n)) => Some(n)
       case Some(JBool(b)) => Some(if b then 1.0 else 0.0)
       case Some(_) => None)
    case Some(_) => None
  }

  /** The loop goes on after `page`: neither the end page nor the last
      page is reached, and reading the last page does not raise. */
  predicate Continues(fields: seq<(string, Json)>, page: int, endPage: Option<int>) {
    match LastPage(fields)
    case None => false
    case Some(last) =>
      !(endPage.Some? && endPage.value != 0 && page >= endPage.value) && (page as real) < last
  }

  /** What a crawl has done so far: records saved, pages requested, the
      data directory. */
  datatype Run = Run(saved: nat, pages: seq<int>, files: map<string, string>)

  /** The page loop over a per-page step: `step(page, run)` is the state
      after `page` was fetched and saved, `None` when the loop stops at
      `page` without saving; `more(page)` says the stop rule lets it go
      on; `fuel` bounds the further pages. */
  function Loop(step: (int, Run) -> Option<Run>, more: int -> bool, page: int, fuel: nat, run: Run): Run
    decreases fuel
  {
    match step(page, run)
    case None => run.(pages := run.pages + [page])
    case Some(next) => if more(page) && fuel > 0 then Loop(step, more, page + 1, fuel - 1, next) else next
  }

  /** One pass of the loop, given what the step did at `page` and
      whether the loop went on. */
  lemma LoopAdvance(step: (int, Run) -> Option<Run>, more: int -> bool, page: int, fuel: nat,
                    run: Run, goOn: bool, next: Run)
    requires var n := step(page, run);
      (n.None? ==> !goOn && next == run.(pages := run.pages + [page])) &&
      (n.Some? ==> next == n.value && goOn == (more(page) && fuel > 0))
    ensures goOn ==> fuel > 0 && Loop(step, more, page, fuel, run) == Loop(step, more, page + 1, fuel - 1, next)
    ensures !goOn ==> Loop(step, more, page, fuel, run) == next
  {
  }

  /** The step records the page it was given. */
  ghost predicate RecordsPage(step: (int, Run) -> Option<Run>) {
    forall p, run :: step(p, run).Some? ==> step(p, run).value.pages == run.pages + [p]
  }

  /** The step adds `gain(p)` to the saved count. */
  ghost predicate AddsYield(step: (int, Run) -> Option<Run>, gain: int -> nat) {
    forall p, run :: step(p, run).Some? ==> step(p, run).value.saved == run.saved + gain(p)
  }

  function Sum(ns: seq<nat>): nat {
    if |ns| == 0 then 0 else ns[0] + Sum(ns[1..])
  }

  function MapYield(gain: int -> nat, pages: seq<int>): (ys: seq<nat>)
    ensures |ys| == |pages| && forall i :: 0 <= i < |pages| ==> ys[i] == gain(pages[i])
  {
    seq(|pages|, i requires 0 <= i < |pages| => gain(pages[i]))
  }

  lemma {:induction false} LoopPages(step: (int, Run) -> Option<Run>, more: int -> bool, page: int, fuel: nat, run: Run)
    requires RecordsPage(step)
    decreases fuel
    ensures var r := Loop(step, more, page, fuel, run);
      var n := |run.pages|;
      n < |r.pages| <= n + fuel + 1 && r.pages[..n] == run.pages &&
      forall i :: n <= i < |r.pages| ==> r.pages[i] == page + (i - n)
  {
    var r := Loop(step, more, page, fuel, run);
    var n := |run.pages|;
    var next := step(page, run);
    if next.Some? && more(page) && fuel > 0 {
      LoopPages(step, more, page + 1, fuel - 1, next.value);
      assert r.pages[..n + 1] == next.value.pages;
      assert r.pages[..n] == r.pages[..n + 1][..n];
    }
  }

  lemma {:induction false} LoopMoves(step: (int, Run) -> Option<Run>, more: int -> bool, page: int, fuel: nat, run: Run)
    requires RecordsPage(step)
    decreases fuel
    ensures var r := Loop(step, more, page, fuel, run);
      |run.pages| < |r.pages| && AllMove(more, r.pages[|run.pages|..|r.pages| - 1])
  {
    var r := Loop(step, more, page, fuel, run);
    var n := |run.pages|;
    var next := step(page, run);
    LoopPages(step, more, page, fuel, run);
    if next.Some? && more(page) && fuel > 0 {
      assert r == Loop(step, more, page + 1, fuel - 1, next.value);
      LoopMoves(step, more, page + 1, fuel - 1, next.value);
      var tail := r.pages[n + 1..|r.pages| - 1];
      assert AllMove(more, tail);
      assert r.pages[n..|r.pages| - 1] == [page] + tail;
    } else {
      assert r.pages[n..|r.pages| - 1] == [];
    }
  }

  /** The stop rule let the loop go on after every page of `ps`. */
  predicate AllMove(more: int -> bool, ps: seq<int>) {
    forall i :: 0 <= i < |ps| ==> more(ps[i])
  }

  /** The state the loop's last page was stepped from. */
  function LastRun(step: (int, Run) -> Option<Run>, more: int -> bool, page: int, fuel: nat, run: Run): Run
    decreases fuel
  {
    match step(page, run)
    case None => run
    case Some(next) => if more(page) && fuel > 0 then LastRun(step, more, page + 1, fuel - 1, next) else run
  }

  /** Every page but the last adds its gain; the last page adds its gain
      exactly when its step saved it. */
  lemma {:induction false} LoopSaved(step: (int, Run) -> Option<Run>, more: int -> bool, gain: int -> nat,
                                     page: int, fuel: nat, run: Run)
    requires RecordsPage(step) && AddsYield(step, gain)
    decreases fuel
    ensures var r, pre := Loop(step, more, page, fuel, run), LastRun(step, more, page, fuel, run);
      var n := |run.pages|;
      n < |r.pages| &&
      var last := r.pages[|r.pages| - 1];
      pre.saved == run.saved + Sum(MapYield(gain, r.pages[n..|r.pages| - 1]))
      && r.saved == pre.saved + (if step(last, pre).Some? then gain(last) else 0)
  {
    var r := Loop(step, more, page, fuel, run);
    var n := |run.pages|;
    var next := step(page, run);
    LoopPages(step, more, page, fuel, run);
    if next.Some? && more(page) && fuel > 0 {
      assert r == Loop(step, more, page + 1, fuel - 1, next.value);
      assert LastRun(step, more, page, fuel, run) == LastRun(step, more, page + 1, fuel - 1, next.value);
      assert next.value.pages == run.pages + [page] && next.value.saved == run.saved + gain(page);
      LoopSaved(step, more, gain, page + 1, fuel - 1, next.value);
      LoopPages(step, more, page + 1, fuel - 1, next.value);
      var rest := r.pages[n..|r.pages| - 1];
      SumYieldCons(gain, rest);
      assert rest[0] == page;
      assert rest[1..] == r.pages[n + 1..|r.pages| - 1];
    } else {
      LoopSavedStop(step, more, gain, page, fuel, run);
    }
  }

  /** A loop that stops at its first page saves that page's gain exactly
      when the step saved it. */
  lemma LoopSavedStop(step: (int, Run) -> Option<Run>, more: int -> bool, gain: int -> nat,
                      page: int, fuel: nat, run: Run)
    requires RecordsPage(step) && AddsYield(step, gain)
    requires !(step(page, run).Some? && more(page) && fuel > 0)
    ensures var r := Loop(step, more, page, fuel, run);
      LastRun(step, more, page, fuel, run) == run
      && r.pages == run.pages + [page]
      && r.saved == run.saved + (if step(page, run).Some? then gain(page) else 0)
  {
  }

  /** The saved count never shrinks. */
  lemma {:induction false} LoopGrows(step: (int, Run) -> Option<Run>, more: int -> bool, gain: int -> nat,
                                     page: int, fuel: nat, run: Run)
    requires AddsYield(step, gain)
    decreases fuel
    ensures run.saved <= Loop(step, more, page, fuel, run).saved
  {
    var next := step(page, run);
    if next.Some? && more(page) && fuel > 0 {
      LoopGrows(step, more, gain, page + 1, fuel - 1, next.value);
    }
  }

  lemma SumYieldCons(gain: int -> nat, ps: seq<int>)
    requires |ps| > 0
    ensures Sum(MapYield(gain, ps)) == gain(ps[0]) + Sum(MapYield(gain, ps[1..]))
  {
    assert MapYield(gain, ps)[1..] == MapYield(gain, ps[1..]);
  }

  /** The number of records the reply to `page` carries. */
  function Yield(b: Backend, page: int): nat {
    var r := RequestFrom(page, 0, b.get).result;
    if r.Payload? && r.json.JObject? then |Records(r.json.fields)| else 0
  }

  /** One page of `crawl`: the state after the page's records were saved,
      `None` when the loop stops at the page without saving (no payload,
      an empty list, or `_save_data` raising). */
  function CrawlNext(b: Backend, params: map<string, string>, page: int, run: Run): (n: Option<Run>)
    ensures n.Some? ==> n.value.pages == run.pages + [page] && n.value.saved == run.saved + Yield(b, page)
  {
    var r := RequestFrom(page, 0, b.get).result;
    if !r.Payload? || !r.json.JObject? then None
    else
      var items := Records(r.json.fields);
      if |items| == 0 then None
      else match Saved(run.files, params, items, b.date, b.decode)
        case None => None
        case Some(list) =>
          Some(Run(run.saved + |items|, run.pages + [page],
                   run.files[FileName(params, b.date) := b.encode(JList(list))]))
  }

  /** After a saved page the loop goes on when the page's reply passes the
      stop rule. */
  predicate GoesOn(b: Backend, endPage: Option<int>, page: int) {
    var r := RequestFrom(page, 0, b.get).result;
    r.Payload? && r.json.JObject? && HasRecords(r.json.fields) && Continues(r.json.fields, page, endPage)
  }

  /** The loop's step, stop rule and per-page gain for one backend. */
  function StepOf(b: Backend, params: map<string, string>): (int, Run) -> Option<Run> {
    (p: int, r: Run) => CrawlNext(b, params, p, r)
  }

  function MoreOf(b: Backend, endPage: Option<int>): int -> bool {
    (p: int) => GoesOn(b, endPage, p)
  }

  function GainOf(b: Backend): int -> nat {
    (p: int) => Yield(b, p)
  }

  lemma StepFacts(b: Backend, params: map<string, string>)
    ensures RecordsPage(StepOf(b, params)) && AddsYield(StepOf(b, params), GainOf(b))
  {
  }

  /** The page loop of `crawl` from `page`, with at most `fuel` further
      pages. */
  function CrawlFrom(b: Backend, params: map<string, string>, endPage: Option<int>,
                     page: int, fuel: nat, run: Run): (r: Run)
    ensures |run.pages| < |r.pages| && r.pages[..|run.pages|] == run.pages && r.pages[|run.pages|] == page
    ensures run.saved <= r.saved
  {
    StepFacts(b, params);
    LoopPages(StepOf(b, params), MoreOf(b, endPage), page, fuel, run);
    LoopGrows(StepOf(b, params), MoreOf(b, endPage), GainOf(b), page, fuel, run);
    Loop(StepOf(b, params), MoreOf(b, endPage), page, fuel, run)
  }

  /** Pages are asked in order from `page`, one at least and at most
      `fuel + 1` of them. */
  lemma CrawlPages(b: Backend, params: map<string, string>, endPage: Option<int>, page: int, fuel: nat, run: Run)
    ensures var r := CrawlFrom(b, params, endPage, page, fuel, run);
      var n := |run.pages|;
      n < |r.pages| <= n + fuel + 1 && r.pages[..n] == run.pages &&
      (forall i :: n <= i < |r.pages| ==> r.pages[i] == page + (i - n))
  {
    StepFacts(b, params);
    LoopPages(StepOf(b, params), MoreOf(b, endPage), page, fuel, run);
  }

  /** The loop moves past a page only when the page's reply carried
      records and the stop rule let it go on. */
  lemma CrawlMoves(b: Backend, params: map<string, string>, endPage: Option<int>, page: int, fuel: nat, run: Run)
    ensures var r := CrawlFrom(b, params, endPage, page, fuel, run);
      forall i :: |run.pages| <= i < |r.pages| - 1 ==> GoesOn(b, endPage, r.pages[i])
  {
    StepFacts(b, params);
    CrawlLoopMoves(b, endPage, StepOf(b, params), MoreOf(b, endPage), page, fuel, run);
    assert CrawlFrom(b, params, endPage, page, fuel, run) == Loop(StepOf(b, params), MoreOf(b, endPage), page, fuel, run);
  }

  /** `CrawlMoves` for the loop that `CrawlFrom` runs. */
  lemma CrawlLoopMoves(b: Backend, endPage: Option<int>, step: (int, Run) -> Option<Run>, more: int -> bool,
                       page: int, fuel: nat, run: Run)
    requires RecordsPage(step) && more == MoreOf(b, endPage)
    ensures var r := Loop(step, more, page, fuel, run);
      forall i :: |run.pages| <= i < |r.pages| - 1 ==> GoesOn(b, endPage, r.pages[i])
  {
    LoopMoves(step, more, page, fuel, run);
    MovesGoOn(b, endPage, |run.pages|, Loop(step, more, page, fuel, run));
  }

  /** Pages after which the loop went on passed the stop rule. */
  lemma MovesGoOn(b: Backend, endPage: Option<int>, n: nat, r: Run)
    requires n < |r.pages| && AllMove(MoreOf(b, endPage), r.pages[n..|r.pages| - 1])
    ensures forall i :: n <= i < |r.pages| - 1 ==> GoesOn(b, endPage, r.pages[i])
  {
    forall i | n <= i < |r.pages| - 1 ensures GoesOn(b, endPage, r.pages[i]) {
      assert r.pages[n..|r.pages| - 1][i - n] == r.pages[i];
      assert MoreOf(b, endPage)(r.pages[i]);
    }
  }

  /** The state the crawl's last page was fetched from. */
  function CrawlBefore(b: Backend, params: map<string, string>, endPage: Option<int>,
                       page: int, fuel: nat, run: Run): Run
  {
    LastRun(StepOf(b, params), MoreOf(b, endPage), page, fuel, run)
  }

  /** From `run` to `r`, whose last page was fetched from `pre`: the saved
      count grew by the records of every page but the last, plus the last
      page's exactly when that page was saved. */
  predicate SavedAcross(b: Backend, params: map<string, string>, run: Run, r: Run, pre: Run) {
    |run.pages| < |r.pages|
    && var last := r.pages[|r.pages| - 1];
    pre.saved == run.saved + Sum(MapYield(GainOf(b), r.pages[|run.pages|..|r.pages| - 1]))
    && r.saved == pre.saved + (if CrawlNext(b, params, last, pre).Some? then Yield(b, last) else 0)
  }

  lemma CrawlSaved(b: Backend, params: map<string, string>, endPage: Option<int>, page: int, fuel: nat, run: Run)
    ensures SavedAcross(b, params, run, CrawlFrom(b, params, endPage, page, fuel, run), CrawlBefore(b, params, endPage, page, fuel, run))
  {
    CrawlLoopSaved(b, params, StepOf(b, params), MoreOf(b, endPage), page, fuel, run);
  }

  /** `CrawlSaved` for the loop that `CrawlFrom` runs. */
  lemma CrawlLoopSaved(b: Backend, params: map<string, string>, step: (int, Run) -> Option<Run>, more: int -> bool,
                       page: int, fuel: nat, run: Run)
    requires step == StepOf(b, params)
    ensures SavedAcross(b, params, run, Loop(step, more, page, fuel, run), LastRun(step, more, page, fuel, run))
  {
    var r, pre := Loop(step, more, page, fuel, run), LastRun(step, more, page, fuel, run);
    StepFacts(b, params);
    LoopSaved(step, more, GainOf(b), page, fuel, run);
    var last := r.pages[|r.pages| - 1];
    assert GainOf(b)(last) == Yield(b, last);
    assert step(last, pre) == CrawlNext(b, params, last, pre);
  }

  /** A first page whose reply has no `meta` ends a crawl from a
      non-negative page: the last page then reads as 0. */
  lemma NoMetaStops(b: Backend, params: map<string, string>, endPage: Option<int>, page: int, fuel: nat, run: Run)
    requires page >= 0
    requires var q := RequestFrom(page, 0, b.get).result;
      q.Payload? && q.json.JObject? && Lookup(q.json.fields, "meta").None?
    ensures CrawlFrom(b, params, endPage, page, fuel, run).pages == run.pages + [page]
  {
    assert !GoesOn(b, endPage, page);
  }

  // ---------------------------------------------------------------------
  // The crawler object

  /** ASCII lower case, enough for the `'token expired'` test. */
  function Lower(s: string): (r: string)
    ensures |r| == |s|
  {
    seq(|s|, i requires 0 <= i < |s| => if 'A' <= s[i] <= 'Z' then (s[i] as int + 32) as char else s[i])
  }

  /** A dict literal: later pairs overwrite earlier ones. */
  function ToMap(ps: seq<(string, string)>): map<string, string> {
    if |ps| == 0 then map[] else ToMap(ps[..|ps| - 1])[ps[|ps| - 1].0 := ps[|ps| - 1].1]
  }

  class EchoTikCrawler {
    var headers: map<string, string>
    var defaultParams: map<string, string>
    /** The data directory: file name to JSON text. */
    var files: map<string, string>

    /** The fixed request headers, in the source's order, cookie and
        bearer token included. */
    static function HeaderPair(i: nat): (string, string)
      requires i < 17
    {
      if i == 0 then ("Accept", "application/json, text/plain, */*")
      else if i == 1 then ("Accept-Language", "zh-CN,zh;q=0.9")
      else if i == 2 then ("User-Agent", "Mozilla/5.0 (Windows NT 10.0; Win64; x64) AppleWebKit/537.36 (KHTML, like Gecko) Chrome/122.0.0.0 Safari/537.36")
      else if i == 3 then ("Content-Type", "application/json")
      else if i == 4 then ("x-lang", "zh-CN")
      else if i == 5 then ("x-region", "MY")
      else if i == 6 then ("x-currency", "MYR")
      else if i == 7 then (AuthHeader, Bearer + BearerToken)
      else if i == 8 then ("origin", "https://echotik.live")
      else if i == 9 then ("referer", "https://echotik.live/products")
      else if i == 10 then ("sec-ch-ua", "\"Chromium\";v=\"134\", \"Not:A-Brand\";v=\"24\", \"Google Chrome\";v=\"134\"")
      else if i == 11 then ("sec-ch-ua-mobile", "?0")
      else if i == 12 then ("sec-ch-ua-platform", "\"Windows\"")
      else if i == 13 then ("sec-fetch-dest", "empty")
      else if i == 14 then ("sec-fetch-mode", "cors")
      else if i == 15 then ("sec-fetch-site", "same-origin")
      else (CookieHeader, SessionCookie)
    }

    static function InitialHeaders(): map<string, string> {
      ToMap(seq(17, i requires 0 <= i < 17 => HeaderPair(i)))
    }

    /** The default query: first page of 50, no category, no keyword, the
        last 7 days, by sales descending. */
    static function InitialParams(): (p: map<string, string>)
      ensures !IsSet(p, CategoryParam) && !IsSet(p, KeywordParam)
    {
      map[
        "page" := "1", "per_page" := "50", CategoryParam := "", KeywordParam := "",
        "price" := "", "commission_rate" := "", "related_influencers" := "",
        "videos_count" := "", "views_count" := "", "dateRange" := "7",
        "order" := "total_sale_nd_cnt", "sort" := "desc"
      ]
    }

    /** `dir` is what the data directory already holds. */
    constructor(dir: map<string, string>)
      ensures headers == InitialHeaders() && defaultParams == InitialParams() && files == dir
    {
      headers := InitialHeaders();
      defaultParams := InitialParams();
      files := dir;
    }

    /** `update_cookie`: a falsy cookie changes nothing; otherwise the
        cookie header is replaced, and the bearer token too when the
        cookie carries a `token=`. */
    method UpdateCookie(cookie: Option<string>)
      modifies this
      ensures defaultParams == old(defaultParams) && files == old(files)
      ensures cookie.None? || |cookie.value| == 0 ==> headers == old(headers)
      ensures cookie.Some? && |cookie.value| > 0 ==>
        headers == match Token(cookie.value)
          case None => old(headers)[CookieHeader := cookie.value]
          case Some(t) => old(headers)[CookieHeader := cookie.value][AuthHeader := Bearer + t]
      ensures forall k :: k != CookieHeader && k != AuthHeader ==>
        (k in headers <==> k in old(headers)) && (k in headers ==> headers[k] == old(headers)[k])
    {
      if cookie.Some? && |cookie.value| > 0 {
        headers := headers[CookieHeader := cookie.value];
        var t := Token(cookie.value);
        if t.Some? {
          headers := headers[AuthHeader := Bearer + t.value];
        }
      }
    }

    /** `_make_request`: up to three attempts for one page. */
    method MakeRequest(page: int, get: (int, nat) -> ApiReply) returns (r: RequestResult, events: seq<Event>)
      modifies this
      ensures Attempts(r, events) == RequestFrom(page, 0, get)
      ensures headers == old(headers) && defaultParams == old(defaultParams) && files == old(files)
    {
      events := [];
      var attempt := 0;
      while attempt < MaxRetries
        invariant 0 <= attempt <= MaxRetries
        invariant RequestFrom(page, 0, get).result == RequestFrom(page, attempt, get).result
        invariant RequestFrom(page, 0, get).events == events + RequestFrom(page, attempt, get).events
        invariant headers == old(headers) && defaultParams == old(defaultParams) && files == old(files)
      {
        var reply := get(page, attempt);
        if reply.Failed? {
          RequestStep(page, attempt, get, events);
          events := events + AttemptEvents(page, attempt, reply);
          attempt := attempt + 1;
          continue;
        }
        if reply.status == 200 && reply.payload.Some? {
          if !reply.payload.value.JObject? {
            return Escaped, events + AttemptEvents(page, attempt, reply);
          }
          if HasRecords(reply.payload.value.fields) {
            return Payload(reply.payload.value), events + AttemptEvents(page, attempt, reply);
          }
        }
        if reply.status == 401 || Contains(Lower(reply.text), "token expired") {
          UpdateCookie(None);
        }
        RequestStep(page, attempt, get, events);
        events := events + AttemptEvents(page, attempt, reply);
        attempt := attempt + 1;
      }
      r := GaveUp;
      assert events + [] == events;
    }

    /** The inner loop of `_save_data`: one record without its complex
        fields. */
    static method StripRecord(fields: seq<(string, Json)>) returns (r: seq<(string, Json)>)
      ensures r == Strip(fields)
    {
      r := [];
      var i := 0;
      while i < |fields|
        invariant 0 <= i <= |fields|
        invariant r == Strip(fields[..i])
      {
        assert fields[..i + 1] == fields[..i] + [fields[i]];
        StripConcat(fields[..i], [fields[i]]);
        if fields[i].0 !in Excluded {
          r := r + [fields[i]];
        }
        i := i + 1;
      }
      assert fields[..i] == fields;
    }

    /** The outer loop of `_save_data`: every record stripped, or `None`
        when one is not an object. */
    static method SimplifyAll(products: seq<Json>) returns (r: Option<seq<Json>>)
      ensures r == Simplified(products)
    {
      var simplified: seq<Json> := [];
      var i := 0;
      while i < |products|
        invariant 0 <= i <= |products|
        invariant Simplified(products[..i]) == Some(simplified)
      {
        assert products[..i + 1][..i] == products[..i];
        if !products[i].JObject? {
          assert products[..i + 1][i] == products[i];
          assert Simplified(products[..i + 1]).None?;
          SimplifiedPrefix(products, i + 1);
          return None;
        }
        var fields := StripRecord(products[i].fields);
        simplified := simplified + [JObject(fields)];
        i := i + 1;
      }
      assert products[..i] == products;
      r := Some(simplified);
    }

    /** `_save_data`: merge the page into the day's file, or leave the
        directory alone when a step raises. */
    method SaveData(products: seq<Json>, date: string, decode: string -> Option<Json>, encode: Json -> string)
      returns (ok: bool)
      modifies this
      ensures headers == old(headers) && defaultParams == old(defaultParams)
      ensures ok <==> Saved(old(files), defaultParams, products, date, decode).Some?
      ensures ok ==> files == old(files)[FileName(defaultParams, date) :=
        encode(JList(Saved(old(files), defaultParams, products, date, decode).value))]
      ensures !ok ==> files == old(files)
    {
      var simple := SimplifyAll(products);
      if simple.None? {
        return false;
      }
      var name := FileName(defaultParams, date);
      var existing: seq<Json> := [];
      if name in files {
        match decode(files[name]) {
          case None =>
          case Some(j) =>
            if !j.JList? {
              return false;
            }
            existing := j.items;
        }
      }
      var merged := Merge(existing + simple.value);
      if merged.None? {
        return false;
      }
      files := files[name := encode(JList(merged.value))];
      ok := true;
    }

    /** `crawl`: from `startPage`, page by page, until a stop rule fires or
        `fuel` further pages are used up; the number of records saved. */
    method Crawl(b: Backend, startPage: int, endPage: Option<int>, fuel: nat) returns (saved: nat, pages: seq<int>)
      modifies this
      ensures Run(saved, pages, files) == CrawlFrom(b, old(defaultParams), endPage, startPage, fuel, Run(0, [], old(files)))
      ensures headers == old(headers) && defaultParams == old(defaultParams)
    {
      ghost var step, goesOn := StepOf(b, defaultParams), MoreOf(b, endPage);
      ghost var target := Loop(step, goesOn, startPage, fuel, Run(0, [], files));
      saved, pages := 0, [];
      var page := startPage;
      var left := fuel;
      while true
        invariant target == Loop(step, goesOn, page, left, Run(saved, pages, files))
        invariant headers == old(headers) && defaultParams == old(defaultParams)
        decreases left
      {
        var goOn;
        goOn, saved, pages := CrawlTurn(b, endPage, page, left, saved, pages, step, goesOn, target);
        if !goOn {
          break;
        }
        page, left := page + 1, left - 1;
      }
    }

    /** One turn of the page loop, stated as the loop's progress. */
    method CrawlTurn(b: Backend, endPage: Option<int>, page: int, left: nat, saved: nat, pages: seq<int>,
                     ghost step: (int, Run) -> Option<Run>, ghost goesOn: int -> bool, ghost target: Run)
      returns (goOn: bool, saved': nat, pages': seq<int>)
      requires step == StepOf(b, defaultParams) && goesOn == MoreOf(b, endPage)
      requires target == Loop(step, goesOn, page, left, Run(saved, pages, files))
      modifies this
      ensures headers == old(headers) && defaultParams == old(defaultParams)
      ensures goOn ==> left > 0 && target == Loop(step, goesOn, page + 1, left - 1, Run(saved', pages', files))
      ensures !goOn ==> target == Run(saved', pages', files)
    {
      goOn, saved', pages' := CrawlPage(b, endPage, page, left, saved, pages, step, goesOn);
      LoopAdvance(step, goesOn, page, left, Run(saved, pages, old(files)), goOn, Run(saved', pages', files));
    }

    /** One pass of the page loop: request, save, and decide whether to go
        on. */
    method CrawlPage(b: Backend, endPage: Option<int>, page: int, left: nat, saved: nat, pages: seq<int>,
                     ghost step: (int, Run) -> Option<Run>, ghost goesOn: int -> bool)
      returns (goOn: bool, saved': nat, pages': seq<int>)
      requires step == StepOf(b, defaultParams) && goesOn == MoreOf(b, endPage)
      modifies this
      ensures headers == old(headers) && defaultParams == old(defaultParams)
      ensures var n := step(page, Run(saved, pages, old(files)));
        (n.None? ==> !goOn && Run(saved', pages', files) == Run(saved, pages + [page], old(files))) &&
        (n.Some? ==> Run(saved', pages', files) == n.value && goOn == (goesOn(page) && left > 0))
    {
      goOn, saved', pages' := false, saved, pages + [page];
      var r, _ := MakeRequest(page, b.get);
      if !r.Payload? || !r.json.JObject? {
        return;
      }
      var items := Records(r.json.fields);
      if |items| == 0 {
        return;
      }
      var ok := SaveData(items, b.date, b.decode, b.encode);
      if !ok {
        return;
      }
      saved' := saved + |items|;
      RequestContract(page, 0, b.get);
      goOn := Continues(r.json.fields, page, endPage) && left > 0;
    }
  }
}
