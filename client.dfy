/**
 * The HTTP wrapper: header injection, the classification of a response into
 * `{ data }` or `{ error }`, the body rule of the verbs that may carry one,
 * the `get` helper that cleans a parameter object into a query string, and the
 * policy endpoints that build their query strings by hand.
 *
 * `fetch` is not modelled: its result is a parameter. The byte-level
 * percent-encoding of `URLSearchParams` (application/x-www-form-urlencoded
 * serializing, section 5.2 of the WHATWG URL Standard) is the parameter `enc`,
 * and `JSON.stringify` is left symbolic: a request body is the value it encodes.
 */
module Client {
  import opened Wrappers
  import opened Js
  import opened BrowserStorage
  import Selection

  // ===== Query strings =====

  /** `Object.entries(params)`: the keys of an object, in property order. */
  type Params = seq<(string, JsValue)>

  /** The name-value list of a `URLSearchParams`. */
  type Query = seq<(string, string)>

  /** Named entries whose value may be absent: what a query is built from. */
  type Candidates = seq<(string, Option<string>)>

  predicate DistinctKeys<V>(p: seq<(string, V)>) {
    forall i, j :: 0 <= i < j < |p| ==> p[i].0 != p[j].0
  }

  function Keys<V>(p: seq<(string, V)>): (ks: seq<string>)
    ensures |ks| == |p|
    ensures forall i :: 0 <= i < |p| ==> ks[i] == p[i].0
  {
    seq(|p|, i requires 0 <= i < |p| => p[i].0)
  }

  /** The value stored under `key`: the last entry with that name (with distinct names, the only one). */
  function Lookup<V>(p: seq<(string, V)>, key: string): Option<V> {
    if p == [] then None
    else if p[|p| - 1].0 == key then Some(p[|p| - 1].1)
    else Lookup(p[..|p| - 1], key)
  }

  lemma DistinctInit<V>(p: seq<(string, V)>)
    requires DistinctKeys(p) && p != []
    ensures DistinctKeys(p[..|p| - 1])
    ensures p[|p| - 1].0 !in Keys(p[..|p| - 1])
  {
    var init := p[..|p| - 1];
    forall i, j | 0 <= i < j < |init| ensures init[i].0 != init[j].0 {
      assert init[i] == p[i] && init[j] == p[j];
    }
    forall i | 0 <= i < |init| ensures Keys(init)[i] != p[|p| - 1].0 {
      assert init[i] == p[i];
    }
  }

  /** A name that is not among the keys is not found. */
  lemma {:induction false} LookupAbsent<V>(p: seq<(string, V)>, key: string)
    requires key !in Keys(p)
    ensures Lookup(p, key).None?
  {
    if p != [] {
      var init := p[..|p| - 1];
      assert Keys(p)[|p| - 1] == p[|p| - 1].0;
      assert forall i :: 0 <= i < |init| ==> Keys(init)[i] == Keys(p)[i];
      LookupAbsent(init, key);
    }
  }

  /** With distinct names, every entry is found under its own name. */
  lemma {:induction false} LookupDistinct<V>(p: seq<(string, V)>, i: int)
    requires DistinctKeys(p) && 0 <= i < |p|
    ensures Lookup(p, p[i].0) == Some(p[i].1)
  {
    if i < |p| - 1 {
      var init := p[..|p| - 1];
      DistinctInit(p);
      assert init[i] == p[i];
      LookupDistinct(init, i);
    }
  }

  /** The entries whose value is present, in their order, with the value unwrapped. */
  function Present(cs: Candidates): (q: Query)
    ensures |q| <= |cs|
  {
    if cs == [] then []
    else
      var (k, v) := cs[|cs| - 1];
      Present(cs[..|cs| - 1]) + (if v.Some? then [(k, v.value)] else [])
  }

  /** The names of a built query keep the order of the candidates. */
  lemma {:induction false} PresentInOrder(cs: Candidates)
    ensures Selection.IsSubsequence(Keys(Present(cs)), Keys(cs))
  {
    if cs != [] {
      var init := cs[..|cs| - 1];
      var (k, v) := cs[|cs| - 1];
      PresentInOrder(init);
      assert Keys(cs) == Keys(init) + [k];
      Selection.SubsequenceExtend(Keys(Present(init)), Keys(init), k);
      if v.Some? {
        assert Keys(Present(cs)) == Keys(Present(init)) + [k];
      } else {
        assert Present(cs) == Present(init);
      }
    }
  }

  lemma {:induction false} PresentKeys(cs: Candidates)
    ensures forall k :: k in Keys(Present(cs)) ==> k in Keys(cs)
  {
    if cs != [] {
      var init := cs[..|cs| - 1];
      var (k, v) := cs[|cs| - 1];
      PresentKeys(init);
      assert Keys(cs) == Keys(init) + [k];
      if v.Some? {
        assert Keys(Present(cs)) == Keys(Present(init)) + [k];
      } else {
        assert Present(cs) == Present(init);
      }
    }
  }

  /**
   * With distinct names, a name is in the built query exactly when its
   * candidate value is present, and it carries that value.
   */
  lemma {:induction false} PresentLookup(cs: Candidates, key: string)
    requires DistinctKeys(cs)
    ensures Lookup(Present(cs), key) == match Lookup(cs, key) case None => None case Some(v) => v
  {
    if cs != [] {
      var init := cs[..|cs| - 1];
      var (k, v) := cs[|cs| - 1];
      DistinctInit(cs);
      PresentLookup(init, key);
      if v.Some? {
        var q := Present(cs);
        assert q == Present(init) + [(k, v.value)];
        assert q[..|q| - 1] == Present(init);
      } else {
        assert Present(cs) == Present(init);
        if k == key {
          PresentKeys(init);
          LookupAbsent(Present(init), key);
        }
      }
    }
  }

  /** With distinct names, the entry at position `i` is in the query exactly when its value is present. */
  lemma PresentLookupAt(cs: Candidates, i: int)
    requires DistinctKeys(cs) && 0 <= i < |cs|
    ensures Lookup(Present(cs), cs[i].0) == cs[i].1
  {
    PresentLookup(cs, cs[i].0);
    LookupDistinct(cs, i);
  }

  /** Nothing is built exactly when no value is present. */
  lemma {:induction false} PresentEmptyIff(cs: Candidates)
    ensures Present(cs) == [] <==> forall i :: 0 <= i < |cs| ==> cs[i].1.None?
  {
    if cs != [] {
      var init := cs[..|cs| - 1];
      PresentEmptyIff(init);
      assert forall i :: 0 <= i < |init| ==> init[i] == cs[i];
    }
  }

  /** Each entry of a parameter object, its value stringified unless null or undefined. */
  function Stringified(p: Params): (cs: Candidates)
    ensures |cs| == |p|
    ensures forall i :: 0 <= i < |p| ==>
      cs[i] == (p[i].0, if Nullish(p[i].1) then None else Some(ToJsString(p[i].1)))
  {
    seq(|p|, i requires 0 <= i < |p| => (p[i].0, if Nullish(p[i].1) then None else Some(ToJsString(p[i].1))))
  }

  /**
   * The dictionary `get` builds with `reduce`: entries whose value is null or
   * undefined are dropped, every other value becomes `String(value)`.
   */
  function Cleaned(p: Params): Query {
    Present(Stringified(p))
  }

  /**
   * A key is in the cleaned dictionary exactly when the parameter object has it
   * with a value other than null and undefined, and its value there is
   * `String(value)`, so `0`, `false` and `''` survive.
   */
  lemma CleanedLookup(p: Params, key: string)
    requires DistinctKeys(p)
    ensures Lookup(Cleaned(p), key) ==
      match Lookup(p, key)
      case None => None
      case Some(v) => if Nullish(v) then None else Some(ToJsString(v))
  {
    var cs := Stringified(p);
    assert Keys(cs) == Keys(p);
    PresentLookup(cs, key);
    if key in Keys(p) {
      var i :| 0 <= i < |p| && Keys(p)[i] == key;
      LookupDistinct(p, i);
      LookupDistinct(cs, i);
    } else {
      LookupAbsent(p, key);
      LookupAbsent(cs, key);
    }
  }

  /** The cleaned dictionary keeps the order of the parameter object. */
  lemma CleanedInOrder(p: Params)
    ensures Selection.IsSubsequence(Keys(Cleaned(p)), Keys(p))
  {
    PresentInOrder(Stringified(p));
    assert Keys(Stringified(p)) == Keys(p);
  }

  /** The cleaned dictionary is empty exactly when every value is null or undefined. */
  lemma CleanedEmptyIff(p: Params)
    ensures Cleaned(p) == [] <==> forall i :: 0 <= i < |p| ==> Nullish(p[i].1)
  {
    PresentEmptyIff(Stringified(p));
  }

  /** The dictionary is filled entry by entry, as the `reduce` in `get` does. */
  method CleanParams(params: Params) returns (clean: Query)
    ensures clean == Cleaned(params)
  {
    ghost var cs := Stringified(params);
    clean := [];
    var i := 0;
    while i < |params|
      invariant 0 <= i <= |params|
      invariant clean == Present(cs[..i])
    {
      var (key, value) := params[i];
      assert cs[..i + 1][..i] == cs[..i];
      if !Nullish(value) {
        clean := clean + [(key, ToJsString(value))];
      }
      i := i + 1;
    }
    assert cs[..i] == cs;
  }

  /** One `name=value` pair of the serialized query. */
  function Pair(enc: string -> string, kv: (string, string)): string {
    enc(kv.0) + "=" + enc(kv.1)
  }

  /** `URLSearchParams.toString()`: the pairs joined with `&`. */
  function Serialize(enc: string -> string, q: Query): (s: string)
    ensures s == "" <==> q == []
  {
    if q == [] then ""
    else if |q| == 1 then Pair(enc, q[0])
    else Pair(enc, q[0]) + "&" + Serialize(enc, q[1..])
  }

  /**
   * The `get` helper: without a parameter object the endpoint passes through;
   * otherwise `?` and the query are appended only when some parameter survives
   * the cleaning.
   */
  method HelperGet(enc: string -> string, endpoint: string, params: Option<Params>) returns (target: string)
    ensures params.None? ==> target == endpoint
    ensures params.Some? && (forall i :: 0 <= i < |params.value| ==> Nullish(params.value[i].1)) ==> target == endpoint
    ensures params.Some? && (exists i :: 0 <= i < |params.value| && !Nullish(params.value[i].1)) ==>
      target == endpoint + "?" + Serialize(enc, Cleaned(params.value))
  {
    if params.None? {
      return endpoint;
    }
    var clean := CleanParams(params.value);
    CleanedEmptyIff(params.value);
    var queryString := Serialize(enc, clean);
    target := endpoint + (if queryString != "" then "?" + queryString else "");
  }

  // ===== Policy endpoints: hand-built URLSearchParams =====
  // An omitted `params` object is the record whose fields are all None.

  function IntParam(x: Option<int>): Option<string> {
    if x.Some? then Some(IntToString(x.value)) else None
  }

  /** `params?.x` is truthy for a number: present and not 0. */
  predicate NumTruthy(x: Option<int>) { x.Some? && x.value != 0 }

  datatype PoliciesParams = PoliciesParams(page: Option<int>, size: Option<int>, sort: Option<string>)
  datatype RecommendedParams = RecommendedParams(
    age: Option<int>, regionCode: Option<string>, categoryId: Option<int>, page: Option<int>, size: Option<int>)
  datatype PopularParams = PopularParams(sortBy: Option<string>, page: Option<int>, size: Option<int>)
  datatype DeadlineParams = DeadlineParams(page: Option<int>, size: Option<int>)

  /** `getPolicies` appends `page`, `size`, `sort` when they are not undefined. */
  function PoliciesCandidates(p: PoliciesParams): Candidates {
    [("page", IntParam(p.page)), ("size", IntParam(p.size)), ("sort", p.sort)]
  }

  /**
   * `getRecommendedPolicies` appends `age`, `regionCode` and `categoryId` only
   * when truthy, `page` and `size` whenever they are not undefined.
   */
  function RecommendedCandidates(p: RecommendedParams): Candidates {
    [("age", if NumTruthy(p.age) then IntParam(p.age) else None),
     ("regionCode", if StrTruthy(p.regionCode) then p.regionCode else None),
     ("categoryId", if NumTruthy(p.categoryId) then IntParam(p.categoryId) else None),
     ("page", IntParam(p.page)), ("size", IntParam(p.size))]
  }

  /** `getPopularPolicies` appends `sortBy` when truthy, `page` and `size` when not undefined. */
  function PopularCandidates(p: PopularParams): Candidates {
    [("sortBy", if StrTruthy(p.sortBy) then p.sortBy else None), ("page", IntParam(p.page)), ("size", IntParam(p.size))]
  }

  /** `getDeadlineSoonPolicies` appends `page` and `size` when not undefined. */
  function DeadlineCandidates(p: DeadlineParams): Candidates {
    [("page", IntParam(p.page)), ("size", IntParam(p.size))]
  }

  /** The query of `getPolicies`; the path ends in `?` even when it is empty. */
  method GetPolicies(enc: string -> string, params: PoliciesParams) returns (q: Query, target: string)
    ensures q == Present(PoliciesCandidates(params))
    ensures target == "/api/v1/policies?" + Serialize(enc, q)
  {
    ghost var cs := PoliciesCandidates(params);
    q := [];
    if params.page.Some? { q := q + [("page", IntToString(params.page.value))]; }
    assert q == Present(cs[..1]);
    if params.size.Some? { q := q + [("size", IntToString(params.size.value))]; }
    assert cs[..2][..1] == cs[..1];
    assert q == Present(cs[..2]);
    if params.sort.Some? { q := q + [("sort", params.sort.value)]; }
    assert cs[..3] == cs && cs[..2] == cs[..3][..2];
    target := "/api/v1/policies?" + Serialize(enc, q);
  }

  /** The query of `getRecommendedPolicies`. */
  method GetRecommendedPolicies(enc: string -> string, params: RecommendedParams) returns (q: Query, target: string)
    ensures q == Present(RecommendedCandidates(params))
    ensures target == "/api/v1/policies/recommended?" + Serialize(enc, q)
  {
    ghost var cs := RecommendedCandidates(params);
    q := [];
    if NumTruthy(params.age) { q := q + [("age", IntToString(params.age.value))]; }
    assert q == Present(cs[..1]);
    if StrTruthy(params.regionCode) { q := q + [("regionCode", params.regionCode.value)]; }
    assert cs[..2][..1] == cs[..1];
    assert q == Present(cs[..2]);
    if NumTruthy(params.categoryId) { q := q + [("categoryId", IntToString(params.categoryId.value))]; }
    assert cs[..3][..2] == cs[..2];
    assert q == Present(cs[..3]);
    if params.page.Some? { q := q + [("page", IntToString(params.page.value))]; }
    assert cs[..4][..3] == cs[..3];
    assert q == Present(cs[..4]);
    if params.size.Some? { q := q + [("size", IntToString(params.size.value))]; }
    assert cs[..5] == cs && cs[..4] == cs[..5][..4];
    target := "/api/v1/policies/recommended?" + Serialize(enc, q);
  }

  /** The query of `getPopularPolicies`. */
  method GetPopularPolicies(enc: string -> string, params: PopularParams) returns (q: Query, target: string)
    ensures q == Present(PopularCandidates(params))
    ensures target == "/api/v1/policies/popular?" + Serialize(enc, q)
  {
    ghost var cs := PopularCandidates(params);
    q := [];
    if StrTruthy(params.sortBy) { q := q + [("sortBy", params.sortBy.value)]; }
    assert q == Present(cs[..1]);
    if params.page.Some? { q := q + [("page", IntToString(params.page.value))]; }
    assert cs[..2][..1] == cs[..1];
    assert q == Present(cs[..2]);
    if params.size.Some? { q := q + [("size", IntToString(params.size.value))]; }
    assert cs[..3] == cs && cs[..2] == cs[..3][..2];
    target := "/api/v1/policies/popular?" + Serialize(enc, q);
  }

  /** The query of `getDeadlineSoonPolicies`. */
  method GetDeadlineSoonPolicies(enc: string -> string, params: DeadlineParams) returns (q: Query, target: string)
    ensures q == Present(DeadlineCandidates(params))
    ensures target == "/api/v1/policies/deadline?" + Serialize(enc, q)
  {
    ghost var cs := DeadlineCandidates(params);
    q := [];
    if params.page.Some? { q := q + [("page", IntToString(params.page.value))]; }
    assert q == Present(cs[..1]);
    if params.size.Some? { q := q + [("size", IntToString(params.size.value))]; }
    assert cs[..2] == cs && cs[..1] == cs[..2][..1];
    target := "/api/v1/policies/deadline?" + Serialize(enc, q);
  }

  /** `getPolicies`: each parameter given is sent, as a decimal numeral for numbers, in a fixed order. */
  lemma PoliciesQuery(p: PoliciesParams)
    ensures var q := Present(PoliciesCandidates(p));
      && Selection.IsSubsequence(Keys(q), ["page", "size", "sort"])
      && Lookup(q, "page") == IntParam(p.page)
      && Lookup(q, "size") == IntParam(p.size)
      && Lookup(q, "sort") == p.sort
  {
    var cs := PoliciesCandidates(p);
    assert Keys(cs) == ["page", "size", "sort"];
    PresentInOrder(cs);
    PresentLookupAt(cs, 0);
    PresentLookupAt(cs, 1);
    PresentLookupAt(cs, 2);
  }

  /**
   * `getRecommendedPolicies`: an age or category of 0 and an empty region are
   * not sent, while a page or size of 0 is.
   */
  lemma RecommendedQuery(p: RecommendedParams)
    ensures var q := Present(RecommendedCandidates(p));
      && Selection.IsSubsequence(Keys(q), ["age", "regionCode", "categoryId", "page", "size"])
      && Lookup(q, "age") == (if NumTruthy(p.age) then IntParam(p.age) else None)
      && Lookup(q, "regionCode") == (if StrTruthy(p.regionCode) then p.regionCode else None)
      && Lookup(q, "categoryId") == (if NumTruthy(p.categoryId) then IntParam(p.categoryId) else None)
      && Lookup(q, "page") == IntParam(p.page)
      && Lookup(q, "size") == IntParam(p.size)
  {
    var cs := RecommendedCandidates(p);
    assert Keys(cs) == ["age", "regionCode", "categoryId", "page", "size"];
    assert "regionCode"[0] != "categoryId"[0];
    PresentInOrder(cs);
    PresentLookupAt(cs, 0);
    PresentLookupAt(cs, 1);
    PresentLookupAt(cs, 2);
    PresentLookupAt(cs, 3);
    PresentLookupAt(cs, 4);
  }

  /** `getPopularPolicies`: an empty `sortBy` is not sent. */
  lemma PopularQuery(p: PopularParams)
    ensures var q := Present(PopularCandidates(p));
      && Selection.IsSubsequence(Keys(q), ["sortBy", "page", "size"])
      && Lookup(q, "sortBy") == (if StrTruthy(p.sortBy) then p.sortBy else None)
      && Lookup(q, "page") == IntParam(p.page)
      && Lookup(q, "size") == IntParam(p.size)
  {
    var cs := PopularCandidates(p);
    assert Keys(cs) == ["sortBy", "page", "size"];
    PresentInOrder(cs);
    PresentLookupAt(cs, 0);
    PresentLookupAt(cs, 1);
    PresentLookupAt(cs, 2);
  }

  /** `getDeadlineSoonPolicies`: page then size, each when given. */
  lemma DeadlineQuery(p: DeadlineParams)
    ensures var q := Present(DeadlineCandidates(p));
      && Selection.IsSubsequence(Keys(q), ["page", "size"])
      && Lookup(q, "page") == IntParam(p.page)
      && Lookup(q, "size") == IntParam(p.size)
  {
    var cs := DeadlineCandidates(p);
    assert Keys(cs) == ["page", "size"];
    PresentInOrder(cs);
    PresentLookupAt(cs, 0);
    PresentLookupAt(cs, 1);
  }

  // ===== Headers =====

  const ContentType := "Content-Type"
  const Authorization := "Authorization"

  /** `getAuthHeaders`: JSON content type, and a bearer token when a non-empty one is stored. */
  function AuthHeaders(token: Option<string>): (h: map<string, string>)
    ensures ContentType in h && h[ContentType] == "application/json"
    ensures Authorization in h <==> StrTruthy(token)
    ensures Authorization in h ==> h[Authorization] == "Bearer " + token.value
    ensures forall k :: k in h ==> k == ContentType || k == Authorization
  {
    map[ContentType := "application/json"] +
      (if StrTruthy(token) then map[Authorization := "Bearer " + token.value] else map[])
  }

  /** `{ ...this.getAuthHeaders(), ...options.headers }`: the caller's headers win on a shared name. */
  function MergeHeaders(auth: map<string, string>, caller: map<string, string>): map<string, string> {
    auth + caller
  }

  /**
   * The headers of every request: the content type is JSON unless the caller
   * sets it, the bearer token is sent exactly when a non-empty one is stored
   * (or the caller supplies its own), and every caller header is sent as given.
   */
  lemma RequestHeaders(token: Option<string>, caller: map<string, string>)
    ensures var h := MergeHeaders(AuthHeaders(token), caller);
      && h.Keys == caller.Keys + {ContentType} + (if StrTruthy(token) then {Authorization} else {})
      && h[ContentType] == (if ContentType in caller then caller[ContentType] else "application/json")
      && (Authorization in h && Authorization !in caller ==> h[Authorization] == "Bearer " + token.value)
      && (forall k :: k in caller ==> h[k] == caller[k])
  {
    var a := AuthHeaders(token);
    assert a.Keys == {ContentType} + (if StrTruthy(token) then {Authorization} else {});
  }

  // ===== Requests and responses =====

  datatype HttpMethod = GET | POST | PUT | DELETE | PATCH

  datatype RequestOptions = RequestOptions(verb: HttpMethod, body: Option<JsValue>, headers: map<string, string>)

  /** What goes to `fetch`: the URL, the verb, the body (the value `JSON.stringify` encodes) and the headers. */
  datatype SentRequest = SentRequest(
    url: string, verb: HttpMethod, body: Option<JsValue>, headers: map<string, string>, credentials: string)

  /** What `fetch` and the body readers give back. */
  datatype FetchResult =
    /** `fetch` rejected; Some(message) when it threw an Error, None for any other thrown value. */
    | Rejected(thrownMessage: Option<string>)
    /** A response; `jsonError` is the message of the Error `response.json()` throws, if it throws. */
    | Response(status: int, statusText: string, bodyText: string, contentType: Option<string>, jsonError: Option<string>)

  datatype Body = JsonBody(json: string) | TextBody(text: string)

  /** `ApiResponse<T>`: `{ data?, error? }`. */
  datatype ApiResponse = ApiResponse(data: Option<Body>, error: Option<string>)

  /** `response.ok` */
  predicate IsOkStatus(status: int) { 200 <= status <= 299 }

  predicate IsUnauthorized(f: FetchResult) { f.Response? && f.status == 401 }

  predicate IsJson(contentType: Option<string>) {
    contentType.Some? && Contains(contentType.value, "application/json")
  }

  /** The message of a non-ok status other than 401. */
  function HttpErrorMessage(status: int, bodyText: string, statusText: string): string {
    "HTTP " + IntToString(status) + ": " + (if bodyText != "" then bodyText else statusText)
  }

  /** The chain of status branches in `request`, and its `catch`. */
  function Classify(f: FetchResult): (r: ApiResponse)
    ensures !(r.data.Some? && r.error.Some?)
    ensures r.data.None? && r.error.None? <==> f.Response? && f.status == 204
  {
    match f
    case Rejected(m) => ApiResponse(None, Some(m.GetOr("Network error")))
    case Response(status, statusText, bodyText, contentType, jsonError) =>
      if status == 401 then ApiResponse(None, Some("Authentication required"))
      else if !IsOkStatus(status) then ApiResponse(None, Some(HttpErrorMessage(status, bodyText, statusText)))
      else if status == 204 then ApiResponse(None, None)
      else if IsJson(contentType) then
        if jsonError.Some? then ApiResponse(None, Some(jsonError.value)) else ApiResponse(Some(JsonBody(bodyText)), None)
      else ApiResponse(Some(TextBody(bodyText)), None)
  }

  /**
   * When a call fails, and with which message: a 401 says authentication is
   * required, another non-ok status says `HTTP <status>: <body or status text>`,
   * a thrown Error gives its message and anything else thrown `Network error`.
   * An ok response other than 204 gives data unless its JSON body fails to parse.
   */
  lemma ClassifyError(f: FetchResult)
    ensures Classify(f).error.Some? <==>
      f.Rejected? || !IsOkStatus(f.status) || (f.status != 204 && IsJson(f.contentType) && f.jsonError.Some?)
    ensures IsUnauthorized(f) ==> Classify(f).error == Some("Authentication required")
    ensures f.Response? && f.status != 401 && !IsOkStatus(f.status) ==>
      Classify(f).error == Some(HttpErrorMessage(f.status, f.bodyText, f.statusText))
    ensures f.Rejected? ==> Classify(f).error == Some(if f.thrownMessage.Some? then f.thrownMessage.value else "Network error")
    ensures f.Response? && IsOkStatus(f.status) && f.status != 204 && !(IsJson(f.contentType) && f.jsonError.Some?) ==>
      Classify(f).data == Some(if IsJson(f.contentType) then JsonBody(f.bodyText) else TextBody(f.bodyText))
  {
  }

  /** `{ method }` for the verbs without a body. */
  function WithoutBody(verb: HttpMethod): RequestOptions {
    RequestOptions(verb, None, map[])
  }

  /** `{ method, body: data ? JSON.stringify(data) : undefined }` for POST, PUT and PATCH. */
  function WithBody(verb: HttpMethod, data: JsValue): (o: RequestOptions)
    ensures o.verb == verb && o.headers == map[]
    ensures o.body.Some? <==> Truthy(data)
    ensures o.body.Some? ==> o.body.value == data
  {
    RequestOptions(verb, if Truthy(data) then Some(data) else None, map[])
  }

  /** A falsy payload (undefined, null, false, 0, '') is sent as no body at all. */
  lemma FalsyPayloadSendsNoBody(verb: HttpMethod, data: JsValue)
    requires data in {Undefined, Null, Bool(false), Num(0), Str("")}
    ensures WithBody(verb, data).body.None?
  {
  }

  class ApiClient {
    const baseUrl: string
    const storage: LocalStorage

    constructor (baseUrl: string, storage: LocalStorage)
      ensures this.baseUrl == baseUrl && this.storage == storage
    {
      this.baseUrl := baseUrl;
      this.storage := storage;
    }

    /**
     * `request`: one call to `fetch` with the merged headers, then the status
     * classification; a 401 removes both stored credentials and reloads the page.
     */
    method Request(endpoint: string, options: RequestOptions, fetched: FetchResult)
      returns (response: ApiResponse, sent: SentRequest, reloaded: bool)
      modifies storage
      ensures sent == SentRequest(baseUrl + endpoint, options.verb, options.body,
        MergeHeaders(AuthHeaders(old(storage.GetItem(TokenKey))), options.headers), "include")
      ensures response == Classify(fetched)
      ensures reloaded <==> IsUnauthorized(fetched)
      ensures storage.items == if reloaded then old(storage.items) - {TokenKey, UserIdKey} else old(storage.items)
    {
      var token := storage.GetItem(TokenKey);
      sent := SentRequest(baseUrl + endpoint, options.verb, options.body,
        MergeHeaders(AuthHeaders(token), options.headers), "include");
      reloaded := false;
      if IsUnauthorized(fetched) {
        storage.RemoveItem(TokenKey);
        storage.RemoveItem(UserIdKey);
        reloaded := true;
      }
      response := Classify(fetched);
    }

    method Get(endpoint: string, fetched: FetchResult) returns (response: ApiResponse, sent: SentRequest, reloaded: bool)
      modifies storage
      ensures sent == SentRequest(baseUrl + endpoint, GET, None, AuthHeaders(old(storage.GetItem(TokenKey))), "include")
      ensures response == Classify(fetched) && (reloaded <==> IsUnauthorized(fetched))
      ensures storage.items == if reloaded then old(storage.items) - {TokenKey, UserIdKey} else old(storage.items)
    {
      response, sent, reloaded := Request(endpoint, WithoutBody(GET), fetched);
      assert MergeHeaders(AuthHeaders(old(storage.GetItem(TokenKey))), map[]) == AuthHeaders(old(storage.GetItem(TokenKey)));
    }

    method Delete(endpoint: string, fetched: FetchResult) returns (response: ApiResponse, sent: SentRequest, reloaded: bool)
      modifies storage
      ensures sent == SentRequest(baseUrl + endpoint, DELETE, None, AuthHeaders(old(storage.GetItem(TokenKey))), "include")
      ensures response == Classify(fetched) && (reloaded <==> IsUnauthorized(fetched))
      ensures storage.items == if reloaded then old(storage.items) - {TokenKey, UserIdKey} else old(storage.items)
    {
      response, sent, reloaded := Request(endpoint, WithoutBody(DELETE), fetched);
      assert MergeHeaders(AuthHeaders(old(storage.GetItem(TokenKey))), map[]) == AuthHeaders(old(storage.GetItem(TokenKey)));
    }

    method Post(endpoint: string, data: JsValue, fetched: FetchResult) returns (response: ApiResponse, sent: SentRequest, reloaded: bool)
      modifies storage
      ensures sent == SentRequest(baseUrl + endpoint, POST, if Truthy(data) then Some(data) else None,
        AuthHeaders(old(storage.GetItem(TokenKey))), "include")
      ensures response == Classify(fetched) && (reloaded <==> IsUnauthorized(fetched))
      ensures storage.items == if reloaded then old(storage.items) - {TokenKey, UserIdKey} else old(storage.items)
    {
      response, sent, reloaded := Request(endpoint, WithBody(POST, data), fetched);
      assert MergeHeaders(AuthHeaders(old(storage.GetItem(TokenKey))), map[]) == AuthHeaders(old(storage.GetItem(TokenKey)));
    }

    method Put(endpoint: string, data: JsValue, fetched: FetchResult) returns (response: ApiResponse, sent: SentRequest, reloaded: bool)
      modifies storage
      ensures sent == SentRequest(baseUrl + endpoint, PUT, if Truthy(data) then Some(data) else None,
        AuthHeaders(old(storage.GetItem(TokenKey))), "include")
      ensures response == Classify(fetched) && (reloaded <==> IsUnauthorized(fetched))
      ensures storage.items == if reloaded then old(storage.items) - {TokenKey, UserIdKey} else old(storage.items)
    {
      response, sent, reloaded := Request(endpoint, WithBody(PUT, data), fetched);
      assert MergeHeaders(AuthHeaders(old(storage.GetItem(TokenKey))), map[]) == AuthHeaders(old(storage.GetItem(TokenKey)));
    }

    method Patch(endpoint: string, data: JsValue, fetched: FetchResult) returns (response: ApiResponse, sent: SentRequest, reloaded: bool)
      modifies storage
      ensures sent == SentRequest(baseUrl + endpoint, PATCH, if Truthy(data) then Some(data) else None,
        AuthHeaders(old(storage.GetItem(TokenKey))), "include")
      ensures response == Classify(fetched) && (reloaded <==> IsUnauthorized(fetched))
      ensures storage.items == if reloaded then old(storage.items) - {TokenKey, UserIdKey} else old(storage.items)
    {
      response, sent, reloaded := Request(endpoint, WithBody(PATCH, data), fetched);
      assert MergeHeaders(AuthHeaders(old(storage.GetItem(TokenKey))), map[]) == AuthHeaders(old(storage.GetItem(TokenKey)));
    }
  }
}
