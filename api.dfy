/** API configuration (src/config/api.js): the endpoint table, URL templating and
    the default request headers. */
module Api {
  import opened Common
  import opened Text

  /** The application ships in mock mode. */
  const USE_MOCK_SERVICES := true
  /** The base URL used when no environment override is given. */
  const DEFAULT_BASE_URL := "http://localhost:5000"

  const AUTH_LOGIN := "/api/auth/login"
  const AUTH_REGISTER := "/api/auth/register"
  const AUTH_PROFILE := "/api/auth/profile"
  const AUTH_LOGOUT := "/api/auth/logout"
  const MEDICINES_LIST := "/api/medicines"
  const MEDICINES_DETAIL := "/api/medicines/:id"
  const MEDICINES_CATEGORIES := "/api/medicines/categories"
  const MEDICINES_SEARCH := "/api/medicines/search"
  const CART_GET := "/api/cart"
  const CART_ADD := "/api/cart"
  const CART_UPDATE := "/api/cart/:id"
  const CART_REMOVE := "/api/cart/:id"
  const CART_CLEAR := "/api/cart"
  const ORDERS_LIST := "/api/orders"
  const ORDERS_DETAIL := "/api/orders/:id"
  const ORDERS_CREATE := "/api/orders"
  const ORDERS_CANCEL := "/api/orders/:id/cancel"
  const PHARMACIES_LIST := "/api/pharmacies"
  const PHARMACIES_DETAIL := "/api/pharmacies/:id"
  const PHARMACIES_NEARBY := "/api/pharmacies/nearby"

  /** `s.replace(pat, v)` with a string pattern: only the first occurrence is replaced. */
  function ReplaceFirst(s: string, pat: string, v: string): (r: string)
    ensures IndexOf(s, pat).None? ==> r == s
    ensures IndexOf(s, pat).Some? ==> |r| == |s| - |pat| + |v|
    ensures IndexOf(s, pat).Some? ==>
      var i := IndexOf(s, pat).value;
      && r[..i] == s[..i]
      && r[i..i + |v|] == v
      && r[i + |v|..] == s[i + |pat|..]
  {
    match IndexOf(s, pat)
      case None => s
      case Some(i) => s[..i] + v + s[i + |pat|..]
  }

  /** The URL after substituting each `(key, value)` in turn, first to last. */
  function Substitute(url: string, params: seq<(string, string)>): string
    decreases |params|
  {
    if params == [] then url
    else Substitute(ReplaceFirst(url, ":" + params[0].0, params[0].1), params[1..])
  }

  /** `buildApiUrl(endpoint, params)`, with the configuration passed in: replaces
      the first `:key` of each parameter in order, then prefixes the base URL
      unless mock services are in use. */
  method BuildApiUrl(endpoint: string, params: seq<(string, string)>, useMock: bool, baseUrl: string)
    returns (url: string)
    ensures useMock ==> url == Substitute(endpoint, params)
    ensures !useMock ==> url == baseUrl + Substitute(endpoint, params)
  {
    url := endpoint;
    var i := 0;
    while i < |params|
      invariant 0 <= i <= |params|
      invariant Substitute(url, params[i..]) == Substitute(endpoint, params)
    {
      assert params[i..][1..] == params[i + 1..];
      url := ReplaceFirst(url, ":" + params[i].0, params[i].1);
      i := i + 1;
    }
    if !useMock {
      url := baseUrl + url;
    }
  }

  /** With no parameters the endpoint comes back unchanged, and in mock mode
      that is the whole URL. */
  lemma SubstituteNoParams(endpoint: string)
    ensures Substitute(endpoint, []) == endpoint
  {
  }

  /** An endpoint that holds none of the parameters' `:key` placeholders is
      unchanged whatever their values. */
  lemma {:induction false} SubstituteWithoutPlaceholder(endpoint: string, params: seq<(string, string)>)
    requires forall k :: 0 <= k < |params| ==> !Includes(endpoint, ":" + params[k].0)
    ensures Substitute(endpoint, params) == endpoint
    decreases |params|
  {
    if params != [] {
      assert !Includes(endpoint, ":" + params[0].0);
      assert ReplaceFirst(endpoint, ":" + params[0].0, params[0].1) == endpoint;
      forall k | 0 <= k < |params[1..]|
        ensures !Includes(endpoint, ":" + params[1..][k].0)
      {
        assert params[1..][k] == params[k + 1];
      }
      SubstituteWithoutPlaceholder(endpoint, params[1..]);
    }
  }

  /** In particular an endpoint without any ':' is unchanged. */
  lemma SubstituteWithoutColon(endpoint: string, params: seq<(string, string)>)
    requires !Includes(endpoint, ":")
    ensures Substitute(endpoint, params) == endpoint
  {
    forall k | 0 <= k < |params|
      ensures !Includes(endpoint, ":" + params[k].0)
    {
      var pat := ":" + params[k].0;
      if IndexOf(endpoint, pat).Some? {
        var i := IndexOf(endpoint, pat).value;
        assert OccursAt(endpoint, pat, i);
        assert pat[0] == ':';
        assert endpoint[i..i + |pat|][0] == ':';
        assert OccursAt(endpoint, ":", i);
      }
    }
    SubstituteWithoutPlaceholder(endpoint, params);
  }

  /** A single `:key` placeholder is replaced by the value, the rest kept around it. */
  lemma SubstituteOne(before: string, key: string, after: string, value: string)
    requires !Includes(before, ":")
    ensures Substitute(before + ":" + key + after, [(key, value)]) == before + value + after
  {
    var s := before + ":" + key + after;
    var pat := ":" + key;
    assert s[|before|..|before| + |pat|] == pat;
    forall j | 0 <= j < |before|
      ensures s[j] != pat[0]
    {
      assert s[j] == before[j];
      CharNotIncluded(before, ':', j);
    }
    FirstOccurrence(s, pat, |before|);
    assert s[..|before|] == before;
    assert s[|before| + |pat|..] == after;
  }

  /** The cancel endpoint's text before its placeholder holds no ':'. */
  lemma CancelPrefixPlain()
    ensures !Includes("/api/orders/", ":")
  {
    assert forall k :: 0 <= k < |"/api/orders/"| ==> "/api/orders/"[k] != ':';
    NotIncludesChar("/api/orders/", ':');
  }

  /** The cancel endpoint is "/api/orders/", the `:id` placeholder and "/cancel". */
  lemma CancelTemplate()
    ensures ORDERS_CANCEL == "/api/orders/" + ":" + "id" + "/cancel"
  {
  }

  lemma SubstituteCancel(id: string)
    ensures Substitute("/api/orders/" + ":" + "id" + "/cancel", [("id", id)])
         == "/api/orders/" + id + "/cancel"
  {
    CancelPrefixPlain();
    SubstituteOne("/api/orders/", "id", "/cancel", id);
  }

  /** The cancel endpoint with an order id: "/api/orders/" + id + "/cancel". */
  lemma CancelUrl(id: string)
    ensures Substitute(ORDERS_CANCEL, [("id", id)]) == "/api/orders/" + id + "/cancel"
  {
    CancelTemplate();
    SubstituteCancel(id);
  }

  /** `getDefaultHeaders(token)`: JSON content type always; a bearer
      authorisation header exactly when the token is truthy. */
  method GetDefaultHeaders(token: Option<string>) returns (headers: map<string, string>)
    ensures "Content-Type" in headers && headers["Content-Type"] == "application/json"
    ensures "Authorization" in headers <==> token.Some? && token.value != ""
    ensures "Authorization" in headers ==> headers["Authorization"] == "Bearer " + token.value
    ensures headers.Keys <= {"Content-Type", "Authorization"}
  {
    headers := map["Content-Type" := "application/json"];
    if token.Some? && token.value != "" {
      headers := headers["Authorization" := "Bearer " + token.value];
    }
  }
}
