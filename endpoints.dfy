/** Base-URL normalisation and the three control-plane endpoints. */
module Endpoints {

  predicate EndsWith(s: string, suffix: string) {
    |suffix| <= |s| && s[|s| - |suffix|..] == suffix
  }

  predicate EndsWithSlash(s: string) {
    EndsWith(s, "/")
  }

  /** Normalises a base URL so that relative paths can be appended: the
      result is the shortest extension of `url` that ends in a slash. */
  function UrlEndsWithSlash(url: string): (r: string)
    ensures url <= r && EndsWithSlash(r)
    ensures forall t :: url <= t && EndsWithSlash(t) ==> |r| <= |t|
    ensures EndsWithSlash(url) ==> r == url
  {
    if EndsWithSlash(url) then url else url + "/"
  }

  lemma UrlEndsWithSlashIdempotent(url: string)
    ensures UrlEndsWithSlash(UrlEndsWithSlash(url)) == UrlEndsWithSlash(url)
  {
  }

  /** The three properties of `UrlEndsWithSlash` determine its result. */
  lemma UrlEndsWithSlashUnique(url: string, r: string)
    requires url <= r && EndsWithSlash(r)
    requires |r| <= |UrlEndsWithSlash(url)|
    ensures r == UrlEndsWithSlash(url)
  {
  }

  /** The control-plane operations the client calls. */
  datatype Api = Negotiate | Broadcast | GroupAction

  /** The relative path of an operation: one segment below `api/`. */
  function Path(api: Api): (p: string)
    ensures "api/" <= p && |p| > |"api/"|
    ensures forall i :: |"api/"| <= i < |p| ==> p[i] != '/'
    ensures (api == Negotiate <==> p == "api/negotiate") && (api == Broadcast <==> p == "api/broadcast")
    ensures api == GroupAction <==> p == "api/groupaction"
  {
    match api
    case Negotiate => "api/negotiate"
    case Broadcast => "api/broadcast"
    case GroupAction => "api/groupaction"
  }

  /** The URL of an operation below the stored (normalised) base URL. */
  function Url(baseAzureFunctionUrl: string, api: Api): (r: string)
    ensures baseAzureFunctionUrl <= r && |r| == |baseAzureFunctionUrl| + |Path(api)|
    ensures EndsWith(r, Path(api))
  {
    assert (baseAzureFunctionUrl + Path(api))[|baseAzureFunctionUrl|..] == Path(api);
    baseAzureFunctionUrl + Path(api)
  }

  /** For a client configured with `azureFunctionUrl`, every endpoint keeps
      that URL as a prefix and ends in `/api/<operation>`. */
  lemma UrlOfConfiguredBase(azureFunctionUrl: string, api: Api)
    ensures azureFunctionUrl <= Url(UrlEndsWithSlash(azureFunctionUrl), api)
    ensures EndsWith(Url(UrlEndsWithSlash(azureFunctionUrl), api), "/" + Path(api))
  {
    var b := UrlEndsWithSlash(azureFunctionUrl);
    var r := Url(b, api);
    assert b[|b| - 1..][0] == b[|b| - 1] == '/';
    assert r == b + Path(api);
    assert r[|b| - 1..] == [b[|b| - 1]] + Path(api);
  }

  /** Distinct operations have distinct URLs below the same base. */
  lemma UrlInjective(baseAzureFunctionUrl: string, a: Api, b: Api)
    ensures Url(baseAzureFunctionUrl, a) == Url(baseAzureFunctionUrl, b) <==> a == b
  {
  }
}
