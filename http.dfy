/**
 * What the Grocy and Paperless clients share: the base URL with its trailing
 * slashes removed, the request URL `base + "/api" + endpoint`, the requests
 * they send and the three kinds of answer `_request` hands back.
 */
module Http {
  import opened Text

  /**
   * What `_request` returns: `None` after a request or decoding error
   * (`Failed`), `{}` for a 204 reply or an empty JSON object (`NoContent`),
   * or a decoded body. A `Body` of an object type stands for a non-empty
   * object; a `Body` of a list may be the empty list.
   */
  datatype Reply<T> = Failed | NoContent | Body(value: T) {

    /** `result is not None` */
    predicate IsNotNone() { !Failed? }

    /** Python truthiness of an object reply: `None` and `{}` are false. */
    predicate Truthy() { Body? }
  }

  /** Python truthiness of a list reply: `None`, `{}` and `[]` are false. */
  predicate ListTruthy<T>(r: Reply<seq<T>>) {
    r.Body? && |r.value| > 0
  }

  /** A request as it leaves the client: the verb, the full URL and the JSON body, if any. */
  datatype Request<J> =
    | Get(url: string)
    | Put(url: string, json: J)
    | Post(url: string, json: J)
    | Patch(url: string, json: J)

  /** `base_url.rstrip('/')`: the longest prefix not ending in `/`, with only slashes removed. */
  function BaseUrl(url: string): (r: string)
    ensures |r| <= |url| && url[..|r|] == r
    ensures forall k :: |r| <= k < |url| ==> url[k] == '/'
    ensures r == [] || r[|r| - 1] != '/'
  {
    RStripChar(url, '/')
  }

  /** `f"{self.base_url}/api{endpoint}"` */
  function ApiUrl(base: string, endpoint: string): string {
    base + "/api" + endpoint
  }

  /** Any number of trailing slashes on the configured URL gives the same base, so `/api` follows exactly one slash added by the client. */
  lemma {:induction false} BaseUrlIgnoresSlashes(url: string, n: nat)
    ensures BaseUrl(url + seq(n, _ => '/')) == BaseUrl(url)
  {
    var s := url + seq(n, _ => '/');
    if n == 0 {
      assert s == url;
    } else {
      assert s[|s| - 1] == '/';
      assert s[..|s| - 1] == url + seq(n - 1, _ => '/');
      BaseUrlIgnoresSlashes(url, n - 1);
    }
  }

  /** Stripping the base a second time changes nothing. */
  lemma BaseUrlIdempotent(url: string)
    ensures BaseUrl(BaseUrl(url)) == BaseUrl(url)
  {
  }

  /** The request URL is the stripped base, then `/api`, then the endpoint, whatever slashes the configured URL ends with. */
  lemma RequestUrl(url: string, n: nat, endpoint: string)
    ensures var u := ApiUrl(BaseUrl(url + seq(n, _ => '/')), endpoint);
      var b := BaseUrl(url);
      && |b| <= |u| && u[..|b|] == b
      && u[|b|..] == "/api" + endpoint
  {
    BaseUrlIgnoresSlashes(url, n);
  }
}
