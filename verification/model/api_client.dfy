/** The request interceptor of services/api.js. */
module ApiClient {
  import opened Wrappers
  import opened Browser

  const AUTHORIZATION: string := "Authorization"

  /** The request config object axios hands to an interceptor. */
  class RequestConfig {
    var verb: string
    var url: string
    var headers: map<string, string>

    constructor (verb: string, url: string, headers: map<string, string>)
      ensures this.verb == verb && this.url == url && this.headers == headers
    {
      this.verb := verb;
      this.url := url;
      this.headers := headers;
    }
  }

  /** The headers a request leaves with, given the headers it had and the stored items. */
  function WithAuthorization(headers: map<string, string>, items: map<string, string>): (h: map<string, string>)
    ensures ACCESS_TOKEN in items && items[ACCESS_TOKEN] != "" ==>
      h == headers[AUTHORIZATION := "Bearer " + items[ACCESS_TOKEN]]
    ensures !(ACCESS_TOKEN in items && items[ACCESS_TOKEN] != "") ==> h == headers
  {
    var token := if ACCESS_TOKEN in items then Some(items[ACCESS_TOKEN]) else None;
    if IsTruthy(token) then headers[AUTHORIZATION := "Bearer " + token.value] else headers
  }

  /**
   * The interceptor: reads the access token on every request and, when it is
   * truthy, sets the bearer header on the same config object, which it returns.
   */
  method Intercept(config: RequestConfig, storage: LocalStorage) returns (out: RequestConfig)
    modifies config
    ensures out == config
    ensures config.headers == WithAuthorization(old(config.headers), storage.items)
    ensures config.verb == old(config.verb) && config.url == old(config.url)
  {
    var token := storage.GetItem(ACCESS_TOKEN);
    if IsTruthy(token) {
      config.headers := config.headers[AUTHORIZATION := "Bearer " + token.value];
    }
    out := config;
  }

  /** Only the `Authorization` entry can change, and it is only ever set, never removed. */
  lemma OnlyAuthorizationChanges(headers: map<string, string>, items: map<string, string>, name: string)
    requires name != AUTHORIZATION
    ensures name in WithAuthorization(headers, items) <==> name in headers
    ensures name in headers ==> WithAuthorization(headers, items)[name] == headers[name]
    ensures WithAuthorization(headers, items).Keys >= headers.Keys
  {
  }

  /** Once the access token has been removed, requests carry no header the caller did not set. */
  lemma NoTokenNoHeader(headers: map<string, string>, items: map<string, string>)
    requires ACCESS_TOKEN !in items
    ensures WithAuthorization(headers, items) == headers
    ensures AUTHORIZATION !in headers ==> AUTHORIZATION !in WithAuthorization(headers, items)
  {
  }
}
