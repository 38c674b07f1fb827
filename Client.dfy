/** The API client of diveharder/api_client.py: its retry policy and identification headers as
    configuration values, the session it sets up, and the process-wide get-or-create instance. */
module Client {
  import opened Models

  /** The settings handed to `Retry`. */
  datatype RetryPolicy = RetryPolicy(
    total: int, statusForcelist: seq<int>, backoffFactor: real, allowedMethods: seq<string>)

  /** An `HTTPAdapter` is modelled by the retry policy it carries. */
  datatype HttpAdapter = HttpAdapter(maxRetries: RetryPolicy)

  const TooManyRequests: int := 429

  /** `retry_adapter`: retries GET only, on 429 followed by the extra codes in their order. */
  function RetryAdapter(backoffFactor: real, retries: int, extraRetryCodes: seq<int>): (a: HttpAdapter)
    ensures var codes := a.maxRetries.statusForcelist;
      && |codes| == |extraRetryCodes| + 1
      && codes[0] == TooManyRequests
      && (forall i :: 0 <= i < |extraRetryCodes| ==> codes[i + 1] == extraRetryCodes[i])
    ensures a.maxRetries.total == retries && a.maxRetries.backoffFactor == backoffFactor
    ensures a.maxRetries.allowedMethods == ["GET"]
  {
    HttpAdapter(RetryPolicy(retries, [TooManyRequests] + extraRetryCodes, backoffFactor, ["GET"]))
  }

  /** Every code the caller adds is retried, and so is 429. */
  lemma RetriedCodes(backoffFactor: real, retries: int, extraRetryCodes: seq<int>, c: int)
    ensures c in RetryAdapter(backoffFactor, retries, extraRetryCodes).maxRetries.statusForcelist
      <==> c == TooManyRequests || c in extraRetryCodes
  {
    var codes := RetryAdapter(backoffFactor, retries, extraRetryCodes).maxRetries.statusForcelist;
    assert codes[1..] == extraRetryCodes;
  }

  const UserAgentHeader: string := "User-Agent"
  const ClientHeader: string := "X-Super-Client"
  const ContactHeader: string := "X-Super-Contact"

  /** The three identification headers `_setup_session` adds to the session. */
  function IdentificationHeaders(userAgent: string, userContact: string): (h: map<string, string>)
    ensures h.Keys == {UserAgentHeader, ClientHeader, ContactHeader}
    ensures h[UserAgentHeader] == userAgent && h[ClientHeader] == userAgent
    ensures h[ContactHeader] == userContact
  {
    map[UserAgentHeader := userAgent, ClientHeader := userAgent, ContactHeader := userContact]
  }

  const HttpsPrefix: string := "https://"
  const HttpPrefix: string := "http://"

  /** The adapter both prefixes get: backoff 0.2, 5 retries, no extra codes. */
  function SessionAdapter(): (a: HttpAdapter)
    ensures a.maxRetries.statusForcelist == [TooManyRequests]
    ensures a.maxRetries.total == 5 && a.maxRetries.backoffFactor == 0.2
  {
    RetryAdapter(0.2, 5, [])
  }

  /** The adapters `_setup_session` mounts: https always, http only in debug mode. */
  function MountedAdapters(debug: bool): (m: map<string, HttpAdapter>)
    ensures HttpsPrefix in m && m[HttpsPrefix] == SessionAdapter()
    ensures HttpPrefix in m <==> debug
    ensures debug ==> m[HttpPrefix] == SessionAdapter()
    ensures m.Keys <= {HttpsPrefix, HttpPrefix}
  {
    var https := map[HttpsPrefix := SessionAdapter()];
    if debug then https[HttpPrefix := SessionAdapter()] else https
  }

  /** The part of a `requests.Session` this client configures: its header dictionary and its
      prefix-to-adapter table. */
  class Session {
    var headers: map<string, string>
    var adapters: map<string, HttpAdapter>

    constructor ()
      ensures headers == map[] && adapters == map[]
    {
      headers, adapters := map[], map[];
    }

    /** `headers.update(h)`: the entries of h are added, replacing equal keys. */
    method UpdateHeaders(h: map<string, string>)
      modifies this
      ensures headers == old(headers) + h && adapters == old(adapters)
    {
      headers := headers + h;
    }

    /** `mount(prefix, adapter)` */
    method Mount(prefix: string, a: HttpAdapter)
      modifies this
      ensures adapters == old(adapters)[prefix := a] && headers == old(headers)
    {
      adapters := adapters[prefix := a];
    }
  }

  /** `ApiClient`: its configuration and its session. */
  class ApiClient {
    var debug: bool
    var apiConfig: ApiUrlConfiguration
    var userContact: string
    var userAgent: string
    var session: Session

    /** `__init__` */
    constructor (userAgent: string, userContact: string, debug: bool, diveharderUrl: string, communityUrl: string)
      ensures this.debug == debug && apiConfig == ApiUrlConfiguration(diveharderUrl, communityUrl)
      ensures this.userContact == userContact && this.userAgent == userAgent
      ensures fresh(session)
      ensures session.headers == IdentificationHeaders(userAgent, userContact)
      ensures session.adapters == MountedAdapters(debug)
    {
      this.debug := debug;
      apiConfig := ApiUrlConfiguration(diveharderUrl, communityUrl);
      this.userContact, this.userAgent := userContact, userAgent;
      session := new Session();
      new;
      SetupSession();
    }

    /** `_setup_session`: a new session carrying the identification headers and the mounted adapters. */
    method SetupSession()
      modifies this
      ensures debug == old(debug) && apiConfig == old(apiConfig)
      ensures userContact == old(userContact) && userAgent == old(userAgent)
      ensures fresh(session)
      ensures session.headers == IdentificationHeaders(userAgent, userContact)
      ensures session.adapters == MountedAdapters(debug)
    {
      var s := new Session();
      s.UpdateHeaders(map[UserAgentHeader := userAgent, ClientHeader := userAgent, ContactHeader := userContact]);
      s.Mount(HttpsPrefix, RetryAdapter(0.2, 5, []));
      if debug {
        s.Mount(HttpPrefix, RetryAdapter(0.2, 5, []));
      }
      session := s;
    }
  }

  /** The class-level `_instance` slot of `ApiClient`: absent, or holding the one instance. */
  class ClientRegistry {
    var instance: ApiClient?

    /** The class as defined: `_instance = None`. */
    constructor ()
      ensures instance == null
    {
      instance := null;
    }

    /** `get_client` */
    method GetClient() returns (c: ApiClient?)
      ensures c == instance
    {
      c := instance;
    }

    /** `ApiClient(...)` through `__new__`: the first call builds and stores the instance from its
        arguments; every later call returns that same object. What the re-run of `__init__` does to
        the existing object's fields is not modelled, so nothing is promised about them. */
    method New(userAgent: string, userContact: string, debug: bool, diveharderUrl: string, communityUrl: string)
      returns (c: ApiClient)
      modifies this, instance
      ensures instance == c
      ensures old(instance) != null ==> c == old(instance)
      ensures old(instance) == null ==> fresh(c) && fresh(c.session)
      ensures old(instance) == null ==>
        && c.userAgent == userAgent && c.userContact == userContact && c.debug == debug
        && c.apiConfig == ApiUrlConfiguration(diveharderUrl, communityUrl)
        && c.session.headers == IdentificationHeaders(userAgent, userContact)
        && c.session.adapters == MountedAdapters(debug)
    {
      if instance == null {
        instance := new ApiClient(userAgent, userContact, debug, diveharderUrl, communityUrl);
      }
      c := instance;
    }

    /** Two constructions in a row, with any arguments, yield one object, which is then the stored one. */
    method ConstructTwice(
      userAgent: string, userContact: string, debug: bool, diveharderUrl: string, communityUrl: string,
      userAgent': string, userContact': string, debug': bool, diveharderUrl': string, communityUrl': string)
      returns (first: ApiClient, second: ApiClient)
      modifies this, instance
      ensures first == second && instance == first
      ensures old(instance) != null ==> first == old(instance)
    {
      first := New(userAgent, userContact, debug, diveharderUrl, communityUrl);
      second := New(userAgent', userContact', debug', diveharderUrl', communityUrl');
    }
  }
}
