/** DelegationTokenHandler: acquiring, renewing and cancelling an ADL
    delegation token against the credential service.

    Every effect the Java code performs is an oracle in `Host`: who the current
    user is, whether a Kerberos relogin succeeds, the local host name and the
    three authenticated network calls.  The methods change nothing; they return
    the outcome together with the trace of the effects they performed, in
    order. */
module DelegationTokenHandler {
  import opened Wrappers
  import opened HadoopTypes

  const DEFAULT_DELEGATION_MANAGER_ENDPOINT: string := "/tokenmanager/v1"
  const DEFAULT_CRED_SERVICE_PORT: nat := 50911

  /** AdlConfKeys.KEY_CRED_SERVICE_URL.  AdlConfKeys is not part of this
      model, so the key's spelling is left open: every result holds for any key. */
  const KEY_CRED_SERVICE_URL: string

  /** DelegationTokenAuthenticatedURL.Token: the authentication state handed to
      the network call, here only the delegation token it may carry. */
  datatype AuthUrlToken = AuthUrlToken(delegationToken: Option<Token>)

  /** new DelegationTokenAuthenticatedURL.Token(): carries no delegation token. */
  const EmptyAuthUrlToken: AuthUrlToken := AuthUrlToken(None)

  /** createAuthUrlToken: a fresh authentication token carrying `token`. */
  function CreateAuthUrlToken(token: Token): (t: AuthUrlToken)
    ensures t.delegationToken == Some(token)
    ensures t != EmptyAuthUrlToken
  {
    AuthUrlToken(Some(token))
  }

  /** The effects doConnected and its actions depend on.  The network calls
      take, first, the identity the call runs as (ugi.doAs); then the service
      URL, the authentication token, (for getDelegationToken) the renewer, and
      the proxy-user name.  A failure stands for any exception the call throws,
      including a malformed URL. */
  datatype Host = Host(
    currentUser: Result<Identity, Throwable>,
    relogin: Identity -> Option<Throwable>,
    localHost: Result<string, Throwable>,
    getDelegationToken: (Identity, string, AuthUrlToken, string, Option<string>) -> Result<Token, Throwable>,
    renewDelegationToken: (Identity, string, AuthUrlToken, Option<string>) -> Result<int, Throwable>,
    cancelDelegationToken: (Identity, string, AuthUrlToken, Option<string>) -> Result<(), Throwable>)

  /** One effect performed by doConnected, in the order performed. */
  datatype Event =
    | GetCurrentUser                 // UserGroupInformation.getCurrentUser()
    | Relogin(identity: Identity)    // identity.checkTGTAndReloginFromKeytab()
    | LookUpLocalHost                // InetAddress.getLocalHost().getCanonicalHostName()
    | ConfGet(key: string)           // conf.get(key, default)
    | SupplyAuthToken                // tokenSupplier.get()
    | Handle(runAs: Identity, authToken: AuthUrlToken, serviceUrl: string, proxyUser: Option<string>)
                                     // action.handle(...)

  /** What doConnected has assembled when it hands over to the action. */
  datatype ConnectContext = ConnectContext(connectUgi: Identity, proxyUser: Option<string>, serviceUrl: string)

  /** The identity doConnected connects as: the real user if there is one,
      otherwise the current user itself. */
  function ConnectUgiOf(ugi: Identity): (c: Identity)
    ensures ugi.realUser.Some? ==> c == ugi.realUser.value
    ensures ugi.realUser.None? <==> c == ugi
  {
    match ugi.realUser
    case Some(realUser) => realUser
    case None => ugi
  }

  /** The proxy-user name doConnected presents: the short name of the real
      user (not of the current user) when there is one, otherwise none. */
  function ProxyUserOf(ugi: Identity): (p: Option<string>)
    ensures p.Some? <==> ugi.realUser.Some?
    ensures p.Some? ==> p.value == ConnectUgiOf(ugi).shortUserName && ConnectUgiOf(ugi) != ugi
  {
    match ugi.realUser
    case Some(realUser) => Some(realUser.shortUserName)
    case None => None
  }

  // ---------------------------------------------------------------------
  // Decimal rendering of the default port (String.format's %s of an int)

  predicate IsDecimal(s: string) {
    forall i :: 0 <= i < |s| ==> '0' <= s[i] <= '9'
  }

  function DigitChar(d: nat): (c: char)
    requires d < 10
    ensures '0' <= c <= '9' && (c as int) - ('0' as int) == d
  {
    (('0' as int) + d) as char
  }

  /** The number a string of decimal digits denotes. */
  function DecimalValue(s: string): nat
    requires IsDecimal(s)
  {
    if s == [] then 0 else 10 * DecimalValue(s[..|s| - 1]) + ((s[|s| - 1] as int) - ('0' as int))
  }

  /** Integer.toString of a non-negative number: a non-empty string of
      decimal digits, with no leading zero, that reads back as the number. */
  function DecimalString(n: nat): (s: string)
    ensures |s| > 0 && IsDecimal(s) && DecimalValue(s) == n
    ensures |s| == 1 || s[0] != '0'
  {
    if n < 10 then [DigitChar(n)]
    else
      var prefix := DecimalString(n / 10);
      var s := prefix + [DigitChar(n % 10)];
      assert s[..|s| - 1] == prefix;
      s
  }

  /** The default port renders as the five digits of DEFAULT_CRED_SERVICE_PORT. */
  lemma DefaultPortString()
    ensures DecimalString(DEFAULT_CRED_SERVICE_PORT) == "50911"
  {
    assert DecimalString(5) == "5";
    assert DecimalString(50) == DecimalString(5) + "0" == "50";
    assert DecimalString(509) == DecimalString(50) + "9" == "509";
    assert DecimalString(5091) == DecimalString(509) + "1" == "5091";
    assert DecimalString(50911) == DecimalString(5091) + "1" == "50911";
  }

  // ---------------------------------------------------------------------
  // getCredServiceUrl

  /** getCredServiceUrl, given the outcome of the local host lookup.  The
      lookup is an argument of conf.get, so it happens, and its failure
      propagates, whether or not the key is set. */
  function GetCredServiceUrl(conf: Configuration, localHost: Result<string, Throwable>): (r: Result<string, Throwable>)
    ensures localHost.Failure? ==> r == Failure(localHost.error)
    ensures localHost.Success? && KEY_CRED_SERVICE_URL in conf.properties ==>
      r == Success(conf.properties[KEY_CRED_SERVICE_URL] + "/tokenmanager/v1")
    ensures localHost.Success? && KEY_CRED_SERVICE_URL !in conf.properties ==>
      r == Success("http://" + localHost.value + ":50911/tokenmanager/v1")
  {
    match localHost
    case Failure(e) => Failure(e)
    case Success(hostName) =>
      var defaultUrl := "http://" + hostName + ":" + DecimalString(DEFAULT_CRED_SERVICE_PORT);
      DefaultUrlSpelledOut(hostName);
      var baseUrl := conf.GetOrDefault(KEY_CRED_SERVICE_URL, defaultUrl);
      Success(baseUrl + DEFAULT_DELEGATION_MANAGER_ENDPOINT)
  }

  /** The default base URL plus the endpoint, written out. */
  lemma DefaultUrlSpelledOut(hostName: string)
    ensures "http://" + hostName + ":" + DecimalString(DEFAULT_CRED_SERVICE_PORT) + DEFAULT_DELEGATION_MANAGER_ENDPOINT
         == "http://" + hostName + ":50911/tokenmanager/v1"
  {
    DefaultPortString();
    var tail := ":" + DecimalString(DEFAULT_CRED_SERVICE_PORT) + DEFAULT_DELEGATION_MANAGER_ENDPOINT;
    assert tail == ":50911/tokenmanager/v1";
    assert "http://" + hostName + ":" + DecimalString(DEFAULT_CRED_SERVICE_PORT) + DEFAULT_DELEGATION_MANAGER_ENDPOINT
        == "http://" + hostName + tail;
  }

  /** With the key set, the URL is independent of the local host name. */
  lemma ConfiguredUrlIgnoresHostName(conf: Configuration, h1: string, h2: string)
    requires KEY_CRED_SERVICE_URL in conf.properties
    ensures GetCredServiceUrl(conf, Success(h1)) == GetCredServiceUrl(conf, Success(h2))
  {
  }

  // ---------------------------------------------------------------------
  // doConnected, as specification functions

  /** The connect context doConnected assembles (DelegationTokenHandler.java,
      lines 90-98), or the first failure among the current-user lookup, the
      relogin of the connect identity and the service URL resolution. */
  function Context(host: Host, conf: Configuration): (c: Result<ConnectContext, Throwable>)
    ensures host.currentUser.Failure? ==> c == Failure(host.currentUser.error)
    ensures host.currentUser.Success? ==>
      var ugi := host.currentUser.value;
      var connect := if ugi.realUser.Some? then ugi.realUser.value else ugi;
      (host.relogin(connect).Some? ==> c == Failure(host.relogin(connect).value)) &&
      (host.relogin(connect).None? && host.localHost.Failure? ==> c == Failure(host.localHost.error)) &&
      (host.relogin(connect).None? && host.localHost.Success? ==>
        c.Success? && c.value.connectUgi == connect &&
        (ugi.realUser.Some? ==> c.value.proxyUser == Some(ugi.realUser.value.shortUserName)) &&
        (ugi.realUser.None? ==> c.value.proxyUser == None) &&
        c.value.serviceUrl == GetCredServiceUrl(conf, host.localHost).value)
  {
    match host.currentUser
    case Failure(e) => Failure(e)
    case Success(ugi) =>
      var connectUgi := ConnectUgiOf(ugi);
      match host.relogin(connectUgi)
      case Some(e) => Failure(e)
      case None =>
        match GetCredServiceUrl(conf, host.localHost)
        case Failure(e) => Failure(e)
        case Success(url) => Success(ConnectContext(connectUgi, ProxyUserOf(ugi), url))
  }

  /** True when `e` reads the configuration, consults the local host or runs the action. */
  predicate AfterRelogin(e: Event) {
    e.LookUpLocalHost? || e.ConfGet? || e.SupplyAuthToken? || e.Handle?
  }

  /** The whole trace of doConnected when the action is handed `authToken`. */
  function CallTrace(host: Host, conf: Configuration, authToken: AuthUrlToken): (t: seq<Event>)
    ensures |t| > 0 && t[0] == GetCurrentUser
    ensures host.currentUser.Failure? ==> t == [GetCurrentUser]
  {
    match host.currentUser
    case Failure(_) => [GetCurrentUser]
    case Success(ugi) =>
      var connectUgi := ConnectUgiOf(ugi);
      if host.relogin(connectUgi).Some? then
        [GetCurrentUser, Relogin(connectUgi)]
      else if host.localHost.Failure? then
        [GetCurrentUser, Relogin(connectUgi), LookUpLocalHost]
      else
        [GetCurrentUser, Relogin(connectUgi), LookUpLocalHost, ConfGet(KEY_CRED_SERVICE_URL),
         SupplyAuthToken, Handle(connectUgi, authToken, GetCredServiceUrl(conf, host.localHost).value, ProxyUserOf(ugi))]
  }

  /** The relogin happens once, second, on the connect identity; everything
      that resolves the URL, builds the token or uses the network comes after it,
      and none of it happens if the relogin throws. */
  lemma ReloginPrecedesRest(host: Host, conf: Configuration, authToken: AuthUrlToken)
    requires host.currentUser.Success?
    ensures var t := CallTrace(host, conf, authToken);
      var connect := ConnectUgiOf(host.currentUser.value);
      |t| >= 2 && t[1] == Relogin(connect) &&
      (forall i :: 0 <= i < |t| && t[i].Relogin? ==> i == 1) &&
      (forall i :: 0 <= i < |t| && AfterRelogin(t[i]) ==> 1 < i) &&
      (host.relogin(connect).Some? ==> |t| == 2) &&
      (host.relogin(connect).None? ==> |t| >= 3 && t[2] == LookUpLocalHost)
  {
    var t := CallTrace(host, conf, authToken);
    var connect := ConnectUgiOf(host.currentUser.value);
    if host.relogin(connect).Some? {
      assert t == [GetCurrentUser, Relogin(connect)];
    } else if host.localHost.Failure? {
      assert t == [GetCurrentUser, Relogin(connect), LookUpLocalHost];
    } else {
      var last := t[5];
      assert t == [GetCurrentUser, Relogin(connect), LookUpLocalHost, ConfGet(KEY_CRED_SERVICE_URL), SupplyAuthToken, last];
      ReloginOnceInFullTrace(connect, last);
    }
  }

  /** In a complete trace, whatever the action step is, the relogin is the
      only one and comes second. */
  lemma ReloginOnceInFullTrace(connect: Identity, last: Event)
    requires last.Handle?
    ensures var t := [GetCurrentUser, Relogin(connect), LookUpLocalHost, ConfGet(KEY_CRED_SERVICE_URL), SupplyAuthToken, last];
      (forall i :: 0 <= i < |t| && t[i].Relogin? ==> i == 1) &&
      (forall i :: 0 <= i < |t| && AfterRelogin(t[i]) ==> 1 < i)
  {
  }

  /** A failed host lookup ends the trace; otherwise the host lookup (made
      whether or not the key is set), then the configuration read, then the
      single token supply, then the action, in that order and nothing after. */
  lemma UrlBeforeTokenBeforeAction(host: Host, conf: Configuration, authToken: AuthUrlToken)
    requires host.currentUser.Success? && host.relogin(ConnectUgiOf(host.currentUser.value)).None?
    ensures var t := CallTrace(host, conf, authToken);
      (host.localHost.Failure? ==> |t| == 3 && t[2] == LookUpLocalHost) &&
      (host.localHost.Success? ==>
         Context(host, conf).Success? &&
         |t| == 6 && t[2] == LookUpLocalHost && t[3] == ConfGet(KEY_CRED_SERVICE_URL) &&
         t[4] == SupplyAuthToken && t[5].Handle? &&
         (forall i :: 0 <= i < |t| && t[i].SupplyAuthToken? ==> i == 4))
  {
    var t := CallTrace(host, conf, authToken);
    var connect := ConnectUgiOf(host.currentUser.value);
    if host.localHost.Success? {
      assert t == [GetCurrentUser, Relogin(connect), LookUpLocalHost, ConfGet(KEY_CRED_SERVICE_URL), SupplyAuthToken,
                   Handle(connect, authToken, GetCredServiceUrl(conf, host.localHost).value, ProxyUserOf(host.currentUser.value))];
    }
  }

  /** The action runs at most once, as the last step, exactly when the connect
      context was assembled, as the connect identity with the resolved URL, the
      proxy-user name and the supplied token. */
  lemma ActionRunsLastAsConnectIdentity(host: Host, conf: Configuration, authToken: AuthUrlToken)
    ensures var t := CallTrace(host, conf, authToken);
      (forall i :: 0 <= i < |t| && t[i].Handle? ==>
         i == |t| - 1 && Context(host, conf).Success? &&
         t[i] == Handle(Context(host, conf).value.connectUgi, authToken,
                        Context(host, conf).value.serviceUrl, Context(host, conf).value.proxyUser)) &&
      (Context(host, conf).Success? ==> t[|t| - 1].Handle?)
  {
    var t := CallTrace(host, conf, authToken);
    if host.currentUser.Success? {
      var connect := ConnectUgiOf(host.currentUser.value);
      if host.relogin(connect).Some? {
        assert t == [GetCurrentUser, Relogin(connect)];
      } else if host.localHost.Failure? {
        assert t == [GetCurrentUser, Relogin(connect), LookUpLocalHost];
      } else {
        var ctx := Context(host, conf).value;
        assert t == [GetCurrentUser, Relogin(connect), LookUpLocalHost, ConfGet(KEY_CRED_SERVICE_URL),
                     SupplyAuthToken, Handle(ctx.connectUgi, authToken, ctx.serviceUrl, ctx.proxyUser)];
      }
    }
  }

  // ---------------------------------------------------------------------
  // doConnected

  /** doConnected: resolve the identity, relogin, resolve the URL, build the
      authentication token and run the action.  Nothing is caught: the first
      failure is the result, unchanged, and the action's own result is returned
      as it is. */
  method DoConnected<T>(host: Host, conf: Configuration, tokenSupplier: () -> AuthUrlToken,
                        action: (Identity, AuthUrlToken, string, Option<string>) -> Result<T, Throwable>)
    returns (r: Result<T, Throwable>, trace: seq<Event>)
    ensures trace == CallTrace(host, conf, tokenSupplier())
    ensures Context(host, conf).Failure? ==> r == Failure(Context(host, conf).error)
    ensures Context(host, conf).Success? ==>
      var ctx := Context(host, conf).value;
      r == action(ctx.connectUgi, tokenSupplier(), ctx.serviceUrl, ctx.proxyUser)
  {
    trace := [GetCurrentUser];
    if host.currentUser.Failure? {
      return Failure(host.currentUser.error), trace;
    }
    var ugi := host.currentUser.value;
    var connectUgi: Option<Identity> := ugi.realUser;
    var proxyUser := if connectUgi.None? then None else Some(connectUgi.value.shortUserName);
    if connectUgi.None? {
      connectUgi := Some(ugi);
    }

    trace := trace + [Relogin(connectUgi.value)];
    var reloginFailure := host.relogin(connectUgi.value);
    if reloginFailure.Some? {
      return Failure(reloginFailure.value), trace;
    }

    // getCredServiceUrl: the default's host name is computed before conf.get runs
    trace := trace + [LookUpLocalHost];
    if host.localHost.Failure? {
      return Failure(host.localHost.error), trace;
    }
    trace := trace + [ConfGet(KEY_CRED_SERVICE_URL)];
    var credServiceUrl := GetCredServiceUrl(conf, host.localHost).value;

    trace := trace + [SupplyAuthToken];
    var authToken := tokenSupplier();

    trace := trace + [Handle(connectUgi.value, authToken, credServiceUrl, proxyUser)];
    r := action(connectUgi.value, authToken, credServiceUrl, proxyUser);
  }

  // ---------------------------------------------------------------------
  // retrieve, renew, cancel

  /** The outcome of retrieve: the credential service's answer to a
      getDelegationToken call made as the connect identity, with a fresh empty
      authentication token and the caller's renewer; or the earlier failure. */
  function RetrieveResult(host: Host, conf: Configuration, renewer: string): (r: Result<Token, Throwable>)
    ensures Context(host, conf).Failure? ==> r == Failure(Context(host, conf).error)
    ensures Context(host, conf).Success? ==>
      r == host.getDelegationToken(ConnectUgiOf(host.currentUser.value), Context(host, conf).value.serviceUrl,
                                   EmptyAuthUrlToken, renewer, ProxyUserOf(host.currentUser.value))
  {
    match Context(host, conf)
    case Failure(e) => Failure(e)
    case Success(ctx) => host.getDelegationToken(ctx.connectUgi, ctx.serviceUrl, EmptyAuthUrlToken, renewer, ctx.proxyUser)
  }

  /** The outcome of renew: exactly the expiry the credential service returned
      for a renewDelegationToken call made as the connect identity with an
      authentication token wrapping `token`; or the earlier failure. */
  function RenewResult(host: Host, conf: Configuration, token: Token): (r: Result<int, Throwable>)
    ensures Context(host, conf).Failure? ==> r == Failure(Context(host, conf).error)
    ensures Context(host, conf).Success? ==>
      r == host.renewDelegationToken(ConnectUgiOf(host.currentUser.value), Context(host, conf).value.serviceUrl,
                                     CreateAuthUrlToken(token), ProxyUserOf(host.currentUser.value))
  {
    match Context(host, conf)
    case Failure(e) => Failure(e)
    case Success(ctx) => host.renewDelegationToken(ctx.connectUgi, ctx.serviceUrl, CreateAuthUrlToken(token), ctx.proxyUser)
  }

  /** The outcome of cancel: the credential service's answer to a
      cancelDelegationToken call made as the connect identity with an
      authentication token wrapping `token`; or the earlier failure. */
  function CancelResult(host: Host, conf: Configuration, token: Token): (r: Result<(), Throwable>)
    ensures Context(host, conf).Failure? ==> r == Failure(Context(host, conf).error)
    ensures Context(host, conf).Success? ==>
      r == host.cancelDelegationToken(ConnectUgiOf(host.currentUser.value), Context(host, conf).value.serviceUrl,
                                      CreateAuthUrlToken(token), ProxyUserOf(host.currentUser.value))
  {
    match Context(host, conf)
    case Failure(e) => Failure(e)
    case Success(ctx) => host.cancelDelegationToken(ctx.connectUgi, ctx.serviceUrl, CreateAuthUrlToken(token), ctx.proxyUser)
  }

  /** retrieve: doConnected with an empty authentication token and an action
      that asks for a new delegation token for `renewer`. */
  method Retrieve(host: Host, renewer: string, conf: Configuration)
    returns (r: Result<Token, Throwable>, trace: seq<Event>)
    ensures r == RetrieveResult(host, conf, renewer)
    ensures trace == CallTrace(host, conf, EmptyAuthUrlToken)
  {
    r, trace := DoConnected(host, conf, () => EmptyAuthUrlToken,
      (ugi: Identity, authToken: AuthUrlToken, serviceUrl: string, proxyUser: Option<string>) =>
        host.getDelegationToken(ugi, serviceUrl, authToken, renewer, proxyUser));
  }

  /** renew: doConnected with an authentication token wrapping `token` and an
      action that renews it. */
  method Renew(host: Host, token: Token, conf: Configuration)
    returns (r: Result<int, Throwable>, trace: seq<Event>)
    ensures r == RenewResult(host, conf, token)
    ensures trace == CallTrace(host, conf, CreateAuthUrlToken(token))
  {
    r, trace := DoConnected(host, conf, () => CreateAuthUrlToken(token),
      (ugi: Identity, authToken: AuthUrlToken, serviceUrl: string, proxyUser: Option<string>) =>
        host.renewDelegationToken(ugi, serviceUrl, authToken, proxyUser));
  }

  /** cancel: doConnected with an authentication token wrapping `token` and an
      action that cancels it. */
  method Cancel(host: Host, token: Token, conf: Configuration)
    returns (r: Result<(), Throwable>, trace: seq<Event>)
    ensures r == CancelResult(host, conf, token)
    ensures trace == CallTrace(host, conf, CreateAuthUrlToken(token))
  {
    r, trace := DoConnected(host, conf, () => CreateAuthUrlToken(token),
      (ugi: Identity, authToken: AuthUrlToken, serviceUrl: string, proxyUser: Option<string>) =>
        host.cancelDelegationToken(ugi, serviceUrl, authToken, proxyUser));
  }
}
