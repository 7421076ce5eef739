# Azure Data Lake authentication core, modelled in Dafny

This project models the authentication and authorization edge of Hadoop's
Azure Data Lake (ADL) file system client, package `org.apache.hadoop.fs.adl.auth`:

- **DelegationTokenHandler** gets, renews and cancels an ADL delegation token
  from the credential service. The identity it connects as is the real user
  when the current user is a proxy user, and the current user otherwise. It
  asks for a Kerberos relogin of that identity if one is needed. It resolves the service URL,
  either the configured base or `http://<canonical local host>:50911`, plus
  `/tokenmanager/v1`. It builds the authentication token and runs the network
  call as the connect identity. It catches nothing.
- **AdlDelegationTokenRenewer** is the stateless `TokenRenewer` for the ADL
  token kind. It handles exactly that kind, treats every token as managed,
  and passes renew and cancel to the handler.
- **AdlAuthorizer** is the interface of an external authorization
  implementation: `init(conf)`, and `isAuthorized(op, paths...)`, which is true
  only when every path is authorized.
- **AdlAuthorizerFactory** loads the configured implementation class,
  instantiates it and initialises it. It returns no authorizer when no class
  name is configured.

Every effect is an input value:
- who the current user is;
- whether the relogin of a given identity throws;
- the local host name lookup;
- the three authenticated network calls, each given the identity it runs as
  (`ugi.doAs`);
- for the factory, class loading: a registry from class name to the loaded
  class (or the error loading it raised), and what `newInstance` yields.

Each of these may fail with a `Throwable`. The methods change nothing. Each
returns its outcome (a value or the exception that leaves it) together with
the ordered trace of the effects it performed. The trace is how the call order
is stated and proved.

Modules: `Wrappers` (Option, Result), `HadoopTypes` (identities, tokens,
configuration, exceptions), `DelegationTokenHandler`,
`AdlDelegationTokenRenewer`, `AdlAuthorizer`, `AdlAuthorizerFactory`.

## Where one might expect something else

The model follows the code in each case:

- **Proxy-user name.** In Hadoop's proxy-user convention, the `doAs`
  parameter names the effective user, on whose behalf the real user acts.
  The code passes the short name of the *real* user instead
  (`connectUgi.getShortUserName()` with `connectUgi = ugi.getRealUser()`,
  DelegationTokenHandler.java:91-92). `ProxyUserOf` and `Context` state the
  code's behaviour.
- **Host lookup.** One might expect the local host name to matter only when no
  base URL is configured. In the code, the host lookup is an argument of
  `conf.get(key, default)`, so it always runs, and an `UnknownHostException`
  escapes even when the key is set (DelegationTokenHandler.java:121-122).
- **Wrapped exceptions.** The Javadoc of `create` says it throws an
  IOException "if this class is not found on the classpath or it fails to
  instantiate" (AdlAuthorizerFactory.java:46). The code wraps only
  `ClassNotFoundException`, `IllegalAccessException` and
  `InstantiationException` (AdlAuthorizerFactory.java:59-60). An exception
  from `init`, a `ClassCastException` from a class that is not an
  `AdlAuthorizer`, a runtime exception from the constructor, or a linkage
  error raised while loading a class that was found (`NoClassDefFoundError`,
  `ExceptionInInitializerError`) leaves `create` as thrown.

## Model

| member | source | states |
|---|---|---|
| `DelegationTokenHandler.CreateAuthUrlToken` | hadoop-tools/hadoop-azure-datalake/src/main/java/org/apache/hadoop/fs/adl/auth/DelegationTokenHandler.java:110-114 | the authentication token carries exactly the caller's delegation token and so differs from the fresh empty one |
| `DelegationTokenHandler.ConnectUgiOf` | hadoop-tools/hadoop-azure-datalake/src/main/java/org/apache/hadoop/fs/adl/auth/DelegationTokenHandler.java:90-95 | the connect identity is the real user when there is one; it is the current user itself exactly when there is none |
| `DelegationTokenHandler.ProxyUserOf` | hadoop-tools/hadoop-azure-datalake/src/main/java/org/apache/hadoop/fs/adl/auth/DelegationTokenHandler.java:91-92 | a proxy-user name is present iff there is a real user; it is then the connect identity's (the real user's) short name, and the connect identity is not the current user |
| `HadoopTypes.Configuration.Get` | hadoop-tools/hadoop-azure-datalake/src/main/java/org/apache/hadoop/fs/adl/auth/AdlAuthorizerFactory.java:49 | a value is present iff the key is set, and it is then the key's value |
| `HadoopTypes.Configuration.GetOrDefault` | hadoop-tools/hadoop-azure-datalake/src/main/java/org/apache/hadoop/fs/adl/auth/DelegationTokenHandler.java:121-122 | the key's value when the key is set, the default otherwise |
| `DelegationTokenHandler.DecimalString` | hadoop-tools/hadoop-azure-datalake/src/main/java/org/apache/hadoop/fs/adl/auth/DelegationTokenHandler.java:121 | the `%s` rendering of a port number is its canonical decimal form: a non-empty string of decimal digits, with no leading zero unless it is the single digit, that reads back as that number |
| `DelegationTokenHandler.DefaultPortString` | hadoop-tools/hadoop-azure-datalake/src/main/java/org/apache/hadoop/fs/adl/auth/DelegationTokenHandler.java:21 | the default port renders as "50911" |
| `DelegationTokenHandler.GetCredServiceUrl` | hadoop-tools/hadoop-azure-datalake/src/main/java/org/apache/hadoop/fs/adl/auth/DelegationTokenHandler.java:120-124 | a failed host lookup is the result whatever the configuration says; with the key set to B the URL is B + "/tokenmanager/v1"; with it unset the URL is "http://" + host + ":50911/tokenmanager/v1" |
| `DelegationTokenHandler.ConfiguredUrlIgnoresHostName` | hadoop-tools/hadoop-azure-datalake/src/main/java/org/apache/hadoop/fs/adl/auth/DelegationTokenHandler.java:121-122 | with the key set, every successful host lookup gives the same URL |
| `DelegationTokenHandler.Context` | hadoop-tools/hadoop-azure-datalake/src/main/java/org/apache/hadoop/fs/adl/auth/DelegationTokenHandler.java:89-98 | steps fail in order (current user, then relogin of the connect identity, then host lookup), each failure propagated unchanged; on success the context holds the real user (or else the current user), the real user's short name (or else none), and the resolved URL |
| `DelegationTokenHandler.CallTrace` | hadoop-tools/hadoop-azure-datalake/src/main/java/org/apache/hadoop/fs/adl/auth/DelegationTokenHandler.java:89-90 | the current user is looked up first, and nothing else happens when that lookup fails |
| `DelegationTokenHandler.ReloginPrecedesRest` | hadoop-tools/hadoop-azure-datalake/src/main/java/org/apache/hadoop/fs/adl/auth/DelegationTokenHandler.java:90-98 | the relogin happens once, second, on the connect identity; host lookup, configuration read, token supply and action all come after it, and none of them happens if it throws; otherwise the host lookup comes next |
| `DelegationTokenHandler.UrlBeforeTokenBeforeAction` | hadoop-tools/hadoop-azure-datalake/src/main/java/org/apache/hadoop/fs/adl/auth/DelegationTokenHandler.java:98-101 | nothing follows a failed host lookup; after a successful one (made even when the key is set) the context is assembled and the configuration read, the single token supply and the action follow, in that order |
| `DelegationTokenHandler.ActionRunsLastAsConnectIdentity` | hadoop-tools/hadoop-azure-datalake/src/main/java/org/apache/hadoop/fs/adl/auth/DelegationTokenHandler.java:89-101 | the action runs exactly when the connect context was assembled, once, as the last step, as the connect identity with the supplied token, the resolved URL and the proxy-user name |
| `DelegationTokenHandler.DoConnected` | hadoop-tools/hadoop-azure-datalake/src/main/java/org/apache/hadoop/fs/adl/auth/DelegationTokenHandler.java:89-102 | the imperative step sequence (reassigning the nullable connect identity) performs exactly the trace above; it returns the first failure unchanged, otherwise exactly the action's result for the connect context and the supplied token |
| `DelegationTokenHandler.RetrieveResult` | hadoop-tools/hadoop-azure-datalake/src/main/java/org/apache/hadoop/fs/adl/auth/DelegationTokenHandler.java:27-45 | an earlier failure propagates unchanged; otherwise the result is the service's getDelegationToken answer for a call run as the connect identity with an empty authentication token, the caller's renewer and the proxy-user name |
| `DelegationTokenHandler.RenewResult` | hadoop-tools/hadoop-azure-datalake/src/main/java/org/apache/hadoop/fs/adl/auth/DelegationTokenHandler.java:47-65 | an earlier failure propagates unchanged; otherwise it is exactly what renewDelegationToken returned or threw for a call run as the connect identity with an authentication token wrapping the caller's token |
| `DelegationTokenHandler.CancelResult` | hadoop-tools/hadoop-azure-datalake/src/main/java/org/apache/hadoop/fs/adl/auth/DelegationTokenHandler.java:67-87 | an earlier failure propagates unchanged; otherwise it is the outcome of cancelDelegationToken for a call run as the connect identity with an authentication token wrapping the caller's token |
| `DelegationTokenHandler.Retrieve` | hadoop-tools/hadoop-azure-datalake/src/main/java/org/apache/hadoop/fs/adl/auth/DelegationTokenHandler.java:27-45 | doConnected with the empty-token supplier and the getDelegationToken action yields RetrieveResult, with the trace of a call handed the empty token |
| `DelegationTokenHandler.Renew` | hadoop-tools/hadoop-azure-datalake/src/main/java/org/apache/hadoop/fs/adl/auth/DelegationTokenHandler.java:47-65 | doConnected with the wrapping supplier and the renew action yields RenewResult, with the trace of a call handed the wrapped token |
| `DelegationTokenHandler.Cancel` | hadoop-tools/hadoop-azure-datalake/src/main/java/org/apache/hadoop/fs/adl/auth/DelegationTokenHandler.java:67-87 | doConnected with the wrapping supplier and the cancel action yields CancelResult, with the trace of a call handed the wrapped token |
| `AdlDelegationTokenRenewer.HandleKind` | hadoop-tools/hadoop-azure-datalake/src/main/java/org/apache/hadoop/fs/adl/auth/AdlDelegationTokenRenewer.java:46-49 | true iff the kind equals the ADL token kind |
| `AdlDelegationTokenRenewer.IsManaged` | hadoop-tools/hadoop-azure-datalake/src/main/java/org/apache/hadoop/fs/adl/auth/AdlDelegationTokenRenewer.java:51-54 | true for every token |
| `AdlDelegationTokenRenewer.Renew` | hadoop-tools/hadoop-azure-datalake/src/main/java/org/apache/hadoop/fs/adl/auth/AdlDelegationTokenRenewer.java:56-60 | returns exactly the handler's renew outcome for the same token and configuration, failures included, and performs the same effects; the outcome is a function of the call's arguments alone (no state carried between calls) |
| `AdlDelegationTokenRenewer.Cancel` | hadoop-tools/hadoop-azure-datalake/src/main/java/org/apache/hadoop/fs/adl/auth/AdlDelegationTokenRenewer.java:62-66 | the handler's cancel outcome and effects for the same token and configuration |
| `AdlAuthorizer.IsAuthorized` | hadoop-tools/hadoop-azure-datalake/src/main/java/org/apache/hadoop/fs/adl/auth/AdlAuthorizer.java:41-50 | for an implementation keeping the contract, a decided answer is true iff every requested path is authorized, and "could not decide" is an AdlAuthorizationException, not false |
| `AdlAuthorizer.AllPermittedIff` | hadoop-tools/hadoop-azure-datalake/src/main/java/org/apache/hadoop/fs/adl/auth/AdlAuthorizer.java:47 | checking path by path, stopping at the first denial, computes exactly "authorized for all requested paths" |
| `AdlAuthorizer.DeniedPathDenies` | hadoop-tools/hadoop-azure-datalake/src/main/java/org/apache/hadoop/fs/adl/auth/AdlAuthorizer.java:47 | if any one requested path is denied, a decided answer is false |
| `AdlAuthorizer.SourceAndDestination` | hadoop-tools/hadoop-azure-datalake/src/main/java/org/apache/hadoop/fs/adl/auth/AdlAuthorizer.java:44-47 | a two-path operation such as RENAME is authorized iff both source and destination are |
| `AdlAuthorizer.AllowOnly` | hadoop-tools/hadoop-azure-datalake/src/main/java/org/apache/hadoop/fs/adl/auth/AdlAuthorizer.java:35-50 | an implementation that allows a single path, checking path by path, keeps the interface's contract (so the contract can be met) |
| `AdlAuthorizer.AllowOnlyScenario` | hadoop-tools/hadoop-azure-datalake/src/main/java/org/apache/hadoop/fs/adl/auth/AdlAuthorizer.java:41-50 | allowing only "/allowed": a write to "/allowed" is authorized; a write to "/allowed" and "/denied" is not |
| `AdlAuthorizerFactory.Rethrown` | hadoop-tools/hadoop-azure-datalake/src/main/java/org/apache/hadoop/fs/adl/auth/AdlAuthorizerFactory.java:59-60 | ClassNotFound, IllegalAccess and Instantiation exceptions leave as an IOException whose cause is the original; all others leave unchanged |
| `AdlAuthorizerFactory.Create` | hadoop-tools/hadoop-azure-datalake/src/main/java/org/apache/hadoop/fs/adl/auth/AdlAuthorizerFactory.java:48-63 | no class name configured: no authorizer, only the configuration read, no lookup, instantiation or init, no exception. Otherwise the lookup uses exactly the configured name. A missing class is an IOException caused by ClassNotFoundException. An error loading a class that was found leaves as Rethrown, before any instantiation. An instantiation failure leaves as Rethrown. A non-authorizer class gives a ClassCastException. Otherwise init(conf) runs once, as the last step, and its failure leaves as Rethrown. A returned authorizer is the constructed instance, and its init with this configuration returned normally |
| `AdlAuthorizerFactory.InitFailureUnwrapped` | hadoop-tools/hadoop-azure-datalake/src/main/java/org/apache/hadoop/fs/adl/auth/AdlAuthorizerFactory.java:56-60 | an init failure of an implementation keeping the interface's contract (an AdlAuthorizationException) leaves create unwrapped |

## Left out

- The network calls (`DelegationTokenAuthenticatedURL`,
  `KerberosDelegationTokenAuthenticator`) are oracles, so the HTTP/SPNEGO
  protocol is not modelled. A network failure stands for whatever leaves
  `ugi.doAs`. `doAs` may re-wrap a checked exception that is not an
  IOException (for example `UndeclaredThrowableException`); that re-wrapping
  belongs to `UserGroupInformation`, which is not part of this model. Building
  `new URL(serviceUrl)` is folded into the same oracle.
- The Kerberos ticket refresh (`checkTGTAndReloginFromKeytab`) is modelled only
  as "may throw, for a given identity": it is an effect on a process-wide
  ticket cache, and races on that cache are concurrency.
- The canonical host-name lookup, `UserGroupInformation.getCurrentUser()`, and
  reflective class loading are OS or JVM services, so they are inputs that may
  fail. Class loading is a name-to-class map whose entries may be load errors.
- Configuration loading and variable substitution in `Configuration.get` are
  not modelled: configuration is a plain key-value map.
- The values of `AdlConfKeys.KEY_CRED_SERVICE_URL`,
  `AdlConfKeys.ADL_EXTERNAL_AUTHORIZATION_CLASS` and
  `AdlDelegationTokenIdentifier.TOKEN_KIND` are left unspecified, because
  those files are not part of this model. Every result holds for any value.
- `AdlAccessType` is not part of this model. An access type is a name.
- The `LOGGER.debug` calls are not modelled: logging has no effect on results.
- An authorizer instance is a value: its implementation's behaviour plus the
  configuration it was initialised with. Object identity and aliasing of the
  instance, and effects of its constructor beyond success or failure, are not
  modelled.
- AdlDelegationTokenRenewer.HandleKind: a `null` kind (for which the Java
  `equals` is false) is not represented, because kinds are non-null strings
  here.
- DelegationTokenHandler.RenewResult: the expiry is an unbounded integer that
  is passed through unchanged. The 64-bit range of Java's `long` is not
  enforced, because the model never does arithmetic on it.
- Retry or idempotence of a second `cancel` is not modelled: the code has none,
  and those are the server's behaviour.
