/** The Hadoop types the authentication core passes around: user identities,
    delegation tokens, the configuration store and the exceptions that can
    cross the core's boundary. */
module HadoopTypes {
  import opened Wrappers

  /** A UserGroupInformation: a principal and, when the identity is a proxy
      user, the real (authenticating) user behind it. */
  datatype Identity = Identity(userName: string, shortUserName: string, realUser: Option<Identity>)

  /** A delegation token: opaque credential material plus the kind tag that
      selects its renewer and the service it is issued for. */
  datatype Token = Token(identifier: seq<bv8>, password: seq<bv8>, kind: string, service: string)

  /** The key-value configuration store. */
  datatype Configuration = Configuration(properties: map<string, string>) {

    /** Configuration.get(key): the value, or null when the key is unset. */
    function Get(key: string): (v: Option<string>)
      ensures v.Some? <==> key in properties
      ensures v.Some? ==> v.value == properties[key]
    {
      if key in properties then Some(properties[key]) else None
    }

    /** Configuration.get(key, default): the value, or the default when the key is unset. */
    function GetOrDefault(key: string, default: string): (v: string)
      ensures key in properties ==> v == properties[key]
      ensures key !in properties ==> v == default
    {
      match Get(key)
      case Some(s) => s
      case None => default
    }
  }

  /** The exceptions the core throws or lets through. */
  datatype Throwable =
    | IOException(message: string)
    | UnknownHostException(message: string)
    | InterruptedException
    | AuthenticationException(message: string)
    | ClassNotFoundException(className: string)
    | IllegalAccessException(message: string)
    | InstantiationException(message: string)
    | ClassCastException(message: string)
    | AdlAuthorizationException(message: string)
    | RuntimeException(message: string)
    | NoClassDefFoundError(message: string)
    | ExceptionInInitializerError(message: string)
      /** new IOException(cause): an IOException whose cause is `cause`. */
    | IOExceptionCausedBy(cause: Throwable)
}
