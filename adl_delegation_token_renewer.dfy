/** AdlDelegationTokenRenewer: the TokenRenewer that Hadoop's token-renewal
    machinery finds by token kind.  It has no fields: each answer depends on
    the call's own arguments only. */
module AdlDelegationTokenRenewer {
  import opened Wrappers
  import opened HadoopTypes
  import DelegationTokenHandler

  /** AdlDelegationTokenIdentifier.TOKEN_KIND.  That class is not part of this
      model, so the tag's spelling is left open: every result holds for any tag. */
  const TOKEN_KIND: string

  /** handleKind: this renewer handles exactly the ADL token kind. */
  function HandleKind(kind: string): (handled: bool)
    ensures handled <==> kind == TOKEN_KIND
  {
    TOKEN_KIND == kind
  }

  /** isManaged: every token is subject to renewal management. */
  function IsManaged(token: Token): (managed: bool)
    ensures managed
  {
    true
  }

  /** renew: exactly DelegationTokenHandler.renew's result for the same token
      and configuration, its failures included. */
  method Renew(host: DelegationTokenHandler.Host, token: Token, conf: Configuration)
    returns (r: Result<int, Throwable>, trace: seq<DelegationTokenHandler.Event>)
    ensures r == DelegationTokenHandler.RenewResult(host, conf, token)
    ensures trace == DelegationTokenHandler.CallTrace(host, conf, DelegationTokenHandler.CreateAuthUrlToken(token))
  {
    r, trace := DelegationTokenHandler.Renew(host, token, conf);
  }

  /** cancel: DelegationTokenHandler.cancel with the same token and configuration. */
  method Cancel(host: DelegationTokenHandler.Host, token: Token, conf: Configuration)
    returns (r: Result<(), Throwable>, trace: seq<DelegationTokenHandler.Event>)
    ensures r == DelegationTokenHandler.CancelResult(host, conf, token)
    ensures trace == DelegationTokenHandler.CallTrace(host, conf, DelegationTokenHandler.CreateAuthUrlToken(token))
  {
    r, trace := DelegationTokenHandler.Cancel(host, token, conf);
  }
}
