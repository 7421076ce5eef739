/** AdlAuthorizer: the interface an external authorization implementation
    provides.  An implementation is modelled by the behaviour of its two
    methods, together with the per-path policy its documentation refers to. */
module AdlAuthorizer {
  import opened Wrappers
  import opened HadoopTypes

  /** AdlAccessType.  That enum is not part of this model; an access type is
      known here only by its name. */
  datatype AccessType = AccessType(name: string)

  /** An absolute storage path. */
  type Path = string

  /** One implementation of the interface:
      - init(conf): the exception init throws, if any;
      - isAuthorized(conf, op, paths): its answer once initialised with conf, or
        the exception it throws when it cannot decide;
      - permits(conf, op, p): whether its policy authorizes `op` on the single path p. */
  datatype AuthorizerImpl = AuthorizerImpl(
    init: Configuration -> Option<Throwable>,
    isAuthorized: (Configuration, AccessType, seq<Path>) -> Result<bool, Throwable>,
    permits: (Configuration, AccessType, Path) -> bool)

  /** An instance of an implementation on which init(conf) has been called. */
  datatype Authorizer = Authorizer(impl: AuthorizerImpl, conf: Configuration)

  /** The instance's init returned normally. */
  ghost predicate Initialised(a: Authorizer) {
    a.impl.init(a.conf).None?
  }

  /** The interface's documented contract: init fails only with an
      AdlAuthorizationException; isAuthorized answers true exactly when every
      requested path is authorized, false when one is not, and signals "could
      not decide" with an AdlAuthorizationException rather than with false. */
  ghost predicate HonoursContract(impl: AuthorizerImpl) {
    (forall c :: impl.init(c).Some? ==> impl.init(c).value.AdlAuthorizationException?) &&
    (forall c, op, paths :: impl.isAuthorized(c, op, paths).Failure? ==>
       impl.isAuthorized(c, op, paths).error.AdlAuthorizationException?) &&
    (forall c, op, paths :: impl.isAuthorized(c, op, paths).Success? ==>
       (impl.isAuthorized(c, op, paths).value <==> forall i :: 0 <= i < |paths| ==> impl.permits(c, op, paths[i])))
  }

  /** isAuthorized on an instance. */
  function IsAuthorized(a: Authorizer, op: AccessType, paths: seq<Path>): (r: Result<bool, Throwable>)
    ensures HonoursContract(a.impl) && r.Success? ==>
      (r.value <==> forall i :: 0 <= i < |paths| ==> a.impl.permits(a.conf, op, paths[i]))
    ensures HonoursContract(a.impl) && r.Failure? ==> r.error.AdlAuthorizationException?
  {
    a.impl.isAuthorized(a.conf, op, paths)
  }

  /** Every path in turn, stopping at the first one the policy denies. */
  function AllPermitted(permits: (Configuration, AccessType, Path) -> bool, c: Configuration, op: AccessType, paths: seq<Path>): bool
  {
    if paths == [] then true
    else if !permits(c, op, paths[0]) then false
    else AllPermitted(permits, c, op, paths[1..])
  }

  /** The path-by-path check computes "authorized for all requested paths". */
  lemma {:induction false} AllPermittedIff(permits: (Configuration, AccessType, Path) -> bool, c: Configuration, op: AccessType, paths: seq<Path>)
    ensures AllPermitted(permits, c, op, paths) <==> forall i :: 0 <= i < |paths| ==> permits(c, op, paths[i])
  {
    if paths != [] && permits(c, op, paths[0]) {
      AllPermittedIff(permits, c, op, paths[1..]);
      assert forall i :: 1 <= i < |paths| ==> paths[i] == paths[1..][i - 1];
    }
  }

  /** One denied path makes a decided answer false. */
  lemma DeniedPathDenies(a: Authorizer, op: AccessType, paths: seq<Path>, k: nat)
    requires HonoursContract(a.impl)
    requires k < |paths| && !a.impl.permits(a.conf, op, paths[k])
    ensures IsAuthorized(a, op, paths).Success? ==> IsAuthorized(a, op, paths) == Success(false)
  {
  }

  /** A two-path operation such as RENAME is authorized exactly when both the
      source and the destination are. */
  lemma SourceAndDestination(a: Authorizer, op: AccessType, src: Path, dst: Path)
    requires HonoursContract(a.impl)
    requires IsAuthorized(a, op, [src, dst]).Success?
    ensures IsAuthorized(a, op, [src, dst]).value <==>
      a.impl.permits(a.conf, op, src) && a.impl.permits(a.conf, op, dst)
  {
    var paths := [src, dst];
    assert paths[0] == src && paths[1] == dst;
  }

  /** An implementation that authorizes only one path, checking path by path. */
  function AllowOnly(allowed: Path): (impl: AuthorizerImpl)
    ensures HonoursContract(impl)
  {
    var permits := (c: Configuration, op: AccessType, p: Path) => p == allowed;
    var impl := AuthorizerImpl(
      (c: Configuration) => None,
      (c: Configuration, op: AccessType, paths: seq<Path>) => Success(AllPermitted(permits, c, op, paths)),
      permits);
    assert forall c, op, paths :: impl.isAuthorized(c, op, paths) == Success(AllPermitted(permits, c, op, paths));
    forall c, op, paths ensures impl.isAuthorized(c, op, paths).value <==> forall i :: 0 <= i < |paths| ==> impl.permits(c, op, paths[i]) {
      AllPermittedIff(permits, c, op, paths);
    }
    impl
  }

  /** An instance that authorizes only "/allowed" grants a write to "/allowed"
      and refuses a write that also touches "/denied". */
  lemma AllowOnlyScenario(c: Configuration)
    ensures IsAuthorized(Authorizer(AllowOnly("/allowed"), c), AccessType("WRITE"), ["/allowed"]) == Success(true)
    ensures IsAuthorized(Authorizer(AllowOnly("/allowed"), c), AccessType("WRITE"), ["/allowed", "/denied"]) == Success(false)
  {
    var a := Authorizer(AllowOnly("/allowed"), c);
    SourceAndDestination(a, AccessType("WRITE"), "/allowed", "/denied");
  }
}
