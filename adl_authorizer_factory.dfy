/** AdlAuthorizerFactory: builds and initialises the configured AdlAuthorizer.

    Class loading is a registry from class name to what instantiating that
    class yields; the method returns its outcome and the trace of the steps it
    took. */
module AdlAuthorizerFactory {
  import opened Wrappers
  import opened HadoopTypes
  import opened AdlAuthorizer

  /** AdlConfKeys.ADL_EXTERNAL_AUTHORIZATION_CLASS.  AdlConfKeys is not part of
      this model, so the key's spelling is left open: every result holds for any key. */
  const ADL_EXTERNAL_AUTHORIZATION_CLASS: string

  /** What Class.newInstance produced: an AdlAuthorizer, or an object of some
      other type (the unchecked cast lets such a class through to the assignment). */
  datatype Instance = AuthorizerInstance(impl: AuthorizerImpl) | OtherObject

  /** A loadable class: instantiating it yields an instance or throws. */
  datatype AuthorizerClass = AuthorizerClass(newInstance: Result<Instance, Throwable>)

  /** Configuration.getClassByName: for each name that can be found, the
      loaded class, or the error loading it raised (a missing dependency or a
      failing static initializer).  A name not in the map is not found. */
  type Registry = map<string, Result<AuthorizerClass, Throwable>>

  /** One step of create, in the order taken. */
  datatype Event =
    | ConfGet(key: string)              // configuration.get(key)
    | GetClassByName(className: string) // configuration.getClassByName(className)
    | NewInstance(className: string)    // authClass.newInstance()
    | Init(conf: Configuration)         // auth.init(conf)

  /** The exceptions create's catch clause turns into an IOException. */
  predicate Caught(e: Throwable) {
    e.ClassNotFoundException? || e.IllegalAccessException? || e.InstantiationException?
  }

  /** What leaves create when `e` is thrown inside its try block: a caught
      exception wrapped as the cause of an IOException, anything else as it is. */
  function Rethrown(e: Throwable): (t: Throwable)
    ensures Caught(e) ==> t.IOExceptionCausedBy? && t.cause == e
    ensures !Caught(e) ==> t == e
  {
    if Caught(e) then IOExceptionCausedBy(e) else e
  }

  /** create: no configured class name gives no authorizer; otherwise the class
      of exactly that name is looked up, instantiated and initialised with the
      configuration, and only an instance whose init returned is returned. */
  method Create(conf: Configuration, registry: Registry)
    returns (r: Result<Option<Authorizer>, Throwable>, trace: seq<Event>)
    ensures ADL_EXTERNAL_AUTHORIZATION_CLASS !in conf.properties ==>
      r == Success(None) && trace == [ConfGet(ADL_EXTERNAL_AUTHORIZATION_CLASS)]
    ensures ADL_EXTERNAL_AUTHORIZATION_CLASS in conf.properties ==>
      var name := conf.properties[ADL_EXTERNAL_AUTHORIZATION_CLASS];
      |trace| >= 2 && trace[..2] == [ConfGet(ADL_EXTERNAL_AUTHORIZATION_CLASS), GetClassByName(name)] &&
      (name !in registry ==> r == Failure(IOExceptionCausedBy(ClassNotFoundException(name))) && |trace| == 2) &&
      (name in registry && registry[name].Failure? ==>
         r == Failure(Rethrown(registry[name].error)) && |trace| == 2) &&
      (name in registry && registry[name].Success? ==> |trace| >= 3 && trace[2] == NewInstance(name)) &&
      (name in registry && registry[name].Success? && registry[name].value.newInstance.Failure? ==>
         r == Failure(Rethrown(registry[name].value.newInstance.error)) && |trace| == 3) &&
      (name in registry && registry[name].Success? && registry[name].value.newInstance == Success(OtherObject) ==>
         r == Failure(ClassCastException(name)) && |trace| == 3) &&
      (name in registry && registry[name].Success? && registry[name].value.newInstance.Success? &&
       registry[name].value.newInstance.value.AuthorizerInstance? ==>
         var impl := registry[name].value.newInstance.value.impl;
         trace == [ConfGet(ADL_EXTERNAL_AUTHORIZATION_CLASS), GetClassByName(name), NewInstance(name), Init(conf)] &&
         (impl.init(conf).Some? ==> r == Failure(Rethrown(impl.init(conf).value))) &&
         (impl.init(conf).None? ==> r == Success(Some(Authorizer(impl, conf)))))
    ensures r.Success? && r.value.Some? ==>
      Initialised(r.value.value) && r.value.value.conf == conf &&
      trace[|trace| - 1] == Init(conf) &&
      forall i :: 0 <= i < |trace| && trace[i].Init? ==> i == |trace| - 1
  {
    trace := [ConfGet(ADL_EXTERNAL_AUTHORIZATION_CLASS)];
    var authClassName := conf.Get(ADL_EXTERNAL_AUTHORIZATION_CLASS);
    var authorizer: Option<Authorizer> := None;
    if authClassName.Some? {
      var name := authClassName.value;
      trace := trace + [GetClassByName(name)];
      if name !in registry {
        return Failure(Rethrown(ClassNotFoundException(name))), trace;
      }
      if registry[name].Failure? {
        return Failure(Rethrown(registry[name].error)), trace;
      }
      var authClass := registry[name].value;
      trace := trace + [NewInstance(name)];
      var instance := authClass.newInstance;
      if instance.Failure? {
        return Failure(Rethrown(instance.error)), trace;
      }
      if instance.value.OtherObject? {
        return Failure(Rethrown(ClassCastException(name))), trace;
      }
      var auth := instance.value.impl;
      trace := trace + [Init(conf)];
      var initFailure := auth.init(conf);
      if initFailure.Some? {
        return Failure(Rethrown(initFailure.value)), trace;
      }
      authorizer := Some(Authorizer(auth, conf));
    }
    r := Success(authorizer);
  }

  /** An init failure of an implementation that keeps the interface's contract
      leaves create unwrapped: it is not one of the caught exceptions. */
  lemma InitFailureUnwrapped(impl: AuthorizerImpl, conf: Configuration)
    requires HonoursContract(impl)
    requires impl.init(conf).Some?
    ensures Rethrown(impl.init(conf).value) == impl.init(conf).value
  {
  }
}
