/** The credential-store service itself: construction, `start`, `stop` and
    `getValue`, as state transitions. The service's two mutable fields
    (`credentialStore`, `callbackHandle`) and its attribute map, which `start`
    writes in place, are the state; the path manager is threaded through
    because `start` and `stop` change its callback table. */
module CredentialStoreService {
  import opened Wrappers
  import opened Failures
  import opened StoreConfig
  import opened Location
  import opened Providers
  import opened Protection

  datatype Service = Service(
    config: Config,
    attributes: map<string, string>,
    credentialStore: Option<Store>,
    callbackHandle: Option<Handle>)

  /** The factory always stores the `create` flag, and nothing removes it. */
  ghost predicate Valid(s: Service) {
    CreateKey in s.attributes
  }

  /** The injected dependencies, already resolved: the provider lists (`null`
      when not injected) and the credential-source supplier (`None` when the
      injected supplier is null). */
  datatype Dependencies = Dependencies(
    providers: Option<seq<Provider>>,
    otherProviders: Option<seq<Provider>>,
    credentialSourceSupplier: Option<SupplierAnswer>)

  /** The store backend: `getInstance`, then `initialize` and `flush` on the
      instance, each answering with success or the cause of its exception. */
  datatype Backend = Backend(
    instances: Instances,
    initialize: (Store, map<string, string>, ProtectionParameter, Option<seq<Provider>>) -> Outcome<string>,
    flush: Store -> Outcome<string>)

  /** `Path.toAbsolutePath().toString()` and `Path.toFile().exists()`. */
  datatype FileSystem = FileSystem(absolute: FilePath -> string, fileExists: FilePath -> bool)

  /** The calls `start` makes on the store instance, in order. */
  datatype Effect =
    | Initialized(store: Store, attributes: map<string, string>, protection: ProtectionParameter,
                  otherProviders: Option<seq<Provider>>)
    | Flushed(store: Store)

  /** What `start` leaves behind. */
  datatype Started = Started(service: Service, pathManager: PathManager, effects: seq<Effect>, outcome: Outcome<Failure>)

  /** `createCredentialStoreService`: a fresh service whose configuration and
      attribute map follow the factory's defaulting and override rules. */
  function CreateCredentialStoreService(name: string, location: Option<string>, modifiable: bool, create: bool,
                                        implementationAttributes: Option<map<string, string>>, rawType: Option<string>,
                                        provider: Option<string>, relativeTo: Option<string>,
                                        providerLoaderName: Option<string>, keyStoreProvidersLoaderName: Option<string>): (s: Service)
    ensures Valid(s)
    ensures s.credentialStore.None? && s.callbackHandle.None?
    ensures s.config.name == name && s.config.provider == provider && s.config.relativeTo == relativeTo
    ensures s.config.providerLoaderName == providerLoaderName
    ensures s.config.otherProvidersLoaderName == keyStoreProvidersLoaderName
    ensures s.config.storeType == (if rawType.None? then KeyStoreCredentialStoreType else rawType.value)
    ensures s.config.location == (if location.None? then name else location.value)
    ensures s.attributes[CreateKey] == BoolToString(create)
    ensures forall k :: Lookup(s.attributes, k) == ExpectedAttribute(implementationAttributes, modifiable, create, rawType, k)
  {
    var attributes := AssembleAttributes(implementationAttributes, modifiable, create, rawType);
    assert Lookup(attributes, CreateKey) == Some(BoolToString(create));
    Service(MakeConfig(name, location, rawType, provider, relativeTo, providerLoaderName, keyStoreProvidersLoaderName),
            attributes, None, None)
  }

  /** Whether `start` gets past `resolveLocation`. */
  predicate LocationResolves(config: Config, pm: PathManager) {
    config.relativeTo.None? || config.relativeTo.value in pm.entries
  }

  /** `start`, as written. `resolveLocation` runs outside the `try`: its
      failure propagates unwrapped and its callback registration stays in
      place whatever happens later. Inside the `try`, in order: the `location`
      attribute is overwritten with the absolute path; the store is obtained
      and assigned to `credentialStore`; the protection parameter is resolved;
      the store is initialized; and it is flushed when `create` is "true" and
      the file does not exist. Every failure inside the `try` is wrapped as
      `unableToStartService`. */
  function Start(s: Service, pm: PathManager, deps: Dependencies, backend: Backend, fs: FileSystem): (r: Started)
    requires WellFormed(pm) && Valid(s)
    ensures WellFormed(r.pathManager) && Valid(r.service) && r.service.config == s.config
    ensures r.pathManager.entries == pm.entries
    // resolveLocation fails: nothing changes and the failure is not wrapped
    ensures !LocationResolves(s.config, pm) ==>
      r == Started(s, pm, [], Fail(PathEntryNotFound(s.config.relativeTo.value)))
    // every later failure is wrapped
    ensures LocationResolves(s.config, pm) && r.outcome.Fail? ==> r.outcome.error.UnableToStartService?
    // the callback handle: set by a registration, whatever the outcome
    ensures s.config.relativeTo.None? ==> r.pathManager == pm && r.service.callbackHandle == s.callbackHandle
    ensures s.config.relativeTo.Some? && LocationResolves(s.config, pm) ==>
      && r.service.callbackHandle.Some?
      && r.service.callbackHandle.value !in pm.callbacks
      && r.pathManager.callbacks
         == pm.callbacks[r.service.callbackHandle.value := Registration(s.config.relativeTo.value, {Removed, Updated})]
    // the location attribute is the absolute resolved path; nothing else changes
    ensures LocationResolves(s.config, pm) ==>
      && LocationKey in r.service.attributes
      && r.service.attributes[LocationKey] == fs.absolute(ResolveLocation(s.config, pm).value.path)
      && forall k :: k != LocationKey ==> Lookup(r.service.attributes, k) == Lookup(s.attributes, k)
    // initialize is called at most once, after the location is written, on the assigned store
    ensures |r.effects| <= 2
    ensures |r.effects| >= 1 ==>
      && r.effects[0].Initialized?
      && r.effects[0].attributes == r.service.attributes
      && r.service.credentialStore == Some(r.effects[0].store)
      && deps.credentialSourceSupplier.Some? && deps.credentialSourceSupplier.value.Returns?
      && deps.credentialSourceSupplier.value.source.password.Found?
      && r.effects[0].protection.credentials == [deps.credentialSourceSupplier.value.source.password.credential]
      && r.effects[0].otherProviders == deps.otherProviders
    // flush follows a successful initialize exactly when create is "true" and the file is missing
    ensures |r.effects| == 2 ==>
      && r.effects[1] == Flushed(r.effects[0].store)
      && s.attributes[CreateKey] == "true"
      && !fs.fileExists(ResolveLocation(s.config, pm).value.path)
    ensures |r.effects| >= 1 ==>
      var init := r.effects[0];
      (|r.effects| == 2 <==>
        && backend.initialize(init.store, init.attributes, init.protection, init.otherProviders) == Pass
        && s.attributes[CreateKey] == "true"
        && !fs.fileExists(ResolveLocation(s.config, pm).value.path))
    // the negotiated store is the one assigned; a negotiation failure is wrapped as is
    ensures LocationResolves(s.config, pm) ==>
      var selected := SelectStore(s.config.storeType, s.config.provider, deps.providers,
                                  s.config.providerLoaderName, backend.instances);
      && (selected.Err? ==>
            && r.outcome == Fail(UnableToStartService(selected.error))
            && r.effects == []
            && r.service.credentialStore == s.credentialStore)
      && (selected.Ok? ==> r.service.credentialStore == Some(selected.value))
    // after negotiation, the protection parameter decides whether initialize runs
    ensures LocationResolves(s.config, pm)
            && SelectStore(s.config.storeType, s.config.provider, deps.providers,
                           s.config.providerLoaderName, backend.instances).Ok? ==>
      var protection := ResolveProtectionParameter(s.config.name, deps.credentialSourceSupplier);
      && (protection.Err? ==> r.outcome == Fail(UnableToStartService(protection.error)) && r.effects == [])
      && (protection.Ok? ==> |r.effects| >= 1 && r.effects[0].protection == protection.value)
    // exceptions from initialize and flush are wrapped with their cause; otherwise start succeeds
    ensures |r.effects| >= 1 ==>
      var init := r.effects[0];
      var initialized := backend.initialize(init.store, init.attributes, init.protection, init.otherProviders);
      && (initialized.Fail? ==>
            r.outcome == Fail(UnableToStartService(ExceptionThrown(initialized.error))) && |r.effects| == 1)
      && (initialized.Pass? && |r.effects| == 1 ==> r.outcome == Pass)
      && (|r.effects| == 2 && backend.flush(init.store).Fail? ==>
            r.outcome == Fail(UnableToStartService(ExceptionThrown(backend.flush(init.store).error))))
      && (|r.effects| == 2 && backend.flush(init.store).Pass? ==> r.outcome == Pass)
    // success means the store was initialized and, if flushed, flushed without error
    ensures r.outcome.Pass? ==>
      && |r.effects| >= 1
      && backend.initialize(r.effects[0].store, r.effects[0].attributes, r.effects[0].protection,
                            r.effects[0].otherProviders) == Pass
      && (|r.effects| == 2 ==> backend.flush(r.effects[0].store) == Pass)
  {
    match ResolveLocation(s.config, pm)
    case Err(e) => Started(s, pm, [], Fail(e))
    case Ok(resolved) =>
      var handle := if resolved.handle.Some? then resolved.handle else s.callbackHandle;
      var attributes := s.attributes[LocationKey := fs.absolute(resolved.path)];
      var s1 := s.(attributes := attributes, callbackHandle := handle);
      var pm1 := resolved.pathManager;
      match SelectStore(s.config.storeType, s.config.provider, deps.providers, s.config.providerLoaderName,
                        backend.instances)
      case Err(e) => Started(s1, pm1, [], Fail(UnableToStartService(e)))
      case Ok(store) =>
        var s2 := s1.(credentialStore := Some(store));
        match ResolveProtectionParameter(s.config.name, deps.credentialSourceSupplier)
        case Err(e) => Started(s2, pm1, [], Fail(UnableToStartService(e)))
        case Ok(protection) =>
          var initialized := [Initialized(store, attributes, protection, deps.otherProviders)];
          match backend.initialize(store, attributes, protection, deps.otherProviders)
          case Fail(cause) => Started(s2, pm1, initialized, Fail(UnableToStartService(ExceptionThrown(cause))))
          case Pass =>
            if attributes[CreateKey] == "true" && !fs.fileExists(resolved.path) then
              var flushed := initialized + [Flushed(store)];
              match backend.flush(store)
              case Fail(cause) => Started(s2, pm1, flushed, Fail(UnableToStartService(ExceptionThrown(cause))))
              case Pass => Started(s2, pm1, flushed, Pass)
            else
              Started(s2, pm1, initialized, Pass)
  }

  /** `stop`: removes the callback handle when there is one. Neither field is
      cleared, so the store stays visible through `getValue`. */
  function Stop(s: Service, pm: PathManager): (r: (Service, PathManager))
    requires WellFormed(pm)
    ensures r.0 == s && WellFormed(r.1) && r.1.entries == pm.entries
    ensures s.callbackHandle.None? ==> r.1 == pm
    ensures s.callbackHandle.Some? ==>
      && s.callbackHandle.value !in r.1.callbacks
      && r.1.callbacks.Keys == pm.callbacks.Keys - {s.callbackHandle.value}
      && forall h :: h in r.1.callbacks ==> r.1.callbacks[h] == pm.callbacks[h]
  {
    if s.callbackHandle.Some? then
      var pm' := RemoveCallback(pm, s.callbackHandle.value);
      assert forall h :: h in pm'.callbacks ==> Lookup(pm'.callbacks, h) == Lookup(pm.callbacks, h);
      (s, pm')
    else (s, pm)
  }

  /** `getValue`: whatever `credentialStore` holds, possibly nothing. */
  function GetValue(s: Service): (store: Option<Store>)
  {
    s.credentialStore
  }

  /** A successful start publishes exactly the store it initialized. */
  lemma SuccessfulStartPublishesInitializedStore(s: Service, pm: PathManager, deps: Dependencies,
                                                 backend: Backend, fs: FileSystem)
    requires WellFormed(pm) && Valid(s)
    requires Start(s, pm, deps, backend, fs).outcome.Pass?
    ensures var r := Start(s, pm, deps, backend, fs);
      && GetValue(r.service).Some?
      && r.effects[0] == Initialized(GetValue(r.service).value, r.service.attributes,
                                     r.effects[0].protection, deps.otherProviders)
  {
  }

  /** When every collaborator after location resolution succeeds (negotiation,
      protection, `initialize`, and `flush` where it is needed), start succeeds
      and publishes the negotiated store. */
  lemma StartSucceedsWhenCollaboratorsSucceed(s: Service, pm: PathManager, deps: Dependencies,
                                              backend: Backend, fs: FileSystem, store: Store,
                                              protection: ProtectionParameter)
    requires WellFormed(pm) && Valid(s) && LocationResolves(s.config, pm)
    requires SelectStore(s.config.storeType, s.config.provider, deps.providers, s.config.providerLoaderName,
                         backend.instances) == Ok(store)
    requires ResolveProtectionParameter(s.config.name, deps.credentialSourceSupplier) == Ok(protection)
    requires var attributes := s.attributes[LocationKey := fs.absolute(ResolveLocation(s.config, pm).value.path)];
      backend.initialize(store, attributes, protection, deps.otherProviders) == Pass
    requires s.attributes[CreateKey] == "true" && !fs.fileExists(ResolveLocation(s.config, pm).value.path) ==>
      backend.flush(store) == Pass
    ensures var r := Start(s, pm, deps, backend, fs);
      r.outcome == Pass && GetValue(r.service) == Some(store)
  {
  }

  /** The store is assigned before `initialize` runs: when the protection
      parameter cannot be resolved, the start fails, nothing is initialized,
      yet `getValue` already returns the uninitialized store. */
  lemma StoreAssignedBeforeInitialize(s: Service, pm: PathManager, deps: Dependencies,
                                      backend: Backend, fs: FileSystem, store: Store)
    requires WellFormed(pm) && Valid(s) && LocationResolves(s.config, pm)
    requires SelectStore(s.config.storeType, s.config.provider, deps.providers, s.config.providerLoaderName,
                         backend.instances) == Ok(store)
    requires deps.credentialSourceSupplier.None?
    ensures var r := Start(s, pm, deps, backend, fs);
      && r.outcome == Fail(UnableToStartService(ProtectionParameterCannotBeResolved(s.config.name)))
      && r.effects == []
      && GetValue(r.service) == Some(store)
  {
  }

  /** A failed start after a registration leaves the callback registered and
      the handle recorded; only `stop` releases it. */
  lemma FailedStartKeepsSubscription(s: Service, pm: PathManager, deps: Dependencies, backend: Backend, fs: FileSystem)
    requires WellFormed(pm) && Valid(s)
    requires s.config.relativeTo.Some? && LocationResolves(s.config, pm)
    requires Start(s, pm, deps, backend, fs).outcome.Fail?
    ensures var r := Start(s, pm, deps, backend, fs);
      && r.service.callbackHandle.Some?
      && r.service.callbackHandle.value in r.pathManager.callbacks
      && r.service.callbackHandle.value !in Stop(r.service, r.pathManager).1.callbacks
  {
  }

  /** Start followed by stop leaves the path manager's callback table as it
      was, whatever the outcome of the start, for a service that held no
      handle before. */
  lemma StartThenStopReleasesSubscription(s: Service, pm: PathManager, deps: Dependencies,
                                          backend: Backend, fs: FileSystem)
    requires WellFormed(pm) && Valid(s) && s.callbackHandle.None?
    ensures var r := Start(s, pm, deps, backend, fs);
      Stop(r.service, r.pathManager).1.callbacks == pm.callbacks
  {
  }

  /** The part of `start`'s contract about the callback table, for a service
      whose location is relative to a known path entry. */
  lemma StartRegistersFreshHandle(s: Service, pm: PathManager, deps: Dependencies, backend: Backend, fs: FileSystem)
    requires WellFormed(pm) && Valid(s)
    requires s.config.relativeTo.Some? && LocationResolves(s.config, pm)
    ensures var r := Start(s, pm, deps, backend, fs);
      && r.service.callbackHandle.Some?
      && r.service.callbackHandle.value !in pm.callbacks
      && r.pathManager.callbacks.Keys == pm.callbacks.Keys + {r.service.callbackHandle.value}
      && WellFormed(r.pathManager) && Valid(r.service)
      && r.service.config == s.config && r.pathManager.entries == pm.entries
  {
  }

  /** Starting twice without a stop in between (for instance retrying a failed
      start) registers a second callback and overwrites the handle of the
      first, so the following stop leaves the first registration live. */
  lemma RestartWithoutStopLeaksFirstSubscription(s: Service, pm: PathManager, deps: Dependencies,
                                                 backend: Backend, fs: FileSystem)
    requires WellFormed(pm) && Valid(s)
    requires s.config.relativeTo.Some? && LocationResolves(s.config, pm)
    ensures var first := Start(s, pm, deps, backend, fs);
      var second := Start(first.service, first.pathManager, deps, backend, fs);
      var stopped := Stop(second.service, second.pathManager).1;
      && first.service.callbackHandle.Some?
      && first.service.callbackHandle.value in stopped.callbacks
      && |stopped.callbacks| == |pm.callbacks| + 1
  {
  }

  /** A key-store credential store "cs1" relative to a base directory at
      "/data", with `create` set, a password from the supplier and no file
      yet: the store is initialized at the absolute path, flushed, published,
      and one callback is registered. */
  lemma CreateNewStoreScenario(pm: PathManager, store: Store)
    requires WellFormed(pm)
    requires "jboss.server.data.dir" in pm.entries && pm.entries["jboss.server.data.dir"] == "/data"
    ensures
      var s := CreateCredentialStoreService("cs1", None, true, true, None, None, None,
                                            Some("jboss.server.data.dir"), None, None);
      var deps := Dependencies(None, None,
                               Some(Returns(CredentialSource(Found(PasswordCredential("secret"))))));
      var instances := Instances((t, p) => OtherError("no such provider"), (t, p) => NoSuchAlgorithm,
                                 t => if t == KeyStoreCredentialStoreType then Created(store) else NoSuchAlgorithm);
      var backend := Backend(instances, (st, a, p, o) => Pass, st => Pass);
      var fs := FileSystem((p: FilePath) => if p.Joined? then p.base + "/" + p.location else p.location, (p: FilePath) => false);
      var r := Start(s, pm, deps, backend, fs);
      && r.outcome == Pass
      && r.effects == [Initialized(store, r.service.attributes, CredentialSourceProtectionParameter([PasswordCredential("secret")]), None),
                       Flushed(store)]
      && r.service.attributes[LocationKey] == "/data/cs1"
      && r.service.attributes[KeyStoreTypeKey] == DefaultKeyStoreType
      && GetValue(r.service) == Some(store)
      && |r.pathManager.callbacks| == |pm.callbacks| + 1
  {
  }
}
