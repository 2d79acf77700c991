# Credential-store service model

A Dafny model of the Elytron subsystem's `CredentialStoreService`. This is the
service that owns a `CredentialStore` instance for as long as it runs. The
model covers four parts:

- **Configuration assembly.** `createCredentialStoreService` and the private
  constructor. The inputs become an immutable `Config` plus the attribute map
  (`StoreConfig`, `CredentialStoreService.CreateCredentialStoreService`).
- **Location resolution.** `resolveLocation` and its anonymous path-manager
  callback. The path manager is modelled as named path entries plus a table of
  live callback registrations (`Location`).
- **Provider negotiation.** `getCredentialStoreInstance`. It is written twice:
  once as a recursive first-match search (`Providers.SearchCandidates`,
  `Providers.SelectStore`), and once as a method whose loop mirrors the Java
  `for` loop. The method is proved equal to the search.
- **Protection-parameter resolution** (`Protection`), and the **`start` /
  `stop` / `getValue` lifecycle** (`CredentialStoreService`).

Every collaborator is an oracle whose answers are fixed before `start` runs:

- the path manager's entries;
- the three `CredentialStore.getInstance` overloads (`Instances`);
- `initialize` and `flush` (`Backend`);
- `toAbsolutePath` and `exists` (`FileSystem`);
- the credential-source supplier (`SupplierAnswer`).

A Java `null` is `None`. An exception is a `Failure` value. `start` returns
four things: the new service state, the new path-manager state, the calls it
made on the store instance (`Effect`s), and its outcome (success or the
failure it throws). The trace of calls lets the contracts state ordering: what
`initialize` saw, and when `flush` follows.

Three behaviours of the code matter for the lemmas below:

- A present but empty injected provider list is an error
  (`providerLoaderCannotSupplyProvider`). It does not fall back to the default
  provider.
- The path-manager callback is registered before the `try` in `start`. A
  failed start therefore keeps the registration and the handle, and only
  `stop` removes the registration. Starting again without a stop overwrites the handle and
  leaves the first registration live
  (`RestartWithoutStopLeaksFirstSubscription`).
- `credentialStore` is assigned before `initialize` runs, and `stop` clears
  neither field. So `getValue` can return a store that was never initialized,
  or one whose service has stopped.

Three constants come from classes outside this model:

- `KeyStoreCredentialStore.KEY_STORE_CREDENTIAL_STORE` is `"KeyStoreCredentialStore"`.
- `ElytronDescriptionConstants.MODIFIABLE` is `"modifiable"`.
- `ElytronDescriptionConstants.CREATE` is `"create"`.

## Model

| member | source | states |
|---|---|---|
| StoreConfig.BoolToString | elytron/src/main/java/org/wildfly/extension/elytron/CredentialStoreService.java:98-99 | the flag string is "true" exactly when the flag is set and "false" exactly when it is not |
| StoreConfig.EffectiveType | elytron/src/main/java/org/wildfly/extension/elytron/CredentialStoreService.java:83 | the stored type is the key-store credential store type when the argument is null, otherwise the argument |
| StoreConfig.AssembleAttributes | elytron/src/main/java/org/wildfly/extension/elytron/CredentialStoreService.java:93-102 | for every key, the built map agrees with the key-by-key reference: flags forced, caller value kept, "JCEKS" only for an absent keyStoreType of a key-store backed store |
| StoreConfig.MakeConfig | elytron/src/main/java/org/wildfly/extension/elytron/CredentialStoreService.java:81-90 | the constructor keeps name, provider, relative-to and loader names, defaults the type, and receives the location defaulted to the name |
| StoreConfig.FlagsOverrideImplementationAttributes | elytron/src/main/java/org/wildfly/extension/elytron/CredentialStoreService.java:94-99 | `modifiable` and `create` are always present and equal Boolean.toString of the flags, whatever the caller's map held |
| StoreConfig.ImplementationAttributesCopied | elytron/src/main/java/org/wildfly/extension/elytron/CredentialStoreService.java:94-96 | every caller attribute other than the two flags is copied unchanged |
| StoreConfig.KeyStoreTypeRule | elytron/src/main/java/org/wildfly/extension/elytron/CredentialStoreService.java:100-102 | keyStoreType is present exactly when given by the caller or the store is key-store backed; a caller value is never overwritten; otherwise it is "JCEKS" |
| StoreConfig.KeyStoreTestMatchesEffectiveType | elytron/src/main/java/org/wildfly/extension/elytron/CredentialStoreService.java:83-102 | the factory's raw-type test holds exactly when the constructor's defaulted type is the key-store type |
| StoreConfig.NullAttributesYieldOnlyFlags | elytron/src/main/java/org/wildfly/extension/elytron/CredentialStoreService.java:93-102 | with a null attribute map the keys are exactly the two flags, plus keyStoreType for key-store backed stores |
| Location.RegisterCallback | elytron/src/main/java/org/wildfly/extension/elytron/CredentialStoreService.java:141-154 | registration adds one live entry under a handle not already live and leaves the path entries alone |
| Location.RemoveCallback | elytron/src/main/java/org/wildfly/extension/elytron/CredentialStoreService.java:127-129 | after removal the handle is not live and every other registration is unchanged |
| Location.ResolveLocation | elytron/src/main/java/org/wildfly/extension/elytron/CredentialStoreService.java:137-159 | without relative-to: the location alone, nothing registered; with an unknown name: path-entry-not-found; otherwise the base directory joined with the location and one fresh REMOVED/UPDATED registration for that name |
| Location.ResolveRegistersAtMostOnce | elytron/src/main/java/org/wildfly/extension/elytron/CredentialStoreService.java:138-158 | a successful resolution grows the callback table by one when relative-to is set and by none otherwise |
| Location.AbsoluteLocationIgnoresPathManager | elytron/src/main/java/org/wildfly/extension/elytron/CredentialStoreService.java:156-158 | without relative-to the resolved path is the location whatever the path manager holds |
| Location.Callback | elytron/src/main/java/org/wildfly/extension/elytron/CredentialStoreService.java:144-153 | a notification asks for a reload exactly when it is a model event whose context disallows a service restart; a path event does nothing |
| Location.RegisteredCallbackReactsOnlyToModelEvents | elytron/src/main/java/org/wildfly/extension/elytron/CredentialStoreService.java:141-154 | the registration made by resolution is for the relative-to name and for exactly the REMOVED and UPDATED events |
| Location.DispatchRequestsReloadIff | elytron/src/main/java/org/wildfly/extension/elytron/CredentialStoreService.java:144-148 | over any run of notifications a reload is requested exactly when some model event arrived with restart not allowed |
| Providers.AsResult | elytron/src/main/java/org/wildfly/extension/elytron/CredentialStoreService.java:164-179 | a getInstance answer is a store exactly when it created one; NoSuchAlgorithm and other exceptions become the matching failures |
| Providers.SearchCandidates | elytron/src/main/java/org/wildfly/extension/elytron/CredentialStoreService.java:168-176 | nothing is found exactly when every candidate rejects the type; otherwise the answer is that of some candidate that does not reject it and all before it do |
| Providers.SelectStore | elytron/src/main/java/org/wildfly/extension/elytron/CredentialStoreService.java:161-181 | explicit provider used directly; no list means the default provider; with a list, the answer of the first candidate that does not throw NoSuchAlgorithmException (store or other exception), and providerLoaderCannotSupplyProvider exactly when every candidate rejects the type |
| Providers.GetCredentialStoreInstance | elytron/src/main/java/org/wildfly/extension/elytron/CredentialStoreService.java:161-181 | the loop that skips only NoSuchAlgorithmException returns what the first-match search selects |
| Providers.SkipsUnsupportedCandidate | elytron/src/main/java/org/wildfly/extension/elytron/CredentialStoreService.java:170-175 | with candidates X then Y where only Y supports the type, Y's store is chosen without error |
| Providers.EmptyListDoesNotFallBack | elytron/src/main/java/org/wildfly/extension/elytron/CredentialStoreService.java:167-176 | an injected empty list yields providerLoaderCannotSupplyProvider, not the default provider |
| Providers.ExplicitProviderHasNoFallback | elytron/src/main/java/org/wildfly/extension/elytron/CredentialStoreService.java:162-165 | with an explicit provider the result depends on neither the injected list nor the default provider |
| Providers.FirstSupportingCandidateWins | elytron/src/main/java/org/wildfly/extension/elytron/CredentialStoreService.java:170-175 | if candidate k is the first that does not reject the type, the search returns exactly its answer |
| Protection.ToProtectionParameter | elytron/src/main/java/org/wildfly/extension/elytron/CredentialStoreService.java:225-227 | the parameter holds exactly one credential, the given one |
| Protection.ResolveProtectionParameter | elytron/src/main/java/org/wildfly/extension/elytron/CredentialStoreService.java:215-223 | a null supplier or null source gives cannot-be-resolved(name), exactly; exceptions from the supplier or from getCredential propagate with their cause; no credential gives the null-credential failure; success exactly when a password is found, wrapping only it |
| Protection.ServiceNameOnlyNamesUnresolvedParameter | elytron/src/main/java/org/wildfly/extension/elytron/CredentialStoreService.java:215-223 | for two different service names, resolution gives the same result exactly when the supplier is present and does not return null: the name appears only in the cannot-be-resolved error |
| CredentialStoreService.CreateCredentialStoreService | elytron/src/main/java/org/wildfly/extension/elytron/CredentialStoreService.java:92-104 | a fresh service with no store and no handle, defaulted type and location, and every attribute as the key-by-key reference prescribes |
| CredentialStoreService.Start | elytron/src/main/java/org/wildfly/extension/elytron/CredentialStoreService.java:111-123 | location failure changes nothing and is unwrapped; a registration survives any outcome; location is the absolute path, other attributes kept; the negotiated store is assigned, and a negotiation failure wraps that failure with the store unchanged; a protection failure is wrapped with nothing initialized; otherwise initialize runs once on that store with that map and parameter; initialize/flush exceptions are wrapped with their cause; flush follows a successful initialize exactly when create is "true" and the file is missing; start succeeds exactly when initialize and any needed flush succeed |
| CredentialStoreService.StartSucceedsWhenCollaboratorsSucceed | elytron/src/main/java/org/wildfly/extension/elytron/CredentialStoreService.java:111-123 | when negotiation, protection, initialize and any needed flush all succeed, start succeeds and publishes the negotiated store |
| CredentialStoreService.Stop | elytron/src/main/java/org/wildfly/extension/elytron/CredentialStoreService.java:126-130 | removes the recorded handle's registration, leaves the rest of the table, and leaves the service's fields as they were; no handle means nothing changes |
| CredentialStoreService.GetValue | elytron/src/main/java/org/wildfly/extension/elytron/CredentialStoreService.java:133-135 | returns the credentialStore field as it stands, possibly nothing; what that is after start and stop is stated by the lemmas below and by Stop |
| CredentialStoreService.SuccessfulStartPublishesInitializedStore | elytron/src/main/java/org/wildfly/extension/elytron/CredentialStoreService.java:115-135 | after a successful start getValue returns the store that was initialized with the service's attributes |
| CredentialStoreService.StoreAssignedBeforeInitialize | elytron/src/main/java/org/wildfly/extension/elytron/CredentialStoreService.java:115-116 | when the protection parameter cannot be resolved, start fails without initializing yet getValue already returns the store |
| CredentialStoreService.FailedStartKeepsSubscription | elytron/src/main/java/org/wildfly/extension/elytron/CredentialStoreService.java:111-130 | a failed start after registration leaves the handle recorded and live; stop then releases it |
| CredentialStoreService.StartThenStopReleasesSubscription | elytron/src/main/java/org/wildfly/extension/elytron/CredentialStoreService.java:111-130 | for a service with no prior handle, start then stop restores the callback table, whatever start's outcome |
| CredentialStoreService.StartRegistersFreshHandle | elytron/src/main/java/org/wildfly/extension/elytron/CredentialStoreService.java:111-112 | with relative-to on a known entry, start records a handle not previously live and the table grows by exactly that handle |
| CredentialStoreService.RestartWithoutStopLeaksFirstSubscription | elytron/src/main/java/org/wildfly/extension/elytron/CredentialStoreService.java:112-130 | two starts without a stop, then a stop, leave the first registration live and the table one entry larger |
| CredentialStoreService.CreateNewStoreScenario | elytron/src/main/java/org/wildfly/extension/elytron/CredentialStoreService.java:92-123 | a key-store store "cs1" under "/data" with create set and no file is initialized at "/data/cs1" with the supplied password, flushed, published, and has keyStoreType "JCEKS" |

## Left out

- The MSC injection plumbing is replaced by a `Dependencies` record of already-resolved values. This covers `InjectedValue` and the `get*Injector` accessors. The injected `CredentialStore` is never read by the service.
- `getName`, `getType` and `getProvider` are plain field reads of `Config`.
- Path arithmetic is abstract. `Paths.get`, `toAbsolutePath` and `File.exists` are a `FilePath` value plus `FileSystem` oracles.
- `resolveRelativePathEntry("", name)` is read as the entry's own path. A missing entry is `PathEntryNotFound`. The path manager's own code is not part of this model.
- The store backend, crypto providers and keystore formats are oracles: `getInstance`, `initialize` and `flush`.
  - `initialize` and `flush` report only success or an exception cause.
  - `NoSuchProviderException` from the named-provider overload is one of the "other" exceptions.
- A source that yields no password credential is modelled as `NullCredential`. The source code passes `null` to `IdentityCredentials.withCredential`, which rejects it. `IdentityCredentials` is not part of this model.
- StoreConfig.AssembleAttributes: null values in the caller's attribute map are not modelled, because the map is `map<string, string>`. In the source, `putAll` copies a null value, and `putIfAbsent` treats `keyStoreType` mapped to null as absent and writes "JCEKS".
- The service name is assumed non-null. With a null name and a null location, the Java code would fail inside `Paths.get`.
- Message-catalogue formatting and logging are reduced to `Failure` constructors that carry the name, the type or the cause.
- Concurrency is not modelled. The path-manager callback may fire on another thread; here it is a pure function of the notification.
- The runtime exceptions that Java code can throw anywhere are not modelled, for example `IllegalStateException` from an uninjected value.
