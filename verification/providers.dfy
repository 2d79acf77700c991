/** Provider negotiation (`getCredentialStoreInstance`). The store backend's
    `CredentialStore.getInstance` overloads are oracles: for a store type and
    a provider they answer with a store, a `NoSuchAlgorithmException`, or some
    other exception. */
module Providers {
  import opened Wrappers
  import opened Failures

  /** A `java.security.Provider` handle; only its identity matters here. */
  datatype Provider = Provider(name: string)

  /** A `CredentialStore` instance; only its identity matters here. */
  datatype Store = Store(id: nat)

  /** What one `getInstance` call does. */
  datatype InstanceOutcome = Created(store: Store) | NoSuchAlgorithm | OtherError(cause: string)

  /** The three `getInstance` overloads, as answers fixed per argument. */
  datatype Instances = Instances(
    byName: (string, string) -> InstanceOutcome,
    withProvider: (string, Provider) -> InstanceOutcome,
    byDefault: string -> InstanceOutcome)

  /** A `getInstance` answer as a value or the exception it throws. */
  function AsResult(storeType: string, o: InstanceOutcome): (r: Result<Store, Failure>)
    ensures r.Ok? <==> o.Created?
    ensures o.Created? ==> r.value == o.store
    ensures o.NoSuchAlgorithm? ==> r.error == AlgorithmNotSupported(storeType)
    ensures o.OtherError? ==> r.error == ExceptionThrown(o.cause)
  {
    match o
    case Created(s) => Ok(s)
    case NoSuchAlgorithm => Err(AlgorithmNotSupported(storeType))
    case OtherError(c) => Err(ExceptionThrown(c))
  }

  /** The first `k` candidates all reject the type. */
  ghost predicate SkippedBefore(storeType: string, candidates: seq<Provider>,
                                get: (string, Provider) -> InstanceOutcome, k: int)
    requires 0 <= k <= |candidates|
  {
    forall j :: 0 <= j < k ==> get(storeType, candidates[j]).NoSuchAlgorithm?
  }

  /** The first-match search over the injected list: `None` when every
      candidate rejects the type, otherwise the answer of the first candidate
      that does not throw `NoSuchAlgorithmException`. */
  function SearchCandidates(storeType: string, candidates: seq<Provider>,
                            get: (string, Provider) -> InstanceOutcome): (r: Option<Result<Store, Failure>>)
    ensures r.None? <==> SkippedBefore(storeType, candidates, get, |candidates|)
    ensures r.Some? ==>
      exists i :: 0 <= i < |candidates| && SkippedBefore(storeType, candidates, get, i)
        && !get(storeType, candidates[i]).NoSuchAlgorithm? && r.value == AsResult(storeType, get(storeType, candidates[i]))
  {
    if candidates == [] then None
    else
      var first := get(storeType, candidates[0]);
      if first.NoSuchAlgorithm? then
        var rest := SearchCandidates(storeType, candidates[1..], get);
        assert forall j :: 1 <= j < |candidates| ==> candidates[j] == candidates[1..][j - 1];
        if rest.Some? then
          ghost var i :| 0 <= i < |candidates[1..]| && SkippedBefore(storeType, candidates[1..], get, i)
            && !get(storeType, candidates[1..][i]).NoSuchAlgorithm?
            && rest.value == AsResult(storeType, get(storeType, candidates[1..][i]));
          assert SkippedBefore(storeType, candidates, get, i + 1);
          rest
        else
          rest
      else
        Some(AsResult(storeType, first))
  }

  /** `getCredentialStoreInstance`: an explicit provider is asked directly;
      otherwise an injected list is searched, and running out of candidates
      (including an empty list) is an error; only with no list at all is the
      default provider asked. */
  function SelectStore(storeType: string, provider: Option<string>, injected: Option<seq<Provider>>,
                       providerLoaderName: Option<string>, instances: Instances): (r: Result<Store, Failure>)
    ensures provider.Some? ==> r == AsResult(storeType, instances.byName(storeType, provider.value))
    ensures provider.None? && injected.None? ==> r == AsResult(storeType, instances.byDefault(storeType))
    ensures provider.None? && injected.Some? ==>
      (r == Err(ProviderLoaderCannotSupplyProvider(providerLoaderName, storeType))
       <==> SkippedBefore(storeType, injected.value, instances.withProvider, |injected.value|))
    ensures provider.None? && injected.Some? && SearchCandidates(storeType, injected.value, instances.withProvider).Some? ==>
      r == SearchCandidates(storeType, injected.value, instances.withProvider).value
    ensures provider.None? && injected.Some? && r.Ok? ==>
      exists i :: 0 <= i < |injected.value| && instances.withProvider(storeType, injected.value[i]) == Created(r.value)
  {
    if provider.Some? then AsResult(storeType, instances.byName(storeType, provider.value))
    else if injected.Some? then
      match SearchCandidates(storeType, injected.value, instances.withProvider)
      case Some(found) => found
      case None => Err(ProviderLoaderCannotSupplyProvider(providerLoaderName, storeType))
    else AsResult(storeType, instances.byDefault(storeType))
  }

  /** The loop of `getCredentialStoreInstance` as written: try each injected
      provider in turn, skipping only `NoSuchAlgorithmException`. */
  method GetCredentialStoreInstance(storeType: string, provider: Option<string>, injected: Option<seq<Provider>>,
                                    providerLoaderName: Option<string>, instances: Instances)
    returns (r: Result<Store, Failure>)
    ensures r == SelectStore(storeType, provider, injected, providerLoaderName, instances)
  {
    if provider.Some? {
      return AsResult(storeType, instances.byName(storeType, provider.value));
    }
    if injected.None? {
      return AsResult(storeType, instances.byDefault(storeType));
    }
    var ps := injected.value;
    var i := 0;
    while i < |ps|
      invariant 0 <= i <= |ps|
      invariant SearchCandidates(storeType, ps[i..], instances.withProvider)
             == SearchCandidates(storeType, ps, instances.withProvider)
    {
      var attempt := instances.withProvider(storeType, ps[i]);
      if !attempt.NoSuchAlgorithm? {
        return AsResult(storeType, attempt);
      }
      assert ps[i..][1..] == ps[i + 1..];
      i := i + 1;
    }
    return Err(ProviderLoaderCannotSupplyProvider(providerLoaderName, storeType));
  }

  /** With candidates X and Y where only Y supports the type, Y's store is
      chosen and X's rejection is not an error. */
  lemma SkipsUnsupportedCandidate(storeType: string, x: Provider, y: Provider, s: Store,
                                  loader: Option<string>, instances: Instances)
    requires instances.withProvider(storeType, x) == NoSuchAlgorithm
    requires instances.withProvider(storeType, y) == Created(s)
    ensures SelectStore(storeType, None, Some([x, y]), loader, instances) == Ok(s)
  {
    FirstSupportingCandidateWins(storeType, [x, y], instances.withProvider, 1);
  }

  /** An injected but empty list is an error; the default provider is not
      consulted. */
  lemma EmptyListDoesNotFallBack(storeType: string, loader: Option<string>, instances: Instances)
    ensures SelectStore(storeType, None, Some([]), loader, instances)
         == Err(ProviderLoaderCannotSupplyProvider(loader, storeType))
  {
  }

  /** An explicit provider is final: neither the injected list nor the
      default provider influences the result. */
  lemma ExplicitProviderHasNoFallback(storeType: string, name: string, l1: Option<seq<Provider>>,
                                      l2: Option<seq<Provider>>, loader: Option<string>,
                                      i1: Instances, i2: Instances)
    requires i1.byName == i2.byName
    ensures SelectStore(storeType, Some(name), l1, loader, i1) == SelectStore(storeType, Some(name), l2, loader, i2)
  {
  }

  /** Among candidates, the chosen answer belongs to the first one that does
      not reject the type: a candidate that supports the type shadows every
      later one. */
  lemma FirstSupportingCandidateWins(storeType: string, candidates: seq<Provider>,
                                    get: (string, Provider) -> InstanceOutcome, k: int)
    requires 0 <= k < |candidates|
    requires SkippedBefore(storeType, candidates, get, k)
    requires !get(storeType, candidates[k]).NoSuchAlgorithm?
    ensures SearchCandidates(storeType, candidates, get) == Some(AsResult(storeType, get(storeType, candidates[k])))
  {
  }
}
