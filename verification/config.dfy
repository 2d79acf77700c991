/** Configuration assembly: `createCredentialStoreService` and the private
    constructor of the credential-store service. Java `null` inputs are
    `None`. */
module StoreConfig {
  import opened Wrappers

  /** `KeyStoreCredentialStore.KEY_STORE_CREDENTIAL_STORE`. */
  const KeyStoreCredentialStoreType: string := "KeyStoreCredentialStore"
  /** `ElytronDescriptionConstants.MODIFIABLE`. */
  const ModifiableKey: string := "modifiable"
  /** `ElytronDescriptionConstants.CREATE`. */
  const CreateKey: string := "create"
  /** `CS_KEY_STORE_TYPE_ATTRIBUTE`. */
  const KeyStoreTypeKey: string := "keyStoreType"
  /** `CS_LOCATION_ATTRIBUTE`. */
  const LocationKey: string := "location"
  /** The key-store type put in when the caller gives none. */
  const DefaultKeyStoreType: string := "JCEKS"

  /** The immutable fields of the service, fixed by the constructor. */
  datatype Config = Config(
    name: string,
    storeType: string,
    provider: Option<string>,
    relativeTo: Option<string>,
    location: string,
    providerLoaderName: Option<string>,
    otherProvidersLoaderName: Option<string>)

  /** `Boolean.toString`. */
  function BoolToString(b: bool): (s: string)
    ensures s == "true" <==> b
    ensures s == "false" <==> !b
  {
    if b then "true" else "false"
  }

  /** Whether the raw `type` argument selects the key-store backed store:
      `type == null || type.equals(KEY_STORE_CREDENTIAL_STORE)`. */
  predicate IsKeyStoreType(rawType: Option<string>) {
    rawType.None? || rawType.value == KeyStoreCredentialStoreType
  }

  /** The type the constructor stores: the raw type, or the key-store
      credential store type when it is null. */
  function EffectiveType(rawType: Option<string>): (t: string)
    ensures rawType.None? ==> t == KeyStoreCredentialStoreType
    ensures rawType.Some? ==> t == rawType.value
  {
    if rawType.None? then KeyStoreCredentialStoreType else rawType.value
  }

  /** A key-by-key description of the attribute map the factory builds, used
      as the reference for `AssembleAttributes`. */
  function ExpectedAttribute(implementationAttributes: Option<map<string, string>>,
                             modifiable: bool, create: bool, rawType: Option<string>,
                             k: string): (value: Option<string>)
  {
    var given := if implementationAttributes.Some? then Lookup(implementationAttributes.value, k) else None;
    if k == ModifiableKey then Some(BoolToString(modifiable))
    else if k == CreateKey then Some(BoolToString(create))
    else if k == KeyStoreTypeKey && given.None? && IsKeyStoreType(rawType) then Some(DefaultKeyStoreType)
    else given
  }

  /** The attribute map built by `createCredentialStoreService`: copy the
      implementation attributes, force the two flags, then `putIfAbsent` the
      default key-store type for key-store backed stores. */
  function AssembleAttributes(implementationAttributes: Option<map<string, string>>,
                              modifiable: bool, create: bool, rawType: Option<string>): (m: map<string, string>)
    ensures forall k :: Lookup(m, k) == ExpectedAttribute(implementationAttributes, modifiable, create, rawType, k)
  {
    var copied := if implementationAttributes.Some? then implementationAttributes.value else map[];
    var flags := copied[ModifiableKey := BoolToString(modifiable)][CreateKey := BoolToString(create)];
    if IsKeyStoreType(rawType) && KeyStoreTypeKey !in flags then flags[KeyStoreTypeKey := DefaultKeyStoreType]
    else flags
  }

  /** The constructor: defaults the type; the factory defaults the location to
      the name before calling it. */
  function MakeConfig(name: string, location: Option<string>, rawType: Option<string>,
                      provider: Option<string>, relativeTo: Option<string>,
                      providerLoaderName: Option<string>, otherProvidersLoaderName: Option<string>): (c: Config)
    ensures c.name == name && c.provider == provider && c.relativeTo == relativeTo
    ensures c.providerLoaderName == providerLoaderName && c.otherProvidersLoaderName == otherProvidersLoaderName
    ensures rawType.None? ==> c.storeType == KeyStoreCredentialStoreType
    ensures rawType.Some? ==> c.storeType == rawType.value
    ensures location.None? ==> c.location == name
    ensures location.Some? ==> c.location == location.value
  {
    Config(name, EffectiveType(rawType), provider, relativeTo,
           if location.Some? then location.value else name,
           providerLoaderName, otherProvidersLoaderName)
  }

  /** The flags are always present and equal to `Boolean.toString` of the
      arguments, whatever the implementation attributes said. */
  lemma FlagsOverrideImplementationAttributes(implementationAttributes: Option<map<string, string>>,
                                              modifiable: bool, create: bool, rawType: Option<string>)
    ensures var m := AssembleAttributes(implementationAttributes, modifiable, create, rawType);
      && ModifiableKey in m && m[ModifiableKey] == BoolToString(modifiable)
      && CreateKey in m && m[CreateKey] == BoolToString(create)
  {
  }

  /** Every other caller-supplied attribute is copied unchanged. */
  lemma ImplementationAttributesCopied(impl: map<string, string>, modifiable: bool, create: bool,
                                       rawType: Option<string>, k: string)
    requires k in impl && k != ModifiableKey && k != CreateKey
    ensures var m := AssembleAttributes(Some(impl), modifiable, create, rawType);
      k in m && m[k] == impl[k]
  {
  }

  /** `keyStoreType` is present exactly when the caller gave one or the store
      is key-store backed; a caller-supplied value is never overwritten, and
      otherwise the value is "JCEKS". */
  lemma KeyStoreTypeRule(implementationAttributes: Option<map<string, string>>,
                         modifiable: bool, create: bool, rawType: Option<string>)
    ensures var m := AssembleAttributes(implementationAttributes, modifiable, create, rawType);
      var given := implementationAttributes.Some? && KeyStoreTypeKey in implementationAttributes.value;
      && (KeyStoreTypeKey in m <==> given || IsKeyStoreType(rawType))
      && (given ==> m[KeyStoreTypeKey] == implementationAttributes.value[KeyStoreTypeKey])
      && (!given && IsKeyStoreType(rawType) ==> m[KeyStoreTypeKey] == DefaultKeyStoreType)
  {
  }

  /** The raw-type test of the factory agrees with the type the constructor
      stores: "JCEKS" is defaulted exactly for key-store backed services. */
  lemma KeyStoreTestMatchesEffectiveType(rawType: Option<string>)
    ensures IsKeyStoreType(rawType) <==> EffectiveType(rawType) == KeyStoreCredentialStoreType
  {
  }

  /** With a null attribute map the result holds only the two flags and, for
      key-store backed stores, the default key-store type. */
  lemma NullAttributesYieldOnlyFlags(modifiable: bool, create: bool, rawType: Option<string>)
    ensures var m := AssembleAttributes(None, modifiable, create, rawType);
      m.Keys == {ModifiableKey, CreateKey} + (if IsKeyStoreType(rawType) then {KeyStoreTypeKey} else {})
  {
  }
}
