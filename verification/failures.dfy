/** The exceptions the credential-store service raises or lets through, as
    values. Each carries the context the message catalogue would print. */
module Failures {
  import opened Wrappers

  datatype Failure =
      /** The path manager has no entry for the `relative-to` name. */
    | PathEntryNotFound(pathName: string)
      /** `NoSuchAlgorithmException`: the provider has no store of this type. */
    | AlgorithmNotSupported(storeType: string)
      /** Any other exception from a collaborator, with its cause. */
    | ExceptionThrown(cause: string)
      /** `providerLoaderCannotSupplyProvider(providerLoaderName, type)`. */
    | ProviderLoaderCannotSupplyProvider(loaderName: Option<string>, storeType: string)
      /** `credentialStoreProtectionParameterCannotBeResolved(name)`. */
    | ProtectionParameterCannotBeResolved(serviceName: string)
      /** The credential source had no password credential to wrap. */
    | NullCredential
      /** `unableToStartService(e)`: the wrapper `start` puts around `e`. */
    | UnableToStartService(reason: Failure)
}
