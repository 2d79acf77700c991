/** Protection-parameter resolution (`resolveCredentialStoreProtectionParameter`
    and `credentialToCredentialSourceProtectionParameter`). The injected
    credential-source supplier is an oracle whose answer is fixed. */
module Protection {
  import opened Wrappers
  import opened Failures

  /** A `PasswordCredential`, reduced to its secret. */
  datatype Credential = PasswordCredential(secret: string)

  /** What `CredentialSource.getCredential(PasswordCredential.class)` does. */
  datatype CredentialAnswer = CredentialThrows(cause: string) | NoCredential | Found(credential: Credential)

  /** A `CredentialSource`, reduced to its answer for a password credential. */
  datatype CredentialSource = CredentialSource(password: CredentialAnswer)

  /** What `ExceptionSupplier.get()` does. */
  datatype SupplierAnswer = Throws(cause: string) | ReturnsNull | Returns(source: CredentialSource)

  /** `CredentialSourceProtectionParameter` over an `IdentityCredentials` set. */
  datatype ProtectionParameter = CredentialSourceProtectionParameter(credentials: seq<Credential>)

  /** `credentialToCredentialSourceProtectionParameter`: `IdentityCredentials.NONE`
      with the one credential added. */
  function ToProtectionParameter(c: Credential): (p: ProtectionParameter)
    ensures |p.credentials| == 1 && c in p.credentials
  {
    CredentialSourceProtectionParameter([c])
  }

  /** `resolveCredentialStoreProtectionParameter`: a null supplier, or one that
      yields null, cannot resolve the parameter; an exception from the supplier
      or from the source propagates with its cause; otherwise the parameter
      wraps exactly the source's password credential. `supplier` is `None` when
      the injected supplier is null. */
  function ResolveProtectionParameter(serviceName: string, supplier: Option<SupplierAnswer>): (r: Result<ProtectionParameter, Failure>)
    ensures (supplier.None? || supplier.value.ReturnsNull?) <==>
      r == Err(ProtectionParameterCannotBeResolved(serviceName))
    ensures supplier.Some? && supplier.value.Throws? ==> r == Err(ExceptionThrown(supplier.value.cause))
    ensures supplier.Some? && supplier.value.Returns? && supplier.value.source.password.CredentialThrows? ==>
      r == Err(ExceptionThrown(supplier.value.source.password.cause))
    ensures supplier.Some? && supplier.value.Returns? && supplier.value.source.password.NoCredential? ==>
      r == Err(NullCredential)
    ensures r.Ok? <==> supplier.Some? && supplier.value.Returns? && supplier.value.source.password.Found?
    ensures r.Ok? ==> r.value.credentials == [supplier.value.source.password.credential]
  {
    match supplier
    case None => Err(ProtectionParameterCannotBeResolved(serviceName))
    case Some(Throws(cause)) => Err(ExceptionThrown(cause))
    case Some(ReturnsNull) => Err(ProtectionParameterCannotBeResolved(serviceName))
    case Some(Returns(source)) =>
      match source.password
      case CredentialThrows(cause) => Err(ExceptionThrown(cause))
      case NoCredential => Err(NullCredential)
      case Found(c) => Ok(ToProtectionParameter(c))
  }

  /** The service name reaches only the cannot-be-resolved error: two
      resolutions under different names agree exactly when the supplier is
      present and does not return null. */
  lemma ServiceNameOnlyNamesUnresolvedParameter(name1: string, name2: string, supplier: Option<SupplierAnswer>)
    requires name1 != name2
    ensures ResolveProtectionParameter(name1, supplier) == ResolveProtectionParameter(name2, supplier)
        <==> supplier.Some? && !supplier.value.ReturnsNull?
  {
  }
}
