/**
 * The access policy applied before a handler runs: AbstractRestApiRequestHandler.hasAccess,
 * isCheckAccess and isPublicUrl.
 */
module AccessPolicy {
  import opened Wrappers
  import opened ApiTypes

  const PublicPrefix := "/public/"

  /** isPublicUrl: the path starts with "/public/". */
  predicate IsPublicUrl(path: string) {
    PublicPrefix <= path
  }

  /** isCheckAccess: every method but "options" is access-checked. */
  predicate IsCheckAccess(httpMethod: string) {
    httpMethod != "options"
  }

  /** The caller flags that grant access before the path is even looked at. */
  predicate Privileged(auth: Authorizer) {
    auth.callerAssumeRole || auth.callerIamUser || auth.userAdmin
  }

  /** The documented rule as one disjunction, over a path that is present. */
  predicate Allowed(httpMethod: string, path: string, handler: Handler, auth: Authorizer) {
    || auth.callerAssumeRole
    || auth.callerIamUser
    || auth.userAdmin
    || PublicPrefix <= path
    || (handler.isReadonly(httpMethod) && auth.userReadAccess)
    || auth.userWriteAccess
  }

  /**
   * hasAccess, with its evaluation order: the role flags first, then the path (a null
   * path is dereferenced only here, throwing), then read-only-with-read or write access.
   */
  function HasAccess(httpMethod: string, path: Option<string>, handler: Handler, auth: Authorizer)
    : (r: Result<bool, Failure>)
    ensures r.Err? <==> path.None? && !Privileged(auth)
    ensures r.Err? ==> r.error.Unclassified?
    ensures path.Some? ==> r == Ok(Allowed(httpMethod, path.value, handler, auth))
    ensures path.None? && Privileged(auth) ==> r == Ok(true)
  {
    if Privileged(auth) then Ok(true)
    else if path.None? then Err(Unclassified("NullPointerException"))
    else if IsPublicUrl(path.value) then Ok(true)
    else if (handler.isReadonly(httpMethod) && auth.userReadAccess) || auth.userWriteAccess then Ok(true)
    else Ok(false)
  }

  /** Write access alone admits every method on every path. */
  lemma WriteAccessSuffices(httpMethod: string, path: string, handler: Handler, auth: Authorizer)
    requires auth.userWriteAccess
    ensures HasAccess(httpMethod, Some(path), handler, auth) == Ok(true)
  {
  }

  /** Read access alone never admits a method the handler does not call read-only, off the public prefix. */
  lemma ReadAccessAloneInsufficient(httpMethod: string, path: string, handler: Handler, auth: Authorizer)
    requires !Privileged(auth) && !auth.userWriteAccess
    requires !handler.isReadonly(httpMethod) && !IsPublicUrl(path)
    ensures HasAccess(httpMethod, Some(path), handler, auth) == Ok(false)
  {
  }

  /** Administrators, IAM users and assumed roles are admitted whatever the path, even a null one. */
  lemma PrivilegedAlwaysAllowed(httpMethod: string, path: Option<string>, handler: Handler, auth: Authorizer)
    requires Privileged(auth)
    ensures HasAccess(httpMethod, path, handler, auth) == Ok(true)
  {
  }

  /** Any path under "/public/" is admitted whatever the caller's flags. */
  lemma PublicPathAlwaysAllowed(httpMethod: string, path: string, handler: Handler, auth: Authorizer)
    requires IsPublicUrl(path)
    ensures HasAccess(httpMethod, Some(path), handler, auth) == Ok(true)
  {
  }
}
