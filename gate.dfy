/**
 * The forced password change (`PasswordChangeMiddleware`): a signed-in user
 * whose account is flagged `must_change_password` is sent to the password
 * change page from every page except that one and logout.
 */
module Gate {

  /** What the middleware reads from a request. */
  datatype Request = Request(authenticated: bool, mustChangePassword: bool, path: string)

  datatype Route = PassThrough | RedirectToPasswordChange

  /**
   * The decision for one request; the two allowed paths are the reversed
   * URLs of the password change and logout views.
   */
  function Decide(req: Request, passwordChangePath: string, logoutPath: string): (r: Route)
    ensures r == RedirectToPasswordChange <==>
      req.authenticated && req.mustChangePassword && req.path != passwordChangePath && req.path != logoutPath
  {
    if req.authenticated && req.mustChangePassword then
      var allowed := [passwordChangePath, logoutPath];
      if req.path !in allowed then RedirectToPasswordChange else PassThrough
    else PassThrough
  }

  /** The password change and logout pages are always reachable. */
  lemma AllowedPathsPass(req: Request, passwordChangePath: string, logoutPath: string)
    requires req.path == passwordChangePath || req.path == logoutPath
    ensures Decide(req, passwordChangePath, logoutPath) == PassThrough
  {
  }

  /** Anonymous requests and users without the flag are never redirected. */
  lemma UnflaggedPass(req: Request, passwordChangePath: string, logoutPath: string)
    requires !req.authenticated || !req.mustChangePassword
    ensures Decide(req, passwordChangePath, logoutPath) == PassThrough
  {
  }

  /** Following the redirect reaches a page the middleware lets through: there is no redirect loop. */
  lemma RedirectTargetPasses(req: Request, passwordChangePath: string, logoutPath: string)
    requires Decide(req, passwordChangePath, logoutPath) == RedirectToPasswordChange
    ensures Decide(req.(path := passwordChangePath), passwordChangePath, logoutPath) == PassThrough
    ensures req.path != passwordChangePath
  {
  }

  /** Once the password is changed and the flag cleared, every page passes. */
  lemma ClearedFlagPasses(req: Request, passwordChangePath: string, logoutPath: string)
    ensures Decide(req.(mustChangePassword := false), passwordChangePath, logoutPath) == PassThrough
  {
  }
}
