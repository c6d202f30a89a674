/**
 * The two permission gates of src/middlewares/permission.middleware.js.
 * A gate reads the caller's global role from the request and either lets
 * the request continue (`next()`) or throws an `ApiError` with 401 or 403.
 * Both are modelled as functions from the request to an outcome; they
 * return no request, so they cannot alter the caller.
 */
module PermissionMiddleware {
  import opened Wrappers
  import opened Permissions

  /** The caller identity that the upstream authentication step attached. */
  datatype User = User(role: Option<Role>)

  /** The only part of a request the gates read: `req.user`. */
  datatype Request = Request(user: Option<User>)

  /** The status code and message of a thrown `ApiError`. */
  datatype ApiFailure = ApiFailure(statusCode: int, message: string)

  datatype GateOutcome = Next | Fail(error: ApiFailure)

  const Unauthorized := ApiFailure(401, "Unauthorized access")
  const Forbidden := ApiFailure(403, "You don't have permission to perform this action")

  /**
   * `!!req.user?.role`. `None` stands for a role that is undefined, null or
   * another falsy non-string; the empty role string is falsy too.
   */
  predicate HasRole(req: Request) {
    req.user.Some? && req.user.value.role.Some? && req.user.value.role.value != Other("")
  }

  function CallerRole(req: Request): Role
    requires HasRole(req)
  {
    req.user.value.role.value
  }

  /** `checkPermission(requiredPermission)` applied to a request. */
  function CheckPermission(required: string, req: Request): (r: GateOutcome)
    ensures r == Next || r == Fail(Unauthorized) || r == Fail(Forbidden)
    ensures r == Fail(Unauthorized) <==> !HasRole(req)
    ensures r == Fail(Forbidden) <==> HasRole(req) && !HasPermission(CallerRole(req), required)
    ensures r == Next <==> HasRole(req) && HasPermission(CallerRole(req), required)
  {
    if !HasRole(req) then Fail(Unauthorized)
    else if !HasPermission(CallerRole(req), required) then Fail(Forbidden)
    else Next
  }

  /** `checkPermissions(requiredPermissions)` applied to a request. */
  function CheckPermissions(required: seq<string>, req: Request): (r: GateOutcome)
    ensures r == Next || r == Fail(Unauthorized) || r == Fail(Forbidden)
    ensures r == Fail(Unauthorized) <==> !HasRole(req)
    ensures r == Fail(Forbidden) <==>
      HasRole(req) && exists i :: 0 <= i < |required| && !HasPermission(CallerRole(req), required[i])
    ensures r == Next <==>
      HasRole(req) && forall i :: 0 <= i < |required| ==> HasPermission(CallerRole(req), required[i])
  {
    if !HasRole(req) then Fail(Unauthorized)
    else if !CheckMultiplePermissions(CallerRole(req), required) then Fail(Forbidden)
    else Next
  }

  /** A caller without a role is turned away with 401 by both gates, whatever they require. */
  lemma MissingRoleIsUnauthorized(req: Request, p: string, ps: seq<string>)
    requires req.user.None? || req.user.value.role.None? || req.user.value.role == Some(Other(""))
    ensures CheckPermission(p, req) == Fail(Unauthorized)
    ensures CheckPermissions(ps, req) == Fail(Unauthorized)
  {
  }

  /** With a role present, an empty requirement list always lets the request through. */
  lemma EmptyRequirementPasses(req: Request)
    requires HasRole(req)
    ensures CheckPermissions([], req) == Next
  {
  }

  /** `checkPermissions([p])` behaves exactly as `checkPermission(p)`, for every caller. */
  lemma SingletonGateAgrees(p: string, req: Request)
    ensures CheckPermissions([p], req) == CheckPermission(p, req)
  {
    if HasRole(req) {
      CheckComposes(CallerRole(req), [], [], p);
    }
  }

  /** The plural gate passes exactly when every singular gate for its permissions passes and a role is present. */
  lemma PluralGateIsConjunction(ps: seq<string>, req: Request)
    ensures CheckPermissions(ps, req) == Next <==>
      HasRole(req) && forall i :: 0 <= i < |ps| ==> CheckPermission(ps[i], req) == Next
  {
  }

  /** A caller with a role but a role that lacks the permission is refused with 403. */
  lemma UnknownRoleIsForbidden(name: string, p: string)
    requires name != ""
    ensures CheckPermission(p, Request(Some(User(Some(Other(name)))))) == Fail(Forbidden)
  {
    UnknownRoleFailsClosed(name, p);
  }

  /** ADMIN passes every gate built from registry permissions. */
  lemma AdminPassesEveryGate(ps: seq<Permission>)
    ensures CheckPermissions(Ids(ps), Request(Some(User(Some(Admin))))) == Next
  {
    AdminIsSuperuser();
  }
}
