/**
 * The project router of src/routes/project.routes.js as a constant table:
 * each (method, path) with the ordered middleware chain it registers. The
 * router-wide `verifyJWT` runs before every chain and is modelled only by
 * the `req.user` it leaves behind.
 */
module ProjectRoutes {
  import opened Wrappers
  import opened Json
  import opened Permissions
  import opened PermissionMiddleware
  import ValidatorMiddleware
  import ErrorMiddleware

  datatype HttpMethod = GET | POST | PUT | DELETE

  /** One middleware of a route's chain. */
  datatype Stage =
    | RequirePermission(permission: Permission)          // checkPermission(Permissions.X)
    | RequirePermissions(permissions: seq<Permission>)   // checkPermissions([Permissions.X, ...])
    | ValidatorChain(name: string)                   // an express-validator chain: only collects errors
    | ValidateStage                                  // validate
    | Controller(name: string)                       // the handler, which answers the request

  /** The four path patterns the router registers. */
  datatype RoutePath = Root | ProjectById | ProjectMembers | ProjectMember

  function Pattern(p: RoutePath): string {
    match p
    case Root => "/"
    case ProjectById => "/:projectId"
    case ProjectMembers => "/:projectId/members"
    case ProjectMember => "/:projectId/members/:userId"
  }

  /** The four patterns are distinct paths. */
  lemma PatternsDistinct(p: RoutePath, q: RoutePath)
    ensures Pattern(p) == Pattern(q) <==> p == q
  {
  }

  datatype Route = Route(verb: HttpMethod, path: RoutePath, stages: seq<Stage>)

  const Routes: seq<Route> := [
    Route(GET, Root, [RequirePermission(ViewProject), Controller("getProjects")]),
    Route(POST, Root, [RequirePermission(CreateProject), ValidatorChain("createProjectValidator"), ValidateStage,
                      Controller("createProject")]),
    Route(GET, ProjectById, [RequirePermission(ViewProject), Controller("getProjectById")]),
    Route(PUT, ProjectById, [RequirePermissions([ViewProject, UpdateProject]),
                               ValidatorChain("createProjectValidator"), ValidateStage, Controller("updateProject")]),
    Route(DELETE, ProjectById, [RequirePermissions([ViewProject, DeleteProject]), Controller("deleteProject")]),
    Route(GET, ProjectMembers, [RequirePermissions([ViewProject, ViewUsers]),
                                       Controller("getProjectMembers")]),
    Route(POST, ProjectMembers, [RequirePermissions([ViewProject, ManageProjectMembers]),
                                        ValidatorChain("addMembertoProjectValidator"), ValidateStage,
                                        Controller("addMembersToProject")]),
    Route(PUT, ProjectMember, [RequirePermissions([ViewProject, ManageProjectMembers]),
                                               Controller("updateMemberRole")]),
    Route(DELETE, ProjectMember, [RequirePermissions([ViewProject, ManageProjectMembers]),
                                                  Controller("deleteMember")])
  ]

  predicate IsGate(s: Stage) {
    s.RequirePermission? || s.RequirePermissions?
  }

  predicate IsValidation(s: Stage) {
    s.ValidatorChain? || s.ValidateStage?
  }

  /** The outcome of a permission stage for a request. */
  function Gate(s: Stage, req: Request): GateOutcome
    requires IsGate(s)
  {
    if s.RequirePermission? then CheckPermission(Id(s.permission), req) else CheckPermissions(Ids(s.permissions), req)
  }

  /** How a request leaves a chain: refused by a gate, answered 422 by `validate`, or handed to the controller. */
  datatype PipelineResult =
    | Denied(failure: ApiFailure)
    | Rejected(status: int, body: Object)
    | Handled(controller: string)
    | Unhandled

  /**
   * Runs a chain on a request; `issues` are the errors the route's
   * validator chains report for it. A gate that fails throws, `validate`
   * answers or calls next, a controller answers.
   */
  function Run(stages: seq<Stage>, req: Request, issues: seq<ValidatorMiddleware.ValidationIssue>): (r: PipelineResult)
    ensures r.Denied? ==> r.failure == Unauthorized || r.failure == Forbidden
    ensures r.Rejected? ==> r.status == 422 && ValidateStage in stages && issues != []
    ensures r.Handled? ==> Controller(r.controller) in stages
    ensures r.Unhandled? ==> forall i :: 0 <= i < |stages| ==> !stages[i].Controller?
    decreases |stages|
  {
    if stages == [] then Unhandled
    else
      match stages[0]
      case RequirePermission(p) =>
        (match CheckPermission(Id(p), req) case Next => Run(stages[1..], req, issues) case Fail(e) => Denied(e))
      case RequirePermissions(ps) =>
        (match CheckPermissions(Ids(ps), req) case Next => Run(stages[1..], req, issues) case Fail(e) => Denied(e))
      case ValidatorChain(_) => Run(stages[1..], req, issues)
      case ValidateStage =>
        (match ValidatorMiddleware.Validate(issues)
         case Next => Run(stages[1..], req, issues)
         case Reply(status, body) => Rejected(status, body))
      case Controller(name) => Handled(name)
  }

  /** The route the router dispatches a (method, path) to. */
  function Lookup(m: HttpMethod, path: RoutePath): (r: Option<Route>)
    ensures r.Some? ==> r.value in Routes && r.value.verb == m && r.value.path == path
    ensures r.None? ==> forall k :: 0 <= k < |Routes| ==> Routes[k].verb != m || Routes[k].path != path
  {
    LookupIn(Routes, m, path)
  }

  function LookupIn(routes: seq<Route>, m: HttpMethod, path: RoutePath): (r: Option<Route>)
    ensures r.Some? ==> r.value in routes && r.value.verb == m && r.value.path == path
    ensures r.None? ==> forall k :: 0 <= k < |routes| ==> routes[k].verb != m || routes[k].path != path
    decreases |routes|
  {
    if routes == [] then None
    else if routes[0].verb == m && routes[0].path == path then Some(routes[0])
    else LookupIn(routes[1..], m, path)
  }

  /** A chain of the shape every route here has: one gate, validation stages, one controller. */
  predicate WellFormed(stages: seq<Stage>) {
    && |stages| >= 2
    && IsGate(stages[0])
    && stages[|stages| - 1].Controller?
    && forall i :: 0 < i < |stages| - 1 ==> IsValidation(stages[i])
  }

  /** What `validate` inside the middle of a chain does to a request. */
  function AfterGate(middle: seq<Stage>, controller: string, issues: seq<ValidatorMiddleware.ValidationIssue>): PipelineResult {
    if ValidateStage in middle && issues != [] then Rejected(422, ValidatorMiddleware.RejectionBody(issues))
    else Handled(controller)
  }

  lemma {:induction false} RunMiddle(middle: seq<Stage>, controller: string, req: Request,
                                      issues: seq<ValidatorMiddleware.ValidationIssue>)
    requires forall i :: 0 <= i < |middle| ==> IsValidation(middle[i])
    ensures Run(middle + [Controller(controller)], req, issues) == AfterGate(middle, controller, issues)
    decreases |middle|
  {
    if middle != [] {
      assert (middle + [Controller(controller)])[1..] == middle[1..] + [Controller(controller)];
      assert forall i :: 0 <= i < |middle[1..]| ==> IsValidation(middle[1..][i]) by {
        forall i | 0 <= i < |middle[1..]| ensures IsValidation(middle[1..][i]) {
          assert middle[1..][i] == middle[i + 1];
        }
      }
      RunMiddle(middle[1..], controller, req, issues);
      assert ValidateStage in middle <==> middle[0] == ValidateStage || ValidateStage in middle[1..];
    } else {
      assert [Controller(controller)][0] == Controller(controller);
    }
  }

  /**
   * The permission gate runs first: if it refuses, the request is denied
   * whatever validation would say and no controller runs; if it admits,
   * validation (where the route has it) decides between 422 and the
   * controller.
   */
  lemma {:induction false} GateRunsFirst(stages: seq<Stage>, req: Request, issues: seq<ValidatorMiddleware.ValidationIssue>)
    requires WellFormed(stages)
    ensures Gate(stages[0], req).Fail? ==> Run(stages, req, issues) == Denied(Gate(stages[0], req).error)
    ensures Gate(stages[0], req).Next? ==>
      Run(stages, req, issues) == AfterGate(stages[1..|stages| - 1], stages[|stages| - 1].name, issues)
  {
    var middle := stages[1..|stages| - 1];
    var last := stages[|stages| - 1];
    assert stages[1..] == middle + [Controller(last.name)];
    assert forall i :: 0 <= i < |middle| ==> IsValidation(middle[i]) by {
      forall i | 0 <= i < |middle| ensures IsValidation(middle[i]) {
        assert middle[i] == stages[i + 1];
      }
    }
    RunMiddle(middle, last.name, req, issues);
  }

  /** Every route of the table is a well-formed chain, and no (method, path) is registered twice. */
  lemma TableWellFormed()
    ensures forall k :: 0 <= k < |Routes| ==> WellFormed(Routes[k].stages)
    ensures forall k, l :: 0 <= k < l < |Routes| ==>
      Routes[k].verb != Routes[l].verb || Routes[k].path != Routes[l].path
  {
  }

  /** The caller a role stands for. */
  function Caller(role: Role): Request {
    Request(Some(User(Some(role))))
  }

  /** The permission gate's verdict on the route registered for (method, path). */
  function Decision(m: HttpMethod, path: RoutePath, req: Request): Option<GateOutcome> {
    match Lookup(m, path)
    case None => None
    case Some(route) => if |route.stages| > 0 && IsGate(route.stages[0]) then Some(Gate(route.stages[0], req)) else None
  }

  /** The permissions a gate stage asks for. */
  function Required(s: Stage): seq<Permission>
    requires IsGate(s)
  {
    if s.RequirePermission? then [s.permission] else s.permissions
  }

  /** A known-role caller passes a gate exactly when the reference table grants every permission it asks for; otherwise 403. */
  lemma GateByTable(s: Stage, role: Role)
    requires IsGate(s) && role != Other("")
    ensures Gate(s, Caller(role)) == Next <==> forall p :: p in Required(s) ==> Grants(role, p)
    ensures Gate(s, Caller(role)) != Next ==> Gate(s, Caller(role)) == Fail(Forbidden)
  {
    forall p | p in Required(s) ensures HasPermission(role, Id(p)) == Grants(role, p) {
      HasPermissionMatchesTable(role, p);
    }
    if s.RequirePermissions? {
      var ids := Ids(s.permissions);
      forall i | 0 <= i < |ids| ensures ids[i] == Id(s.permissions[i]) && s.permissions[i] in Required(s) { }
    }
  }

  /** The router dispatches every registered (method, path) to its own chain. */
  lemma LookupFinds(k: nat)
    requires k < |Routes|
    ensures Lookup(Routes[k].verb, Routes[k].path) == Some(Routes[k])
  {
    TableWellFormed();
    LookupInFinds(Routes, k);
  }

  /** In a table without repeated (method, path) pairs, lookup finds each entry at its own place. */
  lemma {:induction false} LookupInFinds(routes: seq<Route>, k: nat)
    requires k < |routes|
    requires forall i, j :: 0 <= i < j < |routes| ==> routes[i].verb != routes[j].verb || routes[i].path != routes[j].path
    ensures LookupIn(routes, routes[k].verb, routes[k].path) == Some(routes[k])
    decreases k
  {
    if k > 0 {
      assert routes[0].verb != routes[k].verb || routes[0].path != routes[k].path;
      assert routes[1..][k - 1] == routes[k];
      forall i, j | 0 <= i < j < |routes[1..]|
        ensures routes[1..][i].verb != routes[1..][j].verb || routes[1..][i].path != routes[1..][j].path
      {
        assert routes[1..][i] == routes[i + 1] && routes[1..][j] == routes[j + 1];
      }
      LookupInFinds(routes[1..], k - 1);
    }
  }

  /** How a known role fares on route `k`: admitted exactly when its table grants everything the route's gate asks for. */
  lemma RouteAdmits(k: nat, role: Role)
    requires k < |Routes| && role != Other("")
    ensures Decision(Routes[k].verb, Routes[k].path, Caller(role)) == Some(Next) <==>
      forall p :: p in Required(Routes[k].stages[0]) ==> Grants(role, p)
    ensures Decision(Routes[k].verb, Routes[k].path, Caller(role)) in {Some(Next), Some(Fail(Forbidden))}
  {
    LookupFinds(k);
    TableWellFormed();
    GateByTable(Routes[k].stages[0], role);
  }

  /** A one-permission requirement is met exactly when that permission is granted. */
  lemma OneGranted(role: Role, a: Permission)
    requires role != Other("")
    ensures (forall p :: p in [a] ==> Grants(role, p)) <==> Grants(role, a)
    ensures a == ViewProject ==> (Grants(role, a) <==> !role.Other?)
    ensures a == CreateProject ==> (Grants(role, a) <==> role == Admin)
  {
    assert a in [a];
  }

  /** A two-permission requirement is met exactly when both permissions are granted. */
  lemma BothGranted(role: Role, a: Permission, b: Permission)
    ensures (forall p :: p in [a, b] ==> Grants(role, p)) <==> Grants(role, a) && Grants(role, b)
  {
    assert a in [a, b] && b in [a, b];
  }

  /** Which known roles hold VIEW_PROJECT together with a second permission. */
  lemma ViewAndGranted(role: Role, q: Permission)
    requires role != Other("")
    ensures q == DeleteProject ==> (Grants(role, ViewProject) && Grants(role, q) <==> role == Admin)
    ensures q in {UpdateProject, ManageProjectMembers} ==> (Grants(role, ViewProject) && Grants(role, q) <==> role in {Admin, ProjectAdmin})
    ensures q == ViewUsers ==> (Grants(role, ViewProject) && Grants(role, q) <==> !role.Other?)
  {
  }

  /** GET `/` asks for VIEW_PROJECT: all three known roles pass, any other role gets 403. */
  lemma ListProjectsPolicy(role: Role)
    requires role != Other("")
    ensures Decision(GET, Root, Caller(role)) == Some(if !role.Other? then Next else Fail(Forbidden))
  {
    RouteAdmits(0, role);
    assert Required(Routes[0].stages[0]) == [ViewProject];
    OneGranted(role, ViewProject);
  }

  /** POST `/` asks for CREATE_PROJECT: only ADMIN passes. */
  lemma CreateProjectPolicy(role: Role)
    requires role != Other("")
    ensures Decision(POST, Root, Caller(role)) == Some(if role == Admin then Next else Fail(Forbidden))
  {
    RouteAdmits(1, role);
    assert Required(Routes[1].stages[0]) == [CreateProject];
    OneGranted(role, CreateProject);
  }

  /** GET `/:projectId` asks for VIEW_PROJECT: all three known roles pass. */
  lemma GetProjectPolicy(role: Role)
    requires role != Other("")
    ensures Decision(GET, ProjectById, Caller(role)) == Some(if !role.Other? then Next else Fail(Forbidden))
  {
    RouteAdmits(2, role);
    assert Required(Routes[2].stages[0]) == [ViewProject];
    OneGranted(role, ViewProject);
  }

  /** PUT `/:projectId` asks for VIEW_PROJECT and UPDATE_PROJECT: ADMIN and PROJECT_ADMIN pass, MEMBER gets 403. */
  lemma UpdateProjectPolicy(role: Role)
    requires role != Other("")
    ensures Decision(PUT, ProjectById, Caller(role)) == Some(if role in {Admin, ProjectAdmin} then Next else Fail(Forbidden))
  {
    RouteAdmits(3, role);
    assert Required(Routes[3].stages[0]) == [ViewProject, UpdateProject];
    BothGranted(role, ViewProject, UpdateProject);
    ViewAndGranted(role, UpdateProject);
  }

  /** DELETE `/:projectId` asks for VIEW_PROJECT and DELETE_PROJECT: only ADMIN passes. */
  lemma DeleteProjectPolicy(role: Role)
    requires role != Other("")
    ensures Decision(DELETE, ProjectById, Caller(role)) == Some(if role == Admin then Next else Fail(Forbidden))
  {
    RouteAdmits(4, role);
    assert Required(Routes[4].stages[0]) == [ViewProject, DeleteProject];
    BothGranted(role, ViewProject, DeleteProject);
    ViewAndGranted(role, DeleteProject);
  }

  /** GET `/:projectId/members` asks for VIEW_PROJECT and VIEW_USERS: all three known roles pass. */
  lemma ListMembersPolicy(role: Role)
    requires role != Other("")
    ensures Decision(GET, ProjectMembers, Caller(role)) == Some(if !role.Other? then Next else Fail(Forbidden))
  {
    RouteAdmits(5, role);
    assert Required(Routes[5].stages[0]) == [ViewProject, ViewUsers];
    BothGranted(role, ViewProject, ViewUsers);
    ViewAndGranted(role, ViewUsers);
  }

  /** POST `/:projectId/members` asks for MANAGE_PROJECT_MEMBERS: MEMBER gets 403, the other two known roles pass. */
  lemma AddMemberPolicy(role: Role)
    requires role != Other("")
    ensures Decision(POST, ProjectMembers, Caller(role)) == Some(if role in {Admin, ProjectAdmin} then Next else Fail(Forbidden))
  {
    RouteAdmits(6, role);
    assert Required(Routes[6].stages[0]) == [ViewProject, ManageProjectMembers];
    BothGranted(role, ViewProject, ManageProjectMembers);
    ViewAndGranted(role, ManageProjectMembers);
  }

  /** PUT `/:projectId/members/:userId` asks for MANAGE_PROJECT_MEMBERS: MEMBER gets 403, the other two known roles pass. */
  lemma UpdateMemberRolePolicy(role: Role)
    requires role != Other("")
    ensures Decision(PUT, ProjectMember, Caller(role)) == Some(if role in {Admin, ProjectAdmin} then Next else Fail(Forbidden))
  {
    RouteAdmits(7, role);
    assert Required(Routes[7].stages[0]) == [ViewProject, ManageProjectMembers];
    BothGranted(role, ViewProject, ManageProjectMembers);
    ViewAndGranted(role, ManageProjectMembers);
  }

  /** DELETE `/:projectId/members/:userId` asks for MANAGE_PROJECT_MEMBERS: MEMBER gets 403, the other two known roles pass. */
  lemma RemoveMemberPolicy(role: Role)
    requires role != Other("")
    ensures Decision(DELETE, ProjectMember, Caller(role)) == Some(if role in {Admin, ProjectAdmin} then Next else Fail(Forbidden))
  {
    RouteAdmits(8, role);
    assert Required(Routes[8].stages[0]) == [ViewProject, ManageProjectMembers];
    BothGranted(role, ViewProject, ManageProjectMembers);
    ViewAndGranted(role, ManageProjectMembers);
  }

  /** A request without a role is denied with 401 on every route of the table, before validation or the controller. */
  lemma UnauthenticatedDeniedEverywhere(k: nat, req: Request, issues: seq<ValidatorMiddleware.ValidationIssue>)
    requires k < |Routes| && !HasRole(req)
    ensures Run(Routes[k].stages, req, issues) == Denied(Unauthorized)
  {
    TableWellFormed();
    GateRunsFirst(Routes[k].stages, req, issues);
  }

  /** The `ApiError` a refusing gate throws, as the error handler receives it. */
  function ThrownError(f: ApiFailure, errors: Value, stack: Value, name: Value): ErrorMiddleware.ErrorInfo {
    ErrorMiddleware.ErrorInfo(ErrorMiddleware.ApiErrorClass, Num(f.statusCode), Str(f.message), errors, stack,
                              Undefined, name, Undefined, Undefined)
  }

  /**
   * What the application's error handler makes of a gate's refusal: the
   * gate's status as the HTTP status, its message, and success false.
   * The ApiError class is not part of this model, so its `errors`, `stack`
   * and `name` are left arbitrary.
   */
  lemma DenialResponse(f: ApiFailure, errors: Value, stack: Value, name: Value, development: bool)
    requires f in {Unauthorized, Forbidden}
    ensures var r := ErrorMiddleware.Respond(ThrownError(f, errors, stack, name), development);
      && r.Sent?
      && r.status == Num(f.statusCode)
      && Get(r.body, "message") == Str(f.message)
      && Get(r.body, "success") == Bool(false)
  {
    ErrorMiddleware.ApiErrorOverrides(ThrownError(f, errors, stack, name), development);
  }
}
