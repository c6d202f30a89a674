/**
 * The permission registry, the static role -> permissions table and the two
 * resolver functions of src/utils/permissions.js.
 */
module Permissions {

  /** The closed set of permissions, grouped as in the registry: project, task, note, user management. */
  datatype Permission =
    | CreateProject | UpdateProject | DeleteProject | ViewProject | ManageProjectMembers
    | CreateTask | UpdateTask | DeleteTask | ViewTask | AssignTask
    | CreateNote | UpdateNote | DeleteNote | ViewNote
    | ManageUsers | ViewUsers

  /** The string each registry entry stands for; the resolver compares these strings. */
  function Id(p: Permission): string {
    match p
    case CreateProject => "create_project"
    case UpdateProject => "update_project"
    case DeleteProject => "delete_project"
    case ViewProject => "view_project"
    case ManageProjectMembers => "manage_project_members"
    case CreateTask => "create_task"
    case UpdateTask => "update_task"
    case DeleteTask => "delete_task"
    case ViewTask => "view_task"
    case AssignTask => "assign_task"
    case CreateNote => "create_note"
    case UpdateNote => "update_note"
    case DeleteNote => "delete_note"
    case ViewNote => "view_note"
    case ManageUsers => "manage_users"
    case ViewUsers => "view_users"
  }

  /** The registry's entries in declaration order, the order `Object.values` yields them. */
  const Registry: seq<Permission> :=
    [ CreateProject, UpdateProject, DeleteProject, ViewProject, ManageProjectMembers,
      CreateTask, UpdateTask, DeleteTask, ViewTask, AssignTask,
      CreateNote, UpdateNote, DeleteNote, ViewNote,
      ManageUsers, ViewUsers ]

  /** The identifier strings of a list of registry entries, in the same order. */
  function Ids(ps: seq<Permission>): seq<string> {
    seq(|ps|, i requires 0 <= i < |ps| => Id(ps[i]))
  }

  /** `Object.values(Permissions)` */
  function RegistryValues(): seq<string> {
    Ids(Registry)
  }

  /**
   * The global roles. The strings of the three known roles live in a
   * constants file outside this model; `Other` is any other role string.
   */
  datatype Role = Admin | ProjectAdmin | Member | Other(name: string)

  const ProjectAdminGrants: seq<Permission> :=
    [ ViewProject, UpdateProject, ManageProjectMembers,
      CreateTask, UpdateTask, DeleteTask, ViewTask, AssignTask,
      CreateNote, UpdateNote, DeleteNote, ViewNote,
      ViewUsers ]

  const MemberGrants: seq<Permission> :=
    [ ViewProject, ViewTask, UpdateTask, CreateNote, UpdateNote, ViewNote, ViewUsers ]

  /** The static table: ADMIN gets every registry value, the other two a curated list. */
  const RolePermissions: map<Role, seq<string>> :=
    map[ Admin := RegistryValues(),
         ProjectAdmin := Ids(ProjectAdminGrants),
         Member := Ids(MemberGrants) ]

  /** `RolePermissions[userRole] || []`: an unknown role holds nothing. */
  function PermissionsOf(role: Role): (r: seq<string>)
    ensures role.Other? ==> r == []
    ensures forall s :: s in r ==> exists p :: s == Id(p)
  {
    IdsAreIds(Registry);
    IdsAreIds(ProjectAdminGrants);
    IdsAreIds(MemberGrants);
    if role in RolePermissions then
      assert RolePermissions[role] == (if role == Admin then RegistryValues()
                                       else if role == ProjectAdmin then Ids(ProjectAdminGrants)
                                       else Ids(MemberGrants));
      RolePermissions[role]
    else []
  }

  /** Every string of a list of identifiers is the identifier of some permission. */
  lemma IdsAreIds(ps: seq<Permission>)
    ensures forall s :: s in Ids(ps) ==> exists p :: s == Id(p)
  {
    forall s | s in Ids(ps) ensures exists p :: s == Id(p) {
      var i :| 0 <= i < |Ids(ps)| && Ids(ps)[i] == s;
      assert s == Id(ps[i]);
    }
  }

  /** `hasPermission(userRole, requiredPermission)` */
  predicate HasPermission(role: Role, required: string): (b: bool)
    ensures b ==> exists p :: required == Id(p)
    ensures role.Other? ==> !b
  {
    required in PermissionsOf(role)
  }

  /** `checkMultiplePermissions(userRole, requiredPermissions)`: `every` over the list. */
  predicate CheckMultiplePermissions(role: Role, required: seq<string>): (b: bool)
    ensures b <==> forall i :: 0 <= i < |required| ==> HasPermission(role, required[i])
    ensures required == [] ==> b
  {
    forall p | p in required :: HasPermission(role, p)
  }

  // ---------------------------------------------------------------------------
  // The registry

  /** The sixteen identifier strings are pairwise distinct. */
  lemma IdInjective(p: Permission, q: Permission)
    ensures Id(p) == Id(q) ==> p == q
  {
    if p != q {
      var a, b := Id(p), Id(q);
      assert |a| != |b| || exists k :: 0 <= k < |a| && a[k] != b[k] by {
        match p
        case CreateProject => assert a[0] == 'c' && a[7] == 'p';
        case UpdateProject => assert a[0] == 'u' && a[7] == 'p';
        case DeleteProject => assert a[0] == 'd' && a[7] == 'p';
        case ViewProject => assert a[0] == 'v' && a[5] == 'p';
        case ManageProjectMembers => assert a[0] == 'm';
        case CreateTask => assert a[0] == 'c' && a[7] == 't';
        case UpdateTask => assert a[0] == 'u' && a[7] == 't';
        case DeleteTask => assert a[0] == 'd' && a[7] == 't';
        case ViewTask => assert a[0] == 'v' && a[5] == 't';
        case AssignTask => assert a[0] == 'a';
        case CreateNote => assert a[0] == 'c' && a[7] == 'n';
        case UpdateNote => assert a[0] == 'u' && a[7] == 'n';
        case DeleteNote => assert a[0] == 'd' && a[7] == 'n';
        case ViewNote => assert a[0] == 'v' && a[5] == 'n';
        case ManageUsers => assert a[0] == 'm' && |a| == 12;
        case ViewUsers => assert a[0] == 'v' && a[5] == 'u';
      }
    }
  }

  /** Looking an identifier up in a list of identifiers is looking the permission up in the list. */
  lemma IdsMembership(ps: seq<Permission>, p: Permission)
    ensures Id(p) in Ids(ps) <==> p in ps
  {
    if Id(p) in Ids(ps) {
      var i :| 0 <= i < |Ids(ps)| && Ids(ps)[i] == Id(p);
      IdInjective(p, ps[i]);
    }
    if p in ps {
      var i :| 0 <= i < |ps| && ps[i] == p;
      assert Ids(ps)[i] == Id(p);
    }
  }

  /** The registry has sixteen entries, names every permission, and its values are pairwise distinct strings. */
  lemma RegistryWellFormed()
    ensures |RegistryValues()| == 16
    ensures forall p :: p in Registry
    ensures forall i, j :: 0 <= i < j < |RegistryValues()| ==> RegistryValues()[i] != RegistryValues()[j]
  {
    forall p ensures p in Registry {
      match p
      case CreateProject => assert Registry[0] == p;
      case UpdateProject => assert Registry[1] == p;
      case DeleteProject => assert Registry[2] == p;
      case ViewProject => assert Registry[3] == p;
      case ManageProjectMembers => assert Registry[4] == p;
      case CreateTask => assert Registry[5] == p;
      case UpdateTask => assert Registry[6] == p;
      case DeleteTask => assert Registry[7] == p;
      case ViewTask => assert Registry[8] == p;
      case AssignTask => assert Registry[9] == p;
      case CreateNote => assert Registry[10] == p;
      case UpdateNote => assert Registry[11] == p;
      case DeleteNote => assert Registry[12] == p;
      case ViewNote => assert Registry[13] == p;
      case ManageUsers => assert Registry[14] == p;
      case ViewUsers => assert Registry[15] == p;
    }
    forall i, j | 0 <= i < j < |RegistryValues()|
      ensures RegistryValues()[i] != RegistryValues()[j]
    {
      IdInjective(Registry[i], Registry[j]);
    }
  }

  // ---------------------------------------------------------------------------
  // The role table

  /** ADMIN holds exactly the registry values: every permission, and nothing that is not a registry value. */
  lemma AdminIsSuperuser()
    ensures forall p :: HasPermission(Admin, Id(p))
    ensures forall s :: HasPermission(Admin, s) <==> s in RegistryValues()
  {
    forall p ensures HasPermission(Admin, Id(p)) {
      IdsMembership(Registry, p);
    }
  }

  /** A role outside the table holds no permission at all. */
  lemma UnknownRoleFailsClosed(name: string, s: string)
    ensures !HasPermission(Other(name), s)
    ensures !CheckMultiplePermissions(Other(name), [s])
  {
  }

  /**
   * The reference role x permission table: ADMIN everything; PROJECT_ADMIN
   * everything except creating and deleting projects and managing users;
   * MEMBER viewing projects, tasks, notes and users, updating tasks, and
   * creating and updating notes; any other role nothing.
   */
  predicate Grants(role: Role, p: Permission) {
    match role
    case Admin => true
    case ProjectAdmin => p !in {CreateProject, DeleteProject, ManageUsers}
    case Member => p in {ViewProject, ViewTask, UpdateTask, CreateNote, UpdateNote, ViewNote, ViewUsers}
    case Other(_) => false
  }

  /** `hasPermission` agrees with the reference table on the whole role x permission cross product. */
  lemma HasPermissionMatchesTable(role: Role, p: Permission)
    ensures HasPermission(role, Id(p)) == Grants(role, p)
  {
    match role
    case Admin => AdminIsSuperuser();
    case ProjectAdmin => ProjectAdminTable(p);
    case Member => MemberTable(p);
    case Other(_) =>
  }

  /** The PROJECT_ADMIN row, as a cross-product table: everything except creating and deleting projects and managing users. */
  lemma ProjectAdminTable(p: Permission)
    ensures HasPermission(ProjectAdmin, Id(p)) <==> p !in {CreateProject, DeleteProject, ManageUsers}
  {
    assert PermissionsOf(ProjectAdmin) == Ids(ProjectAdminGrants);
    IdsMembership(ProjectAdminGrants, p);
    ProjectAdminGrantsListed(p);
  }

  lemma ProjectAdminGrantsListed(p: Permission)
    ensures p in ProjectAdminGrants <==> p !in {CreateProject, DeleteProject, ManageUsers}
  {
    match p
    case ViewProject => assert ProjectAdminGrants[0] == p;
    case UpdateProject => assert ProjectAdminGrants[1] == p;
    case ManageProjectMembers => assert ProjectAdminGrants[2] == p;
    case CreateTask => assert ProjectAdminGrants[3] == p;
    case UpdateTask => assert ProjectAdminGrants[4] == p;
    case DeleteTask => assert ProjectAdminGrants[5] == p;
    case ViewTask => assert ProjectAdminGrants[6] == p;
    case AssignTask => assert ProjectAdminGrants[7] == p;
    case CreateNote => assert ProjectAdminGrants[8] == p;
    case UpdateNote => assert ProjectAdminGrants[9] == p;
    case DeleteNote => assert ProjectAdminGrants[10] == p;
    case ViewNote => assert ProjectAdminGrants[11] == p;
    case ViewUsers => assert ProjectAdminGrants[12] == p;
    case CreateProject =>
    case DeleteProject =>
    case ManageUsers =>
  }

  /** The MEMBER row, as a cross-product table. */
  lemma MemberTable(p: Permission)
    ensures HasPermission(Member, Id(p)) <==>
      p in {ViewProject, ViewTask, UpdateTask, CreateNote, UpdateNote, ViewNote, ViewUsers}
  {
    IdsMembership(MemberGrants, p);
  }

  /** On the data as written, MEMBER is contained in PROJECT_ADMIN, which is contained in ADMIN, and both containments are strict. */
  lemma RoleHierarchy(s: string)
    ensures HasPermission(Member, s) ==> HasPermission(ProjectAdmin, s)
    ensures HasPermission(ProjectAdmin, s) ==> HasPermission(Admin, s)
    ensures HasPermission(ProjectAdmin, Id(UpdateProject)) && !HasPermission(Member, Id(UpdateProject))
    ensures HasPermission(Admin, Id(CreateProject)) && !HasPermission(ProjectAdmin, Id(CreateProject))
  {
    if HasPermission(Member, s) {
      var p :| s == Id(p);
      MemberTable(p);
      ProjectAdminTable(p);
    }
    if HasPermission(ProjectAdmin, s) {
      AdminIsSuperuser();
    }
    ProjectAdminTable(UpdateProject);
    MemberTable(UpdateProject);
    AdminIsSuperuser();
    ProjectAdminTable(CreateProject);
  }

  /** The denials the table was curated for. */
  lemma CuratedDenials()
    ensures !HasPermission(Member, Id(DeleteProject))
    ensures !HasPermission(Member, Id(CreateProject))
    ensures !HasPermission(Member, Id(ManageProjectMembers))
    ensures !HasPermission(ProjectAdmin, Id(CreateProject))
    ensures !HasPermission(ProjectAdmin, Id(DeleteProject))
    ensures !HasPermission(ProjectAdmin, Id(ManageUsers))
  {
    MemberTable(DeleteProject);
    MemberTable(CreateProject);
    MemberTable(ManageProjectMembers);
    ProjectAdminTable(CreateProject);
    ProjectAdminTable(DeleteProject);
    ProjectAdminTable(ManageUsers);
  }

  // ---------------------------------------------------------------------------
  // checkMultiplePermissions

  /** An empty requirement list is met by every role, known or not. */
  lemma CheckEmptyIsVacuous(role: Role)
    ensures CheckMultiplePermissions(role, [])
  {
  }

  /** No partial credit: one permission the role lacks makes the whole check fail. */
  lemma CheckNoPartialCredit(role: Role, required: seq<string>, i: nat)
    requires i < |required| && !HasPermission(role, required[i])
    ensures !CheckMultiplePermissions(role, required)
  {
    assert required[i] in required;
  }

  /** The check depends only on which permissions are asked for, not on their order or repetition. */
  lemma CheckOrderIrrelevant(role: Role, a: seq<string>, b: seq<string>)
    requires forall x :: x in a <==> x in b
    ensures CheckMultiplePermissions(role, a) == CheckMultiplePermissions(role, b)
  {
  }

  /** A one-element check is the single check; a concatenation is the conjunction of its parts. */
  lemma CheckComposes(role: Role, a: seq<string>, b: seq<string>, s: string)
    ensures CheckMultiplePermissions(role, [s]) == HasPermission(role, s)
    ensures CheckMultiplePermissions(role, a + b) == (CheckMultiplePermissions(role, a) && CheckMultiplePermissions(role, b))
  {
    assert s in [s];
    forall x | x in a ensures x in a + b { }
    forall x | x in b ensures x in a + b { }
  }
}
