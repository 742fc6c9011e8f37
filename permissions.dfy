// The request-level vocabulary of the REST API: HTTP methods, who sent the
// request, the model-permission map and the two write-only permission
// classes shared by many views.
module Permissions {
  import opened Common

  datatype HttpMethod = GET | HEAD | OPTIONS | POST | PUT | PATCH | DELETE | OtherMethod(name: string)

  /** `permissions.SAFE_METHODS`. */
  predicate Safe(m: HttpMethod)
  {
    m == GET || m == HEAD || m == OPTIONS
  }

  /**
   * `request.user`: the anonymous user, the stand-in user of an agent
   * authenticated by its API-client credentials (an anonymous user that
   * counts as authenticated and holds no flags), or an IAM user.
   */
  datatype RequestUser =
    | Anonymous
    | AgentUser(client: Id)
    | Person(pk: Id, isStaff: bool, isSuperuser: bool)

  predicate Authenticated(u: RequestUser)
  {
    !u.Anonymous?
  }

  predicate Staff(u: RequestUser)
  {
    u.Person? && u.isStaff
  }

  predicate Superuser(u: RequestUser)
  {
    u.Person? && u.isSuperuser
  }

  /** `request.user.pk`: only IAM users have one. */
  function Pk(u: RequestUser): Option<Id>
  {
    if u.Person? then Some(u.pk) else None
  }

  // ----- model permissions -----

  datatype ModelAction = View | Add | Change | Delete

  /** `EnhancedDjangoModelPermissions.perms_map`. */
  const PERMS_MAP: map<HttpMethod, seq<ModelAction>> :=
    map[GET := [View], OPTIONS := [View], HEAD := [View], POST := [Add], PUT := [Change], PATCH := [Change], DELETE := [Delete]]

  function ActionName(a: ModelAction): string
  {
    match a
    case View => "view"
    case Add => "add"
    case Change => "change"
    case Delete => "delete"
  }

  /** The permission code a template of `perms_map` expands to, `<app_label>.<action>_<model_name>`. */
  function PermCode(appLabel: string, modelName: string, a: ModelAction): string
  {
    appLabel + "." + ActionName(a) + "_" + modelName
  }

  /**
   * Every listed method needs exactly one permission: reads need `view`,
   * POST `add`, PUT and PATCH `change`, DELETE `delete`; other methods are
   * not in the map.
   */
  lemma OnePermissionPerMethod(m: HttpMethod)
    ensures m in PERMS_MAP <==> !m.OtherMethod?
    ensures m in PERMS_MAP ==> |PERMS_MAP[m]| == 1
    ensures Safe(m) ==> PERMS_MAP[m] == [View]
    ensures m == POST ==> PERMS_MAP[m] == [Add]
    ensures m == PUT || m == PATCH ==> PERMS_MAP[m] == [Change]
    ensures m == DELETE ==> PERMS_MAP[m] == [Delete]
  {
  }

  /** Distinct actions expand to distinct permission codes of the same model. */
  lemma PermCodesAreDistinct(appLabel: string, modelName: string, a: ModelAction, b: ModelAction)
    requires a != b
    ensures PermCode(appLabel, modelName, a) != PermCode(appLabel, modelName, b)
  {
    var ca, cb := PermCode(appLabel, modelName, a), PermCode(appLabel, modelName, b);
    var i := |appLabel| + 1;
    // the codes first differ right after the dot: the four action names start with different letters
    assert ca[i] == ActionName(a)[0] && cb[i] == ActionName(b)[0];
  }

  // ----- write-only permission classes -----

  /** `SuperuserWriteOnlyPermission.has_permission`. */
  predicate SuperuserWriteOnly(u: RequestUser, m: HttpMethod)
  {
    Authenticated(u) && (Safe(m) || Superuser(u))
  }

  /** `AdminWriteOnlyPermission.has_permission`. */
  predicate AdminWriteOnly(u: RequestUser, m: HttpMethod)
  {
    Authenticated(u) && (Safe(m) || Staff(u))
  }

  /**
   * Both classes refuse anonymous requests and let any authenticated caller
   * read; an unsafe method needs the superuser flag in one and the staff
   * flag in the other, and an agent may never write.
   */
  lemma WriteOnlyRules(u: RequestUser, m: HttpMethod)
    ensures !Authenticated(u) ==> !SuperuserWriteOnly(u, m) && !AdminWriteOnly(u, m)
    ensures Authenticated(u) && Safe(m) ==> SuperuserWriteOnly(u, m) && AdminWriteOnly(u, m)
    ensures !Safe(m) ==> (SuperuserWriteOnly(u, m) <==> u.Person? && u.isSuperuser)
    ensures !Safe(m) ==> (AdminWriteOnly(u, m) <==> u.Person? && u.isStaff)
    ensures u.AgentUser? ==> (SuperuserWriteOnly(u, m) <==> Safe(m)) && (AdminWriteOnly(u, m) <==> Safe(m))
  {
  }

  /** For a user whose superuser flag implies the staff flag, the superuser class is the stricter one. */
  lemma SuperuserWriteImpliesAdminWrite(u: RequestUser, m: HttpMethod)
    requires u.Person? && (u.isSuperuser ==> u.isStaff)
    ensures SuperuserWriteOnly(u, m) ==> AdminWriteOnly(u, m)
  {
  }
}
