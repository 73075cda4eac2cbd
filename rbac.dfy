/** Role-based access control for HTTP handlers: a permission check against the fixed
    role-to-permissions table, and a role check against a list of allowed roles. A request is
    either passed on to the next handler or aborted with status 403 and an error message. */
module Rbac {
  import opened Wrappers
  import opened Text

  const Forbidden: nat := 403

  const ReadMetrics := "read:metrics"
  const WriteApiKeys := "write:api_keys"
  const ReadApiKeys := "read:api_keys"
  const AdminUsers := "admin:users"
  const EnterpriseFeatures := "enterprise:features"

  /** The three roles' permission lists. */
  function RolePermissions(): map<string, seq<string>>
  {
    map[
      "admin" := [ReadMetrics, WriteApiKeys, ReadApiKeys, AdminUsers, EnterpriseFeatures],
      "user" := [ReadMetrics, WriteApiKeys, ReadApiKeys],
      "enterprise" := [ReadMetrics, WriteApiKeys, ReadApiKeys, EnterpriseFeatures]
    ]
  }

  /** What a middleware does with a request. */
  datatype Verdict = Next | Abort(status: nat, error: string)

  /** Every required permission is among the user's. */
  predicate Covers(userPermissions: seq<string>, required: seq<string>)
  {
    forall p :: p in required ==> p in userPermissions
  }

  /** `hasPermissions`: builds a lookup table from the user's permissions, then checks each
      required one against it; no requirement means access. */
  method HasPermissions(userPermissions: seq<string>, required: seq<string>) returns (ok: bool)
    ensures ok <==> Covers(userPermissions, required)
  {
    if |required| == 0 {
      return true;
    }
    var permissionMap: map<string, bool> := map[];
    var i := 0;
    while i < |userPermissions|
      invariant 0 <= i <= |userPermissions|
      invariant forall p :: p in permissionMap <==> p in userPermissions[..i]
      invariant forall p :: p in permissionMap ==> permissionMap[p]
    {
      permissionMap := permissionMap[userPermissions[i] := true];
      i := i + 1;
    }
    assert userPermissions[..i] == userPermissions;
    var j := 0;
    while j < |required|
      invariant 0 <= j <= |required|
      invariant forall k :: 0 <= k < j ==> required[k] in userPermissions
    {
      if !(required[j] in permissionMap && permissionMap[required[j]]) {
        return false;
      }
      j := j + 1;
    }
    return true;
  }

  /** The permission middleware's decision, given the role the authentication step stored
      (None when it stored none). */
  function PermissionVerdict(role: Option<string>, table: map<string, seq<string>>,
                             required: seq<string>): (v: Verdict)
    ensures v.Next? <==> role.Some? && role.value in table && Covers(table[role.value], required)
    ensures v.Abort? ==> v.status == Forbidden
    ensures role.None? ==> v.error == "Access denied"
    ensures role.Some? && role.value !in table ==> v.error == "Invalid role"
    ensures role.Some? && role.value in table && !Covers(table[role.value], required) ==>
              v.error == "Insufficient permissions"
    ensures |required| == 0 ==> (v.Next? <==> role.Some? && role.value in table)
  {
    if role.None? then Abort(Forbidden, "Access denied")
    else if role.value !in table then Abort(Forbidden, "Invalid role")
    else if !Covers(table[role.value], required) then Abort(Forbidden, "Insufficient permissions")
    else Next
  }

  /** `RBACMiddleware`: the missing role, the unknown role and the missing permission are
      refused in that order of precedence. */
  method RbacMiddleware(role: Option<string>, table: map<string, seq<string>>,
                        required: seq<string>) returns (v: Verdict)
    ensures v == PermissionVerdict(role, table, required)
  {
    if role.None? {
      return Abort(Forbidden, "Access denied");
    }
    if role.value !in table {
      return Abort(Forbidden, "Invalid role");
    }
    var ok := HasPermissions(table[role.value], required);
    if !ok {
      return Abort(Forbidden, "Insufficient permissions");
    }
    return Next;
  }

  /** The role is one of the allowed ones, ignoring case; an empty list allows every role. */
  predicate RoleListed(role: string, allowed: seq<string>)
  {
    |allowed| == 0 || exists a :: a in allowed && EqualFold(role, a)
  }

  /** Some allowed role equals `role` ignoring case. */
  function MatchesAny(role: string, allowed: seq<string>): (m: bool)
    ensures m <==> exists a :: a in allowed && EqualFold(role, a)
    decreases |allowed|
  {
    if |allowed| == 0 then false
    else EqualFold(role, allowed[0]) || MatchesAny(role, allowed[1..])
  }

  /** `isRoleAllowed`: an empty list allows every role; otherwise the first case-insensitive
      match allows it. */
  function IsRoleAllowed(role: string, allowed: seq<string>): (ok: bool)
    ensures ok <==> RoleListed(role, allowed)
  {
    |allowed| == 0 || MatchesAny(role, allowed)
  }

  /** `RoleMiddleware`: a missing role is refused first, then a role outside the list. */
  function RoleMiddleware(role: Option<string>, allowed: seq<string>): (v: Verdict)
    ensures v.Next? <==> role.Some? && RoleListed(role.value, allowed)
    ensures v.Abort? ==> v.status == Forbidden
    ensures role.None? ==> v.error == "Access denied"
    ensures role.Some? && !RoleListed(role.value, allowed) ==> v.error == "Insufficient role privileges"
  {
    if role.None? then Abort(Forbidden, "Access denied")
    else if !IsRoleAllowed(role.value, allowed) then Abort(Forbidden, "Insufficient role privileges")
    else Next
  }

  /** The roles form a hierarchy: whatever "user" may do, "enterprise" may do, and whatever
      "enterprise" may do, "admin" may do. */
  lemma RoleHierarchy(required: seq<string>)
    ensures PermissionVerdict(Some("user"), RolePermissions(), required).Next? ==>
              PermissionVerdict(Some("enterprise"), RolePermissions(), required).Next?
    ensures PermissionVerdict(Some("enterprise"), RolePermissions(), required).Next? ==>
              PermissionVerdict(Some("admin"), RolePermissions(), required).Next?
  {
    var t := RolePermissions();
    assert forall p :: p in t["user"] ==> p in t["enterprise"];
    assert forall p :: p in t["enterprise"] ==> p in t["admin"];
  }

  /** Only "admin" holds "admin:users"; "enterprise:features" is withheld from "user". */
  lemma PrivilegedPermissions()
    ensures PermissionVerdict(Some("admin"), RolePermissions(), [AdminUsers]) == Next
    ensures PermissionVerdict(Some("enterprise"), RolePermissions(), [AdminUsers])
              == Abort(Forbidden, "Insufficient permissions")
    ensures PermissionVerdict(Some("user"), RolePermissions(), [AdminUsers])
              == Abort(Forbidden, "Insufficient permissions")
    ensures PermissionVerdict(Some("user"), RolePermissions(), [EnterpriseFeatures])
              == Abort(Forbidden, "Insufficient permissions")
  {
    var t := RolePermissions();
    assert t["enterprise"][3] == EnterpriseFeatures;
    assert t["admin"][3] == AdminUsers;
    assert AdminUsers !in t["enterprise"] by {
      assert forall k :: 0 <= k < |t["enterprise"]| ==> t["enterprise"][k][0] != 'a';
    }
    assert AdminUsers !in t["user"] by {
      assert forall k :: 0 <= k < |t["user"]| ==> t["user"][k][0] != 'a';
    }
    assert EnterpriseFeatures !in t["user"] by {
      assert forall k :: 0 <= k < |t["user"]| ==> t["user"][k][0] != 'e';
    }
  }

  /** The two middlewares disagree on case: a role stored as "Admin" passes a role check for
      "admin", but the permission table is looked up by exact name, so the same request is
      refused as an invalid role even when nothing is required. */
  lemma RoleCaseIsTreatedDifferently()
    ensures RoleMiddleware(Some("Admin"), ["admin"]) == Next
    ensures PermissionVerdict(Some("Admin"), RolePermissions(), []) == Abort(Forbidden, "Invalid role")
  {
    assert EqualFold("Admin", "admin") by {
      assert LowerChar('A') == 'a';
    }
    assert "Admin" != "admin" by {
      assert "Admin"[0] != "admin"[0];
    }
    assert "Admin" != "user" && "Admin" != "enterprise";
  }
}
