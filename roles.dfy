/** The role manager: the roles the application knows, the role currently
    selected, and the permission checks and tab visibility derived from it.
    A role is a dictionary; its `permisos` entry is the list of permissions. */
module Roles {
  import opened Wrappers
  import opened Strings

  /** A dictionary value: text, a number, or a list of texts. */
  datatype RoleValue = Text(s: string) | Number(n: int) | Items(items: seq<string>)

  /** A role dictionary, keyed by 'id', 'nombre', 'tipo', 'permisos' and so on. */
  type RoleDict = map<string, RoleValue>

  /** The permission that grants everything. */
  const AllFunctions: string := "todas_las_funciones"

  /** `role.get('permisos', [])`, for a `permisos` entry that is a list. */
  function PermissionList(role: RoleDict): (r: seq<string>)
    ensures "permisos" in role && role["permisos"].Items? ==> r == role["permisos"].items
    ensures ("permisos" !in role || !role["permisos"].Items?) ==> r == []
  {
    if "permisos" in role && role["permisos"].Items? then role["permisos"].items else []
  }

  /** `str(v)`. A list is rendered as the fixed text "[...]" rather than
      Python's element-by-element `str(list)` (for example "['a', 'b']"); the
      model relies only on the rendering starting with '['. */
  function StrOf(v: RoleValue): (s: string)
    ensures v.Items? ==> s != [] && s[0] == '['
  {
    match v
    case Text(s) => s
    case Number(n) => IntToString(n)
    case Items(_) => "[...]"
  }

  /** `str(d.get(key, default))`. */
  function StrGet(d: RoleDict, key: string, default: string): string {
    if key in d then StrOf(d[key]) else default
  }

  /** Python truthiness of an optional dictionary: absent or empty is false. */
  predicate IsSet(role: Option<RoleDict>) {
    role.Some? && |role.value| > 0
  }

  /** `get_role_permissions`: the permissions of a known role, [] for an unknown one. */
  function RolePermissions(available: map<string, RoleDict>, roleId: string): (r: seq<string>)
    ensures roleId !in available ==> r == []
    ensures roleId in available ==> r == PermissionList(available[roleId])
  {
    if roleId in available then PermissionList(available[roleId]) else []
  }

  /** A permission list grants `permission` when it lists it or lists the total one. */
  predicate Grants(permissions: seq<string>, permission: string)
    ensures AllFunctions in permissions ==> Grants(permissions, permission)
  {
    permission in permissions || AllFunctions in permissions
  }

  /** The tab names, in the order the source lists them. */
  const Dashboard := "dashboard"
  const InventoryTab := "inventory"
  const ClinicalHistoryTab := "clinical_history"
  const SalesTab := "sales"
  const AppointmentsTab := "appointments"
  const ProductsTab := "products"
  const HistoryTab := "history"
  const UserManagementTab := "user_management"
  const OrdersTab := "orders"

  /** `any(p in permissions for p in candidates)`. */
  predicate AnyIn(candidates: seq<string>, permissions: seq<string>) {
    exists c :: c in candidates && c in permissions
  }

  class RoleManager {
    /** The roles found at start-up, keyed by role id. */
    const available: map<string, RoleDict>
    var currentRole: Option<RoleDict>
    var currentInterface: string

    constructor (available: map<string, RoleDict>)
      ensures this.available == available
      ensures currentRole == None && currentInterface == "gui"
    {
      this.available := available;
      currentRole := None;
      currentInterface := "gui";
    }

    /** `has_permission`: without an explicit id the current role's `str(id)` is
        used ("None" when it has no id); without any id the answer is false. */
    function HasPermission(permission: string, roleId: Option<string>): (r: bool)
      reads this
      ensures roleId.Some? && roleId.value == "" ==> !r
      ensures roleId.None? && !IsSet(currentRole) ==> !r
      ensures roleId.Some? ==> (r <==> roleId.value != "" && Grants(RolePermissions(available, roleId.value), permission))
    {
      var id := if roleId.None? && IsSet(currentRole) then Some(StrGet(currentRole.value, "id", "None")) else roleId;
      if id.None? || id.value == "" then false
      else Grants(RolePermissions(available, id.value), permission)
    }

    /** `validate_role_access`: false without a current role, true for the total
        permission, otherwise true exactly when one required permission is held. */
    function ValidateRoleAccess(required: seq<string>): (r: bool)
      reads this
      ensures !IsSet(currentRole) ==> !r
      ensures IsSet(currentRole) && AllFunctions in PermissionList(currentRole.value) ==> r
      ensures r ==> IsSet(currentRole) && (AllFunctions in PermissionList(currentRole.value) ||
                                           exists p :: p in required && p in PermissionList(currentRole.value))
      ensures IsSet(currentRole) && (exists p :: p in required && p in PermissionList(currentRole.value)) ==> r
    {
      if !IsSet(currentRole) then false
      else
        var permissions := PermissionList(currentRole.value);
        if AllFunctions in permissions then true
        else exists p :: p in required && p in permissions
    }

    /** `get_accessible_tabs`. Without a role only the dashboard is visible, and
        that map has no entry for the orders tab. */
    function AccessibleTabs(): (tabs: map<string, bool>)
      reads this
      ensures Dashboard in tabs && tabs[Dashboard]
      ensures !IsSet(currentRole) ==> forall t :: t in tabs ==> (tabs[t] <==> t == Dashboard)
      ensures !IsSet(currentRole) ==> OrdersTab !in tabs
      ensures IsSet(currentRole) ==> OrdersTab in tabs
    {
      if !IsSet(currentRole) then
        map[Dashboard := true, InventoryTab := false, ClinicalHistoryTab := false, SalesTab := false,
            AppointmentsTab := false, ProductsTab := false, HistoryTab := false, UserManagementTab := false]
      else
        var permissions := PermissionList(currentRole.value);
        var all := AllFunctions in permissions;
        map[Dashboard := true,
            InventoryTab := AnyIn(["inventario", "stock", "productos", AllFunctions], permissions),
            ClinicalHistoryTab := AnyIn(["historiales_clinicos", AllFunctions], permissions),
            SalesTab := AnyIn(["ventas", AllFunctions], permissions),
            AppointmentsTab := AnyIn(["ventas", AllFunctions], permissions),
            ProductsTab := all,
            HistoryTab := all,
            UserManagementTab := all,
            OrdersTab := AnyIn(["pedidos", AllFunctions], permissions)]
    }

    /** Stores the role and the interface (the interface defaults to "gui"). */
    method SetCurrentRole(role: RoleDict, interface: string := "gui")
      modifies this
      ensures currentRole == Some(role) && currentInterface == interface
    {
      currentRole := Some(role);
      currentInterface := interface;
    }

    /** Forgets the current role and goes back to the graphical interface. */
    method ResetRole()
      modifies this
      ensures currentRole == None && currentInterface == "gui"
      ensures AccessibleTabs()[Dashboard] && !ValidateRoleAccess([AllFunctions])
    {
      currentRole := None;
      currentInterface := "gui";
    }
  }

  /** The current role is the registered role its non-empty `str(id)` names. */
  predicate CurrentIsRegistered(m: RoleManager)
    reads m
  {
    && IsSet(m.currentRole)
    && var id := StrGet(m.currentRole.value, "id", "None");
    && id != "" && id in m.available && m.available[id] == m.currentRole.value
  }

  /** With a role, each permission-gated tab is visible exactly when
      `validate_role_access` grants the permissions that gate it. */
  lemma TabsAgreeWithAccess(m: RoleManager)
    requires IsSet(m.currentRole)
    ensures m.AccessibleTabs()[InventoryTab] == m.ValidateRoleAccess(["inventario", "stock", "productos"])
    ensures m.AccessibleTabs()[ClinicalHistoryTab] == m.ValidateRoleAccess(["historiales_clinicos"])
    ensures m.AccessibleTabs()[SalesTab] == m.ValidateRoleAccess(["ventas"])
    ensures m.AccessibleTabs()[OrdersTab] == m.ValidateRoleAccess(["pedidos"])
    ensures m.AccessibleTabs()[ProductsTab] == m.ValidateRoleAccess([])
  {
    var permissions := PermissionList(m.currentRole.value);
    if AllFunctions in permissions {
      assert AllFunctions in ["inventario", "stock", "productos", AllFunctions];
      assert AllFunctions in ["historiales_clinicos", AllFunctions];
      assert AllFunctions in ["ventas", AllFunctions];
      assert AllFunctions in ["pedidos", AllFunctions];
    }
  }

  /** The total permission grants every permission and opens every tab. */
  lemma AllFunctionsOpensEverything(m: RoleManager, permission: string)
    requires IsSet(m.currentRole) && AllFunctions in PermissionList(m.currentRole.value)
    ensures m.ValidateRoleAccess([])
    ensures forall t :: t in m.AccessibleTabs() ==> m.AccessibleTabs()[t]
    ensures CurrentIsRegistered(m) ==> m.HasPermission(permission, None)
  {
    var permissions := PermissionList(m.currentRole.value);
    assert AllFunctions in ["inventario", "stock", "productos", AllFunctions];
    assert AllFunctions in ["historiales_clinicos", AllFunctions];
    assert AllFunctions in ["ventas", AllFunctions];
    assert AllFunctions in ["pedidos", AllFunctions];
  }

  /** For the current role as registered, checking one permission by id and
      validating access with that single permission agree. */
  lemma HasPermissionAgreesWithAccess(m: RoleManager, permission: string)
    requires CurrentIsRegistered(m)
    ensures m.HasPermission(permission, None) == m.ValidateRoleAccess([permission])
  {
    if permission in PermissionList(m.currentRole.value) {
      assert permission in [permission];
    }
  }
}
