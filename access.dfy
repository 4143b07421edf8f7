/**
  * Row-level access control for the shop's lists (access.ts).
  *
  * Each rule looks at the optional session of a request and answers with one
  * of three outcomes: deny, allow every row, or allow only the rows matching
  * a filter. Permission checks are generated, one per permission name, from
  * the list of permission names; each one reads the session's role flags.
  */
module Access {
  import opened Wrappers

  /** A permission name, such as "canManageProducts". */
  type Permission = string

  const CanManageProducts: Permission := "canManageProducts"
  const CanManageCart: Permission := "canManageCart"
  const CanManageUsers: Permission := "canManageUsers"

  /** The status value of products that anyone may see. */
  const Available: string := "AVAILABLE"

  /** A role: permission name to flag. A name that is absent is an undefined flag. */
  type Role = map<Permission, bool>

  /** The session of a signed-in user: the user's id and, when loaded, the user's role. */
  datatype Session = Session(itemId: string, role: Option<Role>)

  /** A generated permission check. */
  type Check = Option<Session> -> bool

  /** A filter restricting the rows an operation may touch. */
  datatype Filter =
    | UserIs(userId: string)          // { user: { id } }
    | OrderUserIs(userId: string)     // { order: { user: { id } } }
    | IdIs(id: string)                // { id }
    | StatusIs(status: string)        // { status }
    | Or(left: Filter, right: Filter) // { OR: [left, right] }

  /** What a rule answers: `false`, `true`, or a filter object. */
  datatype Access = Deny | Allow | Restrict(filter: Filter)

  /**
    * A row as far as the filters can see it: its id, its owning user, the
    * owner of its parent order, and its status (each relation may be absent).
    */
  datatype Row = Row(id: string, owner: Option<string>, orderOwner: Option<string>, status: Option<string>)

  /** The rows a filter selects. */
  predicate Matches(f: Filter, row: Row) {
    match f
    case UserIs(u) => row.owner == Some(u)
    case OrderUserIs(u) => row.orderOwner == Some(u)
    case IdIs(i) => row.id == i
    case StatusIs(s) => row.status == Some(s)
    case Or(l, r) => Matches(l, row) || Matches(r, row)
  }

  /** Whether an access answer lets the operation touch a row. */
  predicate Admits(a: Access, row: Row) {
    a.Allow? || (a.Restrict? && Matches(a.filter, row))
  }

  /**
    * The meaning of a permission: a session is present, it carries a role,
    * and the role's flag for the permission is set to true.
    */
  predicate HasPermission(session: Option<Session>, p: Permission) {
    session.Some? && session.value.role.Some? &&
    p in session.value.role.value && session.value.role.value[p]
  }

  /** `isSignedIn`: a session is present. */
  function IsSignedIn(session: Option<Session>): (r: bool)
    ensures r <==> session != None
  {
    session.Some?
  }

  /** `session?.data.role?.[permission]`: undefined wherever a link of the chain is missing. */
  function RoleFlag(session: Option<Session>, p: Permission): Option<bool> {
    if session.None? || session.value.role.None? || p !in session.value.role.value then None
    else Some(session.value.role.value[p])
  }

  /** The check generated for one permission name: `!!session?.data.role?.[permission]`. */
  function GeneratedCheck(p: Permission): Check {
    s => RoleFlag(s, p) == Some(true)
  }

  /**
    * The generated `permissions` table: one entry per name of the permissions
    * list, each answering exactly HasPermission for its own name, for every
    * session (it never fails).
    */
  function Permissions(permissionsList: seq<Permission>): (table: map<Permission, Check>)
    ensures table.Keys == set p | p in permissionsList
    ensures forall p, s :: p in table ==> (table[p](s) <==> HasPermission(s, p))
  {
    map p | p in permissionsList :: GeneratedCheck(p)
  }

  /** The permission names the rules look up; the TypeScript code fails on a list lacking one of them. */
  predicate RulesDefined(permissionsList: seq<Permission>) {
    CanManageProducts in permissionsList && CanManageCart in permissionsList && CanManageUsers in permissionsList
  }

  /** The shape shared by the gated rules: deny when signed out, allow with the permission, else filter. */
  function Gated(permissionsList: seq<Permission>, session: Option<Session>, p: Permission, fallback: string -> Filter): Access
    requires p in permissionsList
  {
    if !IsSignedIn(session) then Deny
    else if Permissions(permissionsList)[p](session) then Allow
    else Restrict(fallback(session.value.itemId))
  }

  /** `rules.canManageProducts`. */
  function CanManageProductsRule(permissionsList: seq<Permission>, session: Option<Session>): (r: Access)
    requires RulesDefined(permissionsList)
    ensures r == Deny <==> session == None
    ensures r == Allow <==> HasPermission(session, CanManageProducts)
    ensures r.Restrict? ==> r.filter == UserIs(session.value.itemId)
  {
    Gated(permissionsList, session, CanManageProducts, id => UserIs(id))
  }

  /** `rules.canOrder`: gated on canManageCart, filtering on the order's user. */
  function CanOrderRule(permissionsList: seq<Permission>, session: Option<Session>): (r: Access)
    requires RulesDefined(permissionsList)
    ensures r == Deny <==> session == None
    ensures r == Allow <==> HasPermission(session, CanManageCart)
    ensures r.Restrict? ==> r.filter == UserIs(session.value.itemId)
  {
    Gated(permissionsList, session, CanManageCart, id => UserIs(id))
  }

  /** `rules.canManageOrderItems`: gated on canManageCart, filtering through the parent order. */
  function CanManageOrderItemsRule(permissionsList: seq<Permission>, session: Option<Session>): (r: Access)
    requires RulesDefined(permissionsList)
    ensures r == Deny <==> session == None
    ensures r == Allow <==> HasPermission(session, CanManageCart)
    ensures r.Restrict? ==> r.filter == OrderUserIs(session.value.itemId)
  {
    Gated(permissionsList, session, CanManageCart, id => OrderUserIs(id))
  }

  /** `rules.canReadProducts`: never denies; the public sees available products. */
  function CanReadProductsRule(permissionsList: seq<Permission>, session: Option<Session>): (r: Access)
    requires RulesDefined(permissionsList)
    ensures r != Deny
    ensures session == None ==> r == Restrict(StatusIs(Available))
    ensures r == Allow <==> HasPermission(session, CanManageProducts)
    ensures session != None && !HasPermission(session, CanManageProducts) ==>
              r == Restrict(Or(UserIs(session.value.itemId), StatusIs(Available)))
  {
    if session.None? then Restrict(StatusIs(Available))
    else if Permissions(permissionsList)[CanManageProducts](session) then Allow
    else Restrict(Or(UserIs(session.value.itemId), StatusIs(Available)))
  }

  /** `rules.canManageUsers`: without the permission, only the caller's own row. */
  function CanManageUsersRule(permissionsList: seq<Permission>, session: Option<Session>): (r: Access)
    requires RulesDefined(permissionsList)
    ensures r == Deny <==> session == None
    ensures r == Allow <==> HasPermission(session, CanManageUsers)
    ensures r.Restrict? ==> r.filter == IdIs(session.value.itemId)
  {
    Gated(permissionsList, session, CanManageUsers, id => IdIs(id))
  }

  /**
    * Which rows each rule lets a session touch. Signed-out sessions touch no
    * row except, for reading, the available products; a session without the
    * gating permission touches only the rows it owns (directly, through the
    * parent order, or as the row itself).
    */
  lemma RowAccess(permissionsList: seq<Permission>, session: Option<Session>, row: Row)
    requires RulesDefined(permissionsList)
    ensures Admits(CanManageProductsRule(permissionsList, session), row) <==>
              session != None && (HasPermission(session, CanManageProducts) || row.owner == Some(session.value.itemId))
    ensures Admits(CanOrderRule(permissionsList, session), row) <==>
              session != None && (HasPermission(session, CanManageCart) || row.owner == Some(session.value.itemId))
    ensures Admits(CanManageOrderItemsRule(permissionsList, session), row) <==>
              session != None && (HasPermission(session, CanManageCart) || row.orderOwner == Some(session.value.itemId))
    ensures Admits(CanReadProductsRule(permissionsList, session), row) <==>
              row.status == Some(Available) ||
              (session != None && (HasPermission(session, CanManageProducts) || row.owner == Some(session.value.itemId)))
    ensures Admits(CanManageUsersRule(permissionsList, session), row) <==>
              session != None && (HasPermission(session, CanManageUsers) || row.id == session.value.itemId)
  {
    var read := CanReadProductsRule(permissionsList, session);
    if session != None && !HasPermission(session, CanManageProducts) {
      assert read.filter == Or(UserIs(session.value.itemId), StatusIs(Available));
      assert Matches(read.filter, row) <==>
               Matches(UserIs(session.value.itemId), row) || Matches(StatusIs(Available), row);
    }
  }

  /**
    * A signed-in session whose role grants a rule's permission is allowed
    * everything by that rule, whatever its item id.
    */
  lemma GrantedRegardlessOfItemId(permissionsList: seq<Permission>, itemId: string, role: Role)
    requires RulesDefined(permissionsList)
    ensures CanManageProducts in role && role[CanManageProducts] ==>
              CanManageProductsRule(permissionsList, Some(Session(itemId, Some(role)))) == Allow &&
              CanReadProductsRule(permissionsList, Some(Session(itemId, Some(role)))) == Allow
    ensures CanManageCart in role && role[CanManageCart] ==>
              CanOrderRule(permissionsList, Some(Session(itemId, Some(role)))) == Allow &&
              CanManageOrderItemsRule(permissionsList, Some(Session(itemId, Some(role)))) == Allow
    ensures CanManageUsers in role && role[CanManageUsers] ==>
              CanManageUsersRule(permissionsList, Some(Session(itemId, Some(role)))) == Allow
  {
  }

  /**
    * Orders and order items are gated on canManageCart: a session holding
    * only canManageProducts gets its owner filter, not unconditional access.
    */
  lemma OrdersIgnoreProductPermission(permissionsList: seq<Permission>, itemId: string)
    requires RulesDefined(permissionsList)
    ensures CanOrderRule(permissionsList, Some(Session(itemId, Some(map[CanManageProducts := true])))) ==
              Restrict(UserIs(itemId))
    ensures CanManageOrderItemsRule(permissionsList, Some(Session(itemId, Some(map[CanManageProducts := true])))) ==
              Restrict(OrderUserIs(itemId))
  {
  }
}
