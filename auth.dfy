/** The role-scoped permission check of middleware/auth.js. The decision is
    a total function of the authenticated user, the membership row the role
    query returns and the role's permission object; the middleware itself is
    a guard object whose handler records the role on the request and then
    either sends exactly one error reply or calls `next` exactly once. */
module Auth {
  import opened Wrappers
  import opened Js

  // ---------------------------------------------------------------------
  // data

  /** One row of the role query: the role's name and its JSON permission
      object, which maps a resource to an object of action flags that may
      also carry a `scope`. */
  datatype RoleRow = RoleRow(name: string, permissions: JsValue)

  /** What the role query for (user, company) yields: its rows, or a
      thrown error. */
  datatype RoleLookup = Rows(rows: seq<RoleRow>) | QueryFailed

  /** The membership and role tables, as the query for a given
      (userId, companyId) sees them. */
  type RoleDb = (JsValue, JsValue) -> RoleLookup

  /** The outcome of one permission check. The role row is carried by the
      outcomes reached after the row was read. */
  datatype Decision =
    | Unauthenticated                                  // 401
    | LookupFailed                                     // 500: the query threw
    | NotMember                                        // 403: no row for the company
    | PermissionsUnreadable(row: RoleRow)              // 500: `permissions[resource]` threw
    | PermissionDenied(row: RoleRow)                   // 403
    | ScopeDenied(row: RoleRow, requested: string, available: JsValue)  // 403
    | Allowed(row: RoleRow)                            // `next()`
  {
    /** The outcomes reached after `req.userRole` was assigned. */
    predicate ReadRow() {
      PermissionsUnreadable? || PermissionDenied? || ScopeDenied? || Allowed?
    }
  }

  /** The first row of a successful lookup, if any. */
  function FirstRow(lookup: RoleLookup): (r: Option<RoleRow>)
    ensures r.Some? <==> lookup.Rows? && |lookup.rows| > 0
    ensures r.Some? ==> r.value == lookup.rows[0]
  {
    if lookup.Rows? && |lookup.rows| > 0 then Some(lookup.rows[0]) else None
  }

  // ---------------------------------------------------------------------
  // the rules

  /** `permissions[resource][action]` is truthy (and reading it throws
      nothing). */
  predicate Grants(permissions: JsValue, resource: string, action: string) {
    && Readable(permissions)
    && var entry := Member(permissions, resource);
    && Truthy(entry)
    && Truthy(Member(entry, action))
  }

  /** The scope comparison is entered: a scope was asked for, the role's
      entry has one, and the two differ (`!==`). */
  predicate ScopeMismatch(requested: Option<string>, available: JsValue) {
    && requested.Some? && requested.value != ""
    && Truthy(available)
    && available != Str(requested.value)
  }

  /** The two mismatches the code lets through: `own` asked of a `company`
      role and `company` asked of a `global` role. */
  predicate Widening(requested: string, available: JsValue) {
    || (requested == "own" && available == Str("company"))
    || (requested == "company" && available == Str("global"))
  }

  /** The scope check passes. */
  predicate ScopeAdmits(requested: Option<string>, available: JsValue) {
    !ScopeMismatch(requested, available) || Widening(requested.value, available)
  }

  /** The scope of a resource entry: `resourcePermissions.scope`. */
  function EntryScope(permissions: JsValue, resource: string): JsValue
    requires Readable(permissions)
  {
    var entry := Member(permissions, resource);
    if Readable(entry) then Member(entry, "scope") else Undefined
  }

  /** The decision `requirePermission(resource, action, scope)` reaches for a
      request of `userId` on `companyId`. */
  function Decide(resource: string, action: string, scope: Option<string>,
                  userId: JsValue, companyId: JsValue, db: RoleDb): (d: Decision)
    ensures d.Unauthenticated? <==> !Truthy(userId)
    ensures d.LookupFailed? <==> Truthy(userId) && db(userId, companyId).QueryFailed?
    ensures d.NotMember? <==> Truthy(userId) && db(userId, companyId) == Rows([])
    ensures d.PermissionsUnreadable? || d.PermissionDenied? || d.ScopeDenied? || d.Allowed? <==>
      Truthy(userId) && FirstRow(db(userId, companyId)).Some?
    ensures d.PermissionsUnreadable? || d.PermissionDenied? || d.ScopeDenied? || d.Allowed? ==>
      d.row == db(userId, companyId).rows[0]
    ensures d.PermissionsUnreadable? <==>
      Truthy(userId) && FirstRow(db(userId, companyId)).Some?
      && !Readable(db(userId, companyId).rows[0].permissions)
    ensures d.PermissionDenied? ==> !Grants(d.row.permissions, resource, action)
    ensures d.ScopeDenied? ==>
      && Grants(d.row.permissions, resource, action)
      && scope == Some(d.requested)
      && d.available == EntryScope(d.row.permissions, resource)
      && !ScopeAdmits(scope, d.available)
    ensures d.Allowed? <==>
      && Truthy(userId) && FirstRow(db(userId, companyId)).Some?
      && var row := db(userId, companyId).rows[0];
      && Grants(row.permissions, resource, action)
      && ScopeAdmits(scope, EntryScope(row.permissions, resource))
  {
    if !Truthy(userId) then Unauthenticated
    else
      match db(userId, companyId)
      case QueryFailed => LookupFailed
      case Rows(rows) =>
        if |rows| == 0 then NotMember
        else
          var row := rows[0];
          if !Readable(row.permissions) then PermissionsUnreadable(row)
          else
            var entry := Member(row.permissions, resource);
            if !Truthy(entry) || !Truthy(Member(entry, action)) then PermissionDenied(row)
            else
              var available := Member(entry, "scope");
              if ScopeMismatch(scope, available) then
                if scope.value == "own" && available == Str("company") then Allowed(row)
                else if scope.value == "company" && available == Str("global") then Allowed(row)
                else ScopeDenied(row, scope.value, available)
              else Allowed(row)
  }

  // ---------------------------------------------------------------------
  // properties of the decision

  /** Without a truthy user id the reply is 401 whatever the role tables
      hold: the lookup does not affect the outcome. */
  lemma UnauthenticatedIgnoresRoles(resource: string, action: string, scope: Option<string>,
                                    userId: JsValue, companyId: JsValue, db1: RoleDb, db2: RoleDb)
    requires !Truthy(userId)
    ensures Decide(resource, action, scope, userId, companyId, db1) == Unauthenticated
    ensures Decide(resource, action, scope, userId, companyId, db1)
         == Decide(resource, action, scope, userId, companyId, db2)
  {
  }

  /** A missing resource entry or a falsy action flag is a permission
      denial, whatever scope is asked for. */
  lemma MissingPermissionDeniesAnyScope(resource: string, action: string, s1: Option<string>, s2: Option<string>,
                                        userId: JsValue, companyId: JsValue, db: RoleDb)
    requires Truthy(userId) && FirstRow(db(userId, companyId)).Some?
    requires var row := db(userId, companyId).rows[0];
      Readable(row.permissions) && !Grants(row.permissions, resource, action)
    ensures Decide(resource, action, s1, userId, companyId, db) == PermissionDenied(db(userId, companyId).rows[0])
    ensures Decide(resource, action, s1, userId, companyId, db) == Decide(resource, action, s2, userId, companyId, db)
  {
  }

  /** Equal scopes, an unset role scope or no requested scope never cause a
      scope denial. */
  lemma NoMismatchNoScopeDenial(requested: Option<string>, available: JsValue)
    requires || requested.None? || requested == Some("")
             || !Truthy(available) || available == Str(requested.value)
    ensures ScopeAdmits(requested, available)
  {
  }

  /** Between two different non-empty scope names, the check admits exactly
      the two widenings. */
  lemma ScopeMismatchTable(requested: string, available: string)
    requires requested != "" && available != "" && requested != available
    ensures ScopeAdmits(Some(requested), Str(available)) <==>
      (requested, available) == ("own", "company") || (requested, available) == ("company", "global")
  {
  }

  /** Asking for a scope can only take permissions away: a check that admits
      with a scope admits without one, and a check without a scope is never
      denied for its scope. */
  lemma ScopeOnlyRestricts(resource: string, action: string, scope: Option<string>,
                           userId: JsValue, companyId: JsValue, db: RoleDb)
    ensures Decide(resource, action, scope, userId, companyId, db).Allowed? ==>
            Decide(resource, action, None, userId, companyId, db).Allowed?
    ensures !Decide(resource, action, None, userId, companyId, db).ScopeDenied?
    ensures !Decide(resource, action, scope, userId, companyId, db).ScopeDenied? ==>
            Decide(resource, action, scope, userId, companyId, db) == Decide(resource, action, None, userId, companyId, db)
  {
  }

  /** The breadth of the three named scopes: own < company < global. */
  function Breadth(scope: string): Option<nat>
  {
    if scope == "own" then Some(0)
    else if scope == "company" then Some(1)
    else if scope == "global" then Some(2)
    else None
  }

  /** By breadth, a role scope covers every requested scope that is no
      broader. */
  predicate CoversByBreadth(requested: string, available: string) {
    Breadth(requested).Some? && Breadth(available).Some?
    && Breadth(requested).value <= Breadth(available).value
  }

  /** On the three named scopes the code admits only what breadth admits,
      and refuses exactly one request that breadth would admit: `own` asked
      of a `global` role. */
  lemma ScopeRuleAgainstBreadth(requested: string, available: string)
    requires Breadth(requested).Some? && Breadth(available).Some?
    ensures ScopeAdmits(Some(requested), Str(available)) ==> CoversByBreadth(requested, available)
    ensures CoversByBreadth(requested, available) && !ScopeAdmits(Some(requested), Str(available)) <==>
      requested == "own" && available == "global"
  {
  }

  /** `requireSuperAdmin` admits exactly the members whose role grants
      `companies.create`. */
  lemma SuperAdminMeansCompaniesCreate(userId: JsValue, companyId: JsValue, db: RoleDb)
    ensures Decide("companies", "create", None, userId, companyId, db).Allowed? <==>
      Truthy(userId) && FirstRow(db(userId, companyId)).Some?
      && Grants(db(userId, companyId).rows[0].permissions, "companies", "create")
    ensures !Decide("companies", "create", None, userId, companyId, db).ScopeDenied?
  {
  }

  /** `requireAdminAzienda` admits exactly the members whose role grants
      `users.assign_roles`. */
  lemma AdminAziendaMeansAssignRoles(userId: JsValue, companyId: JsValue, db: RoleDb)
    ensures Decide("users", "assign_roles", None, userId, companyId, db).Allowed? <==>
      Truthy(userId) && FirstRow(db(userId, companyId)).Some?
      && Grants(db(userId, companyId).rows[0].permissions, "users", "assign_roles")
    ensures !Decide("users", "assign_roles", None, userId, companyId, db).ScopeDenied?
  {
  }

  // ---------------------------------------------------------------------
  // replies

  /** The `error` texts of the replies. */
  datatype Message =
    | NotAuthenticated                      // 'Utente non autenticato'
    | NotAuthorisedForCompany               // 'Utente non autorizzato per questa azienda'
    | PermissionRefused(action: string, resource: string)     // `Permesso negato: ${action} su ${resource}`
    | ScopeRefused(requested: string, available: JsValue)     // `Scope non autorizzato: richiesto ..., disponibile ...`
    | InternalCheckError                    // 'Errore interno verifica autorizzazioni'

  /** `res.status(status).json({ error, userRole })`. */
  datatype Reply = Reply(status: nat, error: Message, userRole: Option<string>)

  /** The reply sent for a decision other than `Allowed`. */
  function ReplyFor(d: Decision, resource: string, action: string): (r: Reply)
    requires !d.Allowed?
    ensures r.status == 401 <==> d.Unauthenticated?
    ensures r.status == 500 <==> d.LookupFailed? || d.PermissionsUnreadable?
    ensures r.status == 403 <==> d.NotMember? || d.PermissionDenied? || d.ScopeDenied?
    ensures r.userRole.Some? <==> d.PermissionDenied? || d.ScopeDenied?
    ensures d.PermissionDenied? || d.ScopeDenied? ==> r.userRole == Some(d.row.name)
    ensures d.Unauthenticated? ==> r.error == NotAuthenticated
    ensures d.NotMember? ==> r.error == NotAuthorisedForCompany
    ensures d.LookupFailed? || d.PermissionsUnreadable? ==> r.error == InternalCheckError
    ensures d.PermissionDenied? ==> r.error == PermissionRefused(action, resource)
    ensures d.ScopeDenied? ==> r.error == ScopeRefused(d.requested, d.available)
  {
    match d
    case Unauthenticated => Reply(401, NotAuthenticated, None)
    case LookupFailed => Reply(500, InternalCheckError, None)
    case NotMember => Reply(403, NotAuthorisedForCompany, None)
    case PermissionsUnreadable(_) => Reply(500, InternalCheckError, None)
    case PermissionDenied(row) => Reply(403, PermissionRefused(action, resource), Some(row.name))
    case ScopeDenied(row, requested, available) => Reply(403, ScopeRefused(requested, available), Some(row.name))
  }

  /** A user with no membership row gets the "not authorised for this
      company" reply, never the permission-denied one. */
  lemma NonMemberReply(resource: string, action: string, scope: Option<string>,
                       userId: JsValue, companyId: JsValue, db: RoleDb)
    requires Truthy(userId) && db(userId, companyId) == Rows([])
    ensures var d := Decide(resource, action, scope, userId, companyId, db);
      && !d.Allowed?
      && ReplyFor(d, resource, action) == Reply(403, NotAuthorisedForCompany, None)
  {
  }

  // ---------------------------------------------------------------------
  // getUserPermissions

  /** `{ role, permissions }` as returned to the front end. */
  datatype UserPermissions = UserPermissions(role: string, permissions: JsValue)

  /** `{ role: 'none', permissions: {} }`. */
  const NoPermissions: UserPermissions := UserPermissions("none", Obj([]))

  /** `getUserPermissions(userId, companyId)`: the first row's role and
      permissions, or `NoPermissions` when there is no row or the query
      fails. */
  function GetUserPermissions(userId: JsValue, companyId: JsValue, db: RoleDb): (r: UserPermissions)
    ensures FirstRow(db(userId, companyId)).None? ==> r == NoPermissions
    ensures FirstRow(db(userId, companyId)).Some? ==>
      var row := db(userId, companyId).rows[0];
      r == UserPermissions(row.name, row.permissions)
  {
    match db(userId, companyId)
    case QueryFailed => NoPermissions
    case Rows(rows) =>
      if |rows| == 0 then NoPermissions
      else UserPermissions(rows[0].name, rows[0].permissions)
  }

  /** What the front end is told agrees with what the middleware used: for
      a member the same role and permissions, for a non-member none. */
  lemma GetUserPermissionsAgreesWithDecide(resource: string, action: string, scope: Option<string>,
                                           userId: JsValue, companyId: JsValue, db: RoleDb)
    ensures var d := Decide(resource, action, scope, userId, companyId, db);
      && (d.ReadRow() ==>
            GetUserPermissions(userId, companyId, db) == UserPermissions(d.row.name, d.row.permissions))
      && (d.NotMember? || d.LookupFailed? ==> GetUserPermissions(userId, companyId, db) == NoPermissions)
  {
  }

  // ---------------------------------------------------------------------
  // the middleware

  /** The fields of an Express request that the middleware reads and
      writes. An unset property is `None`. */
  class Request {
    var userId: JsValue
    var companyId: JsValue
    var userRole: Option<string>
    var userPermissions: Option<JsValue>

    constructor (userId: JsValue, companyId: JsValue)
      ensures this.userId == userId && this.companyId == companyId
      ensures userRole == None && userPermissions == None
    {
      this.userId := userId;
      this.companyId := companyId;
      userRole := None;
      userPermissions := None;
    }
  }

  /** An Express response: the last JSON reply and how many were sent. */
  class Response {
    var reply: Option<Reply>
    var sent: nat

    constructor ()
      ensures reply == None && sent == 0
    {
      reply := None;
      sent := 0;
    }

    /** `res.status(r.status).json({ error: r.error, userRole: r.userRole })`. */
    method Json(r: Reply)
      modifies this
      ensures reply == Some(r) && sent == old(sent) + 1
    {
      reply := Some(r);
      sent := sent + 1;
    }
  }

  /** The `next` callback, counting its calls. */
  class Next {
    var calls: nat

    constructor ()
      ensures calls == 0
    {
      calls := 0;
    }

    method Call()
      modifies this
      ensures calls == old(calls) + 1
    {
      calls := calls + 1;
    }
  }

  /** What one run of the middleware does, against `Decide`: it calls
      `next` once if the check passes and otherwise sends the one reply for
      the decision; `userRole` and `userPermissions` are set exactly when
      the role row was read; nothing else changes. */
  twostate predicate Handled(resource: string, action: string, scope: Option<string>, db: RoleDb,
                             req: Request, res: Response, next: Next)
    reads req, res, next
  {
    var d := Decide(resource, action, scope, old(req.userId), old(req.companyId), db);
    && req.userId == old(req.userId) && req.companyId == old(req.companyId)
    && (d.ReadRow() ==> req.userRole == Some(d.row.name) && req.userPermissions == Some(d.row.permissions))
    && (!d.ReadRow() ==> req.userRole == old(req.userRole) && req.userPermissions == old(req.userPermissions))
    && (d.Allowed? ==> next.calls == old(next.calls) + 1 && res.reply == old(res.reply) && res.sent == old(res.sent))
    && (!d.Allowed? ==> next.calls == old(next.calls)
                        && res.reply == Some(ReplyFor(d, resource, action)) && res.sent == old(res.sent) + 1)
  }

  /** The function `requirePermission(resource, action, scope)` returns. */
  class PermissionGuard {
    const resource: string
    const action: string
    const scope: Option<string>

    constructor (resource: string, action: string, scope: Option<string>)
      ensures this.resource == resource && this.action == action && this.scope == scope
    {
      this.resource := resource;
      this.action := action;
      this.scope := scope;
    }

    /** `(req, res, next) => { ... }`: exactly one of a reply or a call to
        `next`, as `Decide` says. */
    method Handle(db: RoleDb, req: Request, res: Response, next: Next)
      modifies req, res, next
      ensures Handled(resource, action, scope, db, req, res, next)
      ensures (res.sent - old(res.sent)) + (next.calls - old(next.calls)) == 1
    {
      var userId := req.userId;
      var companyId := req.companyId;
      if !Truthy(userId) {
        res.Json(Reply(401, NotAuthenticated, None));
        return;
      }
      var lookup := db(userId, companyId);
      if lookup.QueryFailed? {
        res.Json(Reply(500, InternalCheckError, None));
        return;
      }
      var rows := lookup.rows;
      if |rows| == 0 {
        res.Json(Reply(403, NotAuthorisedForCompany, None));
        return;
      }
      var row := rows[0];
      req.userRole := Some(row.name);
      req.userPermissions := Some(row.permissions);
      if !Readable(row.permissions) {
        // `permissions[resource]` throws a TypeError, caught below the check
        res.Json(Reply(500, InternalCheckError, None));
        return;
      }
      var entry := Member(row.permissions, resource);
      if !Truthy(entry) || !Truthy(Member(entry, action)) {
        res.Json(Reply(403, PermissionRefused(action, resource), Some(row.name)));
        return;
      }
      var available := Member(entry, "scope");
      if scope.Some? && scope.value != "" && Truthy(available) && available != Str(scope.value) {
        if scope.value == "own" && available == Str("company") {
        } else if scope.value == "company" && available == Str("global") {
        } else {
          res.Json(Reply(403, ScopeRefused(scope.value, available), Some(row.name)));
          return;
        }
      }
      next.Call();
    }
  }

  /** `requireSuperAdmin`: the guard for `companies.create`. */
  method RequireSuperAdmin(db: RoleDb, req: Request, res: Response, next: Next)
    modifies req, res, next
    ensures Handled("companies", "create", None, db, req, res, next)
  {
    var guard := new PermissionGuard("companies", "create", None);
    guard.Handle(db, req, res, next);
  }

  /** `requireAdminAzienda`: the guard for `users.assign_roles`. */
  method RequireAdminAzienda(db: RoleDb, req: Request, res: Response, next: Next)
    modifies req, res, next
    ensures Handled("users", "assign_roles", None, db, req, res, next)
  {
    var guard := new PermissionGuard("users", "assign_roles", None);
    guard.Handle(db, req, res, next);
  }
}
