/** The admin blueprint: list users, read one user and assign a role, each
    open to Admin identities only. The JSON body of `assign-role` is reduced
    to its two fields; an absent field is `None`. */
module AdminRoutes {
  import opened Wrappers
  import opened Text
  import opened Accounts

  /** `require_admin`: an identity is present and its role is Admin.
      The routes below model the handler bodies, which run only after
      `@jwt_required()` has accepted a token (a missing or invalid token is
      answered 401 before them); `ident` is that token's identity, `None`
      standing for a falsy one. */
  predicate RequireAdmin(ident: Option<Identity>) {
    ident.Some? && ident.value.role == AdminRole
  }

  datatype ListReply = ListReply(status: nat, users: set<UserView>)

  /** `GET /users`: 403 for a non-admin, otherwise every user with its role.
      The source joins each user with its role row; under `Valid` every
      user's role exists, so the join drops no one. */
  function ListUsers(st: Store, ident: Option<Identity>): (r: ListReply)
    ensures r.status == 403 <==> !RequireAdmin(ident)
    ensures r.status == 403 ==> r.users == {}
    ensures r.status != 403 ==> r.status == 200
    ensures r.status == 200 ==>
              forall v :: v in r.users <==> v.id in st.users && v == View(st, v.id)
  {
    if !RequireAdmin(ident) then ListReply(403, {})
    else ListReply(200, set id | id in st.users :: View(st, id))
  }

  datatype GetReply = GetReply(status: nat, user: Option<UserView>)

  /** `GET /users/<id>`: 403 for a non-admin, 404 for an unknown id,
      otherwise that user. As in `ListUsers`, the role join is trivial
      under `Valid`. */
  function GetUser(st: Store, ident: Option<Identity>, userId: nat): (r: GetReply)
    ensures r.status == 403 <==> !RequireAdmin(ident)
    ensures r.status == 404 <==> RequireAdmin(ident) && userId !in st.users
    ensures r.status == 200 <==> RequireAdmin(ident) && userId in st.users
    ensures r.user.Some? <==> r.status == 200
    ensures r.status == 200 ==> r.user.value == View(st, userId)
  {
    if !RequireAdmin(ident) then GetReply(403, None)
    else if userId !in st.users then GetReply(404, None)
    else GetReply(200, Some(View(st, userId)))
  }

  datatype AssignReply = AssignReply(status: nat, store: Store)

  /** Python truthiness of the `userId` field: absent and 0 are falsy. */
  predicate TruthyId(userId: Option<int>) {
    userId.Some? && userId.value != 0
  }

  /** Demoting `id` would leave no Admin: it is an Admin, the new role is
      not, and no other user is an Admin. */
  predicate DemotesLastAdmin(st: Store, id: nat, roleName: string) {
    id in st.users && st.users[id].role == AdminRole && roleName != AdminRole
    && Admins(st) - {id} == {}
  }

  /** `POST /assign-role`, checks in source order: 403 for a non-admin, 400
      for a falsy id or role, 404 for an unknown user, 400 for demoting the
      last Admin, 404 for an unknown role; only then the user's role is
      replaced. Every failure leaves the store as it was. */
  function AssignRole(st: Store, ident: Option<Identity>, userId: Option<int>, roleName: Option<string>): (r: AssignReply)
    ensures r.status != 200 ==> r.store == st
    ensures !RequireAdmin(ident) ==> r.status == 403
    ensures RequireAdmin(ident) && (!TruthyId(userId) || !Truthy(roleName)) ==> r.status == 400
    ensures (RequireAdmin(ident) && TruthyId(userId) && Truthy(roleName)
             && (userId.value < 0 || userId.value as nat !in st.users)) ==> r.status == 404
    ensures (RequireAdmin(ident) && TruthyId(userId) && Truthy(roleName) && userId.value >= 0
             && DemotesLastAdmin(st, userId.value as nat, roleName.value)) ==> r.status == 400
    ensures (RequireAdmin(ident) && TruthyId(userId) && Truthy(roleName) && userId.value >= 0
             && userId.value as nat in st.users && !DemotesLastAdmin(st, userId.value as nat, roleName.value)
             && roleName.value !in st.roles) ==> r.status == 404
    ensures r.status == 200 <==>
              RequireAdmin(ident) && TruthyId(userId) && Truthy(roleName) && userId.value >= 0
              && userId.value as nat in st.users && !DemotesLastAdmin(st, userId.value as nat, roleName.value)
              && roleName.value in st.roles
    ensures r.status == 200 ==>
              var id := userId.value as nat;
              r.store == st.(users := st.users[id := st.users[id].(role := roleName.value)])
  {
    if !RequireAdmin(ident) then AssignReply(403, st)
    else if !TruthyId(userId) || !Truthy(roleName) then AssignReply(400, st)
    else if userId.value < 0 || userId.value as nat !in st.users then AssignReply(404, st)
    else
      var id := userId.value as nat;
      var name := roleName.value;
      if DemotesLastAdmin(st, id, name) then AssignReply(400, st)
      else if name !in st.roles then AssignReply(404, st)
      else AssignReply(200, st.(users := st.users[id := st.users[id].(role := name)]))
  }

  /** The headline invariant: with at least one Admin before, there is at
      least one after, whatever is asked. */
  lemma AssignKeepsAnAdmin(st: Store, ident: Option<Identity>, userId: Option<int>, roleName: Option<string>)
    requires Admins(st) != {}
    ensures Admins(AssignRole(st, ident, userId, roleName).store) != {}
  {
    var r := AssignRole(st, ident, userId, roleName);
    if r.status == 200 {
      var id := userId.value as nat;
      var name := roleName.value;
      if name == AdminRole {
        assert id in Admins(r.store);
      } else if st.users[id].role == AdminRole {
        var other :| other in Admins(st) - {id};
        assert other in Admins(r.store);
      } else {
        var a :| a in Admins(st);
        assert a != id;
        assert a in Admins(r.store);
      }
    }
  }

  /** A successful assignment keeps the tables valid: e-mails are untouched
      and the new role exists. */
  lemma AssignKeepsValid(st: Store, ident: Option<Identity>, userId: Option<int>, roleName: Option<string>)
    requires Valid(st)
    ensures Valid(AssignRole(st, ident, userId, roleName).store)
  {
  }

  /** Only the target user changes: every other user keeps e-mail and role. */
  lemma AssignTouchesOnlyTarget(st: Store, ident: Option<Identity>, userId: Option<int>, roleName: Option<string>, other: nat)
    requires other in st.users
    requires userId != Some(other as int)
    ensures other in AssignRole(st, ident, userId, roleName).store.users
    ensures AssignRole(st, ident, userId, roleName).store.users[other] == st.users[other]
    ensures AssignRole(st, ident, userId, roleName).store.roles == st.roles
  {
  }
}
