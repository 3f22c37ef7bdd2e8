/** The auth blueprint: self-registration and login. Password hashing, the
    hash check and e-mail validation are library calls and arrive as
    function parameters; the id the database assigns to a new row arrives as
    `newId`. */
module AuthRoutes {
  import opened Wrappers
  import opened Text
  import opened Accounts
  import opened AdminRoutes

  const MinPasswordLength: nat := 8

  /** The only roles a registration can ask for with effect: Researcher when
      requested by that exact name, Resident for anything else, never Admin. */
  function DerivedRole(requestedRole: Option<string>): (r: string)
    ensures r == ResearcherRole <==> requestedRole == Some(ResearcherRole)
    ensures r == ResidentRole <==> requestedRole != Some(ResearcherRole)
    ensures r != AdminRole
  {
    if requestedRole == Some(ResearcherRole) then ResearcherRole else ResidentRole
  }

  datatype RegisterReply = RegisterReply(status: nat, store: Store, user: Option<UserView>)

  /** `POST /register`, checks in source order: 400 for a missing e-mail or
      password, 400 for a password under 8 characters (before the address is
      validated), 400 for an invalid address, 500 when the derived role is not
      configured, 409 for a registered e-mail; otherwise 201 and exactly one
      new user. Every failure leaves the store as it was. */
  function Register(st: Store, email: Option<string>, password: Option<string>, requestedRole: Option<string>,
                    emailValid: string -> bool, hash: string -> string, newId: nat): (r: RegisterReply)
    requires newId !in st.users
    ensures r.status != 201 ==> r.store == st && r.user.None?
    ensures !Truthy(email) || !Truthy(password) ==> r.status == 400
    ensures (Truthy(email) && Truthy(password) && |password.value| < MinPasswordLength) ==> r.status == 400
    ensures (Truthy(email) && Truthy(password) && !emailValid(email.value)) ==> r.status == 400
    ensures (Truthy(email) && Truthy(password) && |password.value| >= MinPasswordLength && emailValid(email.value)
             && DerivedRole(requestedRole) !in st.roles) ==> r.status == 500
    ensures (Truthy(email) && Truthy(password) && |password.value| >= MinPasswordLength && emailValid(email.value)
             && DerivedRole(requestedRole) in st.roles && HasEmail(st, email.value)) ==> r.status == 409
    ensures r.status == 201 <==>
              Truthy(email) && Truthy(password) && |password.value| >= MinPasswordLength && emailValid(email.value)
              && DerivedRole(requestedRole) in st.roles && !HasEmail(st, email.value)
    ensures r.status == 201 ==>
              && r.store.roles == st.roles
              && r.store.users == st.users[newId := User(email.value, hash(password.value), DerivedRole(requestedRole))]
              && r.user == Some(UserView(newId, email.value, DerivedRole(requestedRole)))
    ensures Admins(r.store) == Admins(st)
  {
    if !Truthy(email) || !Truthy(password) then RegisterReply(400, st, None)
    else if |password.value| < MinPasswordLength then RegisterReply(400, st, None)
    else if !emailValid(email.value) then RegisterReply(400, st, None)
    else
      var roleName := DerivedRole(requestedRole);
      if roleName !in st.roles then RegisterReply(500, st, None)
      else if HasEmail(st, email.value) then RegisterReply(409, st, None)
      else
        var u := User(email.value, hash(password.value), roleName);
        var st' := st.(users := st.users[newId := u]);
        assert Admins(st') == Admins(st) by {
          assert newId !in Admins(st');
        }
        RegisterReply(201, st', Some(UserView(newId, email.value, roleName)))
  }

  /** Registration keeps the tables valid. */
  lemma RegisterKeepsValid(st: Store, email: Option<string>, password: Option<string>, requestedRole: Option<string>,
                           emailValid: string -> bool, hash: string -> string, newId: nat)
    requires Valid(st) && newId !in st.users
    ensures Valid(Register(st, email, password, requestedRole, emailValid, hash, newId).store)
  {
    var r := Register(st, email, password, requestedRole, emailValid, hash, newId);
    if r.status == 201 {
      AddUserValid(st, newId, User(email.value, hash(password.value), DerivedRole(requestedRole)));
    }
  }

  datatype LoginReply = LoginReply(status: nat, identity: Option<Identity>)

  /** A user with that e-mail whose stored hash accepts the password. */
  predicate Authenticates(st: Store, id: nat, email: string, password: string, passwordOk: (string, string) -> bool) {
    id in st.users && st.users[id].email == email && passwordOk(password, st.users[id].passwordHash)
  }

  /** `POST /login`: 400 for a missing field, 401 when no user has the
      e-mail or the password check fails, otherwise 200 with an identity
      carrying the user's id, e-mail and role. The user is the one with that
      address, unique by the e-mail column's constraint. */
  function Login(st: Store, email: Option<string>, password: Option<string>,
                 passwordOk: (string, string) -> bool): (r: LoginReply)
    requires Valid(st)
    ensures r.identity.Some? <==> r.status == 200
    ensures !Truthy(email) || !Truthy(password) ==> r.status == 400
    ensures Truthy(email) && Truthy(password) && !HasEmail(st, email.value) ==> r.status == 401
    ensures r.status == 400 <==> !Truthy(email) || !Truthy(password)
    ensures r.status == 401 <==>
              && Truthy(email) && Truthy(password)
              && !exists id :: Authenticates(st, id, email.value, password.value, passwordOk)
    ensures r.status == 200 ==>
              var ident := r.identity.value;
              && Authenticates(st, ident.id, email.value, password.value, passwordOk)
              && ident.email == email.value && ident.role == st.users[ident.id].role
    ensures r.status in {200, 400, 401}
  {
    if !Truthy(email) || !Truthy(password) then LoginReply(400, None)
    else if !HasEmail(st, email.value) then LoginReply(401, None)
    else
      var id :| id in st.users && st.users[id].email == email.value;
      assert forall j :: Authenticates(st, j, email.value, password.value, passwordOk) ==> j == id;
      if !passwordOk(password.value, st.users[id].passwordHash) then LoginReply(401, None)
      else
        assert Authenticates(st, id, email.value, password.value, passwordOk);
        LoginReply(200, Some(Identity(id, email.value, st.users[id].role)))
  }

  /** With unique e-mails, login succeeds exactly for the user with that
      address whose hash accepts the password. */
  lemma LoginExact(st: Store, email: string, password: string, passwordOk: (string, string) -> bool, id: nat)
    requires Valid(st) && email != "" && password != ""
    requires id in st.users && st.users[id].email == email
    ensures Login(st, Some(email), Some(password), passwordOk).status == 200
            <==> passwordOk(password, st.users[id].passwordHash)
    ensures Login(st, Some(email), Some(password), passwordOk).status == 200 ==>
              Login(st, Some(email), Some(password), passwordOk).identity == Some(Identity(id, email, st.users[id].role))
  {
  }

  /** Register, then log in with the same password (under a hash check that
      accepts its own hashes): the identity is the new user's, and it is not
      an Admin identity, so no admin route opens to it. */
  lemma RegisterThenLogin(st: Store, email: string, password: string, requestedRole: Option<string>,
                          emailValid: string -> bool, hash: string -> string, newId: nat,
                          passwordOk: (string, string) -> bool)
    requires Valid(st) && newId !in st.users
    requires passwordOk(password, hash(password))
    requires Register(st, Some(email), Some(password), requestedRole, emailValid, hash, newId).status == 201
    ensures var st' := Register(st, Some(email), Some(password), requestedRole, emailValid, hash, newId).store;
            var r := Login(st', Some(email), Some(password), passwordOk);
            && r.status == 200
            && r.identity == Some(Identity(newId, email, DerivedRole(requestedRole)))
            && !RequireAdmin(r.identity)
  {
    var st' := Register(st, Some(email), Some(password), requestedRole, emailValid, hash, newId).store;
    RegisterKeepsValid(st, Some(email), Some(password), requestedRole, emailValid, hash, newId);
    LoginExact(st', email, password, passwordOk, newId);
  }
}
