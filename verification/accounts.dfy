/** The user and role tables of the backend, as the routes see them. Each
    user's role is held by name; the role table is the list of role names in
    insertion order, so that adding a role twice would be visible. */
module Accounts {
  import opened Seqs

  const AdminRole: string := "Admin"
  const ResearcherRole: string := "Researcher"
  const ResidentRole: string := "Resident"

  datatype User = User(email: string, passwordHash: string, role: string)

  datatype Store = Store(users: map<nat, User>, roles: seq<string>)

  /** The table constraints: e-mail addresses and role names are unique and
      every user's role exists. */
  predicate Valid(st: Store) {
    && (forall a, b :: a in st.users && b in st.users && st.users[a].email == st.users[b].email ==> a == b)
    && NoDuplicates(st.roles)
    && (forall id :: id in st.users ==> st.users[id].role in st.roles)
  }

  predicate HasEmail(st: Store, email: string) {
    exists id :: id in st.users && st.users[id].email == email
  }

  /** The ids of the users holding the Admin role. */
  function Admins(st: Store): set<nat> {
    set id | id in st.users && st.users[id].role == AdminRole
  }

  /** The JWT identity issued at login and read back by the admin routes. */
  datatype Identity = Identity(id: nat, email: string, role: string)

  /** What the admin routes return for a user. */
  datatype UserView = UserView(id: nat, email: string, role: string)

  function View(st: Store, id: nat): UserView
    requires id in st.users
  {
    UserView(id, st.users[id].email, st.users[id].role)
  }

  /** Adding a user with a fresh id and an unused e-mail under an existing
      role keeps the store valid. */
  lemma AddUserValid(st: Store, id: nat, u: User)
    requires Valid(st) && id !in st.users && !HasEmail(st, u.email) && u.role in st.roles
    ensures Valid(st.(users := st.users[id := u]))
  {
  }
}
