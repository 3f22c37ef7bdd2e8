/** The seed script: make sure the three roles exist, then create the
    configured initial Admin unless it is not configured or already there. */
module Seed {
  import opened Wrappers
  import opened Text
  import opened Seqs
  import opened Accounts

  const SeedRoles: seq<string> := [ResidentRole, ResearcherRole, AdminRole]

  /** The role loop: each name not yet in the table is appended, in list
      order; names already present are skipped. */
  function EnsureRoles(roles: seq<string>, names: seq<string>): (r: seq<string>)
    ensures forall n :: n in roles ==> n in r
    ensures forall i :: 0 <= i < |names| ==> names[i] in r
    ensures forall n :: n in r ==> n in roles || n in names
    ensures |roles| <= |r| && r[..|roles|] == roles
    ensures (forall i :: 0 <= i < |names| ==> names[i] in roles) ==> r == roles
    decreases |names|
  {
    if |names| == 0 then roles
    else
      var next := if names[0] in roles then roles else roles + [names[0]];
      var r := EnsureRoles(next, names[1..]);
      assert forall i :: 1 <= i < |names| ==> names[i] == names[1..][i - 1];
      assert r[..|roles|] == r[..|next|][..|roles|];
      r
  }

  /** The loop never adds a name that is already there, so the table stays
      free of duplicates. */
  lemma {:induction false} EnsureRolesNoDuplicates(roles: seq<string>, names: seq<string>)
    requires NoDuplicates(roles)
    ensures NoDuplicates(EnsureRoles(roles, names))
    decreases |names|
  {
    if |names| > 0 {
      var next := if names[0] in roles then roles else roles + [names[0]];
      if names[0] !in roles {
        forall i, j | 0 <= i < j < |next|
          ensures next[i] != next[j]
        {
          if j == |roles| {
            assert next[i] == roles[i];
          }
        }
      }
      EnsureRolesNoDuplicates(next, names[1..]);
    }
  }

  /** The whole script. `hash` is the password hash and `newId` the id the
      database assigns to a new user row. */
  function RunSeed(st: Store, email: Option<string>, password: Option<string>,
                   hash: string -> string, newId: nat): (r: Store)
    requires newId !in st.users
    ensures forall i :: 0 <= i < |SeedRoles| ==> SeedRoles[i] in r.roles
    ensures r.roles == EnsureRoles(st.roles, SeedRoles)
    ensures !Truthy(email) || !Truthy(password) ==> r.users == st.users
    ensures Truthy(email) && HasEmail(st, email.value) ==> r.users == st.users
    ensures Truthy(email) && Truthy(password) && !HasEmail(st, email.value) ==>
              r.users == st.users[newId := User(email.value, hash(password.value), AdminRole)]
  {
    var roles := EnsureRoles(st.roles, SeedRoles);
    if !Truthy(email) || !Truthy(password) then Store(st.users, roles)
    else if HasEmail(st, email.value) then Store(st.users, roles)
    else Store(st.users[newId := User(email.value, hash(password.value), AdminRole)], roles)
  }

  /** Seeding keeps the tables valid. */
  lemma SeedKeepsValid(st: Store, email: Option<string>, password: Option<string>, hash: string -> string, newId: nat)
    requires Valid(st) && newId !in st.users
    ensures Valid(RunSeed(st, email, password, hash, newId))
  {
    EnsureRolesNoDuplicates(st.roles, SeedRoles);
    var r := RunSeed(st, email, password, hash, newId);
    assert AdminRole in r.roles by {
      assert SeedRoles[2] == AdminRole;
    }
  }

  /** Seeding with an Admin configured and its e-mail unused creates an
      Admin with that e-mail. */
  lemma SeedCreatesAdmin(st: Store, email: string, password: string, hash: string -> string, newId: nat)
    requires newId !in st.users && email != "" && password != "" && !HasEmail(st, email)
    ensures newId in Admins(RunSeed(st, Some(email), Some(password), hash, newId))
    ensures RunSeed(st, Some(email), Some(password), hash, newId).users[newId].email == email
  {
  }

  /** Seeding with the configured e-mail already taken leaves the users as
      they are, whatever role the holder has: an address held by a non-Admin
      user then belongs to no Admin at all. */
  lemma SeedEmailTaken(st: Store, email: string, password: Option<string>, hash: string -> string,
                       newId: nat, holder: nat)
    requires Valid(st) && newId !in st.users && email != ""
    requires holder in st.users && st.users[holder].email == email
    ensures RunSeed(st, Some(email), password, hash, newId).users == st.users
    ensures st.users[holder].role != AdminRole ==>
              forall a :: a in Admins(RunSeed(st, Some(email), password, hash, newId)) ==>
                st.users[a].email != email
  {
  }

  /** Running the script a second time changes nothing, whatever id the
      database would have offered. */
  lemma SeedIdempotent(st: Store, email: Option<string>, password: Option<string>,
                       hash: string -> string, id1: nat, id2: nat)
    requires id1 !in st.users
    requires id2 !in RunSeed(st, email, password, hash, id1).users
    ensures var once := RunSeed(st, email, password, hash, id1);
            RunSeed(once, email, password, hash, id2) == once
  {
    var once := RunSeed(st, email, password, hash, id1);
    forall i | 0 <= i < |SeedRoles|
      ensures SeedRoles[i] in once.roles
    {
    }
    if Truthy(email) && Truthy(password) && !HasEmail(st, email.value) {
      assert once.users[id1].email == email.value;
      assert HasEmail(once, email.value);
    }
  }
}
