/**
 The session store of the storefront (hooks/use-auth.ts): at most one signed-in
 user, mirrored under the persisted key "pizza-user". There is no real
 authentication: the password is accepted and ignored. The random id and the
 clock reading are parameters.
 */
module Auth {
  import opened Wrappers

  datatype User = User(id: string, email: string, name: string, createdAt: string)

  /** The part of `email` before its first '@'; all of it when it has none. */
  function LocalPart(email: string): (name: string)
    ensures name <= email
    ensures '@' !in name
    ensures |name| < |email| ==> email[|name|] == '@'
  {
    if email == [] then []
    else if email[0] == '@' then []
    else [email[0]] + LocalPart(email[1..])
  }

  /** An address `local@domain` whose local part has no '@' displays as
      `local`, whatever the domain. */
  lemma {:induction false} LocalPartOfAddress(local: string, domain: string)
    requires '@' !in local
    ensures LocalPart(local + "@" + domain) == local
  {
    if local != [] {
      assert (local + "@" + domain)[1..] == local[1..] + "@" + domain;
      LocalPartOfAddress(local[1..], domain);
    }
  }

  /** The record login builds. */
  function LoginRecord(email: string, password: string, id: string, createdAt: string): (u: User)
    ensures u.email == email && u.name == LocalPart(email)
    ensures u.id == id && u.createdAt == createdAt
  {
    User(id, email, LocalPart(email), createdAt)
  }

  /** The record register builds: the name is taken as given. */
  function RegisterRecord(email: string, password: string, name: string, id: string, createdAt: string): (u: User)
    ensures u.email == email && u.name == name
    ensures u.id == id && u.createdAt == createdAt
  {
    User(id, email, name, createdAt)
  }

  /** Given the same id and clock reading, login builds the same record
      whatever the password. */
  lemma LoginIgnoresPassword(email: string, p1: string, p2: string, id: string, createdAt: string)
    ensures LoginRecord(email, p1, id, createdAt) == LoginRecord(email, p2, id, createdAt)
  {
  }

  /** Signing in as jane@example.com displays the name "jane". */
  lemma JaneSignsIn(password: string, id: string, createdAt: string)
    ensures LoginRecord("jane@example.com", password, id, createdAt).name == "jane"
  {
    LocalPartOfAddress("jane", "example.com");
    assert "jane" + "@" + "example.com" == "jane@example.com";
  }

  /** One instance of the auth hook: the current user, the loaded flag and the
      persisted copy under "pizza-user". */
  class Session {
    var user: Option<User>
    var isLoaded: bool
    var stored: Option<User>

    /** A current user is always the persisted one, and after the initial
        load the two agree. */
    ghost predicate Valid()
      reads this
    {
      (user.Some? ==> user == stored) && (isLoaded ==> user == stored)
    }

    /** Mounting: nobody signed in, not yet loaded, over whatever `saved` is
        in storage. */
    constructor (saved: Option<User>)
      ensures Valid()
      ensures user == None && !isLoaded && stored == saved
    {
      user := None;
      isLoaded := false;
      stored := saved;
    }

    /** The initial load: a stored record becomes the current user. */
    method Load()
      requires Valid()
      modifies this
      ensures Valid() && isLoaded
      ensures stored == old(stored)
      ensures user == if stored.Some? then stored else old(user)
      ensures user == stored
    {
      if stored.Some? {
        user := stored;
      }
      isLoaded := true;
    }

    /** Signs in, replacing any current user, and persists the new record. */
    method Login(email: string, password: string, id: string, createdAt: string) returns (u: User)
      requires Valid()
      modifies this
      ensures Valid() && isLoaded == old(isLoaded)
      ensures u == LoginRecord(email, password, id, createdAt)
      ensures user == Some(u) && stored == Some(u)
    {
      u := LoginRecord(email, password, id, createdAt);
      user := Some(u);
      stored := Some(u);
    }

    /** Creates a fresh identity, replacing any current user, and persists it. */
    method Register(email: string, password: string, name: string, id: string, createdAt: string) returns (u: User)
      requires Valid()
      modifies this
      ensures Valid() && isLoaded == old(isLoaded)
      ensures u == RegisterRecord(email, password, name, id, createdAt)
      ensures user == Some(u) && stored == Some(u)
    {
      u := RegisterRecord(email, password, name, id, createdAt);
      user := Some(u);
      stored := Some(u);
    }

    /** Signs out and deletes the persisted record. */
    method Logout()
      requires Valid()
      modifies this
      ensures Valid() && isLoaded == old(isLoaded)
      ensures user == None && stored == None
    {
      user := None;
      stored := None;
    }
  }
}
