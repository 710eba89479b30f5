/**
 * AuthContext: local accounts. The stored users list is a list of JSON records; signup
 * appends one, login looks one up by email and password, and updateUserStats merges changes
 * into the signed-in user's record without ever replacing its password.
 */
module AuthContext {
  import opened Wrappers
  import Clock

  /** A JSON value as stored in the users list. */
  datatype Value = Null | Bool(b: bool) | Num(n: int) | Str(s: string) | Arr(items: seq<Value>) | Obj(fields: map<string, Value>)

  /** One user record: the object's properties (an absent key is undefined). */
  type Record = map<string, Value>

  const DuplicateEmail := "User with this email already exists"
  const BadCredentials := "Invalid email or password"

  /** record.key, None when undefined. */
  function Get(r: Record, key: string): Option<Value>
  {
    if key in r then Some(r[key]) else None
  }

  /** The record as returned to the app: every property except the password. */
  function WithoutPassword(r: Record): (u: Record)
    ensures "password" !in u
    ensures forall k :: k != "password" ==> Get(u, k) == Get(r, k)
  {
    r - {"password"}
  }

  /** The record signup creates; id is Date.now() in decimal, createdAt the ISO time given. */
  function NewUser(email: string, password: string, username: string, now: nat, createdAt: string): Record
  {
    map[
      "id" := Str(Clock.NatToString(now)),
      "email" := Str(email),
      "username" := Str(username),
      "password" := Str(password),
      "createdAt" := Str(createdAt),
      "xp" := Num(0),
      "stats" := Obj(map[
        "totalSessions" := Num(0),
        "totalTime" := Num(0),
        "avgWpm" := Num(0),
        "avgAccuracy" := Num(0),
        "favoriteLanguage" := Null,
        "languagesPracticed" := Arr([])]),
      "preferences" := Obj(map["languages" := Arr([]), "theme" := Str("dark")])]
  }

  /** The three lookups of the context. */
  datatype Query = ByEmail(email: string) | ByCredentials(email: string, password: string) | ById(id: Option<Value>)

  predicate Matches(u: Record, q: Query)
  {
    match q
    case ByEmail(e) => Get(u, "email") == Some(Str(e))
    case ByCredentials(e, p) => Get(u, "email") == Some(Str(e)) && Get(u, "password") == Some(Str(p))
    case ById(id) => Get(u, "id") == id
  }

  /** users.findIndex for a query: the first matching index, None when nothing matches. */
  function Find(users: seq<Record>, q: Query): (r: Option<nat>)
    ensures r.None? <==> forall j :: 0 <= j < |users| ==> !Matches(users[j], q)
    ensures r.Some? ==> r.value < |users| && Matches(users[r.value], q)
                        && forall j :: 0 <= j < r.value ==> !Matches(users[j], q)
  {
    if users == [] then None
    else if Matches(users[0], q) then Some(0)
    else
      var r := Find(users[1..], q);
      if r.None? then None else Some(r.value + 1)
  }

  /** The email a record carries, if it is a string. */
  function EmailOf(u: Record): Option<string>
  {
    if "email" in u && u["email"].Str? then Some(u["email"].s) else None
  }

  /** No two stored users share an email. */
  predicate UniqueEmails(users: seq<Record>)
  {
    forall i, j :: 0 <= i < j < |users| && EmailOf(users[i]).Some? ==> EmailOf(users[i]) != EmailOf(users[j])
  }

  /** Signing up with an unused email keeps emails unique. */
  lemma SignupKeepsEmailsUnique(users: seq<Record>, email: string, password: string, username: string,
                                now: nat, createdAt: string)
    requires UniqueEmails(users) && Find(users, ByEmail(email)).None?
    ensures UniqueEmails(users + [NewUser(email, password, username, now, createdAt)])
  {
    var u := NewUser(email, password, username, now, createdAt);
    var users' := users + [u];
    forall i, j | 0 <= i < j < |users'| && EmailOf(users'[i]).Some?
      ensures EmailOf(users'[i]) != EmailOf(users'[j])
    {
      if j == |users| {
        assert !Matches(users[i], ByEmail(email));
        assert EmailOf(u) == Some(email);
      }
    }
  }

  /**
   * Merging updates into a stored record: the updates override, except that the record's own
   * password stays (and a record without one gets none).
   */
  function MergeStored(stored: Record, updates: Record): (r: Record)
    ensures Get(r, "password") == Get(stored, "password")
    ensures forall k :: k != "password" ==> Get(r, k) == if k in updates then Get(updates, k) else Get(stored, k)
  {
    var merged := stored + updates;
    if "password" in stored then merged["password" := stored["password"]] else merged - {"password"}
  }

  /** The context's users list and signed-in user. */
  class AuthStore {
    var users: seq<Record>
    var currentUser: Option<Record>

    constructor (users: seq<Record>)
      ensures this.users == users && currentUser == None
    {
      this.users := users;
      currentUser := None;
    }

    /**
     * signup: a taken email fails and changes nothing; otherwise one new record is appended
     * and its password-free copy signed in and returned.
     */
    method Signup(email: string, password: string, username: string, now: nat, createdAt: string)
      returns (r: Result<Record, string>)
      modifies this
      ensures Find(old(users), ByEmail(email)).Some? ==>
                r == Failure(DuplicateEmail) && users == old(users) && currentUser == old(currentUser)
      ensures Find(old(users), ByEmail(email)).None? ==>
                && users == old(users) + [NewUser(email, password, username, now, createdAt)]
                && r == Success(WithoutPassword(NewUser(email, password, username, now, createdAt)))
                && currentUser == Some(r.value)
    {
      var existingUser := Find(users, ByEmail(email));
      if existingUser.Some? {
        return Failure(DuplicateEmail);
      }
      var newUser := NewUser(email, password, username, now, createdAt);
      users := users + [newUser];
      var userWithoutPassword := WithoutPassword(newUser);
      currentUser := Some(userWithoutPassword);
      r := Success(userWithoutPassword);
    }

    /**
     * login: the first record matching both email and password is signed in without its
     * password; with no match the call fails and nothing changes.
     */
    method Login(email: string, password: string) returns (r: Result<Record, string>)
      modifies this
      ensures users == old(users)
      ensures Find(users, ByCredentials(email, password)).None? ==>
                r == Failure(BadCredentials) && currentUser == old(currentUser)
      ensures Find(users, ByCredentials(email, password)).Some? ==>
                && r == Success(WithoutPassword(users[Find(users, ByCredentials(email, password)).value]))
                && currentUser == Some(r.value)
    {
      var found := Find(users, ByCredentials(email, password));
      if found.None? {
        return Failure(BadCredentials);
      }
      var userWithoutPassword := WithoutPassword(users[found.value]);
      currentUser := Some(userWithoutPassword);
      r := Success(userWithoutPassword);
    }

    /** logout: nobody is signed in. */
    method Logout()
      modifies this
      ensures currentUser == None && users == old(users)
    {
      currentUser := None;
    }

    /**
     * updateUserStats: nothing without a signed-in user. Otherwise the first record with the
     * signed-in user's id is merged with the updates, keeping its password, every other
     * record is untouched, and the signed-in user becomes itself merged with the updates.
     */
    method UpdateUserStats(updates: Record)
      modifies this
      ensures old(currentUser).None? ==> users == old(users) && currentUser == None
      ensures old(currentUser).Some? ==>
                && currentUser == Some(old(currentUser).value + updates)
                && var idx := Find(old(users), ById(Get(old(currentUser).value, "id")));
                   if idx.None? then users == old(users)
                   else users == old(users)[idx.value := MergeStored(old(users)[idx.value], updates)]
    {
      if currentUser.None? {
        return;
      }
      var updatedUser := currentUser.value + updates;
      var userIndex := Find(users, ById(Get(currentUser.value, "id")));
      if userIndex.Some? {
        users := users[userIndex.value := MergeStored(users[userIndex.value], updates)];
      }
      currentUser := Some(updatedUser);
    }
  }

  /**
   * A signup followed by a login with the same email and password signs in the record just
   * created, and returns the same user signup returned.
   */
  lemma SignupThenLogin(users: seq<Record>, email: string, password: string, username: string,
                        now: nat, createdAt: string)
    requires Find(users, ByEmail(email)).None?
    ensures var u := NewUser(email, password, username, now, createdAt);
            Find(users + [u], ByCredentials(email, password)) == Some(|users|)
  {
    var u := NewUser(email, password, username, now, createdAt);
    var users' := users + [u];
    forall j | 0 <= j < |users| ensures !Matches(users'[j], ByCredentials(email, password)) {
      assert users'[j] == users[j];
      assert !Matches(users[j], ByEmail(email));
    }
    assert Matches(users'[|users|], ByCredentials(email, password));
    FindFirst(users', ByCredentials(email, password), |users|);
  }

  /** An index that matches with no earlier match is what Find returns. */
  lemma FindFirst(users: seq<Record>, q: Query, i: nat)
    requires i < |users| && Matches(users[i], q)
    requires forall j :: 0 <= j < i ==> !Matches(users[j], q)
    ensures Find(users, q) == Some(i)
  {
  }
}
