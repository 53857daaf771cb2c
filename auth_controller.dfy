/** Registration and login (backend/controllers/authController.js). The user collection is a sequence of
    documents in insertion order, which is the order `findOne` scans. bcrypt and jwt are parameters:
    `hash` turns a password into its stored hash, `compare` checks a password against a stored hash, and
    `sign` issues a token for a user id and role. */
module AuthController {
  import opened Common

  /** A user document as `toObject()` gives it: field name to value. */
  type UserDoc = map<string, string>

  /** A token and the user it was issued for, as both endpoints answer. */
  datatype Session = Session(token: string, user: UserDoc)

  const AllFieldsRequired: string := "All fields are required"
  const UserExists: string := "User already exists"
  const Registered: string := "User registered successfully"
  const RegistrationFailed: string := "Server error during registration"
  const CredentialsRequired: string := "Email and password are required"
  const InvalidEmailFormat: string := "Invalid email format"
  const InvalidCredentials: string := "Invalid credentials"

  /** A field's value, "" when the document lacks it. */
  function Field(d: UserDoc, key: string): string
  {
    if key in d then d[key] else ""
  }

  /** `findOne({ <key>: value })`: the position of the first document whose field equals `value`, or -1. */
  function FindBy(users: seq<UserDoc>, key: string, value: string): (i: int)
    ensures -1 <= i < |users|
    ensures i >= 0 ==> Field(users[i], key) == value
    ensures i >= 0 ==> forall k :: 0 <= k < i ==> Field(users[k], key) != value
    ensures i < 0 <==> forall k :: 0 <= k < |users| ==> Field(users[k], key) != value
  {
    if users == [] then -1
    else if Field(users[0], key) == value then 0
    else
      var r := FindBy(users[1..], key, value);
      if r < 0 then -1 else r + 1
  }

  /** A document appended after all earlier ones is found exactly when none of those matches. */
  lemma {:induction false} FindByAppended(users: seq<UserDoc>, u: UserDoc, key: string, value: string)
    requires FindBy(users, key, value) < 0
    requires Field(u, key) == value
    ensures FindBy(users + [u], key, value) == |users|
  {
    var all := users + [u];
    assert forall k :: 0 <= k < |users| ==> all[k] == users[k];
    assert all[|users|] == u;
  }

  /** `sanitizeUser`: the document without `password` and `__v`, every other field kept as it is. */
  function SanitizeUser(d: UserDoc): (r: UserDoc)
    ensures "password" !in r && "__v" !in r
    ensures r.Keys <= d.Keys
    ensures forall k :: k in d && k != "password" && k != "__v" ==> k in r && r[k] == d[k]
  {
    d - {"password", "__v"}
  }

  /** The position of the first `c` at or after `from`, or |s| when there is none. */
  function NextIndexOf(s: string, c: char, from: nat): (r: nat)
    requires from <= |s|
    ensures from <= r <= |s|
    ensures r < |s| ==> s[r] == c
    ensures forall k :: from <= k < r ==> s[k] != c
    decreases |s| - from
  {
    if from == |s| || s[from] == c then from else NextIndexOf(s, c, from + 1)
  }

  /** The anchored pattern `^\S+@\S+\.\S+$`: no whitespace anywhere, an '@' after at least one character,
      then at least one character, a '.', and at least one more character. */
  predicate EmailFormat(s: string)
    ensures EmailFormat(s) ==> |s| >= 5 && '@' in s && '.' in s
  {
    NoSpace(s) && exists i, j :: 0 < i && i + 1 < j < |s| - 1 && s[i] == '@' && s[j] == '.'
  }

  /** The pattern decided by one scan: the first '@' past the first character, then the first '.' at
      least two characters after it, which must leave a character behind it. */
  predicate MatchesEmailPattern(s: string)
  {
    NoSpace(s) && 1 <= |s| &&
    var at := NextIndexOf(s, '@', 1);
    at + 2 <= |s| && NextIndexOf(s, '.', at + 2) < |s| - 1
  }

  /** The scan accepts exactly the strings the pattern describes. */
  lemma MatchesEmailPatternIffFormat(s: string)
    ensures MatchesEmailPattern(s) <==> EmailFormat(s)
  {
    if MatchesEmailPattern(s) {
      var at := NextIndexOf(s, '@', 1);
      var dot := NextIndexOf(s, '.', at + 2);
      assert 0 < at && at + 1 < dot < |s| - 1 && s[at] == '@' && s[dot] == '.';
    }
    if EmailFormat(s) {
      var i, j :| 0 < i && i + 1 < j < |s| - 1 && s[i] == '@' && s[j] == '.';
      var at := NextIndexOf(s, '@', 1);
      assert at <= i;
      var dot := NextIndexOf(s, '.', at + 2);
      assert dot <= j;
    }
  }

  /** The role a new user gets: the request's role when it sent one, whatever its value, else 'user'. */
  function RoleOf(role: Option<string>): string
  {
    match role
    case None => "user"
    case Some(r) => r
  }

  /** The document `new User({...})` builds and `save` stores. */
  function NewUser(id: string, name: string, email: string, passwordHash: string, role: string): UserDoc
  {
    map["_id" := id, "name" := name, "email" := email, "password" := passwordHash, "role" := role, "__v" := "0"]
  }

  /** The user collection. */
  class UserStore {
    var users: seq<UserDoc>

    /** At most one user per email. */
    predicate Valid()
      reads this
    {
      forall i, j :: 0 <= i < j < |users| ==> Field(users[i], "email") != Field(users[j], "email")
    }

    constructor ()
      ensures users == [] && Valid()
    {
      users := [];
    }
  }

  /** `register`. Missing fields give 400 and an existing email 409, both before anything is stored; a
      failing save gives 500; otherwise the new user is appended and answered, without its hash, together
      with a token for its id and role. */
  method Register(store: UserStore, name: string, email: string, password: string, role: Option<string>,
                  newId: string, saveFails: bool, hash: string -> string, sign: (string, string) -> string)
    returns (resp: Reply<Session>)
    requires store.Valid()
    modifies store
    ensures store.Valid()
    ensures name == "" || email == "" || password == "" ==>
      resp == Reply(400, AllFieldsRequired, None) && store.users == old(store.users)
    ensures name != "" && email != "" && password != "" && FindBy(old(store.users), "email", email) >= 0 ==>
      resp == Reply(409, UserExists, None) && store.users == old(store.users)
    ensures name != "" && email != "" && password != "" && FindBy(old(store.users), "email", email) < 0 && saveFails ==>
      resp == Reply(500, RegistrationFailed, None) && store.users == old(store.users)
    ensures name != "" && email != "" && password != "" && FindBy(old(store.users), "email", email) < 0 && !saveFails ==>
      var u := NewUser(newId, name, email, hash(password), RoleOf(role));
      store.users == old(store.users) + [u] &&
      resp == Reply(201, Registered, Some(Session(sign(newId, RoleOf(role)), SanitizeUser(u))))
  {
    if name == "" || email == "" || password == "" {
      return Reply(400, AllFieldsRequired, None);
    }
    if FindBy(store.users, "email", email) >= 0 {
      return Reply(409, UserExists, None);
    }
    var u := NewUser(newId, name, email, hash(password), RoleOf(role));
    if saveFails {
      return Reply(500, RegistrationFailed, None);
    }
    assert Field(u, "email") == email;
    store.users := store.users + [u];
    resp := Reply(201, Registered, Some(Session(sign(newId, RoleOf(role)), SanitizeUser(u))));
  }

  const LoginServerError: string := "Server error during login"

  /** `login`. Missing credentials and a malformed email give 400; an unknown email and a wrong password
      give the same 401; otherwise the user, without its hash, and a token for its id and role.
      `thrown`: `User.findOne`, `bcrypt.compare` or `jwt.sign` throws, and the catch answers 500. */
  function Login(users: seq<UserDoc>, email: string, password: string,
                 compare: (string, string) -> bool, sign: (string, string) -> string, thrown: bool): (r: Reply<Session>)
    ensures email == "" || password == "" ==> r == Reply(400, CredentialsRequired, None)
    ensures email != "" && password != "" && !EmailFormat(email) ==> r == Reply(400, InvalidEmailFormat, None)
    ensures email != "" && password != "" && EmailFormat(email) && thrown ==> r == Reply(500, LoginServerError, None)
    ensures r.code == 401 ==> r == Reply(401, InvalidCredentials, None)
    ensures r.code == 200 <==>
      email != "" && password != "" && EmailFormat(email) && !thrown && FindBy(users, "email", email) >= 0 &&
      compare(password, Field(users[FindBy(users, "email", email)], "password"))
    ensures r.code == 200 ==>
      var u := users[FindBy(users, "email", email)];
      r == Reply(200, "", Some(Session(sign(Field(u, "_id"), Field(u, "role")), SanitizeUser(u))))
    ensures r.code in {200, 400, 401, 500}
  {
    MatchesEmailPatternIffFormat(email);
    if email == "" || password == "" then Reply(400, CredentialsRequired, None)
    else if !MatchesEmailPattern(email) then Reply(400, InvalidEmailFormat, None)
    else if thrown then Reply(500, LoginServerError, None)
    else
      var i := FindBy(users, "email", email);
      if i < 0 then Reply(401, InvalidCredentials, None)
      else if !compare(password, Field(users[i], "password")) then Reply(401, InvalidCredentials, None)
      else Reply(200, "", Some(Session(sign(Field(users[i], "_id"), Field(users[i], "role")), SanitizeUser(users[i]))))
  }

  /** An unknown email and a known email with a wrong password get the same answer, so the response does
      not reveal which emails are registered. */
  lemma LoginHidesWhichEmailsExist(users: seq<UserDoc>, others: seq<UserDoc>, email: string, password: string,
                                   compare: (string, string) -> bool, sign: (string, string) -> string, thrown: bool)
    requires forall k :: 0 <= k < |users| ==> Field(users[k], "email") != email
    requires FindBy(others, "email", email) >= 0
    requires !compare(password, Field(others[FindBy(others, "email", email)], "password"))
    ensures Login(users, email, password, compare, sign, thrown) == Login(others, email, password, compare, sign, thrown)
  {
  }

  /** A user who has just registered can log in with the same email and password, and gets the token
      and the user that registration answered with. */
  lemma RegisteredUserLogsIn(users: seq<UserDoc>, name: string, email: string, password: string, role: Option<string>,
                             newId: string, hash: string -> string, compare: (string, string) -> bool,
                             sign: (string, string) -> string)
    requires name != "" && password != "" && EmailFormat(email)
    requires FindBy(users, "email", email) < 0
    requires compare(password, hash(password))
    ensures
      var u := NewUser(newId, name, email, hash(password), RoleOf(role));
      Login(users + [u], email, password, compare, sign, false) ==
      Reply(200, "", Some(Session(sign(newId, RoleOf(role)), SanitizeUser(u))))
  {
    var u := NewUser(newId, name, email, hash(password), RoleOf(role));
    NewUserFields(newId, name, email, hash(password), RoleOf(role));
    FindByAppended(users, u, "email", email);
    var all := users + [u];
    assert all[|users|] == u;
    assert Login(all, email, password, compare, sign, false).code == 200;
  }

  /** The record `register` stores holds the id, the email, the hash and the role it was built from. */
  lemma NewUserFields(id: string, name: string, email: string, passwordHash: string, role: string)
    ensures var u := NewUser(id, name, email, passwordHash, role);
      Field(u, "_id") == id && Field(u, "email") == email && Field(u, "password") == passwordHash &&
      Field(u, "role") == role
  {
  }
}
