/** The authentication hook's `login` and `register` (frontend useAuth.jsx): the boolean they resolve with,
    given the server's reply. The API layer (frontend lib/api.js) resolves with the axios response object
    for a 2xx status and rejects otherwise; the hook catches the rejection and resolves with false. */
module AuthHook {
  import opened Common
  import opened AuthController

  /** The top-level fields of an axios response object; the server's JSON body sits under `data`. */
  const ResponseFields: set<string> := {"data", "status", "statusText", "headers", "config", "request"}

  /** The request resolves rather than rejects. */
  predicate Resolves(reply: Reply<Session>)
  {
    200 <= reply.code < 300
  }

  /** `response.token && response.user` read on the axios response object itself, as written. */
  predicate SessionResultAsWritten(reply: Reply<Session>)
    ensures !SessionResultAsWritten(reply)
  {
    Resolves(reply) && "token" in ResponseFields && "user" in ResponseFields
  }

  /** The same test read on the body, `response.data`: a non-empty token, and a user object, which is
      always truthy. */
  predicate SessionResult(reply: Reply<Session>)
    ensures !Resolves(reply) ==> !SessionResult(reply)
    ensures SessionResult(reply) ==> reply.body.Some?
  {
    Resolves(reply) && reply.body.Some? && reply.body.value.token != ""
  }

  /** As written, `login` resolves with false even when the server accepted the credentials, so the
      login form never sees a success. `register` reads its reply the same way. */
  lemma AsWrittenLoginNeverSucceeds(users: seq<UserDoc>, email: string, password: string,
                                    compare: (string, string) -> bool, sign: (string, string) -> string, thrown: bool)
    requires Login(users, email, password, compare, sign, thrown).code == 200
    ensures !SessionResultAsWritten(Login(users, email, password, compare, sign, thrown))
  {
  }

  /** Read on the body, `login` resolves with true exactly when the server accepts the credentials:
      both fields given, the address well formed, a user with that address, and the password matching. */
  lemma LoginSucceedsIffAccepted(users: seq<UserDoc>, email: string, password: string,
                                 compare: (string, string) -> bool, sign: (string, string) -> string, thrown: bool)
    requires forall id, role :: sign(id, role) != ""
    ensures SessionResult(Login(users, email, password, compare, sign, thrown)) <==>
      email != "" && password != "" && EmailFormat(email) && !thrown && FindBy(users, "email", email) >= 0 &&
      compare(password, Field(users[FindBy(users, "email", email)], "password"))
  {
    var r := Login(users, email, password, compare, sign, thrown);
    if r.code == 200 {
      var u := users[FindBy(users, "email", email)];
      assert sign(Field(u, "_id"), Field(u, "role")) != "";
    }
  }
}
