/**
 * The authentication store: the signed-in `user`, the bearer `token`, the
 * `isLoading` flag, and the token persisted under the key "token" in the
 * browser's storage. Each network action takes the server's reply, or the
 * exception the request ended in, as an input.
 */
module AuthStore {

  import opened Wrappers
  import opened Js

  datatype User = User(id: string, name: string, email: string)

  /**
   * The JSON body an auth endpoint replies with. `user` is `None` when it is absent or
   * `null` (the code only tests it for truthiness); `token` and `message` keep
   * `undefined` and `null` apart, because the token is written out as a string.
   */
  datatype AuthReply = AuthReply(success: bool, user: Option<User>, token: Nullable, message: Nullable)

  /** A request the store sends, with the body it sends. */
  datatype Request =
    | SendOtp(phone: string)
    | VerifyOtp(phone: string, otp: string)
    | Register(data: map<string, string>)
    | Login(email: string, password: string)

  /** The session: the in-memory `user` and `token`, and the persisted token (`None`: the key is absent). */
  datatype Session = Session(user: Option<User>, token: Nullable, stored: Option<string>)

  /** The store as it is created: no user, not loading, and the token read back from storage (`null` when there is none). */
  function InitialSession(stored: Option<string>): (s: Session)
    ensures s.user.None? && s.stored == stored
    ensures stored.Some? ==> s.token == Str(stored.value)
    ensures stored.None? ==> s.token == Null
  {
    Session(None, FromStorage(stored), stored)
  }

  /** `setAuth(user, token)`: the token is written to storage as a string (`undefined` as "undefined", `null` as "null") and both are set. */
  function WithAuth(user: Option<User>, token: Nullable): (s: Session)
    ensures s.user == user && s.token == token
    ensures token.Str? ==> s.stored == Some(token.value)
    ensures token == Undefined ==> s.stored == Some("undefined")
    ensures token == Null ==> s.stored == Some("null")
  {
    Session(user, token, Some(StringOf(token)))
  }

  /** `logout()`: storage entry removed, user and token cleared. */
  const LoggedOut: Session := Session(None, Null, None)

  /** Whether a reply commits a session: it arrived and reports `success`. */
  predicate Commits(reply: Completion<AuthReply>) {
    reply.Normal? && reply.value.success
  }

  /** The session after `verifyOTP`, `register` or `login` ends with `reply`. */
  function AfterCommit(s: Session, reply: Completion<AuthReply>): (r: Session)
    ensures Commits(reply) ==> r == WithAuth(reply.value.user, reply.value.token)
    ensures !Commits(reply) ==> r == s
  {
    if Commits(reply) then WithAuth(reply.value.user, reply.value.token) else s
  }

  /** A store created from storage after `setAuth(u, t)` holds `t` again. */
  lemma ReloadRestoresToken(user: Option<User>, token: string)
    ensures InitialSession(WithAuth(user, Str(token)).stored).token == Str(token)
  {
  }

  /** A store created from storage never has a user: only the token is persisted. */
  lemma ReloadForgetsUser(s: Session)
    ensures InitialSession(s.stored).user == None
  {
  }

  /**
   * A successful reply whose token is absent or `null` persists the string "undefined"
   * or "null", which a store created from storage reads back as a non-empty, truthy token.
   */
  lemma TokenlessSuccessPersistsUndefined(user: Option<User>, token: Nullable)
    requires !token.Str?
    ensures InitialSession(WithAuth(user, token).stored).token == Str(StringOf(token))
    ensures InitialSession(WithAuth(user, token).stored).token != token
    ensures TruthyString(InitialSession(WithAuth(user, token).stored).token)
  {
  }

  /** Signed out, whether by `logout` or by a start with nothing stored, the token is `null`, and a bearer header built from it reads "Bearer null". */
  lemma SignedOutBearerIsNull()
    ensures Bearer(LoggedOut.token) == "Bearer null"
    ensures Bearer(InitialSession(None).token) == "Bearer null"
  {
  }

  /** A failed or thrown action changes nothing, and a successful one does not depend on the session before it. */
  lemma CommitDependsOnlyOnReply(s: Session, s': Session, reply: Completion<AuthReply>)
    ensures Commits(reply) ==> AfterCommit(s, reply) == AfterCommit(s', reply)
    ensures !Commits(reply) ==> AfterCommit(s, reply) == s
  {
  }

  class Store {
    var user: Option<User>
    var token: Nullable
    var isLoading: bool
    /** The value under "token" in the browser's storage. */
    var stored: Option<string>
    /** Every value passed to `setLoading`, oldest first. */
    ghost var loadingLog: seq<bool>
    /** Every request sent, oldest first. */
    ghost var sent: seq<Request>

    function Current(): Session
      reads this
    {
      Session(user, token, stored)
    }

    constructor (persisted: Option<string>)
      ensures Current() == InitialSession(persisted) && !isLoading
      ensures loadingLog == [] && sent == []
    {
      user := None;
      token := FromStorage(persisted);
      stored := persisted;
      isLoading := false;
      loadingLog := [];
      sent := [];
    }

    method SetLoading(loading: bool)
      modifies this
      ensures isLoading == loading && loadingLog == old(loadingLog) + [loading]
      ensures Current() == old(Current()) && sent == old(sent)
    {
      isLoading := loading;
      loadingLog := loadingLog + [loading];
    }

    method SetAuth(u: Option<User>, t: Nullable)
      modifies this
      ensures Current() == WithAuth(u, t)
      ensures isLoading == old(isLoading) && loadingLog == old(loadingLog) && sent == old(sent)
    {
      stored := Some(StringOf(t));
      user, token := u, t;
    }

    method Logout()
      modifies this
      ensures Current() == LoggedOut
      ensures isLoading == old(isLoading) && loadingLog == old(loadingLog) && sent == old(sent)
    {
      stored := None;
      user, token := None, Null;
    }

    /**
     * The shape every action shares: loading on, send, loading off, then (for the
     * actions that commit) `setAuth` on `success`; the reply is returned and an
     * exception is re-thrown.
     */
    method Perform(request: Request, net: Completion<AuthReply>, commit: bool) returns (r: Completion<AuthReply>)
      modifies this
      ensures r == net
      ensures Current() == if commit then AfterCommit(old(Current()), net) else old(Current())
      ensures !isLoading && loadingLog == old(loadingLog) + [true, false]
      ensures sent == old(sent) + [request]
    {
      SetLoading(true);
      sent := sent + [request];
      match net
      case Threw(e) =>
        SetLoading(false);
        r := Threw(e);
      case Normal(data) =>
        SetLoading(false);
        if commit && data.success {
          SetAuth(data.user, data.token);
        }
        r := Normal(data);
    }

    /** `sendOTP(phone)`: never touches the session; the reply comes back as it is, `success` or not. */
    method SendOTP(phone: string, net: Completion<AuthReply>) returns (r: Completion<AuthReply>)
      modifies this
      ensures r == net
      ensures Current() == old(Current())
      ensures !isLoading && loadingLog == old(loadingLog) + [true, false]
      ensures sent == old(sent) + [SendOtp(phone)]
    {
      r := Perform(SendOtp(phone), net, false);
    }

    /** `verifyOTP(phone, otp)`: commits the reply's user and token on `success`. */
    method VerifyOTP(phone: string, otp: string, net: Completion<AuthReply>) returns (r: Completion<AuthReply>)
      modifies this
      ensures r == net
      ensures Current() == AfterCommit(old(Current()), net)
      ensures !isLoading && loadingLog == old(loadingLog) + [true, false]
      ensures sent == old(sent) + [VerifyOtp(phone, otp)]
    {
      r := Perform(VerifyOtp(phone, otp), net, true);
    }

    /** `register(data)`: commits the reply's user and token on `success`. */
    method Register(data: map<string, string>, net: Completion<AuthReply>) returns (r: Completion<AuthReply>)
      modifies this
      ensures r == net
      ensures Current() == AfterCommit(old(Current()), net)
      ensures !isLoading && loadingLog == old(loadingLog) + [true, false]
      ensures sent == old(sent) + [Request.Register(data)]
    {
      r := Perform(Request.Register(data), net, true);
    }

    /** `login(email, password)`: commits the reply's user and token on `success`. */
    method Login(email: string, password: string, net: Completion<AuthReply>) returns (r: Completion<AuthReply>)
      modifies this
      ensures r == net
      ensures Current() == AfterCommit(old(Current()), net)
      ensures !isLoading && loadingLog == old(loadingLog) + [true, false]
      ensures sent == old(sent) + [Request.Login(email, password)]
    {
      r := Perform(Request.Login(email, password), net, true);
    }
  }
}
