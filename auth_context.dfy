/**
 * The auth context (AuthContext.jsx): the signed-in `user` state kept next
 * to the session storage, and the results login, registration, logout and
 * profile update report to the pages.
 */
module AuthContext {
  import opened Wrappers
  import opened SessionUser
  import opened AuthService

  /** What a call reports: `{ success, message }`. */
  datatype AuthResult = AuthResult(success: bool, message: Option<string>)

  /** A thrown request error: `response.data.message`, `error.message`, `response.status`. */
  datatype RequestError = RequestError(dataMessage: Option<string>, message: Option<string>, status: Option<int>)

  predicate Truthy(s: Option<string>) {
    s.Some? && s.value != ""
  }

  /** The message of a failed login, in the priority the handler checks. */
  function LoginErrorMessage(e: RequestError): (r: string)
    ensures Truthy(e.dataMessage) ==> r == e.dataMessage.value
    ensures !Truthy(e.dataMessage) && Truthy(e.message) ==> r == e.message.value
    ensures !Truthy(e.dataMessage) && !Truthy(e.message) ==>
              r == (if e.status == Some(404) then "Server not available. Please try again later."
                    else if e.status == Some(400) then "Invalid email or password"
                    else "Login failed")
  {
    if Truthy(e.dataMessage) then e.dataMessage.value
    else if Truthy(e.message) then e.message.value
    else if e.status == Some(404) then "Server not available. Please try again later."
    else if e.status == Some(400) then "Invalid email or password"
    else "Login failed"
  }

  /** A request that failed: the service rethrew with this error. */
  datatype Attempt<T> = Failed(error: RequestError) | Replied(reply: T)

  function AsOutcome<T>(a: Attempt<T>): (r: Outcome<T>)
    ensures r.Threw? <==> a.Failed?
    ensures a.Replied? ==> r == Returned(a.reply)
  {
    match a
    case Failed(_) => Threw
    case Replied(v) => Returned(v)
  }

  class AuthProvider {
    var user: Option<Record>
    var loading: bool
    const storage: SessionStorage

    /** The state mirrors the storage. */
    predicate Mirrors()
      reads this, storage
    {
      user == storage.stored
    }

    /** The initial render: no user yet, loading. */
    constructor(storage: SessionStorage)
      ensures this.storage == storage && user.None? && loading
    {
      this.storage := storage;
      user := None;
      loading := true;
    }

    /** The start-up effect: the stored user, or none; loading ends. */
    method Start()
      modifies this
      ensures user == storage.GetCurrentUser() && !loading
      ensures Mirrors()
    {
      var currentUser := storage.GetCurrentUser();
      if currentUser.Some? {
        user := currentUser;
      } else {
        user := None;
      }
      loading := false;
    }

    /**
     * `login`: a reply with success and a user makes that (tagged) user the
     * state; otherwise the state is kept and the reply's message, or
     * "Login failed", is reported; a thrown error reports its message.
     */
    method Login(attempt: Attempt<LoginReply>) returns (result: AuthResult)
      modifies this, storage
      ensures loading == old(loading)
      ensures attempt.Replied? && attempt.reply.success && attempt.reply.user.Some? ==>
                user == Some(Tagged(attempt.reply.user.value, "USER")) && result == AuthResult(true, None)
      ensures attempt.Replied? && !(attempt.reply.success && attempt.reply.user.Some?) ==>
                user == old(user) &&
                result == AuthResult(false, Some(if Truthy(attempt.reply.message) then attempt.reply.message.value else "Login failed"))
      ensures attempt.Failed? ==> user == old(user) && result == AuthResult(false, Some(LoginErrorMessage(attempt.error)))
      ensures storage.stored ==
                if attempt.Replied? && attempt.reply.success && attempt.reply.user.Some?
                then Some(Tagged(attempt.reply.user.value, "USER")) else old(storage.stored)
      ensures old(Mirrors()) ==> Mirrors()
    {
      var response := storage.Login(AsOutcome(attempt));
      match attempt {
        case Failed(e) =>
          return AuthResult(false, Some(LoginErrorMessage(e)));
        case Replied(_) =>
          if response.value.success && response.value.user.Some? {
            user := response.value.user;
            return AuthResult(true, None);
          }
          var errorMessage := if Truthy(response.value.message) then response.value.message.value else "Login failed";
          return AuthResult(false, Some(errorMessage));
      }
    }

    /**
     * `loginSeller`: a successful reply makes `{ ...seller, role: 'SELLER' }`
     * the state, an empty seller when the reply carries none.
     */
    method LoginSeller(attempt: Attempt<LoginReply>) returns (result: AuthResult)
      modifies this, storage
      ensures loading == old(loading)
      ensures attempt.Replied? && attempt.reply.success ==>
                user == Some(Tagged(attempt.reply.seller.GetOr(map[]), "SELLER")) && result == AuthResult(true, None)
      ensures attempt.Replied? && !attempt.reply.success ==>
                user == old(user) && result == AuthResult(false, attempt.reply.message)
      ensures attempt.Failed? ==>
                user == old(user) &&
                result == AuthResult(false, Some(if Truthy(attempt.error.dataMessage) then attempt.error.dataMessage.value else "Seller login failed"))
      ensures storage.stored ==
                if attempt.Replied? && attempt.reply.success && attempt.reply.seller.Some?
                then Some(Tagged(attempt.reply.seller.value, "SELLER")) else old(storage.stored)
      ensures old(Mirrors()) && (attempt.Replied? && attempt.reply.success ==> attempt.reply.seller.Some?) ==> Mirrors()
    {
      var response := storage.LoginSeller(AsOutcome(attempt));
      match attempt {
        case Failed(e) =>
          var errorMessage := if Truthy(e.dataMessage) then e.dataMessage.value else "Seller login failed";
          return AuthResult(false, Some(errorMessage));
        case Replied(reply) =>
          if reply.success {
            user := Some(Tagged(reply.seller.GetOr(map[]), "SELLER"));
            return AuthResult(true, None);
          }
          return AuthResult(false, reply.message);
      }
    }

    /** `register` (and `registerSeller`, with `fallback` its own text): `user` and storage are untouched. */
    method Register(attempt: Attempt<RegisterReply>, fallback: string) returns (result: AuthResult)
      ensures attempt.Replied? ==> result == AuthResult(attempt.reply.success, if attempt.reply.success then None else attempt.reply.message)
      ensures attempt.Failed? ==>
                result == AuthResult(false, Some(if Truthy(attempt.error.dataMessage) then attempt.error.dataMessage.value else fallback))
    {
      var response := storage.Register(AsOutcome(attempt));
      match attempt {
        case Failed(e) =>
          return AuthResult(false, Some(if Truthy(e.dataMessage) then e.dataMessage.value else fallback));
        case Replied(reply) =>
          if reply.success {
            return AuthResult(true, None);
          }
          return AuthResult(false, reply.message);
      }
    }

    /** `logout`: storage cleared and no user. */
    method Logout()
      modifies this, storage
      ensures user.None? && storage.stored.None? && loading == old(loading)
      ensures Mirrors()
    {
      storage.Logout();
      user := None;
    }

    /**
     * `updateUser`: after the request succeeds, `userData` is merged over the
     * previous user (an empty object when there was none); a failure
     * rethrows and the user stays.
     */
    method UpdateUser(userData: Record, reply: Outcome<()>) returns (r: Outcome<()>)
      modifies this, storage
      ensures r == reply && loading == old(loading)
      ensures reply.Returned? ==> user == Some(Merge(old(user).GetOr(map[]), userData))
      ensures reply.Returned? ==> storage.stored == Some(Merge(old(storage.stored).GetOr(map[]), userData))
      ensures reply.Threw? ==> user == old(user) && storage.stored == old(storage.stored)
      ensures old(Mirrors()) ==> Mirrors()
    {
      r := storage.UpdateUser(userData, reply);
      if reply.Returned? {
        user := Some(Merge(user.GetOr(map[]), userData));
      }
    }
  }

  /**
   * A successful seller login whose reply carries no seller sets the state
   * to a bare seller tag while the storage keeps its old value.
   */
  method SellerLoginWithoutSeller(storage: SessionStorage) returns (p: AuthProvider)
    requires storage.stored.None?
    modifies storage
    ensures p.user == Some(map["role" := JStr("SELLER")]) && p.storage.stored.None?
    ensures !p.Mirrors()
  {
    p := new AuthProvider(storage);
    p.Start();
    var _ := p.LoginSeller(Replied(LoginReply(true, None, None, None)));
    assert Tagged(map[], "SELLER") == map["role" := JStr("SELLER")];
  }
}
