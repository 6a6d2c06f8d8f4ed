/**
 * UserController.java: `register` over the users table, and the finding
 * about the password binding. `login`, `getUserById` and `updateUser` are
 * the shared endpoints of AuthReplies over the users table. UserService
 * is taken to pass straight through to the repository, as SellerService
 * and AdminService do.
 */
module UserController {
  import opened Wrappers
  import opened Entities
  import opened Http
  import opened BackendAccounts
  import opened AuthReplies

  const UserRegistered: string := "User registered successfully"

  /**
   * `register(user)`: saves `sent`, the `User` that Jackson binds from the
   * request body, under "User registered successfully". As the source is
   * written that binding is `BindUserAsWritten` of the body, so this is the
   * endpoint as written; `RegisteredUserCannotLogInAsWritten` follows it.
   */
  method Register(users: AccountService, sent: Account) returns (reply: Reply<AuthBody>)
    requires users.Valid()
    modifies users
    ensures users.Valid()
    ensures var check := CheckUnique(old(users.rows), sent.email, sent.username);
      if check == Unique then
        && users.rows == Saved(old(users.rows), sent, old(users.nextId))
        && reply == Ok(AuthBody(true, UserRegistered, Some(SavedRow(old(users.rows), sent, old(users.nextId)))))
      else
        && users.rows == old(users.rows) && users.nextId == old(users.nextId)
        && reply == Refusal(check)
  {
    reply := AuthReplies.Register(users, sent, UserRegistered);
  }

  /**
   * The `User` a request body binds to as the source is written: the
   * password field carries `@JsonIgnore`, which Jackson applies to reading
   * a body as well as to writing one, so the password sent is dropped.
   */
  function BindUserAsWritten(sent: Account): (r: Account)
    ensures r.password.None?
    ensures r.(password := sent.password) == sent
  {
    sent.(password := None)
  }

  /**
   * As written, a user who registers with a password cannot log in with
   * it: the stored row has no password, and no other row has the e-mail.
   */
  lemma RegisteredUserCannotLogInAsWritten(rows: seq<Account>, nextId: int, sent: Account)
    requires WellFormed(rows, nextId) && sent.password.Some?
    requires CheckUnique(rows, sent.email, sent.username) == Unique
    ensures SavedRow(rows, BindUserAsWritten(sent), nextId).password.None?
    ensures LoginReply(LoginMatch(Saved(rows, BindUserAsWritten(sent), nextId), sent.email, sent.password))
            == BadRequest(Some(AuthBody(false, InvalidCredentials, None)))
  {
    var bound := BindUserAsWritten(sent);
    SavedEffect(rows, bound, nextId);
    var r := Saved(rows, bound, nextId);
    forall a | a in r ensures !(a.email == sent.email && a.password == sent.password) {
      if a != SavedRow(rows, bound, nextId) {
        assert a in rows;
      }
    }
    LoginReplyOnTable(r, sent.email, sent.password);
  }

  /**
   * With the password read from the body, as `register` evidently
   * intends, a registered user logs in with the e-mail and password sent
   * and gets the stored row back.
   */
  lemma RegisterThenLogin(rows: seq<Account>, nextId: int, sent: Account)
    requires WellFormed(rows, nextId)
    requires CheckUnique(rows, sent.email, sent.username) == Unique
    ensures LoginReply(LoginMatch(Saved(rows, sent, nextId), sent.email, sent.password))
            == Ok(AuthBody(true, LoginSuccessful, Some(SavedRow(rows, sent, nextId))))
  {
    LoginFindsSaved(rows, nextId, sent);
  }
}
