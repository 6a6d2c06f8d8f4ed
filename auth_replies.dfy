/**
 * What UserController, SellerController and AdminController share: the
 * response map of `register` and `login`, the order of the two uniqueness
 * checks, the reply a login query's outcome gives, and the
 * `register`/`login`/`get…ById`/`update…` endpoints themselves, which the
 * three controllers write out identically over their own tables.
 */
module AuthReplies {
  import opened Wrappers
  import opened Entities
  import opened Http
  import opened BackendAccounts

  /** The response map: `success`, `message` and, on success, the account (under "user", "seller" or "admin"). */
  datatype AuthBody = AuthBody(success: bool, message: string, account: Option<Account>)

  const EmailExists: string := "Email already exists"
  const UsernameExists: string := "Username already exists"
  const LoginSuccessful: string := "Login successful"
  const InvalidCredentials: string := "Invalid email or password"

  /** Which check of `register` stopped it, if any. */
  datatype Uniqueness = EmailInUse | UsernameInUse | Unique

  /** `register` asks `existsByEmail` first and `existsByUsername` only when the e-mail is free. */
  function CheckUnique(rows: seq<Account>, email: Option<string>, username: Option<string>): (r: Uniqueness)
    ensures r == EmailInUse <==> exists a :: a in rows && a.email == email
    ensures r == UsernameInUse <==>
              (forall a :: a in rows ==> a.email != email) && exists a :: a in rows && a.username == username
    ensures r == Unique <==>
              (forall a :: a in rows ==> a.email != email) && (forall a :: a in rows ==> a.username != username)
  {
    if EmailTaken(rows, email) then EmailInUse
    else if UsernameTaken(rows, username) then UsernameInUse
    else Unique
  }

  /** The 400 reply of a refused `register`: `success` false and the message of the check that failed. */
  function Refusal(check: Uniqueness): (r: Reply<AuthBody>)
    ensures check == EmailInUse ==> r == BadRequest(Some(AuthBody(false, EmailExists, None)))
    ensures check != EmailInUse ==> r == BadRequest(Some(AuthBody(false, UsernameExists, None)))
  {
    BadRequest(Some(AuthBody(false, if check == EmailInUse then EmailExists else UsernameExists, None)))
  }

  /**
   * `login`'s reply: 200 with the account when the query finds one row,
   * 400 with "Invalid email or password" when it finds none, and a server
   * error when the query throws.
   */
  function LoginReply(found: Outcome<Option<Account>>): (r: Reply<AuthBody>)
    ensures r.Ok? <==> found.Returned? && found.value.Some?
    ensures r.Ok? ==> r.body == AuthBody(true, LoginSuccessful, found.value)
    ensures r.BadRequest? <==> found == Returned(None)
    ensures r.BadRequest? ==> r.error == Some(AuthBody(false, InvalidCredentials, None))
    ensures r.ServerError? <==> found.Threw?
  {
    match found
    case Threw => ServerError
    case Returned(None) => BadRequest(Some(AuthBody(false, InvalidCredentials, None)))
    case Returned(Some(account)) => Ok(AuthBody(true, LoginSuccessful, Some(account)))
  }

  /**
   * `login` on a table: it succeeds exactly when one row has that e-mail
   * and password, and then returns that row; it refuses exactly when no row
   * does.
   */
  lemma LoginReplyOnTable(rows: seq<Account>, email: Option<string>, password: Option<string>)
    ensures var r := LoginReply(LoginMatch(rows, email, password));
      && (r.Ok? <==> |Credentials(rows, email, password)| == 1)
      && (r.Ok? ==> r.body.account.Some? && r.body.account.value in rows
                    && r.body.account.value.email == email && r.body.account.value.password == password)
      && (r == BadRequest(Some(AuthBody(false, InvalidCredentials, None))) <==>
            forall a :: a in rows ==> !(a.email == email && a.password == password))
  {
    var found := Credentials(rows, email, password);
    if |found| == 0 {
      assert LoginMatch(rows, email, password) == Returned(None);
    } else if |found| == 1 {
      assert found[0] in found;
    }
  }

  /**
   * `register`: a duplicate e-mail is refused before the username is looked
   * at, and a refusal stores nothing; otherwise `stored` (the body as the
   * service prepares it) is saved and returned with `success` true and the
   * controller's `message`.
   */
  method Register(accounts: AccountService, stored: Account, message: string) returns (reply: Reply<AuthBody>)
    requires accounts.Valid()
    modifies accounts
    ensures accounts.Valid()
    ensures var check := CheckUnique(old(accounts.rows), stored.email, stored.username);
      if check == Unique then
        && accounts.rows == Saved(old(accounts.rows), stored, old(accounts.nextId))
        && reply == Ok(AuthBody(true, message, Some(SavedRow(old(accounts.rows), stored, old(accounts.nextId)))))
      else
        && accounts.rows == old(accounts.rows) && accounts.nextId == old(accounts.nextId)
        && reply == Refusal(check)
  {
    if accounts.ExistsByEmail(stored.email) {
      return BadRequest(Some(AuthBody(false, EmailExists, None)));
    }
    if accounts.ExistsByUsername(stored.username) {
      return BadRequest(Some(AuthBody(false, UsernameExists, None)));
    }
    var registered := accounts.Save(stored);
    reply := Ok(AuthBody(true, message, Some(registered)));
  }

  /** `login(credentials)`: success exactly when one account has that e-mail and password. */
  function Login(accounts: AccountService, email: Option<string>, password: Option<string>): (r: Reply<AuthBody>)
    reads accounts
    ensures r.Ok? <==> |Credentials(accounts.rows, email, password)| == 1
    ensures r.Ok? ==> && r.body.success && r.body.message == LoginSuccessful && r.body.account.Some?
                      && r.body.account.value in accounts.rows
                      && r.body.account.value.email == email && r.body.account.value.password == password
    ensures r == BadRequest(Some(AuthBody(false, InvalidCredentials, None))) <==>
              forall a :: a in accounts.rows ==> !(a.email == email && a.password == password)
  {
    LoginReplyOnTable(accounts.rows, email, password);
    LoginReply(accounts.Login(email, password))
  }

  /** `get…ById(id)`: the row, or 404. */
  function GetById(accounts: AccountService, id: int): (r: Reply<Account>)
    reads accounts
    ensures r.Ok? || r.NotFound?
    ensures r.Ok? ==> r.body in accounts.rows && r.body.id == id
    ensures r.NotFound? <==> forall a :: a in accounts.rows ==> a.id != id
  {
    match accounts.GetById(id)
    case Some(account) => Ok(account)
    case None => NotFound
  }

  /** `update…(id, body)`: a missing account is 404; otherwise the body, under the path id, is saved over the row. */
  method Update(accounts: AccountService, id: int, sent: Account) returns (reply: Reply<Account>)
    requires accounts.Valid()
    modifies accounts
    ensures accounts.Valid() && accounts.nextId == old(accounts.nextId)
    ensures AccountById(old(accounts.rows), id).None? ==> reply == NotFound && accounts.rows == old(accounts.rows)
    ensures AccountById(old(accounts.rows), id).Some? ==>
              && accounts.rows == Saved(old(accounts.rows), sent.(id := id), old(accounts.nextId))
              && reply == Ok(sent.(id := id))
  {
    var existing := accounts.GetById(id);
    if existing.None? {
      return NotFound;
    }
    var updated := accounts.Save(sent.(id := id));
    reply := Ok(updated);
  }

  /** An update replaces the row with the path id by the body and keeps every other account. */
  lemma UpdateEffect(rows: seq<Account>, nextId: int, id: int, sent: Account)
    requires WellFormed(rows, nextId) && AccountById(rows, id).Some?
    ensures var r := Saved(rows, sent.(id := id), nextId);
      && WellFormed(r, nextId)
      && AccountById(r, id) == Some(sent.(id := id))
      && forall a :: a in r <==> a == sent.(id := id) || (a in rows && a.id != id)
  {
    SavedEffect(rows, sent.(id := id), nextId);
  }
}
