/**
 * SellerController.java: `register` over the sellers table, with the role
 * SellerService.registerSeller assigns. `login`, `getSellerById` and
 * `updateSeller` are the shared endpoints of AuthReplies over the sellers
 * table.
 */
module SellerController {
  import opened Wrappers
  import opened Entities
  import opened Http
  import opened BackendAccounts
  import opened AuthReplies

  const SellerRegistered: string := "Seller registered successfully"

  /** `register(seller)`: the seller is stored with role "SELLER", whatever role was sent. */
  method Register(sellers: AccountService, sent: Account) returns (reply: Reply<AuthBody>)
    requires sellers.Valid()
    modifies sellers
    ensures sellers.Valid()
    ensures var check := CheckUnique(old(sellers.rows), sent.email, sent.username);
      if check == Unique then
        && sellers.rows == Saved(old(sellers.rows), sent.(role := SellerRole), old(sellers.nextId))
        && reply.Ok? && reply.body.success && reply.body.message == SellerRegistered
        && reply.body.account == Some(SavedRow(old(sellers.rows), sent.(role := SellerRole), old(sellers.nextId)))
        && reply.body.account.value.role == SellerRole
      else
        && sellers.rows == old(sellers.rows) && sellers.nextId == old(sellers.nextId)
        && reply == Refusal(check)
  {
    reply := AuthReplies.Register(sellers, sent.(role := SellerRole), SellerRegistered);
  }

  /** A registered seller logs in with the e-mail and password sent and holds the "SELLER" role. */
  lemma RegisteredSellerLogsIn(rows: seq<Account>, nextId: int, sent: Account)
    requires WellFormed(rows, nextId)
    requires CheckUnique(rows, sent.email, sent.username) == Unique
    ensures var r := LoginReply(LoginMatch(Saved(rows, sent.(role := SellerRole), nextId), sent.email, sent.password));
      && r.Ok? && r.body.account.Some? && r.body.account.value.role == SellerRole
  {
    LoginFindsSaved(rows, nextId, sent.(role := SellerRole));
  }
}
