/**
 * AdminController.java: `register` over the admins table, with the role
 * AdminService.registerAdmin assigns, `createSeller` over the sellers
 * table, and `updateOrderStatus`. `login` is the shared endpoint of
 * AuthReplies over the admins table.
 */
module AdminController {
  import opened Wrappers
  import opened Entities
  import opened Http
  import opened BackendAccounts
  import opened AuthReplies
  import BackendOrders

  const AdminRegistered: string := "Admin registered successfully"

  /** `register(admin)`: the admin is stored with role "ADMIN", whatever role was sent. */
  method Register(admins: AccountService, sent: Account) returns (reply: Reply<AuthBody>)
    requires admins.Valid()
    modifies admins
    ensures admins.Valid()
    ensures var check := CheckUnique(old(admins.rows), sent.email, sent.username);
      if check == Unique then
        && admins.rows == Saved(old(admins.rows), sent.(role := AdminRole), old(admins.nextId))
        && reply.Ok? && reply.body.success && reply.body.message == AdminRegistered
        && reply.body.account == Some(SavedRow(old(admins.rows), sent.(role := AdminRole), old(admins.nextId)))
        && reply.body.account.value.role == AdminRole
      else
        && admins.rows == old(admins.rows) && admins.nextId == old(admins.nextId)
        && reply == Refusal(check)
  {
    reply := AuthReplies.Register(admins, sent.(role := AdminRole), AdminRegistered);
  }

  /**
   * `createSeller(seller)`: a duplicate e-mail or username is a 400 with
   * no body and stores nothing; otherwise the seller is saved as given
   * (its role included) and returned.
   */
  method CreateSeller(sellers: AccountService, sent: Account) returns (reply: Reply<Account>)
    requires sellers.Valid()
    modifies sellers
    ensures sellers.Valid()
    ensures CheckUnique(old(sellers.rows), sent.email, sent.username) != Unique ==>
              && reply == BadRequest(None)
              && sellers.rows == old(sellers.rows) && sellers.nextId == old(sellers.nextId)
    ensures CheckUnique(old(sellers.rows), sent.email, sent.username) == Unique ==>
              && sellers.rows == Saved(old(sellers.rows), sent, old(sellers.nextId))
              && reply == Ok(SavedRow(old(sellers.rows), sent, old(sellers.nextId)))
  {
    if sellers.ExistsByEmail(sent.email) {
      return BadRequest(None);
    }
    if sellers.ExistsByUsername(sent.username) {
      return BadRequest(None);
    }
    var created := sellers.Save(sent);
    reply := Ok(created);
  }

  /** `updateOrderStatus(id, status)`: the updated order, or 404 when there is none. */
  method UpdateOrderStatus(orders: BackendOrders.OrderService, id: int, status: string) returns (reply: Reply<Order>)
    requires orders.Valid()
    modifies orders
    ensures orders.Valid()
    ensures orders.nextOrderId == old(orders.nextOrderId) && orders.nextItemId == old(orders.nextItemId)
    ensures BackendOrders.OrderById(old(orders.orders), id).None? ==>
              reply == NotFound && orders.orders == old(orders.orders)
    ensures BackendOrders.OrderById(old(orders.orders), id).Some? ==>
              && orders.orders == BackendOrders.StatusSet(old(orders.orders), id, status)
              && reply == Ok(BackendOrders.OrderById(old(orders.orders), id).value.(status := status))
  {
    var updated := orders.UpdateOrderStatus(id, status);
    if updated.None? {
      return NotFound;
    }
    reply := Ok(updated.value);
  }
}
