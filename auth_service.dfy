/**
 * The client's session storage (authService.js): the browser storage key
 * `'user'` that login writes, logout removes and a profile update merges into.
 */
module AuthService {
  import opened Wrappers
  import opened SessionUser

  /** A login reply: `user` for customers, `seller` for sellers. */
  datatype LoginReply = LoginReply(success: bool, user: Option<Record>, seller: Option<Record>, message: Option<string>)

  /** A registration reply. */
  datatype RegisterReply = RegisterReply(success: bool, message: Option<string>)

  class SessionStorage {
    /** The value under the key `'user'`, parsed; `None` when the key is absent. */
    var stored: Option<Record>

    constructor(initial: Option<Record>)
      ensures stored == initial
    {
      stored := initial;
    }

    /** `getCurrentUser`: the stored user, or null. */
    function GetCurrentUser(): (r: Option<Record>)
      reads this
      ensures r.Some? <==> stored.Some?
      ensures r.Some? ==> r == stored
    {
      stored
    }

    /**
     * `login`: a successful reply that carries a user stores that user tagged
     * as a customer and returns the reply with the tagged user. Any other
     * reply stores nothing and is returned as it came; a failure rethrows.
     */
    method Login(reply: Outcome<LoginReply>) returns (r: Outcome<LoginReply>)
      modifies this
      ensures reply.Returned? && reply.value.success && reply.value.user.Some? ==>
                stored == Some(Tagged(reply.value.user.value, "USER")) &&
                r == Returned(reply.value.(user := stored))
      ensures !(reply.Returned? && reply.value.success && reply.value.user.Some?) ==>
                stored == old(stored) && r == reply
    {
      r := reply;
      if reply.Returned? && reply.value.success && reply.value.user.Some? {
        var userWithRole := Tagged(reply.value.user.value, "USER");
        stored := Some(userWithRole);
        r := Returned(reply.value.(user := Some(userWithRole)));
      }
    }

    /** `loginSeller`: stores the seller tagged as a seller, but returns the reply untagged. */
    method LoginSeller(reply: Outcome<LoginReply>) returns (r: Outcome<LoginReply>)
      modifies this
      ensures r == reply
      ensures reply.Returned? && reply.value.success && reply.value.seller.Some? ==>
                stored == Some(Tagged(reply.value.seller.value, "SELLER"))
      ensures !(reply.Returned? && reply.value.success && reply.value.seller.Some?) ==> stored == old(stored)
    {
      r := reply;
      if reply.Returned? && reply.value.success && reply.value.seller.Some? {
        stored := Some(Tagged(reply.value.seller.value, "SELLER"));
      }
    }

    /** `register` and `registerSeller`: the reply passes through; storage is not touched. */
    method Register(reply: Outcome<RegisterReply>) returns (r: Outcome<RegisterReply>)
      ensures r == reply
    {
      r := reply;
    }

    /** `logout`: the key is removed. */
    method Logout()
      modifies this
      ensures stored.None?
    {
      stored := None;
    }

    /**
     * `updateUser`: after the PUT succeeds, the stored user (an empty object
     * when none is stored) is merged with `userData`; a failure rethrows and
     * stores nothing.
     */
    method UpdateUser(userData: Record, reply: Outcome<()>) returns (r: Outcome<()>)
      modifies this
      ensures r == reply
      ensures reply.Returned? ==> stored == Some(Merge(old(stored).GetOr(map[]), userData))
      ensures reply.Threw? ==> stored == old(stored)
    {
      r := reply;
      if reply.Returned? {
        var currentUser := stored.GetOr(map[]);
        stored := Some(Merge(currentUser, userData));
      }
    }
  }

  /** After a successful customer login the stored user reads back as a customer. */
  method LoginThenGetCurrentUser(s: SessionStorage, user: Record) returns (current: Option<Record>)
    modifies s
    ensures current == Some(Tagged(user, "USER"))
    ensures IsCustomer(Some(View(current.value)))
  {
    var _ := s.Login(Returned(LoginReply(true, Some(user), None, None)));
    current := s.GetCurrentUser();
    TaggedCustomer(user);
  }

  /** After logout nothing reads back, whatever was stored. */
  method LogoutThenGetCurrentUser(s: SessionStorage) returns (current: Option<Record>)
    modifies s
    ensures current.None?
  {
    s.Logout();
    current := s.GetCurrentUser();
  }
}
