/**
 * The users, sellers and admins tables behind UserService, SellerService
 * and AdminService: each is a repository of `Account` rows with the derived
 * queries `existsByEmail`, `existsByUsername`, `findById` and
 * `findByEmailAndPassword`, and `save`/`deleteById`. A derived query
 * compares a Java `null` argument with `IS NULL`, which is `Option`
 * equality here.
 */
module BackendAccounts {
  import opened Wrappers
  import opened Seqs
  import opened Entities

  predicate DistinctAccountIds(a: Account, b: Account) {
    a.id != b.id
  }

  /** The table's invariant: ids below the next identity value and distinct. */
  predicate WellFormed(rows: seq<Account>, nextId: int) {
    && (forall i :: 0 <= i < |rows| ==> rows[i].id < nextId)
    && Pairwise(rows, DistinctAccountIds)
  }

  /** The position of the row with that id. */
  function FindAccount(rows: seq<Account>, id: int): (r: Option<nat>)
    ensures r.Some? ==> r.value < |rows| && rows[r.value].id == id
    ensures r.Some? ==> forall k :: 0 <= k < r.value ==> rows[k].id != id
    ensures r.None? ==> forall k :: 0 <= k < |rows| ==> rows[k].id != id
  {
    if rows == [] then None
    else if rows[0].id == id then Some(0)
    else match FindAccount(rows[1..], id)
      case None => None
      case Some(i) => Some(i + 1)
  }

  /** The first row with the id is the one found. */
  lemma FindAccountAt(rows: seq<Account>, id: int, i: nat)
    requires i < |rows| && rows[i].id == id
    requires forall k :: 0 <= k < i ==> rows[k].id != id
    ensures FindAccount(rows, id) == Some(i)
  {
  }

  /** `findById`. */
  function AccountById(rows: seq<Account>, id: int): (r: Option<Account>)
    ensures r.Some? ==> r.value in rows && r.value.id == id
    ensures r.None? ==> forall a :: a in rows ==> a.id != id
  {
    match FindAccount(rows, id)
    case Some(i) => Some(rows[i])
    case None => None
  }

  /** `existsByEmail(email)`. */
  function EmailTaken(rows: seq<Account>, email: Option<string>): (r: bool)
    ensures r <==> exists a :: a in rows && a.email == email
  {
    if rows == [] then false
    else rows[0].email == email || EmailTaken(rows[1..], email)
  }

  /** `existsByUsername(username)`. */
  function UsernameTaken(rows: seq<Account>, username: Option<string>): (r: bool)
    ensures r <==> exists a :: a in rows && a.username == username
  {
    if rows == [] then false
    else rows[0].username == username || UsernameTaken(rows[1..], username)
  }

  /** The rows `findByEmailAndPassword(email, password)` selects. */
  function Credentials(rows: seq<Account>, email: Option<string>, password: Option<string>): (r: seq<Account>)
    ensures forall a :: a in r <==> a in rows && a.email == email && a.password == password
    ensures Pairwise(rows, DistinctAccountIds) ==> Pairwise(r, DistinctAccountIds)
  {
    var matches := (a: Account) => a.email == email && a.password == password;
    if Pairwise(rows, DistinctAccountIds) then
      FilterPairwise(rows, matches, DistinctAccountIds);
      Filter(rows, matches)
    else
      Filter(rows, matches)
  }

  /**
   * `findByEmailAndPassword`: an `Optional`-valued query, so no row is an
   * empty result, one row is that row, and more than one row throws
   * (Spring's `IncorrectResultSizeDataAccessException`).
   */
  function LoginMatch(rows: seq<Account>, email: Option<string>, password: Option<string>): (r: Outcome<Option<Account>>)
    ensures r.Threw? <==> |Credentials(rows, email, password)| > 1
    ensures r == Returned(None) <==> forall a :: a in rows ==> !(a.email == email && a.password == password)
    ensures r.Returned? && r.value.Some? ==>
              r.value.value in rows && r.value.value.email == email && r.value.value.password == password
  {
    var found := Credentials(rows, email, password);
    if |found| == 0 then Returned(None)
    else if |found| == 1 then Returned(Some(found[0]))
    else assert found[0] in found; Threw
  }

  /** The table after `save(account)`: a row with the same id is replaced; otherwise the account is inserted under `freshId`. */
  function Saved(rows: seq<Account>, account: Account, freshId: int): seq<Account> {
    match FindAccount(rows, account.id)
    case Some(i) => rows[i := account]
    case None => rows + [account.(id := freshId)]
  }

  /** The row `save(account)` hands back. */
  function SavedRow(rows: seq<Account>, account: Account, freshId: int): Account {
    if FindAccount(rows, account.id).Some? then account else account.(id := freshId)
  }

  /**
   * Saving replaces the row with the account's id, or appends the account
   * under the fresh id; the saved row is then what `findById` returns for
   * its id, every other row is kept, and the table stays well-formed.
   */
  lemma SavedEffect(rows: seq<Account>, account: Account, nextId: int)
    requires WellFormed(rows, nextId)
    ensures var r := Saved(rows, account, nextId);
      var saved := SavedRow(rows, account, nextId);
      && WellFormed(r, if FindAccount(rows, account.id).Some? then nextId else nextId + 1)
      && AccountById(r, saved.id) == Some(saved)
      && (forall a :: a in r <==> a == saved || (a in rows && a.id != saved.id))
  {
    match FindAccount(rows, account.id)
    case Some(i) => SavedReplaces(rows, account, nextId, i);
    case None => SavedAppends(rows, account, nextId);
  }

  /** Saving over row `i`, the one with the account's id. */
  lemma SavedReplaces(rows: seq<Account>, account: Account, nextId: int, i: nat)
    requires WellFormed(rows, nextId) && FindAccount(rows, account.id) == Some(i)
    ensures var r := rows[i := account];
      && WellFormed(r, nextId)
      && AccountById(r, account.id) == Some(account)
      && (forall a :: a in r <==> a == account || (a in rows && a.id != account.id))
  {
    var r := rows[i := account];
    ReplacedWellFormed(rows, account, nextId, i);
    assert forall k :: 0 <= k < i ==> r[k] == rows[k];
    FindAccountAt(r, account.id, i);
    forall a | a in rows && a.id != account.id ensures a in r {
      var k :| 0 <= k < |rows| && rows[k] == a;
      assert r[k] == a;
    }
    forall a | a in r && a != account ensures a in rows && a.id != account.id {
      var k :| 0 <= k < |r| && r[k] == a;
      assert k != i && a == rows[k];
      PairwiseAt(rows, DistinctAccountIds, if k < i then k else i, if k < i then i else k);
    }
  }

  /** Overwriting a row with an account of the same id keeps the table well-formed. */
  lemma ReplacedWellFormed(rows: seq<Account>, account: Account, nextId: int, i: nat)
    requires WellFormed(rows, nextId) && i < |rows| && rows[i].id == account.id
    ensures WellFormed(rows[i := account], nextId)
  {
    var r := rows[i := account];
    forall a, b | 0 <= a < b < |r| ensures DistinctAccountIds(r[a], r[b]) {
      assert DistinctAccountIds(rows[a], rows[b]);
    }
  }

  /** Saving an account whose id no row has: it is appended under the fresh id. */
  lemma SavedAppends(rows: seq<Account>, account: Account, nextId: int)
    requires WellFormed(rows, nextId) && FindAccount(rows, account.id).None?
    ensures var r := rows + [account.(id := nextId)];
      && WellFormed(r, nextId + 1)
      && AccountById(r, nextId) == Some(account.(id := nextId))
      && (forall a :: a in r <==> a == account.(id := nextId) || (a in rows && a.id != nextId))
  {
    var r := rows + [account.(id := nextId)];
    forall a, b | 0 <= a < b < |r| ensures DistinctAccountIds(r[a], r[b]) {
      if b < |rows| {
        assert DistinctAccountIds(rows[a], rows[b]);
      }
    }
    assert forall k :: 0 <= k < |rows| ==> r[k] == rows[k] && r[k].id < nextId;
    FindAccountAt(r, nextId, |rows|);
  }

  /**
   * Once an account is saved with an e-mail no other row has, logging in
   * with its e-mail and password finds exactly that row.
   */
  lemma LoginFindsSaved(rows: seq<Account>, nextId: int, account: Account)
    requires WellFormed(rows, nextId) && !EmailTaken(rows, account.email)
    ensures LoginMatch(Saved(rows, account, nextId), account.email, account.password)
            == Returned(Some(SavedRow(rows, account, nextId)))
  {
    SavedEffect(rows, account, nextId);
    var r := Saved(rows, account, nextId);
    var saved := SavedRow(rows, account, nextId);
    var found := Credentials(r, account.email, account.password);
    assert saved in found;
    forall x | x in found ensures x == saved {
      assert x in r && x.email == account.email;
    }
    assert forall i :: 0 <= i < |found| ==> found[i] == saved;
    PairwiseConstant(found, saved, DistinctAccountIds);
    assert found[0] in found;
  }

  /** What `deleteById` leaves. */
  function WithoutAccount(rows: seq<Account>, id: int): (r: seq<Account>)
    ensures forall a :: a in r <==> a in rows && a.id != id
  {
    Filter(rows, (a: Account) => a.id != id)
  }

  /** One of the three account tables and the service over it. */
  class AccountService {
    var rows: seq<Account>
    /** The identity value the next insert receives. */
    var nextId: int

    predicate Valid()
      reads this
    {
      WellFormed(rows, nextId)
    }

    constructor ()
      ensures Valid() && rows == []
    {
      rows := [];
      nextId := 1;
    }

    /** `existsByEmail`. */
    function ExistsByEmail(email: Option<string>): (r: bool)
      reads this
      ensures r <==> exists a :: a in rows && a.email == email
    {
      EmailTaken(rows, email)
    }

    /** `existsByUsername`. */
    function ExistsByUsername(username: Option<string>): (r: bool)
      reads this
      ensures r <==> exists a :: a in rows && a.username == username
    {
      UsernameTaken(rows, username)
    }

    /** `getUserById`, `getSellerById`, `getAdminById`. */
    function GetById(id: int): (r: Option<Account>)
      reads this
      ensures r.Some? ==> r.value in rows && r.value.id == id
      ensures r.None? ==> forall a :: a in rows ==> a.id != id
    {
      AccountById(rows, id)
    }

    /** `login(email, password)`: `findByEmailAndPassword`. */
    function Login(email: Option<string>, password: Option<string>): (r: Outcome<Option<Account>>)
      reads this
      ensures r.Threw? <==> |Credentials(rows, email, password)| > 1
      ensures r == Returned(None) <==> forall a :: a in rows ==> !(a.email == email && a.password == password)
      ensures r.Returned? && r.value.Some? ==> r.value.value in rows && r.value.value.email == email && r.value.value.password == password
    {
      LoginMatch(rows, email, password)
    }

    /** `save`: register, create and update all come down to it. */
    method Save(account: Account) returns (saved: Account)
      requires Valid()
      modifies this
      ensures Valid()
      ensures rows == Saved(old(rows), account, old(nextId))
      ensures saved == SavedRow(old(rows), account, old(nextId))
      ensures nextId == if FindAccount(old(rows), account.id).Some? then old(nextId) else old(nextId) + 1
    {
      SavedEffect(rows, account, nextId);
      var found := FindAccount(rows, account.id);
      if found.Some? {
        rows := rows[found.value := account];
        saved := account;
      } else {
        saved := account.(id := nextId);
        rows := rows + [saved];
        nextId := nextId + 1;
      }
    }

    /** `deleteById`: a missing id changes nothing. */
    method DeleteById(id: int)
      requires Valid()
      modifies this
      ensures Valid() && nextId == old(nextId)
      ensures rows == WithoutAccount(old(rows), id)
    {
      FilterPairwise(rows, (a: Account) => a.id != id, DistinctAccountIds);
      var kept := WithoutAccount(rows, id);
      forall k | 0 <= k < |kept| ensures kept[k].id < nextId {
        assert kept[k] in rows;
      }
      rows := kept;
    }
  }
}
