/**
 * The signed-in user. The auth context keeps it as a JSON object; the pages
 * read its id and its role tag.
 */
module SessionUser {
  import opened Wrappers

  /** A JSON value as stored by `JSON.stringify`; serialisation is the identity here. */
  datatype Json = JStr(s: string) | JNum(n: int) | JBool(b: bool) | JNull

  /** A JSON object: property name to value. */
  type Record = map<string, Json>

  /** `{ ...a, ...b }`: every property of `b`, then those of `a` that `b` lacks. */
  function Merge(a: Record, b: Record): (r: Record)
    ensures r.Keys == a.Keys + b.Keys
    ensures forall k :: k in b ==> r[k] == b[k]
    ensures forall k :: k in a && k !in b ==> r[k] == a[k]
  {
    a + b
  }

  /** `{ ...r, role }`. */
  function Tagged(r: Record, role: string): (t: Record)
    ensures t == Merge(r, map["role" := JStr(role)])
  {
    r["role" := JStr(role)]
  }

  /** What the pages read of the user: `user.id` and `user.role`. */
  datatype User = User(id: int, role: Option<string>)

  function View(r: Record): (u: User)
    ensures "role" in r && r["role"].JStr? ==> u.role == Some(r["role"].s)
    ensures !("role" in r && r["role"].JStr?) ==> u.role.None?
  {
    User(if "id" in r && r["id"].JNum? then r["id"].n else 0,
         if "role" in r && r["role"].JStr? then Some(r["role"].s) else None)
  }

  /** `user && user.role === 'USER'`: a customer, the only kind of user that may buy. */
  predicate IsCustomer(user: Option<User>) {
    user.Some? && user.value.role == Some("USER")
  }

  /** A record tagged as a customer is seen by the pages as one, whatever role it carried before. */
  lemma TaggedCustomer(r: Record)
    ensures IsCustomer(Some(View(Tagged(r, "USER"))))
    ensures View(Tagged(r, "SELLER")).role == Some("SELLER")
  {
  }
}
