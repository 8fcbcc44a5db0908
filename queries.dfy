/**
 * The three ORM queries the handlers issue, over a table held as a sequence
 * of rows in insertion order: `filter_by(...).first()` is the first matching
 * row, `filter_by(...).all()` every matching row.
 */
module Queries {
  import opened Wrappers
  import opened Models

  /** Index of the first element satisfying `p`, or None when none does. */
  function FirstWhere<T>(s: seq<T>, p: T -> bool): (r: Option<nat>)
    ensures r.Some? ==> r.value < |s| && p(s[r.value])
    ensures r.Some? ==> forall i :: 0 <= i < r.value ==> !p(s[i])
    ensures r.None? <==> forall i :: 0 <= i < |s| ==> !p(s[i])
  {
    if s == [] then None
    else if p(s[0]) then Some(0)
    else
      match FirstWhere(s[1..], p)
      case None => None
      case Some(k) => Some(k + 1)
  }

  /** `User.query.filter_by(email=email).first()`, as a row index. */
  function UserByEmail(users: seq<User>, email: string): (r: Option<nat>)
    ensures r.Some? ==> r.value < |users| && users[r.value].email == email
    ensures r.Some? ==> forall i :: 0 <= i < r.value ==> users[i].email != email
    ensures r.None? <==> forall i :: 0 <= i < |users| ==> users[i].email != email
  {
    FirstWhere(users, (u: User) => u.email == email)
  }

  /** `BankDetail.query.filter_by(user_id=userId).first()`, as a row index. */
  function BankOf(banks: seq<BankDetail>, userId: nat): (r: Option<nat>)
    ensures r.Some? ==> r.value < |banks| && banks[r.value].userId == userId
    ensures r.Some? ==> forall i :: 0 <= i < r.value ==> banks[i].userId != userId
    ensures r.None? <==> forall i :: 0 <= i < |banks| ==> banks[i].userId != userId
  {
    FirstWhere(banks, (b: BankDetail) => b.userId == userId)
  }

  /** `Product.query.filter_by(user_id=userId).all()`: exactly the products that user owns. */
  function ProductsOf(products: seq<Product>, userId: nat): (r: seq<Product>)
    ensures |r| <= |products|
    ensures forall p :: p in r ==> p.userId == userId
    ensures forall p: Product :: p.userId == userId ==> multiset(r)[p] == multiset(products)[p]
  {
    if products == [] then []
    else
      var init := products[..|products| - 1];
      var last := products[|products| - 1];
      assert products == init + [last];
      if last.userId == userId then ProductsOf(init, userId) + [last] else ProductsOf(init, userId)
  }
}
