/**
 * The three record shapes of the marketplace (User, BankDetail, Product), the
 * contents of a login session, submitted form data, and the credential
 * primitive the handlers hash and check passwords with.
 */
module Models {
  import opened Wrappers

  /** A submitted HTML form: field name to (first) submitted value. */
  type Form = map<string, string>

  /** A row of the `users` table. `password` holds the bcrypt digest. */
  datatype User = User(
    id: nat,
    name: string,
    phone: string,
    email: string,
    password: string,
    role: string)

  /** A row of the `bank_details` table; `userId` refers to `users.id`. */
  datatype BankDetail = BankDetail(
    id: nat,
    userId: nat,
    accountHolderName: string,
    accountNumber: string,
    ifscCode: string)

  /** A row of the `products` table; `userId` is the owning farmer. */
  datatype Product = Product(
    id: nat,
    userId: nat,
    name: string,
    category: string,
    price: real,
    quantity: int,
    description: string,
    imageUrl: string)

  /** The three keys a successful login writes into the session. */
  datatype Session = Session(userId: nat, userName: string, role: string)

  /** The only role value any handler compares against. */
  const FARMER := "farmer"

  /**
   * The password hashing primitive, left uninterpreted: `hash` stands for
   * `generate_password_hash` (its salt is part of the function supplied) and
   * `check(digest, plaintext)` for `check_password_hash`.
   */
  datatype Bcrypt = Bcrypt(hash: string -> string, check: (string, string) -> bool)

  /** The one property the model assumes of the primitive: a digest checks against its own plaintext. */
  ghost predicate Sound(b: Bcrypt) {
    forall p :: b.check(b.hash(p), p)
  }

  /** `request.form.get(key)`: the value, or None when the field was not submitted. */
  function Get(form: Form, key: string): (r: Option<string>)
    ensures r.Some? <==> key in form
    ensures r.Some? ==> r.value == form[key]
  {
    if key in form then Some(form[key]) else None
  }

  /** Python truthiness of `str | None`: neither None nor the empty string. */
  predicate Truthy(v: Option<string>) {
    v.Some? && v.value != ""
  }
}
