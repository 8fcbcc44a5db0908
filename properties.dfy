/**
 * Properties of the handlers that span more than one call: each POST handler
 * keeps the invariant `Consistent`, and sequences of requests do what the
 * application promises (register then log in, register twice, save bank
 * details twice, add a product and look at the dashboards).
 */
module Properties {
  import opened Wrappers
  import opened Models
  import opened Queries
  import opened Routes
  import PyInt

  // ----- each handler keeps the invariant -----

  lemma RegisterKeepsConsistent(s: AppState, form: Form, bcrypt: Bcrypt)
    requires Consistent(s)
    ensures Consistent(Register(s, form, bcrypt).state)
  {
  }

  lemma LoginKeepsConsistent(s: AppState, form: Form, bcrypt: Bcrypt)
    requires Consistent(s)
    ensures Consistent(Login(s, form, bcrypt).state)
  {
  }

  lemma AddProductKeepsConsistent(s: AppState, form: Form, parseFloat: string -> Option<real>)
    requires Consistent(s)
    ensures Consistent(AddProduct(s, form, parseFloat).state)
  {
    var r := AddProduct(s, form, parseFloat);
    if r.outcome == ProductAdded {
      var products := r.state.products;
      forall i | 0 <= i < |products|
        ensures products[i].id == i + 1 && IsFarmer(s.users, products[i].userId)
      {
        if i < |s.products| {
          assert products[i] == s.products[i];
        }
      }
    }
  }

  /** The bank upsert never gives one user a second row. */
  lemma SaveBankKeepsOneRowPerUser(s: AppState, form: Form)
    requires AtMostOneBankPerUser(s.banks)
    ensures AtMostOneBankPerUser(SaveBank(s, form).state.banks)
  {
  }

  lemma SaveBankKeepsConsistent(s: AppState, form: Form)
    requires Consistent(s)
    ensures Consistent(SaveBank(s, form).state)
  {
  }

  lemma LogoutKeepsConsistent(s: AppState)
    requires Consistent(s)
    ensures Consistent(Logout(s).state)
  {
  }

  // ----- login -----

  /**
   * With unique emails, the handler's "first user with that email, if its
   * digest checks" is the same as "some user has that email and password".
   */
  lemma {:induction false} AuthenticatesIff(users: seq<User>, nextId: nat, email: string, password: string, bcrypt: Bcrypt)
    requires UsersConsistent(users, nextId)
    ensures Authenticates(users, email, password, bcrypt) <==>
      exists i :: 0 <= i < |users| && users[i].email == email && bcrypt.check(users[i].password, password)
  {
  }

  /** Whoever registers can log in at once with the same email and password. */
  lemma RegisterThenLogin(s: AppState, form: Form, bcrypt: Bcrypt)
    requires Consistent(s) && Sound(bcrypt)
    requires Register(s, form, bcrypt).outcome == Registered
    ensures
      var s1 := Register(s, form, bcrypt).state;
      var r := Login(s1, map["email" := form["email"], "password" := form["password"]], bcrypt);
      && r.outcome == LoggedIn
      && r.state.session == Some(Session(s.nextUserId, form["name"], form["role"]))
  {
    var s1 := Register(s, form, bcrypt).state;
    var login := map["email" := form["email"], "password" := form["password"]];
    var u := s1.users[|s.users|];
    assert s1.users == s.users + [u];
    var k := UserByEmail(s1.users, form["email"]);
    assert s1.users[|s.users|].email == form["email"];
    assert k == Some(|s.users|);
    assert bcrypt.check(u.password, form["password"]);
    assert Authenticates(s1.users, login["email"], login["password"], bcrypt);
  }

  // ----- register -----

  /** Submitting the same registration twice leaves exactly one row for that email. */
  lemma RegisterTwice(s: AppState, form: Form, bcrypt: Bcrypt, bcrypt2: Bcrypt)
    requires Register(s, form, bcrypt).outcome == Registered
    ensures
      var s1 := Register(s, form, bcrypt).state;
      Register(s1, form, bcrypt2) == Response(s1, EmailTaken)
  {
  }

  // ----- bank details -----

  /** Two saves by a user who had no row leave one row for that user, holding the second values. */
  lemma SaveBankTwice(s: AppState, first: Form, second: Form)
    requires s.session.Some? && BankSubmitted(first) && BankSubmitted(second)
    requires forall i :: 0 <= i < |s.banks| ==> s.banks[i].userId != s.session.value.userId
    ensures
      var userId := s.session.value.userId;
      var banks := SaveBank(SaveBank(s, first).state, second).state.banks;
      && |banks| == |s.banks| + 1
      && banks[..|s.banks|] == s.banks
      && HoldsSubmitted(banks[|s.banks|], userId, second)
      && forall i :: 0 <= i < |s.banks| ==> banks[i].userId != userId
  {
  }

  // ----- products and dashboards -----

  /** Appending a row extends the owner's listing by that row and leaves every other listing alone. */
  lemma ProductsOfAppend(products: seq<Product>, p: Product, userId: nat)
    ensures ProductsOf(products + [p], userId) ==
      if p.userId == userId then ProductsOf(products, userId) + [p] else ProductsOf(products, userId)
  {
  }

  /** A product added by a farmer shows on their dashboard and changes no other user's listing. */
  lemma AddProductListings(s: AppState, form: Form, parseFloat: string -> Option<real>, userId: nat)
    requires AddProduct(s, form, parseFloat).outcome == ProductAdded
    ensures
      var s1 := AddProduct(s, form, parseFloat).state;
      var p := s1.products[|s.products|];
      ProductsOf(s1.products, userId) ==
        if userId == s.session.value.userId then ProductsOf(s.products, userId) + [p]
        else ProductsOf(s.products, userId)
  {
  }

  // ----- a whole session -----

  const ALICE: Form := map["name" := "Alice", "email" := "a@x.com", "role" := "farmer", "password" := "pw1"]
  const BOB: Form := map["name" := "Bob", "email" := "b@x.com", "role" := "customer", "password" := "pw2"]
  const CORN: Form := map["name" := "Corn", "price" := "3.50", "quantity" := "10"]

  function Credentials(form: Form): Form
    requires LoginSubmitted(form)
  {
    map["email" := form["email"], "password" := form["password"]]
  }

  lemma QuantityTen()
    ensures PyInt.ParseInt("10") == Some(10)
  {
    PyInt.DecimalRoundTrip(10);
    assert PyInt.Digits(1) == "1";
    assert PyInt.Decimal(10) == "10";
  }

  const LISTED := Product(1, 1, "Corn", "", 3.5, 10, "", "")

  function AliceRow(bcrypt: Bcrypt): User {
    User(1, "Alice", "", "a@x.com", bcrypt.hash("pw1"), "farmer")
  }

  /** The fields a registration form holds. */
  predicate RegistrationOf(form: Form, name: string, email: string, role: string, password: string) {
    && RegisterSubmitted(form) && "phone" !in form
    && form["name"] == name && form["email"] == email && form["role"] == role && form["password"] == password
  }

  lemma PeopleFields(alice: Form, bob: Form)
    requires alice == ALICE && bob == BOB
    ensures RegistrationOf(alice, "Alice", "a@x.com", "farmer", "pw1")
    ensures RegistrationOf(bob, "Bob", "b@x.com", "customer", "pw2")
  {
  }

  lemma AliceLogsIn(alice: Form, bcrypt: Bcrypt)
    requires RegistrationOf(alice, "Alice", "a@x.com", "farmer", "pw1") && Sound(bcrypt)
    ensures Login(Register(INITIAL, alice, bcrypt).state, Credentials(alice), bcrypt).state ==
      AppState([AliceRow(bcrypt)], [], [], 2, 1, 1, Some(Session(1, "Alice", "farmer")))
  {
  }

  /** The row a successful product POST appends when the optional fields are absent. */
  lemma AddedRow(s: AppState, form: Form, parseFloat: string -> Option<real>, price: real, quantity: int)
    requires IsFarmerSession(s.session) && ProductFieldsFilled(form)
    requires parseFloat(form["price"]) == Some(price) && PyInt.ParseInt(form["quantity"]) == Some(quantity)
    requires "category" !in form && "description" !in form && "image_url" !in form
    ensures AddProduct(s, form, parseFloat).state == s.(
      products := s.products + [Product(s.nextProductId, s.session.value.userId, form["name"], "", price, quantity, "", "")],
      nextProductId := s.nextProductId + 1)
  {
  }

  lemma CornFields(corn: Form)
    requires corn == CORN
    ensures "name" in corn && "price" in corn && "quantity" in corn
    ensures corn["name"] == "Corn" && corn["price"] == "3.50" && corn["quantity"] == "10"
    ensures "category" !in corn && "description" !in corn && "image_url" !in corn
  {
  }

  lemma AliceListsCorn(s: AppState, corn: Form, parseFloat: string -> Option<real>)
    requires "name" in corn && "price" in corn && "quantity" in corn
    requires corn["name"] == "Corn" && corn["price"] == "3.50" && corn["quantity"] == "10"
    requires "category" !in corn && "description" !in corn && "image_url" !in corn
    requires parseFloat("3.50") == Some(3.5)
    requires s.products == [] && s.nextProductId == 1 && s.session == Some(Session(1, "Alice", "farmer"))
    ensures AddProduct(s, corn, parseFloat).state == s.(products := [LISTED], nextProductId := 2)
  {
    QuantityTen();
    AddedRow(s, corn, parseFloat, 3.5, 10);
  }

  lemma AliceSeesCorn(s: AppState)
    requires s.products == [LISTED] && s.session == Some(Session(1, "Alice", "farmer"))
    ensures Dashboard(s) == FarmerDashboard("Alice", [LISTED])
  {
    ProductsOfAppend([], LISTED, 1);
    assert [LISTED] == [] + [LISTED];
  }

  lemma BobSeesCorn(s: AppState, bob: Form, bcrypt: Bcrypt)
    requires RegistrationOf(bob, "Bob", "b@x.com", "customer", "pw2") && Sound(bcrypt)
    requires s == AppState([AliceRow(bcrypt)], [LISTED], [], 2, 2, 1, None)
    ensures Dashboard(Login(Register(s, bob, bcrypt).state, Credentials(bob), bcrypt).state) ==
      CustomerDashboard("Bob", [LISTED])
  {
    assert Consistent(s);
    RegisterThenLogin(s, bob, bcrypt);
  }

  /**
   * A farmer registers, logs in and lists 10 units of corn at 3.50: their
   * dashboard shows that one product. A customer who registers and logs in
   * afterwards sees the same listing.
   */
  lemma CornScenario(alice: Form, bob: Form, corn: Form, bcrypt: Bcrypt, parseFloat: string -> Option<real>)
    requires alice == ALICE && bob == BOB && corn == CORN
    requires Sound(bcrypt) && parseFloat("3.50") == Some(3.5)
    ensures
      var s1 := Login(Register(INITIAL, alice, bcrypt).state, Credentials(alice), bcrypt).state;
      var s2 := AddProduct(s1, corn, parseFloat).state;
      var s3 := Login(Register(Logout(s2).state, bob, bcrypt).state, Credentials(bob), bcrypt).state;
      && Dashboard(s2) == FarmerDashboard("Alice", [Product(1, 1, "Corn", "", 3.5, 10, "", "")])
      && Dashboard(s3) == CustomerDashboard("Bob", [Product(1, 1, "Corn", "", 3.5, 10, "", "")])
  {
    var s1 := Login(Register(INITIAL, alice, bcrypt).state, Credentials(alice), bcrypt).state;
    PeopleFields(alice, bob);
    AliceLogsIn(alice, bcrypt);
    CornFields(corn);
    AliceListsCorn(s1, corn, parseFloat);
    var s2 := AddProduct(s1, corn, parseFloat).state;
    AliceSeesCorn(s2);
    BobSeesCorn(Logout(s2).state, bob, bcrypt);
  }
}
