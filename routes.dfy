/**
 * The route handlers of the marketplace as transitions of one value: the
 * three tables, the autoincrement counters of their primary keys, and the
 * session of the client making the request. Each POST handler maps a state
 * and a submitted form to the next state and an outcome (the flash category
 * and redirect target, without the message text); each GET handler that
 * reads state maps it to the page it renders.
 */
module Routes {
  import opened Wrappers
  import opened Models
  import opened Queries
  import PyInt

  datatype AppState = AppState(
    users: seq<User>,
    products: seq<Product>,
    banks: seq<BankDetail>,
    nextUserId: nat,
    nextProductId: nat,
    nextBankId: nat,
    session: Option<Session>)

  /** Empty tables whose keys start at 1, and nobody logged in. */
  const INITIAL := AppState([], [], [], 1, 1, 1, None)

  /** Which conversion raised inside the product handler's try block. */
  datatype AddFailure = BadPrice | BadQuantity

  datatype Outcome =
    | BadRequest          // a `request.form[key]` lookup raised: Flask answers 400
    | HashFailed          // generate_password_hash raised on an empty password: Flask answers 500
    | EmailTaken          // "Email already registered!", back to the form
    | Registered          // account created, on to login
    | InvalidCredentials  // one message for unknown email and wrong password
    | LoggedIn            // session established, on to the dashboard
    | LoginRequired       // no session: redirected to login
    | FarmersOnly         // session role is not "farmer": redirected to the dashboard
    | MissingFields       // name, price or quantity empty: form shown again
    | AddFailed(reason: AddFailure)  // conversion raised: rolled back, form shown again
    | ProductAdded
    | BankSaved
    | LoggedOut

  datatype Response = Response(state: AppState, outcome: Outcome)

  datatype Page =
    | Redirect(outcome: Outcome)
    | FarmerDashboard(userName: string, products: seq<Product>)
    | CustomerDashboard(userName: string, products: seq<Product>)
    | ProductForm
    | BankForm(bank: Option<BankDetail>)

  // ----- the invariant every handler keeps -----
  //
  // No handler deletes a row, and a failed product insert raises before the
  // row is added, so the k-th row ever inserted into a table holds key k.

  ghost predicate HasUser(users: seq<User>, userId: nat) {
    1 <= userId <= |users|
  }

  ghost predicate IsFarmer(users: seq<User>, userId: nat) {
    1 <= userId <= |users| && users[userId - 1].role == FARMER
  }

  function SessionFor(u: User): Session {
    Session(u.id, u.name, u.role)
  }

  /** The session carries the id, name and role of a registered user. */
  ghost predicate SessionOfUser(users: seq<User>, session: Session) {
    1 <= session.userId <= |users| && SessionFor(users[session.userId - 1]) == session
  }

  /** Keys count up from 1 in insertion order; emails are unique. */
  ghost predicate UsersConsistent(users: seq<User>, nextId: nat) {
    && nextId == |users| + 1
    && (forall i :: 0 <= i < |users| ==> users[i].id == i + 1)
    && (forall i, j :: 0 <= i < j < |users| ==> users[i].email != users[j].email)
  }

  /** Keys count up from 1 in insertion order; every product is owned by a registered farmer. */
  ghost predicate ProductsConsistent(products: seq<Product>, nextId: nat, users: seq<User>) {
    && nextId == |products| + 1
    && (forall i :: 0 <= i < |products| ==> products[i].id == i + 1 && IsFarmer(users, products[i].userId))
  }

  /** Keys count up from 1 in insertion order; every row belongs to a user, and to a different one. */
  ghost predicate BanksConsistent(banks: seq<BankDetail>, nextId: nat, users: seq<User>) {
    && nextId == |banks| + 1
    && (forall i :: 0 <= i < |banks| ==> banks[i].id == i + 1 && HasUser(users, banks[i].userId))
    && AtMostOneBankPerUser(banks)
  }

  ghost predicate AtMostOneBankPerUser(banks: seq<BankDetail>) {
    forall i, j :: 0 <= i < j < |banks| ==> banks[i].userId != banks[j].userId
  }

  ghost predicate Consistent(s: AppState) {
    && UsersConsistent(s.users, s.nextUserId)
    && ProductsConsistent(s.products, s.nextProductId, s.users)
    && BanksConsistent(s.banks, s.nextBankId, s.users)
    && (s.session.Some? ==> SessionOfUser(s.users, s.session.value))
  }

  // ----- /register -----

  predicate RegisterSubmitted(form: Form) {
    "name" in form && "email" in form && "role" in form && "password" in form
  }

  /**
   * POST /register: an empty password makes the hashing raise before the
   * email lookup; a known email is refused; otherwise the user is inserted
   * with the password's digest.
   */
  function Register(s: AppState, form: Form, bcrypt: Bcrypt): (r: Response)
    ensures r.state.(users := s.users, nextUserId := s.nextUserId) == s
    ensures r.outcome in {BadRequest, HashFailed, EmailTaken, Registered}
    ensures r.outcome == BadRequest <==> !RegisterSubmitted(form)
    ensures r.outcome == HashFailed <==> RegisterSubmitted(form) && form["password"] == ""
    ensures r.outcome == EmailTaken <==>
      && RegisterSubmitted(form) && form["password"] != ""
      && exists i :: 0 <= i < |s.users| && s.users[i].email == form["email"]
    ensures r.outcome != Registered ==> r.state == s
    ensures r.outcome == Registered ==>
      && RegisterSubmitted(form)
      && form["password"] != ""
      && r.state.nextUserId == s.nextUserId + 1
      && |r.state.users| == |s.users| + 1
      && r.state.users[..|s.users|] == s.users
      && var u := r.state.users[|s.users|];
      && u.id == s.nextUserId
      && u.name == form["name"]
      && u.phone == Get(form, "phone").GetOr("")
      && u.email == form["email"]
      && u.password == bcrypt.hash(form["password"])
      && u.role == form["role"]
  {
    if !RegisterSubmitted(form) then Response(s, BadRequest)
    else if form["password"] == "" then Response(s, HashFailed)
    else if UserByEmail(s.users, form["email"]).Some? then Response(s, EmailTaken)
    else
      var user := User(s.nextUserId, form["name"], Get(form, "phone").GetOr(""), form["email"],
                       bcrypt.hash(form["password"]), form["role"]);
      Response(s.(users := s.users + [user], nextUserId := s.nextUserId + 1), Registered)
  }

  // ----- /login -----

  predicate LoginSubmitted(form: Form) {
    "email" in form && "password" in form
  }

  /** The first user with this email exists and its digest checks against the password. */
  predicate Authenticates(users: seq<User>, email: string, password: string, bcrypt: Bcrypt): (b: bool)
    ensures b <==> exists i ::
      && 0 <= i < |users| && users[i].email == email
      && (forall j :: 0 <= j < i ==> users[j].email != email)
      && bcrypt.check(users[i].password, password)
  {
    match UserByEmail(users, email)
    case Some(i) => bcrypt.check(users[i].password, password)
    case None => false
  }

  /** POST /login: on matching credentials the session names that user; otherwise nothing changes. */
  function Login(s: AppState, form: Form, bcrypt: Bcrypt): (r: Response)
    ensures r.state.(session := s.session) == s
    ensures r.outcome in {BadRequest, InvalidCredentials, LoggedIn}
    ensures r.outcome == BadRequest <==> !LoginSubmitted(form)
    ensures r.outcome == LoggedIn <==>
      LoginSubmitted(form) && Authenticates(s.users, form["email"], form["password"], bcrypt)
    ensures r.outcome != LoggedIn ==> r.state == s
    ensures r.outcome == LoggedIn ==>
      && LoginSubmitted(form)
      && (exists i :: 0 <= i < |s.users| && s.users[i].email == form["email"]
            && (forall j :: 0 <= j < i ==> s.users[j].email != form["email"])
            && bcrypt.check(s.users[i].password, form["password"])
            && r.state.session == Some(SessionFor(s.users[i])))
  {
    if !LoginSubmitted(form) then Response(s, BadRequest)
    else
      match UserByEmail(s.users, form["email"])
      case Some(i) =>
        if bcrypt.check(s.users[i].password, form["password"]) then
          Response(s.(session := Some(SessionFor(s.users[i]))), LoggedIn)
        else Response(s, InvalidCredentials)
      case None => Response(s, InvalidCredentials)
  }

  // ----- /dashboard -----

  /** GET /dashboard: a farmer sees their own products, every other role all of them. */
  function Dashboard(s: AppState): (r: Page)
    ensures s.session.None? ==> r == Redirect(LoginRequired)
    ensures s.session.Some? && s.session.value.role == FARMER ==>
      && r.FarmerDashboard?
      && r.userName == s.session.value.userName
      && (forall p :: p in r.products <==> p in s.products && p.userId == s.session.value.userId)
      && (forall p :: multiset(r.products)[p] ==
            if p.userId == s.session.value.userId then multiset(s.products)[p] else 0)
    ensures s.session.Some? && s.session.value.role != FARMER ==>
      r == CustomerDashboard(s.session.value.userName, s.products)
  {
    match s.session
    case None => Redirect(LoginRequired)
    case Some(session) =>
      if session.role == FARMER then
        FarmerDashboard(session.userName, ProductsOf(s.products, session.userId))
      else CustomerDashboard(session.userName, s.products)
  }

  // ----- /product -----

  predicate IsFarmerSession(session: Option<Session>) {
    session.Some? && session.value.role == FARMER
  }

  /** The two checks in front of the product form, the session one first. */
  function ProductGate(session: Option<Session>): (r: Option<Outcome>)
    ensures r.None? <==> IsFarmerSession(session)
    ensures session.None? ==> r == Some(LoginRequired)
    ensures session.Some? && !IsFarmerSession(session) ==> r == Some(FarmersOnly)
  {
    if session.None? then Some(LoginRequired)
    else if session.value.role != FARMER then Some(FarmersOnly)
    else None
  }

  /** GET /product: the form, for a farmer only. */
  function ProductFormPage(s: AppState): (r: Page)
    ensures r == ProductForm <==> IsFarmerSession(s.session)
    ensures r != ProductForm ==> r.Redirect? && r.outcome in {LoginRequired, FarmersOnly}
  {
    match ProductGate(s.session)
    case Some(outcome) => Redirect(outcome)
    case None => ProductForm
  }

  predicate ProductFieldsFilled(form: Form) {
    Truthy(Get(form, "name")) && Truthy(Get(form, "price")) && Truthy(Get(form, "quantity"))
  }

  /**
   * POST /product. `parseFloat` stands for Python's `float(str)`; the
   * quantity goes through `int(str)`. The price is converted before the
   * quantity, as the keyword arguments are evaluated in order.
   */
  function AddProduct(s: AppState, form: Form, parseFloat: string -> Option<real>): (r: Response)
    ensures r.state.(products := s.products, nextProductId := s.nextProductId) == s
    ensures s.session.None? ==> r.outcome == LoginRequired
    ensures s.session.Some? && !IsFarmerSession(s.session) ==> r.outcome == FarmersOnly
    ensures r.outcome == MissingFields <==> IsFarmerSession(s.session) && !ProductFieldsFilled(form)
    ensures r.outcome == AddFailed(BadPrice) <==>
      IsFarmerSession(s.session) && ProductFieldsFilled(form) && parseFloat(form["price"]).None?
    ensures r.outcome == AddFailed(BadQuantity) <==>
      && IsFarmerSession(s.session) && ProductFieldsFilled(form) && parseFloat(form["price"]).Some?
      && PyInt.ParseInt(form["quantity"]).None?
    ensures r.outcome == ProductAdded <==>
      && IsFarmerSession(s.session) && ProductFieldsFilled(form)
      && parseFloat(form["price"]).Some? && PyInt.ParseInt(form["quantity"]).Some?
    ensures r.outcome != ProductAdded ==> r.state == s
    ensures r.outcome == ProductAdded ==>
      && IsFarmerSession(s.session) && ProductFieldsFilled(form)
      && r.state.nextProductId == s.nextProductId + 1
      && |r.state.products| == |s.products| + 1
      && r.state.products[..|s.products|] == s.products
      && var p := r.state.products[|s.products|];
      && p.id == s.nextProductId
      && p.userId == s.session.value.userId
      && p.name == form["name"]
      && p.category == Get(form, "category").GetOr("")
      && Some(p.price) == parseFloat(form["price"])
      && Some(p.quantity) == PyInt.ParseInt(form["quantity"])
      && p.description == Get(form, "description").GetOr("")
      && p.imageUrl == Get(form, "image_url").GetOr("")
  {
    match ProductGate(s.session)
    case Some(outcome) => Response(s, outcome)
    case None =>
      if !ProductFieldsFilled(form) then Response(s, MissingFields)
      else
        match parseFloat(form["price"])
        case None => Response(s, AddFailed(BadPrice))
        case Some(price) =>
          match PyInt.ParseInt(form["quantity"])
          case None => Response(s, AddFailed(BadQuantity))
          case Some(quantity) =>
            var product := Product(s.nextProductId, s.session.value.userId, form["name"],
                                   Get(form, "category").GetOr(""), price, quantity,
                                   Get(form, "description").GetOr(""), Get(form, "image_url").GetOr(""));
            Response(s.(products := s.products + [product], nextProductId := s.nextProductId + 1),
                     ProductAdded)
  }

  // ----- /bank -----

  /** GET /bank: the form, pre-filled with the user's row when there is one. */
  function BankFormPage(s: AppState): (r: Page)
    ensures s.session.None? ==> r == Redirect(LoginRequired)
    ensures s.session.Some? ==>
      && r.BankForm?
      && (r.bank.None? <==> forall i :: 0 <= i < |s.banks| ==> s.banks[i].userId != s.session.value.userId)
      && (r.bank.Some? ==> r.bank.value in s.banks && r.bank.value.userId == s.session.value.userId)
  {
    match s.session
    case None => Redirect(LoginRequired)
    case Some(session) =>
      match BankOf(s.banks, session.userId)
      case Some(i) => BankForm(Some(s.banks[i]))
      case None => BankForm(None)
  }

  predicate BankSubmitted(form: Form) {
    "account_holder_name" in form && "account_number" in form && "ifsc_code" in form
  }

  /** The session user's bank row holds exactly the submitted values. */
  predicate HoldsSubmitted(b: BankDetail, userId: nat, form: Form)
    requires BankSubmitted(form)
  {
    && b.userId == userId
    && b.accountHolderName == form["account_holder_name"]
    && b.accountNumber == form["account_number"]
    && b.ifscCode == form["ifsc_code"]
  }

  /** POST /bank: overwrite the session user's first bank row in place, or insert one. */
  function SaveBank(s: AppState, form: Form): (r: Response)
    ensures r.state.(banks := s.banks, nextBankId := s.nextBankId) == s
    ensures r.outcome in {LoginRequired, BadRequest, BankSaved}
    ensures r.outcome == LoginRequired <==> s.session.None?
    ensures r.outcome == BadRequest <==> s.session.Some? && !BankSubmitted(form)
    ensures r.outcome != BankSaved ==> r.state == s
    ensures r.outcome == BankSaved ==>
      && s.session.Some? && BankSubmitted(form)
      && var userId := s.session.value.userId;
      && match BankOf(s.banks, userId)
         case Some(i) =>
           && r.state.nextBankId == s.nextBankId
           && |r.state.banks| == |s.banks|
           && r.state.banks[i].id == s.banks[i].id
           && HoldsSubmitted(r.state.banks[i], userId, form)
           && forall j :: 0 <= j < |s.banks| && j != i ==> r.state.banks[j] == s.banks[j]
         case None =>
           && r.state.nextBankId == s.nextBankId + 1
           && |r.state.banks| == |s.banks| + 1
           && r.state.banks[..|s.banks|] == s.banks
           && r.state.banks[|s.banks|].id == s.nextBankId
           && HoldsSubmitted(r.state.banks[|s.banks|], userId, form)
  {
    match s.session
    case None => Response(s, LoginRequired)
    case Some(session) =>
      var existing := BankOf(s.banks, session.userId);
      if !BankSubmitted(form) then Response(s, BadRequest)
      else
        var name, number, ifsc := form["account_holder_name"], form["account_number"], form["ifsc_code"];
        match existing
        case Some(i) =>
          var row := s.banks[i].(accountHolderName := name, accountNumber := number, ifscCode := ifsc);
          Response(s.(banks := s.banks[i := row]), BankSaved)
        case None =>
          var row := BankDetail(s.nextBankId, session.userId, name, number, ifsc);
          Response(s.(banks := s.banks + [row], nextBankId := s.nextBankId + 1), BankSaved)
  }

  // ----- /logout -----

  /** GET /logout: the session is emptied, so every gated route turns the client away. */
  function Logout(s: AppState): (r: Response)
    ensures r.state.(session := s.session) == s && r.state.session.None?
    ensures r.outcome == LoggedOut
    ensures Dashboard(r.state) == Redirect(LoginRequired)
    ensures ProductFormPage(r.state) == Redirect(LoginRequired)
    ensures BankFormPage(r.state) == Redirect(LoginRequired)
    ensures forall form, parseFloat :: AddProduct(r.state, form, parseFloat) == Response(r.state, LoginRequired)
    ensures forall form :: SaveBank(r.state, form) == Response(r.state, LoginRequired)
  {
    Response(s.(session := None), LoggedOut)
  }
}
