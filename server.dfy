/**
 * The running application: the three tables, their key counters and the
 * client's session are fields that the request handlers update in place.
 * Each handler is proved to leave the fields exactly as the corresponding
 * transition in `Routes` describes, and to keep `Routes.Consistent`.
 */
module Server {
  import opened Wrappers
  import opened Models
  import opened Queries
  import PyInt
  import Routes
  import Properties

  class App {
    var users: seq<User>
    var products: seq<Product>
    var banks: seq<BankDetail>
    var nextUserId: nat
    var nextProductId: nat
    var nextBankId: nat
    var session: Option<Session>

    function State(): Routes.AppState
      reads this
    {
      Routes.AppState(users, products, banks, nextUserId, nextProductId, nextBankId, session)
    }

    ghost predicate Valid()
      reads this
    {
      Routes.Consistent(State())
    }

    /** `db.create_all()` on an empty database, before any request. */
    constructor ()
      ensures Valid() && State() == Routes.INITIAL
    {
      users, products, banks := [], [], [];
      nextUserId, nextProductId, nextBankId := 1, 1, 1;
      session := None;
    }

    /** POST /register. */
    method Register(form: Form, bcrypt: Bcrypt) returns (outcome: Routes.Outcome)
      requires Valid()
      modifies this
      ensures Valid()
      ensures Routes.Response(State(), outcome) == Routes.Register(old(State()), form, bcrypt)
    {
      Properties.RegisterKeepsConsistent(State(), form, bcrypt);
      if !Routes.RegisterSubmitted(form) {
        return Routes.BadRequest;
      }
      var name := form["name"];
      var phone := Get(form, "phone").GetOr("");
      var email := form["email"];
      var role := form["role"];
      if form["password"] == "" {
        return Routes.HashFailed;
      }
      var password := bcrypt.hash(form["password"]);
      if UserByEmail(users, email).Some? {
        return Routes.EmailTaken;
      }
      users := users + [User(nextUserId, name, phone, email, password, role)];
      nextUserId := nextUserId + 1;
      return Routes.Registered;
    }

    /** POST /login. */
    method Login(form: Form, bcrypt: Bcrypt) returns (outcome: Routes.Outcome)
      requires Valid()
      modifies this
      ensures Valid()
      ensures Routes.Response(State(), outcome) == Routes.Login(old(State()), form, bcrypt)
    {
      Properties.LoginKeepsConsistent(State(), form, bcrypt);
      if !Routes.LoginSubmitted(form) {
        return Routes.BadRequest;
      }
      var email := form["email"];
      var password := form["password"];
      var found := UserByEmail(users, email);
      if found.Some? && bcrypt.check(users[found.value].password, password) {
        var user := users[found.value];
        session := Some(Routes.SessionFor(user));
        return Routes.LoggedIn;
      }
      return Routes.InvalidCredentials;
    }

    /** POST /product: the two gates, the presence check, the conversions, then the insert. */
    method AddProduct(form: Form, parseFloat: string -> Option<real>) returns (outcome: Routes.Outcome)
      requires Valid()
      modifies this
      ensures Valid()
      ensures Routes.Response(State(), outcome) == Routes.AddProduct(old(State()), form, parseFloat)
    {
      Properties.AddProductKeepsConsistent(State(), form, parseFloat);
      if session.None? {
        return Routes.LoginRequired;
      }
      if session.value.role != FARMER {
        return Routes.FarmersOnly;
      }
      var name := Get(form, "name");
      var category := Get(form, "category").GetOr("");
      var price := Get(form, "price");
      var quantity := Get(form, "quantity");
      var description := Get(form, "description").GetOr("");
      var imageUrl := Get(form, "image_url").GetOr("");
      if !Truthy(name) || !Truthy(price) || !Truthy(quantity) {
        return Routes.MissingFields;
      }
      // A failed conversion raises before anything is added; the rollback leaves the table as it was.
      var priceValue := parseFloat(price.value);
      if priceValue.None? {
        return Routes.AddFailed(Routes.BadPrice);
      }
      var quantityValue := PyInt.ParseInt(quantity.value);
      if quantityValue.None? {
        return Routes.AddFailed(Routes.BadQuantity);
      }
      var product := Product(nextProductId, session.value.userId, name.value, category,
                             priceValue.value, quantityValue.value, description, imageUrl);
      products := products + [product];
      nextProductId := nextProductId + 1;
      return Routes.ProductAdded;
    }

    /** POST /bank: update the user's row field by field, or insert one. */
    method SaveBank(form: Form) returns (outcome: Routes.Outcome)
      requires Valid()
      modifies this
      ensures Valid()
      ensures Routes.Response(State(), outcome) == Routes.SaveBank(old(State()), form)
    {
      ghost var s0 := State();
      Properties.SaveBankKeepsConsistent(s0, form);
      if session.None? {
        return Routes.LoginRequired;
      }
      var userId := session.value.userId;
      var bank := BankOf(banks, userId);
      if !Routes.BankSubmitted(form) {
        return Routes.BadRequest;
      }
      var name := form["account_holder_name"];
      var number := form["account_number"];
      var ifsc := form["ifsc_code"];
      if bank.Some? {
        var i := bank.value;
        banks := banks[i := banks[i].(accountHolderName := name)];
        banks := banks[i := banks[i].(accountNumber := number)];
        banks := banks[i := banks[i].(ifscCode := ifsc)];
        assert banks == s0.banks[i := s0.banks[i].(accountHolderName := name, accountNumber := number, ifscCode := ifsc)];
      } else {
        banks := banks + [BankDetail(nextBankId, userId, name, number, ifsc)];
        nextBankId := nextBankId + 1;
      }
      return Routes.BankSaved;
    }

    /** GET /logout: `session.clear()`. */
    method Logout() returns (outcome: Routes.Outcome)
      requires Valid()
      modifies this
      ensures Valid()
      ensures Routes.Response(State(), outcome) == Routes.Logout(old(State()))
    {
      session := None;
      return Routes.LoggedOut;
    }
  }
}
