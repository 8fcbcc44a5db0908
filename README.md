# Farm-Direct marketplace: a Dafny model of its request handlers

Farm-Direct is a small web marketplace. Users register as `farmer` or
`customer`. Farmers list products, customers browse every listing, and
any logged-in user can record bank payout details. All of its logic lives in the route handlers
of `app.py`. They read form fields, consult the login session and read or
write three tables: `users`, `products` and `bank_details`.

This project models those handlers and proves what they promise.

- `Models` (models.dfy): the three row shapes, the session (user id, name,
  role), a submitted form (`map<string, string>`), Python truthiness of a
  form value, and the bcrypt pair `hash`/`check`. The pair is a parameter
  and is left uninterpreted.
- `PyInt` (pyint.dfy): Python's `int(str)`, which converts the submitted
  quantity. It strips whitespace, takes one optional sign, then digits with
  single underscores between them. Every other string is a failure. The
  module proves that `int(str(n)) == n` for every integer.
- `Queries` (queries.dfy): the three ORM queries, over a table held as a
  sequence in insertion order. `filter_by(...).first()` becomes the first
  matching index, and `filter_by(...).all()` becomes the matching rows.
- `Routes` (routes.dfy): each handler as a function of one value
  `AppState`. The value holds the tables, the autoincrement counters of
  their primary keys, and the session. A POST handler returns the next
  state and an `Outcome`: the flash category and redirect target, without
  the message text. A GET handler that reads state returns the `Page` it
  renders. `Consistent` is the invariant the handlers keep:
  - no row is ever deleted, and a failed insert raises before its row is
    added, so the k-th row of each table holds primary key k;
  - emails are unique;
  - every product belongs to a registered farmer;
  - every bank row belongs to a user, and no user has two;
  - the session names a registered user.
- `Properties` (properties.dfy): each POST handler preserves `Consistent`.
  Further lemmas cover sequences of requests:
  - register and then log in;
  - register twice with the same email;
  - save bank details twice;
  - add a product and read the listings;
  - a complete two-user scenario.
- `Server` (server.dfy): the class `App`. Its fields are the tables,
  counters and session, and the handlers update them in place. Each method
  is proved to produce exactly the state and outcome of its `Routes`
  function, and to keep `Consistent`.

Where the code is looser than the application's intended design, the model follows the code:

- Any submitted role string is stored. Every role other than `"farmer"`
  gets the customer view.
- A POST whose required field is read with `request.form[key]` and is
  missing raises a KeyError, which Flask answers with 400. This applies to
  register, login and bank. The model returns `BadRequest` and changes
  nothing.
- Registration hashes the password before it looks up the email. Flask-Bcrypt
  raises ValueError on an empty password, which Flask answers with 500, so an
  empty password fails even when the email is taken. The model returns
  `HashFailed` and changes nothing.
- A failed login leaves any earlier session in place.
- Logout clears the session whether or not there was one.

## Model

| member | source | states |
|---|---|---|
| Queries.FirstWhere | app.py:59 | `.first()`: the index of the first row that matches, with no match before it; None exactly when no row matches |
| Queries.UserByEmail | app.py:59 | `User.query.filter_by(email=...).first()`: the first user with that email, or None iff no user has it |
| Queries.BankOf | app.py:151 | `BankDetail.query.filter_by(user_id=...).first()`: the user's first bank row, or None iff the user has none |
| Queries.ProductsOf | app.py:94 | `filter_by(user_id=...).all()`: only that user's products, each with its multiplicity in the table |
| PyInt.ParseInt | app.py:130 | `int(quantity)`: a parsed value implies the string holds a digit; its partner `PyInt.DecimalRoundTrip` shows every integer's decimal form parses back to it |
| PyInt.AcceptedCharacters | app.py:130 | `int()` rejects every string holding a character other than whitespace, a sign, a digit or an underscore, so `"3.5"` fails |
| PyInt.DecimalRoundTrip | app.py:130 | `int()` accepts the decimal form of every integer and returns that integer |
| Routes.Register | app.py:52-68 | a missing field is a 400; an empty password fails with a 500 before the email lookup and changes nothing; a known email is refused with no change; otherwise exactly one user is appended with the next key, the given name, phone (default empty), email and role, and `hash(password)` of a non-empty password; no other table or the session changes |
| Routes.Authenticates | app.py:76-77 | the credentials check: true iff the first user with that email exists and its digest checks against the password |
| Routes.Login | app.py:73-84 | logged in iff both fields are present and the first user with that email has a digest that checks against the password; the session is then that user's (id, name, role); otherwise the state is unchanged and one generic failure is reported |
| Routes.Dashboard | app.py:87-98 | with no session, a redirect to login whatever the products are; a farmer sees exactly the products whose owner is the session user, each as often as it is in the table; any other role sees all products |
| Routes.ProductGate | app.py:102-109 | the session check comes before the role check; only a session with role `"farmer"` passes |
| Routes.ProductFormPage | app.py:101-143 | GET /product renders the form iff the session is a farmer's, and otherwise redirects to login or to the dashboard |
| Routes.AddProduct | app.py:102-141 | no session, or a non-farmer role, adds nothing; an empty or missing name, price or quantity adds nothing; a price or quantity that fails to convert adds nothing; otherwise exactly one product is appended, owned by the session user, holding the submitted and converted values; nothing else changes |
| Routes.BankFormPage | app.py:146-171 | GET /bank redirects to login without a session; otherwise it shows the session user's bank row, or an empty form iff the user has none |
| Routes.SaveBank | app.py:146-169 | without a session nothing changes; if the user has a row, that row alone gets the three submitted fields and keeps its id, and no row is added; otherwise one row for the user is appended with the next key |
| Routes.Logout | app.py:174-177 | the session is emptied and nothing else changes; afterwards the dashboard, both product routes and both bank routes take their not-logged-in branch |
| Properties.RegisterKeepsConsistent | app.py:59-66 | registration keeps the invariant, including unique emails and user keys in insertion order |
| Properties.LoginKeepsConsistent | app.py:76-80 | a login session always names a registered user |
| Properties.AddProductKeepsConsistent | app.py:125-135 | a new product takes the next key and is owned by a registered farmer |
| Properties.SaveBankKeepsOneRowPerUser | app.py:151-165 | the upsert never gives a user a second bank row |
| Properties.SaveBankKeepsConsistent | app.py:151-167 | the upsert keeps the invariant: bank keys in insertion order, every row owned by a user |
| Properties.LogoutKeepsConsistent | app.py:175 | clearing the session keeps the invariant |
| Properties.AuthenticatesIff | app.py:76-77 | when emails are unique, logging in succeeds iff some user has that email and a digest that checks against the password |
| Properties.RegisterThenLogin | app.py:57-80 | with a sound hash, a new user can log in at once with the same email and password, and the session then holds that user's new id, name and role |
| Properties.RegisterTwice | app.py:59-62 | a second registration with the same email is refused and changes nothing |
| Properties.SaveBankTwice | app.py:151-165 | two saves by a user with no earlier row leave one row for that user, holding the second values; the other rows are unchanged |
| Properties.ProductsOfAppend | app.py:94 | appending a product extends only its owner's listing |
| Properties.AddProductListings | app.py:125-135 | after a product is added, its owner's dashboard listing gains exactly that product and every other user's listing is unchanged |
| Properties.CornScenario | app.py:51-98 | Alice (farmer) registers, logs in and lists corn (price 3.50, quantity 10); the farmer's dashboard shows exactly that product; Alice logs out; Bob (customer) then registers, logs in and sees the same listing |
| Server.App.constructor | app.py:180-182 | on a fresh database the application starts with empty tables, keys counting from 1, and no session |
| Server.App.Register | app.py:52-68 | the handler updates the users table in place exactly as `Routes.Register` says, and keeps the invariant |
| Server.App.Login | app.py:73-84 | the handler writes the session exactly as `Routes.Login` says |
| Server.App.AddProduct | app.py:102-141 | the handler updates the products table exactly as `Routes.AddProduct` says; a failed conversion returns before any write, which is the rollback |
| Server.App.SaveBank | app.py:146-169 | the handler sets the three fields of the existing row one at a time, or appends a row, exactly as `Routes.SaveBank` says |
| Server.App.Logout | app.py:174-177 | `session.clear()`, as `Routes.Logout` says |

## Left out

- Routes.AddProduct: the price is converted by a parameter `parseFloat` that stands for Python's `float()`. The rounding to `Numeric(10,2)` and database errors raised at commit are not modelled. Those errors include a quantity too large for the integer column.
- Routes.Register: database errors raised at commit are not modelled. On a database that enforces column lengths, a role longer than 20 characters or an over-long name, phone or email ends the request in a 500 with nothing stored; the model stores the row. The hashing fails only on an empty password here; bcrypt releases from 5.0 on also raise on a password longer than 72 bytes, which would end registration (and login) in a 500. That depends on the library version, which is not part of this model.
- Routes.SaveBank: database errors raised at commit are not modelled. An over-long holder name, account number or IFSC code on a database that enforces column lengths ends the request in a 500 with nothing stored; the model stores the values.
- PyInt.DecimalRoundTrip: `int()` is modelled for ASCII input only, where it skips only space, tab, line feed, vertical tab, form feed and carriage return. Non-ASCII digits and whitespace are not modelled, nor is the interpreter's limit on the number of digits. A string holding a non-ASCII character has its non-ASCII whitespace rewritten to spaces and its non-ASCII decimal digits to ASCII digits; ASCII characters, 0x1c-0x1f included, are kept, so `int()` rejects those separators in every string.
- Models.Sound: the only assumption about bcrypt is that a digest checks against its own plaintext. Two other claims cannot be proved from it and are not stated: that a digest never equals the plaintext, and that no other plaintext checks.
- Rendering, redirects and flash message text: reduced to the `Outcome` and `Page` datatypes.
- The GET forms of `/`, `/register` and `/login`: they only render a template.
- Timestamps (`created_at` via `datetime.utcnow`): not modelled.
- Cascade deletes: no handler deletes anything.
- The `config` module: not part of this model.
- Engine setup and `db.create_all`: replaced by sequences in memory.
- Concurrent requests: the model is sequential, with one client session at a time. Races on the email check and on the bank upsert are not modelled.
- The salt of `generate_password_hash`: a random input, folded into the `hash` function passed to each registration.
