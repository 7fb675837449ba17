/**
 * The request decisions of the shop's HTTP server (server.js): the login
 * gate, the root redirect, the login outcome and the single-item order
 * endpoint. Database tables are values (the users table a sequence of rows,
 * the products table a map from id to price in cents, order_items a sequence
 * that successful orders append to); a query that fails, and the outcome of
 * the column probe, are parameters.
 */
module Server {
  import opened Wrappers

  /** The identity kept in the session after a login. */
  datatype User = User(id: int, name: string, email: string)

  /** A row of the users table; `passwordHash` is the stored bcrypt hash. */
  datatype UserRow = UserRow(id: int, name: string, email: string, passwordHash: string)

  /** What a handler sends back. */
  datatype Reply =
    | Redirect(location: string)
    | Text(status: int, body: string)
    | Json(status: int, message: string, total: Option<int>)

  /** The decision of a middleware: let the route handler run, or answer instead of it. */
  datatype Gate = Proceed | Halt(reply: Reply)

  // ---------------------------------------------------------------------------
  // The login gate and the root redirect
  // ---------------------------------------------------------------------------

  /** requireAuth: without a session user the request is redirected to the login page and the handler never runs. */
  function RequireAuth(user: Option<User>): (g: Gate)
    ensures g.Proceed? <==> user.Some?
    ensures g.Halt? ==> g.reply == Redirect("/login")
  {
    if user.None? then Halt(Redirect("/login")) else Proceed
  }

  /** GET /: signed-in users go to the shop, everyone else where the gate would send them. */
  function RootRedirect(user: Option<User>): (r: Reply)
    ensures RequireAuth(user).Proceed? ==> r == Redirect("/shop")
    ensures RequireAuth(user).Halt? ==> r == RequireAuth(user).reply
  {
    if user.Some? then Redirect("/shop") else Redirect("/login")
  }

  // ---------------------------------------------------------------------------
  // Login
  // ---------------------------------------------------------------------------

  const InvalidCredentials := "Invalid email or password"

  predicate KnownEmail(users: seq<UserRow>, email: string)
  {
    exists i :: 0 <= i < |users| && users[i].email == email
  }

  /** `j` is the row the email query returns first. */
  predicate FirstWithEmail(users: seq<UserRow>, email: string, j: int)
  {
    0 <= j < |users| && users[j].email == email && forall i :: 0 <= i < j ==> users[i].email != email
  }

  /** `SELECT * FROM users WHERE email = ?`, in table order. */
  function RowsWithEmail(users: seq<UserRow>, email: string): (rows: seq<UserRow>)
    ensures |rows| <= |users|
    ensures forall i :: 0 <= i < |rows| ==> rows[i].email == email && rows[i] in users
    ensures forall j :: 0 <= j < |users| && users[j].email == email ==> users[j] in rows
    ensures rows != [] ==> exists j :: FirstWithEmail(users, email, j) && rows[0] == users[j]
    decreases |users|
  {
    if users == [] then []
    else
      var rest := RowsWithEmail(users[1..], email);
      assert forall j :: 0 < j < |users| ==> users[j] == users[1..][j - 1];
      if users[0].email == email then
        assert FirstWithEmail(users, email, 0);
        [users[0]] + rest
      else
        assert rest != [] ==> exists j :: FirstWithEmail(users, email, j) && rest[0] == users[j] by {
          if rest != [] {
            var j :| FirstWithEmail(users[1..], email, j) && rest[0] == users[1..][j];
            assert FirstWithEmail(users, email, j + 1);
          }
        }
        rest
  }

  /** The reply to POST /login, and the user it puts in the session (None: the session is left as it was). */
  datatype LoginOutcome = LoginOutcome(reply: Reply, user: Option<User>)

  /**
   * POST /login. `lookupFails` is a failing users query; `matches` stands for
   * bcrypt's comparison of a password with a stored hash. An unknown email
   * and a wrong password get the same answer; a success stores exactly the
   * id, name and email of the first row with that email.
   */
  function Login(users: seq<UserRow>, lookupFails: bool, email: string, password: string,
                 matches: (string, string) -> bool): (o: LoginOutcome)
    ensures lookupFails ==> o == LoginOutcome(Text(500, "Server error"), None)
    ensures !lookupFails && !KnownEmail(users, email) ==> o == LoginOutcome(Text(400, InvalidCredentials), None)
    ensures !lookupFails && KnownEmail(users, email) ==>
      exists j :: FirstWithEmail(users, email, j) &&
        if matches(password, users[j].passwordHash)
        then o == LoginOutcome(Redirect("/shop"), Some(User(users[j].id, users[j].name, users[j].email)))
        else o == LoginOutcome(Text(400, InvalidCredentials), None)
    ensures o.user.Some? <==> o.reply == Redirect("/shop")
  {
    if lookupFails then LoginOutcome(Text(500, "Server error"), None)
    else
      var rows := RowsWithEmail(users, email);
      if |rows| == 0 then
        LoginOutcome(Text(400, InvalidCredentials), None)
      else if !matches(password, rows[0].passwordHash) then
        LoginOutcome(Text(400, InvalidCredentials), None)
      else
        LoginOutcome(Redirect("/shop"), Some(User(rows[0].id, rows[0].name, rows[0].email)))
  }

  /** A login with an unknown email cannot be told apart from one with a known email and a wrong password. */
  lemma FailedLoginsLookAlike(users: seq<UserRow>, unknown: string, known: string, j: int,
                              password1: string, password2: string, matches: (string, string) -> bool)
    requires !KnownEmail(users, unknown)
    requires FirstWithEmail(users, known, j) && !matches(password2, users[j].passwordHash)
    ensures Login(users, false, unknown, password1, matches) == Login(users, false, known, password2, matches)
    ensures Login(users, false, unknown, password1, matches).reply == Text(400, InvalidCredentials)
  {
  }

  // ---------------------------------------------------------------------------
  // POST /order
  // ---------------------------------------------------------------------------

  /** A form field after `Number(...)`: an integer, or anything `Number.isInteger` rejects. */
  datatype Coerced = Int(n: int) | NotInt

  predicate PositiveInt(c: Coerced)
  {
    c.Int? && c.n > 0
  }

  /** The order_items column that records who ordered. */
  datatype OwnerColumn = UserIdColumn | OrderIdColumn

  /** A row of order_items; `owner` is the session user's id, stored in `column`. */
  datatype OrderItem = OrderItem(column: OwnerColumn, owner: int, productId: int, quantity: int, unitPrice: int)

  /** The answer of `SHOW COLUMNS FROM order_items LIKE 'user_id'`. */
  datatype ColumnProbe = ProbeFailed | ProbeAnswered(hasUserId: bool)

  /** The reply to POST /order and the row it inserts, if any. */
  datatype OrderOutcome = OrderOutcome(reply: Reply, row: Option<OrderItem>)

  function Rejected(message: string): OrderOutcome
  {
    OrderOutcome(Json(400, message, None), None)
  }

  const InsertErrorUserId := "Error adding order item"
  const InsertErrorOrderId := "Error adding order item. If you removed the orders table, update order_items to have user_id instead of order_id."

  /** An order the endpoint accepts: a positive product id that the catalogue has, and a positive quantity. */
  predicate ValidOrder(catalogue: map<int, int>, productId: Coerced, quantity: Coerced)
  {
    PositiveInt(productId) && PositiveInt(quantity) && productId.n in catalogue
  }

  /** The two input checks, product id first: a request bad in both is answered about the product. */
  function CheckOrderInput(productId: Coerced, quantity: Coerced): (r: Result<(int, int), string>)
    ensures r.Success? <==> PositiveInt(productId) && PositiveInt(quantity)
    ensures r.Success? ==> r.value == (productId.n, quantity.n)
    ensures !PositiveInt(productId) ==> r == Failure("Invalid product")
    ensures PositiveInt(productId) && !PositiveInt(quantity) ==> r == Failure("Invalid quantity")
  {
    if !productId.Int? || productId.n <= 0 then Failure("Invalid product")
    else if !quantity.Int? || quantity.n <= 0 then Failure("Invalid quantity")
    else Success((productId.n, quantity.n))
  }

  /**
   * The /order handler once the gate has let the request through. The unit
   * price is the catalogue's, never the client's; the owner is the session
   * user's id, in user_id when the probe finds that column and in order_id
   * otherwise. `lookupFails` and `insertFails` stand for failing queries.
   */
  function PlaceOrderItem(user: User, catalogue: map<int, int>, productId: Coerced, quantity: Coerced,
                          lookupFails: bool, probe: ColumnProbe, insertFails: bool): (o: OrderOutcome)
    ensures o.row.Some? <==> ValidOrder(catalogue, productId, quantity) && !lookupFails && probe.ProbeAnswered? && !insertFails
    ensures !PositiveInt(productId) ==> o == Rejected("Invalid product")
    ensures PositiveInt(productId) && !PositiveInt(quantity) ==> o == Rejected("Invalid quantity")
    ensures PositiveInt(productId) && PositiveInt(quantity) && (lookupFails || productId.n !in catalogue) ==>
      o == Rejected("Invalid product")
    ensures ValidOrder(catalogue, productId, quantity) && !lookupFails && probe.ProbeFailed? ==>
      o == OrderOutcome(Json(500, "Server error", None), None)
    ensures ValidOrder(catalogue, productId, quantity) && !lookupFails && probe.ProbeAnswered? && insertFails ==>
      o == OrderOutcome(Json(500, if probe.hasUserId then InsertErrorUserId else InsertErrorOrderId, None), None)
    ensures o.row.Some? ==>
      var unitPrice := catalogue[productId.n];
      && o.row.value == OrderItem(if probe.hasUserId then UserIdColumn else OrderIdColumn,
                                  user.id, productId.n, quantity.n, unitPrice)
      && o.reply == Json(200, "Order item added", Some(unitPrice * quantity.n))
  {
    match CheckOrderInput(productId, quantity)
    case Failure(message) => Rejected(message)
    case Success((id, qty)) =>
      if lookupFails || id !in catalogue then Rejected("Invalid product")
      else
        var unitPrice := catalogue[id];
        var total := unitPrice * qty;
        match probe
        case ProbeFailed => OrderOutcome(Json(500, "Server error", None), None)
        case ProbeAnswered(hasUserId) =>
          var column := if hasUserId then UserIdColumn else OrderIdColumn;
          if insertFails then
            OrderOutcome(Json(500, if hasUserId then InsertErrorUserId else InsertErrorOrderId, None), None)
          else
            OrderOutcome(Json(200, "Order item added", Some(total)), Some(OrderItem(column, user.id, id, qty, unitPrice)))
  }

  /** POST /order as routed: requireAuth, then the handler. Without a session user nothing is written. */
  function OrderRoute(user: Option<User>, catalogue: map<int, int>, productId: Coerced, quantity: Coerced,
                      lookupFails: bool, probe: ColumnProbe, insertFails: bool): (o: OrderOutcome)
    ensures user.None? ==> o == OrderOutcome(Redirect("/login"), None)
    ensures user.Some? ==> o == PlaceOrderItem(user.value, catalogue, productId, quantity, lookupFails, probe, insertFails)
  {
    match RequireAuth(user)
    case Halt(reply) => OrderOutcome(reply, None)
    case Proceed => PlaceOrderItem(user.value, catalogue, productId, quantity, lookupFails, probe, insertFails)
  }

  /**
   * The catalogue is consulted only after both input checks: a positive
   * product id that no product has, sent with a bad quantity, is answered
   * about the quantity, and with a good quantity it is answered about the product.
   */
  lemma QuantityCheckedBeforeCatalogue(user: User, catalogue: map<int, int>, id: int, quantity: Coerced,
                                       probe: ColumnProbe, insertFails: bool)
    requires id > 0 && id !in catalogue
    ensures !PositiveInt(quantity) ==>
      PlaceOrderItem(user, catalogue, Int(id), quantity, false, probe, insertFails) == Rejected("Invalid quantity")
    ensures PositiveInt(quantity) ==>
      PlaceOrderItem(user, catalogue, Int(id), quantity, false, probe, insertFails) == Rejected("Invalid product")
  {
  }

  /**
   * The request carries no price at all: a written row's unit price is the
   * catalogue's, its total the catalogue price times the quantity, and its
   * owner the session user.
   */
  lemma OrderTotalUsesCatalogue(user: User, catalogue: map<int, int>, productId: Coerced, quantity: Coerced,
                                probe: ColumnProbe)
    requires ValidOrder(catalogue, productId, quantity) && probe.ProbeAnswered?
    ensures var o := PlaceOrderItem(user, catalogue, productId, quantity, false, probe, false);
      && o.row.Some?
      && o.row.value.unitPrice == catalogue[productId.n]
      && o.row.value.owner == user.id
      && o.reply.total == Some(catalogue[productId.n] * quantity.n)
  {
  }

  // ---------------------------------------------------------------------------
  // The server's state across requests
  // ---------------------------------------------------------------------------

  /**
   * One browser session against the server: the session's user slot, the
   * order_items table, and the users and products tables, which the modelled
   * routes only read.
   */
  class App {
    const users: seq<UserRow>
    const catalogue: map<int, int>
    var sessionUser: Option<User>
    var orderItems: seq<OrderItem>

    /** A fresh session: nobody is signed in. */
    constructor (users: seq<UserRow>, catalogue: map<int, int>, orderItems: seq<OrderItem>)
      ensures this.users == users && this.catalogue == catalogue
      ensures this.orderItems == orderItems && sessionUser == None
    {
      this.users := users;
      this.catalogue := catalogue;
      this.orderItems := orderItems;
      sessionUser := None;
    }

    method GetRoot() returns (reply: Reply)
      ensures reply == RootRedirect(sessionUser)
      ensures reply == Redirect("/shop") <==> sessionUser.Some?
    {
      reply := RootRedirect(sessionUser);
    }

    /** POST /login: the session user is set on success and left as it was otherwise. */
    method PostLogin(email: string, password: string, matches: (string, string) -> bool, lookupFails: bool)
      returns (reply: Reply)
      modifies this`sessionUser
      ensures var o := Login(users, lookupFails, email, password, matches);
        reply == o.reply && sessionUser == (if o.user.Some? then o.user else old(sessionUser))
    {
      var o := Login(users, lookupFails, email, password, matches);
      if o.user.Some? {
        sessionUser := o.user;
      }
      reply := o.reply;
    }

    /** POST /logout: the session is destroyed. */
    method PostLogout() returns (reply: Reply)
      modifies this`sessionUser
      ensures sessionUser == None && reply == Redirect("/login")
    {
      sessionUser := None;
      reply := Redirect("/login");
    }

    /** POST /order: at most one row is appended, and only for an accepted order. */
    method PostOrder(productId: Coerced, quantity: Coerced, lookupFails: bool, probe: ColumnProbe, insertFails: bool)
      returns (reply: Reply)
      modifies this`orderItems
      ensures var o := OrderRoute(sessionUser, catalogue, productId, quantity, lookupFails, probe, insertFails);
        reply == o.reply && orderItems == old(orderItems) + (if o.row.Some? then [o.row.value] else [])
      ensures sessionUser.None? ==> reply == Redirect("/login") && orderItems == old(orderItems)
    {
      var o := OrderRoute(sessionUser, catalogue, productId, quantity, lookupFails, probe, insertFails);
      if o.row.Some? {
        orderItems := orderItems + [o.row.value];
      }
      reply := o.reply;
    }
  }
}
