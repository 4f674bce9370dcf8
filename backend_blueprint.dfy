/** The application that Backend/app/__init__.py assembles from the
    blueprints in Backend/app/api/. Only `ValidationError` and
    `UnauthorizedError` from Backend/app/api/utils.py have handlers, which
    answer `{"error": message, "status_code": code}`; a missing row is
    Flask's own 404 page and any other exception its 500 page. Database
    constraints (unique emails, unique menu dates) make the offending commit
    throw, so the request ends in a 500 and nothing is written. */
module BlueprintApp {
  import opened Common
  import opened Schema
  import opened Store
  import opened ApiErrors
  import opened Http
  import opened Requests

  /** The two registered error handlers (Backend/app/__init__.py:65-79). */
  function Handled(e: ApiError): (r: Reply)
    ensures r.status == e.statusCode
    ensures r.body.Fields? && r.body.dict.Keys == {"error", "status_code"}
    ensures r.body.dict["error"] == Text(e.message) && r.body.dict["status_code"] == Code(e.statusCode)
  {
    Reply(e.statusCode, Fields(map["error" := Text(e.message), "status_code" := Code(e.statusCode)]))
  }

  /** The handlers leave the payload out, unlike `to_dict`, and name the
      message "error" rather than "message". */
  lemma HandledIgnoresPayload(e: ApiError, payload: Dict)
    ensures Handled(e.(payload := Some(payload))) == Handled(e)
    ensures "message" !in Handled(e).body.dict && "message" in ToDict(e)
  {
  }

  const NotFoundReply: Reply := Reply(404, NotFoundPage)
  const ServerErrorReply: Reply := Reply(500, ServerErrorPage)
  const NoAccess: string := "You don't have permission to access this resource"
  const NoAction: string := "You don't have permission to perform this action"

  /** decorators.py `roles_required(*roles)`: the list holds role names and
      is compared with the name of the caller's role. `None` runs the
      wrapped handler, whose reply is then returned as it is. */
  function RolesRequired(t: Tables, identity: string, roles: seq<string>): (r: Option<Reply>)
    ensures UserWithEmail(t, identity).None? ==> r == Some(Handled(UnauthorizedError("User not found")))
    ensures UserWithEmail(t, identity).Some? ==>
              (r.None? <==> RoleName(t.users[UserWithEmail(t, identity).value].role) in roles)
    ensures UserWithEmail(t, identity).Some? && r.Some? ==> r == Some(Reply(403, Message(NoAccess)))
  {
    var me := UserWithEmail(t, identity);
    if me.None? then Some(Handled(UnauthorizedError("User not found")))
    else if RoleName(t.users[me.value].role) !in roles then Some(Reply(403, Message(NoAccess)))
    else None
  }

  /** Membership is literal: an admin gets through only a list that names
      "admin". */
  lemma AdminNotImplied(t: Tables, identity: string)
    requires UserWithEmail(t, identity).Some? && t.users[UserWithEmail(t, identity).value].role == Admin
    ensures RolesRequired(t, identity, ["customer"]) == Some(Reply(403, Message(NoAccess)))
    ensures RolesRequired(t, identity, ["caterer", "admin"]).None?
  {
    assert RoleName(Admin) == "admin";
    assert "admin" != "customer";
  }

  /** Another user than `userId` has `email`. */
  predicate EmailUsedByOther(t: Tables, email: string, userId: nat) {
    exists k :: k in t.users && k != userId && t.users[k].email == email
  }

  /** Another menu than `menuId` has `date`. */
  predicate DateUsedByOther(t: Tables, date: Date, menuId: nat) {
    exists k :: k in t.menus && k != menuId && t.menus[k].date == date
  }

  // Routes that only read.

  /** auth.py `login` (lines 100-111). */
  function Login(t: Tables, body: LoginBody): (r: Reply)
    ensures !Truthy(body.email) || !Truthy(body.password) ==>
              r == Handled(ValidationError("Email and password are required"))
    ensures Truthy(body.email) && Truthy(body.password) ==>
              (r.status == 200 <==> UserWithEmail(t, body.email.value).Some?
                                    && t.users[UserWithEmail(t, body.email.value).value].password == body.password.value)
    ensures r.status == 200 ==> r.body == TokenRow("Login successful", UserWithEmail(t, body.email.value).value)
    ensures Truthy(body.email) && Truthy(body.password) && r.status != 200 ==>
              r == Handled(UnauthorizedError("Invalid credentials"))
  {
    if !Truthy(body.email) || !Truthy(body.password) then Handled(ValidationError("Email and password are required"))
    else
      var user := UserWithEmail(t, body.email.value);
      if user.None? || t.users[user.value].password != body.password.value then
        Handled(UnauthorizedError("Invalid credentials"))
      else Reply(200, TokenRow("Login successful", user.value))
  }

  /** users.py `get_users` (lines 10-23), without its paging. */
  function GetUsers(t: Tables, identity: string): (r: Reply)
    ensures RolesRequired(t, identity, ["admin"]).Some? ==> r == RolesRequired(t, identity, ["admin"]).value
    ensures r.status == 200 <==> UserWithEmail(t, identity).Some? && t.users[UserWithEmail(t, identity).value].role == Admin
    ensures r.status == 200 ==> r.body == Rows(t.users.Keys)
  {
    var guard := RolesRequired(t, identity, ["admin"]);
    if guard.Some? then guard.value else Reply(200, Rows(t.users.Keys))
  }

  /** users.py `get_user` (lines 25-33): the row is looked up before the
      caller is used, so an unknown caller gets a 500 only for a row that
      exists. */
  function GetUser(t: Tables, identity: string, userId: nat): (r: Reply)
    ensures userId !in t.users ==> r == NotFoundReply
    ensures userId in t.users && UserWithEmail(t, identity).None? ==> r == ServerErrorReply
    ensures r.status == 200 <==>
              userId in t.users && UserWithEmail(t, identity).Some?
              && (UserWithEmail(t, identity).value == userId || t.users[UserWithEmail(t, identity).value].role == Admin)
    ensures r.status == 200 ==> r.body == Row(userId)
    ensures userId in t.users && UserWithEmail(t, identity).Some? && r.status != 200 ==> r == Reply(403, Message(NoAction))
  {
    var me := UserWithEmail(t, identity);
    if userId !in t.users then NotFoundReply
    else if me.None? then ServerErrorReply
    else if me.value != userId && t.users[me.value].role != Admin then Reply(403, Message(NoAction))
    else Reply(200, Row(userId))
  }

  /** orders.py `get_orders` (lines 12-16): every order, whoever asks. */
  function GetOrders(t: Tables): (r: Reply)
    ensures r == Reply(200, Rows(t.orders.Keys))
  {
    Reply(200, Rows(t.orders.Keys))
  }

  /** orders.py `get_order` (lines 38-42): no ownership check. */
  function GetOrder(t: Tables, orderId: nat): (r: Reply)
    ensures orderId in t.orders <==> r.status == 200
    ensures orderId in t.orders ==> r.body == Row(orderId)
    ensures orderId !in t.orders ==> r == NotFoundReply
  {
    if orderId in t.orders then Reply(200, Row(orderId)) else NotFoundReply
  }

  /** orders.py `get_order_history` (lines 63-69): exactly the caller's
      orders. */
  function OrderHistory(t: Tables, identity: string): (r: Reply)
    ensures UserWithEmail(t, identity).None? ==> r == ServerErrorReply
    ensures UserWithEmail(t, identity).Some? ==>
              r.status == 200 && r.body.Rows?
              && forall k :: k in r.body.ids <==> k in t.orders && t.orders[k].userId == UserWithEmail(t, identity).value
  {
    var me := UserWithEmail(t, identity);
    if me.None? then ServerErrorReply
    else Reply(200, Rows(KeysWhere(t.orders, (o: Order) => o.userId == me.value)))
  }

  /** The history is part of the full list, and all of it for a caller
      who placed every order. */
  lemma HistoryWithinOrders(t: Tables, identity: string)
    requires UserWithEmail(t, identity).Some?
    ensures OrderHistory(t, identity).body.ids <= GetOrders(t).body.ids
    ensures (forall k :: k in t.orders ==> t.orders[k].userId == UserWithEmail(t, identity).value) ==>
              OrderHistory(t, identity).body.ids == GetOrders(t).body.ids
  {
  }

  /** restaurants.py `get_meals` (lines 11-14). */
  function GetMeals(t: Tables): (r: Reply)
    ensures r == Reply(200, Rows(t.meals.Keys))
  {
    Reply(200, Rows(t.meals.Keys))
  }

  /** restaurants.py `get_meal` (lines 16-19). */
  function GetMeal(t: Tables, mealId: nat): (r: Reply)
    ensures mealId in t.meals <==> r.status == 200
    ensures mealId in t.meals ==> r.body == Row(mealId)
    ensures mealId !in t.meals ==> r == NotFoundReply
  {
    if mealId in t.meals then Reply(200, Row(mealId)) else NotFoundReply
  }

  /** restaurants.py `get_menus` (lines 46-50). */
  function GetMenus(t: Tables): (r: Reply)
    ensures r == Reply(200, Rows(t.menus.Keys))
  {
    Reply(200, Rows(t.menus.Keys))
  }

  /** restaurants.py `get_menu` (lines 65-68). */
  function GetMenu(t: Tables, menuId: nat): (r: Reply)
    ensures menuId in t.menus <==> r.status == 200
    ensures menuId in t.menus ==> r.body == Row(menuId)
    ensures menuId !in t.menus ==> r == NotFoundReply
  {
    if menuId in t.menus then Reply(200, Row(menuId)) else NotFoundReply
  }

  /** restaurants.py `get_menu_items` (lines 90-93): an unknown menu has no
      items, and is not an error. */
  function GetMenuItems(t: Tables, menuId: nat): (r: Reply)
    ensures r.status == 200 && r.body.Rows?
    ensures forall k :: k in r.body.ids <==> k in t.items && t.items[k].menuId == menuId
  {
    Reply(200, Rows(KeysWhere(t.items, (i: MenuItem) => i.menuId == menuId)))
  }

  /** restaurants.py `get_menu_today` (lines 117-125); `today` stands for
      `date.today()`. */
  function GetMenuToday(t: Tables, today: Date): (r: Reply)
    ensures IdsFresh(t) ==> (r.status == 404 <==> forall k :: k in t.menus ==> t.menus[k].date != today)
    ensures r.status == 404 ==> r.body == Message("No menu for today")
    ensures r.status != 404 ==> r.status == 200 && r.body.Row? && r.body.id in t.menus && t.menus[r.body.id].date == today
  {
    var menu := MenuOn(t, today);
    if menu.None? then Reply(404, Message("No menu for today")) else Reply(200, Row(menu.value))
  }

  /** Deleting rows never breaks the two uniqueness constraints. */
  lemma DeletionsKeepUniqueness(t: Tables, id: nat)
    requires UniqueEmails(t.users) && UniqueMenuDates(t.menus)
    ensures UniqueEmails(Store.DeleteUser(t, id).users) && UniqueMenuDates(Store.DeleteUser(t, id).menus)
    ensures UniqueMenuDates(Store.DeleteMenu(t, id).menus)
  {
    var r := Store.DeleteUser(t, id);
    forall a, b | a in r.users && b in r.users && r.users[a].email == r.users[b].email
      ensures a == b
    {
      assert r.users[a] == t.users[a] && r.users[b] == t.users[b];
    }
    forall a, b | a in r.menus && b in r.menus && r.menus[a].date == r.menus[b].date
      ensures a == b
    {
      assert r.menus[a] == t.menus[a] && r.menus[b] == t.menus[b];
    }
  }

  class App {
    var db: Tables

    /** Fresh primary keys and the two unique columns. References are not
        kept valid: ids taken from request bodies are stored unchecked. */
    ghost predicate Valid()
      reads this
    {
      IdsFresh(db) && UniqueEmails(db.users) && UniqueMenuDates(db.menus)
    }

    constructor ()
      ensures Valid() && db == Empty
    {
      db := Empty;
    }

    /** auth.py `register` (lines 11-74): a role text that names no role
        becomes customer; `commitFails` is the database refusing the
        insert, reported as a `ValidationError` with `driverError`. */
    method Register(body: RegisterBody, commitFails: bool, driverError: string) returns (r: Reply)
      requires Valid()
      modifies this
      ensures Valid()
      ensures !Truthy(body.email) || !Truthy(body.password) ==>
                r == Handled(ValidationError("Email and password are required")) && db == old(db)
      ensures Truthy(body.email) && Truthy(body.password) && UserWithEmail(old(db), body.email.value).Some? ==>
                r == Handled(ValidationError("Email already exists")) && db == old(db)
      ensures Truthy(body.email) && Truthy(body.password) && UserWithEmail(old(db), body.email.value).None? && commitFails ==>
                r == Handled(ValidationError(driverError)) && db == old(db)
      ensures r.status == 201 <==>
                Truthy(body.email) && Truthy(body.password) && UserWithEmail(old(db), body.email.value).None? && !commitFails
      ensures r.status == 201 ==>
                var role := RoleFromName(GetOr(body.role, "customer"));
                r.body == MessageRow("User created successfully", old(db).nextId)
                && db == old(db).(users := old(db).users[old(db).nextId := User(GetOr(body.name, ""), body.email.value, body.password.value,
                                                                                if role.Some? then role.value else Customer)],
                                  nextId := old(db).nextId + 1)
    {
      if !Truthy(body.email) || !Truthy(body.password) {
        return Handled(ValidationError("Email and password are required"));
      }
      if UserWithEmail(db, body.email.value).Some? {
        return Handled(ValidationError("Email already exists"));
      }
      var parsed := RoleFromName(GetOr(body.role, "customer"));
      var role := if parsed.Some? then parsed.value else Customer;
      if commitFails {
        return Handled(ValidationError(driverError));
      }
      var id := db.nextId;
      db := db.(users := db.users[id := User(GetOr(body.name, ""), body.email.value, body.password.value, role)],
                nextId := id + 1);
      r := Reply(201, MessageRow("User created successfully", id));
    }

    /** users.py `update_user` (lines 35-47): anyone with a token may edit
        anyone; name, email and role are written when present (a password
        in the body is ignored). An email another user has, or a role text
        the Enum column rejects, fails the commit. */
    method UpdateUser(userId: nat, changes: UserChanges) returns (r: Reply)
      requires Valid()
      modifies this
      ensures Valid()
      ensures r.status != 200 ==> db == old(db)
      ensures userId !in old(db).users ==> r == NotFoundReply
      ensures userId in old(db).users ==>
                (r.status == 200 <==>
                   !(changes.email.Some? && EmailUsedByOther(old(db), changes.email.value, userId))
                   && !(changes.role.Some? && RoleFromName(changes.role.value).None?))
      ensures userId in old(db).users && r.status != 200 ==> r == ServerErrorReply
      ensures r.status == 200 ==>
                var before := old(db).users[userId];
                r.body == Row(userId)
                && db == old(db).(users := old(db).users[userId :=
                           User(GetOr(changes.name, before.name), GetOr(changes.email, before.email), before.password,
                                if changes.role.Some? then RoleFromName(changes.role.value).value else before.role)])
    {
      if userId !in db.users {
        return NotFoundReply;
      }
      var before := db.users[userId];
      if changes.email.Some? && EmailUsedByOther(db, changes.email.value, userId) {
        return ServerErrorReply;
      }
      var role := if changes.role.Some? then RoleFromName(changes.role.value) else Some(before.role);
      if role.None? {
        return ServerErrorReply;
      }
      var after := User(GetOr(changes.name, before.name), GetOr(changes.email, before.email), before.password, role.value);
      assert forall k :: k in db.users && k != userId ==> db.users[k].email != after.email;
      db := db.(users := db.users[userId := after]);
      r := Reply(200, Row(userId));
    }

    /** users.py `delete_user` (lines 49-56): admins only; the cascades of
        user.py lines 23-26 apply. */
    method DeleteUser(identity: string, userId: nat) returns (r: Reply)
      requires Valid()
      modifies this
      ensures Valid()
      ensures !Succeeded(r) ==> db == old(db)
      ensures RolesRequired(old(db), identity, ["admin"]).Some? ==> r == RolesRequired(old(db), identity, ["admin"]).value
      ensures RolesRequired(old(db), identity, ["admin"]).None? && userId !in old(db).users ==> r == NotFoundReply
      ensures r.status == 200 <==> RolesRequired(old(db), identity, ["admin"]).None? && userId in old(db).users
      ensures r.status == 200 ==> r.body == Message("User deleted") && db == Store.DeleteUser(old(db), userId)
    {
      var guard := RolesRequired(db, identity, ["admin"]);
      if guard.Some? {
        return guard.value;
      }
      if userId !in db.users {
        return NotFoundReply;
      }
      DeletionsKeepUniqueness(db, userId);
      db := Store.DeleteUser(db, userId);
      r := Reply(200, Message("User deleted"));
    }

    /** orders.py `create_order` (lines 18-36): customers only. A body
        without `menu_item_id` throws; `quantity` defaults to 1; the status
        is the column default. An item whose meal is gone throws when it is
        priced. */
    method CreateOrder(identity: string, body: OrderBody) returns (r: Reply)
      requires Valid()
      modifies this
      ensures Valid()
      ensures !Succeeded(r) ==> db == old(db)
      ensures RolesRequired(old(db), identity, ["customer"]).Some? ==> r == RolesRequired(old(db), identity, ["customer"]).value
      ensures RolesRequired(old(db), identity, ["customer"]).None? && body.menuItemId.None? ==> r == ServerErrorReply
      ensures RolesRequired(old(db), identity, ["customer"]).None? && body.menuItemId.Some?
              && (body.menuItemId.value < 0 || body.menuItemId.value as nat !in old(db).items) ==>
                r == NotFoundReply
      ensures r.status == 201 <==>
                RolesRequired(old(db), identity, ["customer"]).None? && body.menuItemId.Some?
                && body.menuItemId.value >= 0 && body.menuItemId.value in old(db).items
                && old(db).items[body.menuItemId.value].mealId in old(db).meals
      ensures r.status == 201 ==>
                var id, item, quantity := old(db).nextId, body.menuItemId.value, GetOr(body.quantity, 1);
                r.body == Row(id)
                && db == old(db).(orders := old(db).orders[id := Order(UserWithEmail(old(db), identity).value, item, quantity,
                                                                       old(db).meals[old(db).items[item].mealId].price * quantity, "pending")],
                                  nextId := id + 1)
    {
      var guard := RolesRequired(db, identity, ["customer"]);
      if guard.Some? {
        return guard.value;
      }
      if body.menuItemId.None? {
        return ServerErrorReply;
      }
      if body.menuItemId.value < 0 || body.menuItemId.value as nat !in db.items {
        return NotFoundReply;
      }
      var item: nat := body.menuItemId.value;
      if db.items[item].mealId !in db.meals {
        return ServerErrorReply;
      }
      var quantity := GetOr(body.quantity, 1);
      var id := db.nextId;
      var me := UserWithEmail(db, identity).value;
      db := db.(orders := db.orders[id := Order(me, item, quantity, db.meals[db.items[item].mealId].price * quantity, DefaultStatus)],
                nextId := id + 1);
      r := Reply(201, Row(id));
    }

    /** orders.py `update_order` (lines 44-52): the status is replaced by
        any text when the key is present, by anyone with a token; nothing
        else changes. */
    method UpdateOrder(orderId: nat, status: Option<string>) returns (r: Reply)
      requires Valid()
      modifies this
      ensures Valid()
      ensures orderId !in old(db).orders ==> r == NotFoundReply && db == old(db)
      ensures orderId in old(db).orders ==>
                r == Reply(200, Row(orderId))
                && db == old(db).(orders := old(db).orders[orderId := old(db).orders[orderId].(status := GetOr(status, old(db).orders[orderId].status))])
    {
      if orderId !in db.orders {
        return NotFoundReply;
      }
      if status.Some? {
        db := db.(orders := db.orders[orderId := db.orders[orderId].(status := status.value)]);
      }
      r := Reply(200, Row(orderId));
    }

    /** orders.py `delete_order` (lines 54-61): admins only. */
    method DeleteOrder(identity: string, orderId: nat) returns (r: Reply)
      requires Valid()
      modifies this
      ensures Valid()
      ensures !Succeeded(r) ==> db == old(db)
      ensures RolesRequired(old(db), identity, ["admin"]).Some? ==> r == RolesRequired(old(db), identity, ["admin"]).value
      ensures RolesRequired(old(db), identity, ["admin"]).None? && orderId !in old(db).orders ==> r == NotFoundReply
      ensures r.status == 200 <==> RolesRequired(old(db), identity, ["admin"]).None? && orderId in old(db).orders
      ensures r.status == 200 ==> r.body == Message("Order deleted") && db == Store.DeleteOrder(old(db), orderId)
    {
      var guard := RolesRequired(db, identity, ["admin"]);
      if guard.Some? {
        return guard.value;
      }
      if orderId !in db.orders {
        return NotFoundReply;
      }
      db := Store.DeleteOrder(db, orderId);
      r := Reply(200, Message("Order deleted"));
    }

    /** restaurants.py `create_meal` (lines 21-35): caterers and admins; a
        body without `name` or `price` throws; the caterer is whatever id
        the body names, unchecked. */
    method CreateMeal(identity: string, name: Option<string>, description: Option<string>, price: Option<int>,
                      imageUrl: Option<string>, catererId: Option<nat>) returns (r: Reply)
      requires Valid()
      modifies this
      ensures Valid()
      ensures !Succeeded(r) ==> db == old(db)
      ensures RolesRequired(old(db), identity, ["caterer", "admin"]).Some? ==>
                r == RolesRequired(old(db), identity, ["caterer", "admin"]).value
      ensures RolesRequired(old(db), identity, ["caterer", "admin"]).None? && (name.None? || price.None?) ==> r == ServerErrorReply
      ensures r.status == 201 <==> RolesRequired(old(db), identity, ["caterer", "admin"]).None? && name.Some? && price.Some?
      ensures r.status == 201 ==>
                r.body == Row(old(db).nextId)
                && db == old(db).(meals := old(db).meals[old(db).nextId := Meal(name.value, description, price.value, imageUrl, catererId)],
                                  nextId := old(db).nextId + 1)
    {
      var guard := RolesRequired(db, identity, ["caterer", "admin"]);
      if guard.Some? {
        return guard.value;
      }
      var meal := InsertMeal(name, description, price, imageUrl, catererId);
      if meal.None? {
        return ServerErrorReply;
      }
      var id := db.nextId;
      db := db.(meals := db.meals[id := meal.value], nextId := id + 1);
      r := Reply(201, Row(id));
    }

    /** restaurants.py `delete_meal` (lines 37-44): any caterer or admin,
        owner or not. */
    method DeleteMeal(identity: string, mealId: nat) returns (r: Reply)
      requires Valid()
      modifies this
      ensures Valid()
      ensures !Succeeded(r) ==> db == old(db)
      ensures RolesRequired(old(db), identity, ["caterer", "admin"]).Some? ==>
                r == RolesRequired(old(db), identity, ["caterer", "admin"]).value
      ensures RolesRequired(old(db), identity, ["caterer", "admin"]).None? && mealId !in old(db).meals ==> r == NotFoundReply
      ensures r.status == 200 <==> RolesRequired(old(db), identity, ["caterer", "admin"]).None? && mealId in old(db).meals
      ensures r.status == 200 ==> r.body == Message("Meal deleted") && db == Store.DeleteMeal(old(db), mealId)
    {
      var guard := RolesRequired(db, identity, ["caterer", "admin"]);
      if guard.Some? {
        return guard.value;
      }
      if mealId !in db.meals {
        return NotFoundReply;
      }
      db := Store.DeleteMeal(db, mealId);
      r := Reply(200, Message("Meal deleted"));
    }

    /** restaurants.py `create_menu` (lines 52-63): a body without `date`
        throws; `parse` is how the Date column reads the text (`None` when it
        refuses it); a date in use fails the unique constraint. The caterer
        comes from the body. */
    method CreateMenu(identity: string, date: Option<string>, catererId: Option<nat>, parse: string -> Option<Date>)
      returns (r: Reply)
      requires Valid()
      modifies this
      ensures Valid()
      ensures !Succeeded(r) ==> db == old(db)
      ensures RolesRequired(old(db), identity, ["caterer", "admin"]).Some? ==>
                r == RolesRequired(old(db), identity, ["caterer", "admin"]).value
      ensures RolesRequired(old(db), identity, ["caterer", "admin"]).None? && r.status != 201 ==> r == ServerErrorReply
      ensures r.status == 201 <==>
                RolesRequired(old(db), identity, ["caterer", "admin"]).None? && date.Some? && parse(date.value).Some?
                && MenuOn(old(db), parse(date.value).value).None?
      ensures r.status == 201 ==>
                r.body == Row(old(db).nextId)
                && db == old(db).(menus := old(db).menus[old(db).nextId := Menu(parse(date.value).value, catererId)],
                                  nextId := old(db).nextId + 1)
    {
      var guard := RolesRequired(db, identity, ["caterer", "admin"]);
      if guard.Some? {
        return guard.value;
      }
      if date.None? {
        return ServerErrorReply;
      }
      var d := parse(date.value);
      if d.None? || MenuOn(db, d.value).Some? {
        return ServerErrorReply;
      }
      var id := db.nextId;
      db := db.(menus := db.menus[id := Menu(d.value, catererId)], nextId := id + 1);
      r := Reply(201, Row(id));
    }

    /** restaurants.py `update_menu` (lines 70-79): only the date, only
        when present, by any caterer or admin. */
    method UpdateMenu(identity: string, menuId: nat, date: Option<string>, parse: string -> Option<Date>) returns (r: Reply)
      requires Valid()
      modifies this
      ensures Valid()
      ensures !Succeeded(r) ==> db == old(db)
      ensures RolesRequired(old(db), identity, ["caterer", "admin"]).Some? ==>
                r == RolesRequired(old(db), identity, ["caterer", "admin"]).value
      ensures RolesRequired(old(db), identity, ["caterer", "admin"]).None? && menuId !in old(db).menus ==> r == NotFoundReply
      ensures r.status == 200 <==>
                RolesRequired(old(db), identity, ["caterer", "admin"]).None? && menuId in old(db).menus
                && (date.Some? ==> parse(date.value).Some? && !DateUsedByOther(old(db), parse(date.value).value, menuId))
      ensures RolesRequired(old(db), identity, ["caterer", "admin"]).None? && menuId in old(db).menus && r.status != 200 ==>
                r == ServerErrorReply
      ensures r.status == 200 ==>
                r.body == Row(menuId)
                && db == (if date.None? then old(db)
                          else old(db).(menus := old(db).menus[menuId := old(db).menus[menuId].(date := parse(date.value).value)]))
    {
      var guard := RolesRequired(db, identity, ["caterer", "admin"]);
      if guard.Some? {
        return guard.value;
      }
      if menuId !in db.menus {
        return NotFoundReply;
      }
      if date.Some? {
        var d := parse(date.value);
        if d.None? || DateUsedByOther(db, d.value, menuId) {
          return ServerErrorReply;
        }
        db := db.(menus := db.menus[menuId := db.menus[menuId].(date := d.value)]);
      }
      r := Reply(200, Row(menuId));
    }

    /** restaurants.py `delete_menu` (lines 81-88): any caterer or admin. */
    method DeleteMenu(identity: string, menuId: nat) returns (r: Reply)
      requires Valid()
      modifies this
      ensures Valid()
      ensures !Succeeded(r) ==> db == old(db)
      ensures RolesRequired(old(db), identity, ["caterer", "admin"]).Some? ==>
                r == RolesRequired(old(db), identity, ["caterer", "admin"]).value
      ensures RolesRequired(old(db), identity, ["caterer", "admin"]).None? && menuId !in old(db).menus ==> r == NotFoundReply
      ensures r.status == 200 <==> RolesRequired(old(db), identity, ["caterer", "admin"]).None? && menuId in old(db).menus
      ensures r.status == 200 ==> r.body == Message("Menu deleted") && db == Store.DeleteMenu(old(db), menuId)
    {
      var guard := RolesRequired(db, identity, ["caterer", "admin"]);
      if guard.Some? {
        return guard.value;
      }
      if menuId !in db.menus {
        return NotFoundReply;
      }
      DeletionsKeepUniqueness(db, menuId);
      db := Store.DeleteMenu(db, menuId);
      r := Reply(200, Message("Menu deleted"));
    }

    /** restaurants.py `add_menu_item` (lines 95-106): a body without
        `meal_id` throws; otherwise a new item is stored, whether or not the
        menu and the meal exist and whether or not the pair is already
        there. */
    method AddMenuItem(identity: string, menuId: nat, mealId: Option<nat>) returns (r: Reply)
      requires Valid()
      modifies this
      ensures Valid()
      ensures !Succeeded(r) ==> db == old(db)
      ensures RolesRequired(old(db), identity, ["caterer", "admin"]).Some? ==>
                r == RolesRequired(old(db), identity, ["caterer", "admin"]).value
      ensures RolesRequired(old(db), identity, ["caterer", "admin"]).None? && mealId.None? ==> r == ServerErrorReply
      ensures r.status == 201 <==> RolesRequired(old(db), identity, ["caterer", "admin"]).None? && mealId.Some?
      ensures r.status == 201 ==>
                r.body == Row(old(db).nextId)
                && db == old(db).(items := old(db).items[old(db).nextId := MenuItem(menuId, mealId.value)], nextId := old(db).nextId + 1)
    {
      var guard := RolesRequired(db, identity, ["caterer", "admin"]);
      if guard.Some? {
        return guard.value;
      }
      if mealId.None? {
        return ServerErrorReply;
      }
      var id := db.nextId;
      db := db.(items := db.items[id := MenuItem(menuId, mealId.value)], nextId := id + 1);
      r := Reply(201, Row(id));
    }

    /** restaurants.py `remove_menu_item` (lines 108-115): any caterer or
        admin; the item's orders go with it. */
    method RemoveMenuItem(identity: string, itemId: nat) returns (r: Reply)
      requires Valid()
      modifies this
      ensures Valid()
      ensures !Succeeded(r) ==> db == old(db)
      ensures RolesRequired(old(db), identity, ["caterer", "admin"]).Some? ==>
                r == RolesRequired(old(db), identity, ["caterer", "admin"]).value
      ensures RolesRequired(old(db), identity, ["caterer", "admin"]).None? && itemId !in old(db).items ==> r == NotFoundReply
      ensures r.status == 200 <==> RolesRequired(old(db), identity, ["caterer", "admin"]).None? && itemId in old(db).items
      ensures r.status == 200 ==> r.body == Message("Menu item deleted") && db == Store.DeleteItems(old(db), {itemId})
    {
      var guard := RolesRequired(db, identity, ["caterer", "admin"]);
      if guard.Some? {
        return guard.value;
      }
      if itemId !in db.items {
        return NotFoundReply;
      }
      db := Store.DeleteItems(db, {itemId});
      r := Reply(200, Message("Menu item deleted"));
    }
  }

  /** Two calls of `add_menu_item` with the same pair store two items. */
  method AddTwiceStoresTwo(app: App, identity: string, menuId: nat, mealId: nat) returns (first: Reply, second: Reply)
    requires app.Valid() && RolesRequired(app.db, identity, ["caterer", "admin"]).None?
    modifies app
    ensures first.status == 201 && second.status == 201 && first.body.Row? && second.body.Row?
    ensures first.body.id != second.body.id
    ensures first.body.id in app.db.items && second.body.id in app.db.items
    ensures app.db.items[first.body.id] == app.db.items[second.body.id] == MenuItem(menuId, mealId)
  {
    first := app.AddMenuItem(identity, menuId, Some(mealId));
    second := app.AddMenuItem(identity, menuId, Some(mealId));
  }
}

/** The two `roles_required` decorators (Backend/app.py:104-119 and
    Backend/app/api/decorators.py:6-16) admit the same callers and refuse
    with the same statuses; they differ in the body of the refusal. */
module BackendGuards {
  import opened Schema
  import opened Store
  import LegacyApp
  import BlueprintApp

  function Names(roles: seq<Role>): (names: seq<string>)
    ensures |names| == |roles|
    ensures forall i :: 0 <= i < |roles| ==> names[i] == RoleName(roles[i])
  {
    if roles == [] then [] else [RoleName(roles[0])] + Names(roles[1..])
  }

  lemma {:induction false} NamesMembership(roles: seq<Role>, r: Role)
    ensures r in roles <==> RoleName(r) in Names(roles)
  {
    if r in roles {
      var i :| 0 <= i < |roles| && roles[i] == r;
      assert Names(roles)[i] == RoleName(r);
    }
    if RoleName(r) in Names(roles) {
      var i :| 0 <= i < |roles| && Names(roles)[i] == RoleName(r);
      RoleNameRoundTrip(roles[i], RoleName(r));
      RoleNameRoundTrip(r, RoleName(r));
    }
  }

  lemma GuardsAgree(t: Tables, identity: string, roles: seq<Role>)
    ensures LegacyApp.RolesRequired(t, identity, roles).None? <==> BlueprintApp.RolesRequired(t, identity, Names(roles)).None?
    ensures LegacyApp.RolesRequired(t, identity, roles).Some? ==>
              LegacyApp.RolesRequired(t, identity, roles).value.status == BlueprintApp.RolesRequired(t, identity, Names(roles)).value.status
    ensures UserWithEmail(t, identity).Some? && LegacyApp.RolesRequired(t, identity, roles).Some? ==>
              LegacyApp.RolesRequired(t, identity, roles).value.body.Fields?
              && BlueprintApp.RolesRequired(t, identity, Names(roles)).value.body.Message?
  {
    var me := UserWithEmail(t, identity);
    if me.Some? {
      NamesMembership(roles, t.users[me.value].role);
    }
  }
}
