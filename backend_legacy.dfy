/** Backend/app.py: the single-file Flask application. The database session
    is the `db` field of an `App`; each route that changes rows is a method,
    each route that only reads is a function of the tables. The caller is
    the email in the JWT (`identity`); errors raised as `MealAPIError`s are
    sent as their `to_dict()` under their status. */
module LegacyApp {
  import opened Common
  import opened Schema
  import opened Store
  import opened ApiErrors
  import opened Http
  import opened Requests

  /** `handle_meal_api_error`. */
  function Raised(e: ApiError): Reply {
    Reply(e.statusCode, Fields(ToDict(e)))
  }

  /** The registered 404 and 500 handlers. */
  const NotFound: Reply := Reply(404, Message("Resource not found"))
  const ServerError: Reply := Reply(500, Message("Internal server error"))

  const NoPermission: string := "You don't have permission to access this resource"
  const BadDate: string := "Invalid date format. Use YYYY-MM-DD"

  /** A `MealAPIError` re-raised from an exception whose text is not
      modelled: a database or upload failure, or the `AttributeError` of a
      handler that reads a missing row. */
  function Rewrapped(text: string): Reply {
    Raised(MealApiError(text))
  }

  /** `roles_required(*roles)` (lines 104-119): `None` lets the handler run.
      An unknown caller is refused with 401, a caller whose role is not
      listed with 403; the check is plain membership. */
  function RolesRequired(t: Tables, identity: string, roles: seq<Role>): (r: Option<Reply>)
    ensures UserWithEmail(t, identity).None? ==> r == Some(Raised(UnauthorizedError("User not found")))
    ensures UserWithEmail(t, identity).Some? ==>
              (r.None? <==> t.users[UserWithEmail(t, identity).value].role in roles)
    ensures UserWithEmail(t, identity).Some? && r.Some? ==> r == Some(Raised(ForbiddenError(NoPermission)))
  {
    var me := UserWithEmail(t, identity);
    if me.None? then Some(Raised(UnauthorizedError("User not found")))
    else if t.users[me.value].role !in roles then Some(Raised(ForbiddenError(NoPermission)))
    else None
  }

  /** The refusals come with 401 or 403 only, and an admin is refused by a
      list that does not name admins. */
  lemma RolesRequiredRefusals(t: Tables, identity: string, roles: seq<Role>)
    ensures RolesRequired(t, identity, roles).Some? ==> RolesRequired(t, identity, roles).value.status in {401, 403}
    ensures UserWithEmail(t, identity).Some? && t.users[UserWithEmail(t, identity).value].role == Admin && Admin !in roles ==>
              RolesRequired(t, identity, roles).value.status == 403
  {
  }

  /** The caller may change a row owned by `owner`: they own it or are an
      admin. */
  function OwnerOrAdmin(t: Tables, identity: string, owner: Option<nat>): (b: bool)
    ensures b ==> UserWithEmail(t, identity).Some?
    ensures UserWithEmail(t, identity).Some? && t.users[UserWithEmail(t, identity).value].role == Admin ==> b
    ensures UserWithEmail(t, identity).Some? && t.users[UserWithEmail(t, identity).value].role != Admin ==>
              (b <==> owner == UserWithEmail(t, identity))
  {
    var me := UserWithEmail(t, identity);
    me.Some? && (owner == Some(me.value) || t.users[me.value].role == Admin)
  }

  /** `User.query.filter_by(email=...).first()` finds a row. */
  function EmailTaken(t: Tables, email: string): (b: bool)
    ensures b ==> exists k :: k in t.users && t.users[k].email == email
    ensures IdsFresh(t) && (exists k :: k in t.users && t.users[k].email == email) ==> b
  {
    UserWithEmail(t, email).Some?
  }

  /** Another menu than `menuId` is dated `date`: when this fails, the first
      menu on that date, if any, is `menuId` itself. */
  function OtherMenuOn(t: Tables, date: Date, menuId: nat): (b: bool)
    ensures IdsFresh(t) && b ==> MenuOn(t, date).Some?
    ensures !b && MenuOn(t, date).Some? ==> MenuOn(t, date).value == menuId
  {
    exists k :: k in t.menus && k != menuId && t.menus[k].date == date
  }

  /** `MenuItem.query.filter_by(menu_id=..., meal_id=...).first()` finds a row. */
  function HasItem(t: Tables, menuId: nat, mealId: nat): (b: bool)
    ensures b <==> MenuItem(menuId, mealId) in t.items.Values
  {
    exists k :: k in t.items && t.items[k] == MenuItem(menuId, mealId)
  }

  // Routes that only read.

  /** `login` (lines 221-262). */
  function Login(t: Tables, body: LoginBody): (r: Reply)
    ensures !Truthy(body.email) || !Truthy(body.password) ==>
              r == Raised(ValidationError("Email and password are required"))
    ensures Truthy(body.email) && Truthy(body.password) ==>
              (r.status == 200 <==> UserWithEmail(t, body.email.value).Some?
                                    && t.users[UserWithEmail(t, body.email.value).value].password == body.password.value)
    ensures r.status == 200 ==> r.body == TokenRow("Login successful", UserWithEmail(t, body.email.value).value)
    ensures Truthy(body.email) && Truthy(body.password) && r.status != 200 ==>
              r == Raised(UnauthorizedError("Invalid credentials"))
  {
    if !Truthy(body.email) || !Truthy(body.password) then Raised(ValidationError("Email and password are required"))
    else
      var user := UserWithEmail(t, body.email.value);
      if user.None? || t.users[user.value].password != body.password.value then
        Raised(UnauthorizedError("Invalid credentials"))
      else Reply(200, TokenRow("Login successful", user.value))
  }

  /** `get_users` (lines 265-273): admins only; every user. */
  function GetUsers(t: Tables, identity: string): (r: Reply)
    ensures RolesRequired(t, identity, [Admin]).Some? ==> r == RolesRequired(t, identity, [Admin]).value
    ensures RolesRequired(t, identity, [Admin]).None? ==> r == Reply(200, Rows(t.users.Keys))
  {
    var guard := RolesRequired(t, identity, [Admin]);
    if guard.Some? then guard.value else Reply(200, Rows(t.users.Keys))
  }

  /** `get_user` (lines 275-287): a user sees their own profile; an admin
      sees any. */
  function GetUser(t: Tables, identity: string, userId: nat): (r: Reply)
    ensures userId !in t.users ==> r == NotFound
    ensures userId in t.users && UserWithEmail(t, identity).None? ==> r == ServerError
    ensures r.status == 200 <==> userId in t.users && OwnerOrAdmin(t, identity, Some(userId))
    ensures r.status == 200 ==> r.body == Row(userId)
    ensures userId in t.users && UserWithEmail(t, identity).Some? && r.status != 200 ==>
              r == Raised(ForbiddenError(ForbiddenMessage))
  {
    var me := UserWithEmail(t, identity);
    if userId !in t.users then NotFound
    else if me.None? then ServerError
    else if me.value != userId && t.users[me.value].role != Admin then Raised(ForbiddenError(ForbiddenMessage))
    else Reply(200, Row(userId))
  }

  /** `get_meals` (lines 398-413), without its search and paging. */
  function GetMeals(t: Tables): (r: Reply)
    ensures r == Reply(200, Rows(t.meals.Keys))
  {
    Reply(200, Rows(t.meals.Keys))
  }

  /** `get_meal` (lines 416-444). */
  function GetMeal(t: Tables, mealId: nat): (r: Reply)
    ensures mealId in t.meals <==> r.status == 200
    ensures mealId in t.meals ==> r.body == Row(mealId)
    ensures mealId !in t.meals ==> r == NotFound
  {
    if mealId in t.meals then Reply(200, Row(mealId)) else NotFound
  }

  /** `get_menus` (lines 565-596), without its paging: an unreadable date
      filter is refused with 422. */
  function GetMenus(t: Tables, date: Option<string>, parse: string -> Option<Date>): (r: Reply)
    ensures Truthy(date) && parse(date.value).None? ==> r == Raised(ValidationError(BadDate))
    ensures Truthy(date) && parse(date.value).Some? ==>
              r.status == 200 && r.body.Rows? && forall k :: k in r.body.ids <==> k in t.menus && t.menus[k].date == parse(date.value).value
    ensures !Truthy(date) ==> r == Reply(200, Rows(t.menus.Keys))
  {
    if Truthy(date) then
      var d := parse(date.value);
      if d.None? then Raised(ValidationError(BadDate))
      else Reply(200, Rows(KeysWhere(t.menus, (m: Menu) => m.date == d.value)))
    else Reply(200, Rows(t.menus.Keys))
  }

  /** `get_menu` (lines 656-659). */
  function GetMenu(t: Tables, menuId: nat): (r: Reply)
    ensures menuId in t.menus <==> r.status == 200
    ensures menuId in t.menus ==> r.body == Row(menuId)
    ensures menuId !in t.menus ==> r == NotFound
  {
    if menuId in t.menus then Reply(200, Row(menuId)) else NotFound
  }

  /** `get_menu_items` (lines 779-782): 404 for an unknown menu. */
  function GetMenuItems(t: Tables, menuId: nat): (r: Reply)
    ensures menuId !in t.menus ==> r == NotFound
    ensures menuId in t.menus ==>
              r.status == 200 && r.body.Rows? && forall k :: k in r.body.ids <==> k in t.items && t.items[k].menuId == menuId
  {
    if menuId !in t.menus then NotFound
    else Reply(200, Rows(KeysWhere(t.items, (i: MenuItem) => i.menuId == menuId)))
  }

  /** The orders a caller sees (lines 887-893): a customer their own, a
      caterer those for the items of their menus, an admin all. */
  function VisibleOrders(t: Tables, me: nat): (ids: set<nat>)
    requires me in t.users
    ensures t.users[me].role == Admin ==> ids == t.orders.Keys
    ensures t.users[me].role == Customer ==> forall k :: k in ids <==> k in t.orders && t.orders[k].userId == me
    ensures t.users[me].role == Caterer ==>
              forall k :: k in ids <==> k in t.orders && t.orders[k].menuItemId in t.items
                                        && CateredMenu(t, t.items[t.orders[k].menuItemId].menuId, me)
  {
    match t.users[me].role
    case Customer => KeysWhere(t.orders, (o: Order) => o.userId == me)
    case Caterer =>
      var menuIds := KeysWhere(t.menus, (m: Menu) => m.catererId == Some(me));
      var itemIds := KeysWhere(t.items, (i: MenuItem) => i.menuId in menuIds);
      KeysWhere(t.orders, (o: Order) => o.menuItemId in itemIds)
    case Admin => t.orders.Keys
  }

  /** `get_orders` (lines 847-899), without its paging; a non-empty
      `status` argument narrows the list. */
  function GetOrders(t: Tables, identity: string, status: Option<string>): (r: Reply)
    ensures UserWithEmail(t, identity).None? ==> r == ServerError
    ensures UserWithEmail(t, identity).Some? ==> r.status == 200 && r.body.Rows?
    ensures UserWithEmail(t, identity).Some? ==>
              forall k :: k in r.body.ids <==>
                k in VisibleOrders(t, UserWithEmail(t, identity).value)
                && (!Truthy(status) || t.orders[k].status == status.value)
  {
    var me := UserWithEmail(t, identity);
    if me.None? then ServerError
    else
      var visible := VisibleOrders(t, me.value);
      if Truthy(status) then Reply(200, Rows(set k | k in visible && t.orders[k].status == status.value))
      else Reply(200, Rows(visible))
  }

  /** Whether `me` may see or change order `orderId` (lines 982-987 and
      1037-1042). `None` when reading the order's menu throws. */
  function MayTouchOrder(t: Tables, me: nat, orderId: nat): (r: Option<bool>)
    requires me in t.users && orderId in t.orders
    ensures t.users[me].role == Customer ==> r == Some(t.orders[orderId].userId == me)
    ensures t.users[me].role == Admin ==> r == Some(true)
    ensures t.users[me].role == Caterer ==>
              (r.None? <==> t.orders[orderId].menuItemId in t.items && t.items[t.orders[orderId].menuItemId].menuId !in t.menus)
    ensures t.users[me].role == Caterer && r == Some(true) ==>
              t.orders[orderId].menuItemId in t.items
              && t.menus[t.items[t.orders[orderId].menuItemId].menuId].catererId == Some(me)
    ensures Linked(t) ==> r.Some?
  {
    var o := t.orders[orderId];
    match t.users[me].role
    case Customer => Some(o.userId == me)
    case Caterer =>
      if o.menuItemId !in t.items then Some(false)
      else if t.items[o.menuItemId].menuId !in t.menus then None
      else Some(t.menus[t.items[o.menuItemId].menuId].catererId == Some(me))
    case Admin => Some(true)
  }

  /** `get_order` (lines 973-989). */
  function GetOrder(t: Tables, identity: string, orderId: nat): (r: Reply)
    ensures orderId !in t.orders ==> r == NotFound
    ensures orderId in t.orders && UserWithEmail(t, identity).None? ==> r == ServerError
    ensures r.status == 200 <==>
              orderId in t.orders && UserWithEmail(t, identity).Some?
              && MayTouchOrder(t, UserWithEmail(t, identity).value, orderId) == Some(true)
    ensures r.status == 200 ==> r.body == Row(orderId)
    ensures orderId in t.orders && UserWithEmail(t, identity).Some?
            && MayTouchOrder(t, UserWithEmail(t, identity).value, orderId) == Some(false) ==>
              r == Raised(ForbiddenError(ForbiddenMessage))
  {
    var me := UserWithEmail(t, identity);
    if orderId !in t.orders then NotFound
    else if me.None? then ServerError
    else
      match MayTouchOrder(t, me.value, orderId)
      case None => ServerError
      case Some(ok) => if ok then Reply(200, Row(orderId)) else Raised(ForbiddenError(ForbiddenMessage))
  }

  /** A customer never sees another customer's order. */
  lemma CustomersSeeOnlyTheirOrders(t: Tables, identity: string, orderId: nat)
    requires UserWithEmail(t, identity).Some? && t.users[UserWithEmail(t, identity).value].role == Customer
    requires GetOrder(t, identity, orderId).status == 200
    ensures t.orders[orderId].userId == UserWithEmail(t, identity).value
  {
  }

  /** `get_notifications` (lines 1109-1150), without its paging: the
      caller's own notifications, narrowed by `read` when given. */
  function GetNotifications(t: Tables, identity: string, read: Option<string>): (r: Reply)
    ensures UserWithEmail(t, identity).None? ==> r == ServerError
    ensures UserWithEmail(t, identity).Some? ==> r.status == 200 && r.body.Rows?
    ensures UserWithEmail(t, identity).Some? ==>
              forall k :: k in r.body.ids <==>
                k in t.notifications && t.notifications[k].userId == UserWithEmail(t, identity).value
                && (read.Some? ==> t.notifications[k].read == (Lower(read.value) == "true"))
  {
    var me := UserWithEmail(t, identity);
    if me.None? then ServerError
    else if read.None? then Reply(200, Rows(KeysWhere(t.notifications, (n: Notification) => n.userId == me.value)))
    else
      var wanted := Lower(read.value) == "true";
      Reply(200, Rows(KeysWhere(t.notifications, (n: Notification) => n.userId == me.value && n.read == wanted)))
  }

  /** `get_notification` (lines 1152-1163): only its owner may read it. */
  function GetNotification(t: Tables, identity: string, id: nat): (r: Reply)
    ensures id !in t.notifications ==> r == NotFound
    ensures id in t.notifications && UserWithEmail(t, identity).None? ==> r == ServerError
    ensures r.status == 200 <==>
              id in t.notifications && UserWithEmail(t, identity) == Some(t.notifications[id].userId)
    ensures r.status == 200 ==> r.body == Row(id)
    ensures id in t.notifications && UserWithEmail(t, identity).Some? && r.status != 200 ==>
              r == Raised(ForbiddenError(ForbiddenMessage))
  {
    var me := UserWithEmail(t, identity);
    if id !in t.notifications then NotFound
    else if me.None? then ServerError
    else if t.notifications[id].userId != me.value then Raised(ForbiddenError(ForbiddenMessage))
    else Reply(200, Row(id))
  }

  /** The message sent to the caterer when an order arrives. */
  function NewOrderMessage(mealName: string): (m: string)
    ensures |m| > |mealName| && m[|m| - |mealName|..] == mealName
  {
    "New order received for " + mealName
  }

  /** The message sent to the customer when their order is closed. */
  function StatusMessage(mealName: string, status: string): (m: string)
    ensures |m| > 15 + |mealName| + |status|
    ensures m[15..15 + |mealName|] == mealName && m[|m| - |status|..] == status
  {
    "Your order for " + mealName + " has been " + status
  }

  /** The meal an order's menu item offers. */
  function OrderedMeal(t: Tables, orderId: nat): Meal
    requires Linked(t) && orderId in t.orders
  {
    t.meals[t.items[t.orders[orderId].menuItemId].mealId]
  }

  /** The row `update_user` writes: each field present in the body
      replaces the old one (the password after hashing, which is not
      modelled); the role is decided by the caller. */
  function EditedUser(u: User, c: UserChanges, role: Role): (v: User)
    ensures v.name == GetOr(c.name, u.name) && v.email == GetOr(c.email, u.email)
    ensures v.password == GetOr(c.password, u.password) && v.role == role
  {
    User(GetOr(c.name, u.name), GetOr(c.email, u.email), GetOr(c.password, u.password), role)
  }

  /** Replacing a user by one whose email no other user has keeps emails
      unique. */
  lemma ReplacingKeepsUniqueEmails(users: map<nat, User>, id: nat, u: User)
    requires UniqueEmails(users) && id in users
    requires u.email == users[id].email || forall k :: k in users ==> users[k].email != u.email
    ensures UniqueEmails(users[id := u])
  {
  }

  /** Replacing a user row keeps every key and every reference. */
  lemma ReplacingUserKeepsLinks(t: Tables, id: nat, u: User)
    requires IdsFresh(t) && Linked(t) && id in t.users
    ensures IdsFresh(t.(users := t.users[id := u])) && Linked(t.(users := t.users[id := u]))
  {
    assert t.users[id := u].Keys == t.users.Keys;
  }

  /** The row `update_order` writes (lines 1047-1052): only a customer's
      quantity and only a caterer's or an admin's status are applied; a
      new quantity reprices the order. */
  function EditedOrder(o: Order, c: OrderChanges, role: Role, price: int): (p: Order)
    ensures p.userId == o.userId && p.menuItemId == o.menuItemId
    ensures c.quantity.Some? && role == Customer ==> p.quantity == c.quantity.value && p.totalPrice == price * c.quantity.value
    ensures c.quantity.None? || role != Customer ==> p.quantity == o.quantity && p.totalPrice == o.totalPrice
    ensures p.status == (if c.status.Some? && role != Customer then c.status.value else o.status)
  {
    var q := if c.quantity.Some? && role == Customer then o.(quantity := c.quantity.value, totalPrice := price * c.quantity.value) else o;
    if c.status.Some? && role != Customer then q.(status := c.status.value) else q
  }

  /** Replacing an order by one with the same customer and item keeps
      every key and every reference. */
  lemma ReplacingOrderKeepsLinks(t: Tables, id: nat, o: Order)
    requires IdsFresh(t) && Linked(t) && id in t.orders
    requires o.userId == t.orders[id].userId && o.menuItemId == t.orders[id].menuItemId
    ensures IdsFresh(t.(orders := t.orders[id := o])) && Linked(t.(orders := t.orders[id := o]))
  {
    assert t.orders[id := o].Keys == t.orders.Keys;
  }

  /** Adding an order under the next key for an existing user and item
      keeps every key fresh and every reference. */
  lemma AddingOrderKeepsLinks(t: Tables, o: Order)
    requires IdsFresh(t) && Linked(t) && o.userId in t.users && o.menuItemId in t.items
    ensures var u := t.(orders := t.orders[t.nextId := o], nextId := t.nextId + 1);
            IdsFresh(u) && Linked(u)
  {
  }

  /** Adding a notification under the next key for an existing user keeps
      every key fresh and every reference. */
  lemma AddingNotificationKeepsLinks(t: Tables, n: Notification)
    requires IdsFresh(t) && Linked(t) && n.userId in t.users
    ensures var u := t.(notifications := t.notifications[t.nextId := n], nextId := t.nextId + 1);
            IdsFresh(u) && Linked(u)
  {
  }

  /** Primary keys are fresh, every reference resolves, emails and menu
      dates are unique, and no meal is twice on one menu. */
  predicate Consistent(t: Tables) {
    IdsFresh(t) && Linked(t) && UniqueEmails(t.users) && UniqueMenuDates(t.menus) && UniqueMenuMeals(t.items)
  }

  /** Every cascade of the models keeps the database consistent. */
  lemma DeletingUserKeepsConsistent(t: Tables, id: nat)
    requires Consistent(t)
    ensures Consistent(Store.DeleteUser(t, id))
  {
    DeleteUserKeepsLinks(t, id);
    CascadesKeepUniqueness(t, id);
  }

  lemma DeletingMealKeepsConsistent(t: Tables, id: nat)
    requires Consistent(t)
    ensures Consistent(Store.DeleteMeal(t, id))
  {
    DeleteMealKeepsLinks(t, id);
    CascadesKeepUniqueness(t, id);
  }

  lemma DeletingMenuKeepsConsistent(t: Tables, id: nat)
    requires Consistent(t)
    ensures Consistent(Store.DeleteMenu(t, id))
  {
    DeleteMenuKeepsLinks(t, id);
    CascadesKeepUniqueness(t, id);
  }

  lemma DeletingItemKeepsConsistent(t: Tables, id: nat)
    requires Consistent(t)
    ensures Consistent(Store.DeleteItems(t, {id}))
  {
    DeleteItemKeepsLinks(t, id);
  }

  lemma DeletingOrderKeepsConsistent(t: Tables, id: nat)
    requires Consistent(t)
    ensures Consistent(Store.DeleteOrder(t, id))
  {
    DeleteOrderKeepsLinks(t, id);
  }

  /** A menu for a date no menu has, by an existing caterer or none. */
  lemma AddingMenuKeepsConsistent(t: Tables, m: Menu)
    requires Consistent(t) && MenuOn(t, m.date).None? && (m.catererId.Some? ==> m.catererId.value in t.users)
    ensures Consistent(t.(menus := t.menus[t.nextId := m], nextId := t.nextId + 1))
  {
  }

  /** A meal by an existing caterer or none. */
  lemma AddingMealKeepsConsistent(t: Tables, m: Meal)
    requires Consistent(t) && (m.catererId.Some? ==> m.catererId.value in t.users)
    ensures Consistent(t.(meals := t.meals[t.nextId := m], nextId := t.nextId + 1))
  {
  }

  /** Changing notifications in place, each kept with its user. */
  lemma SameRecipientsKeepConsistent(t: Tables, ns: map<nat, Notification>)
    requires Consistent(t) && ns.Keys == t.notifications.Keys
    requires forall k :: k in ns ==> ns[k].userId == t.notifications[k].userId
    ensures Consistent(t.(notifications := ns))
  {
  }

  /** An item for an existing menu and meal, not yet paired. */
  lemma AddingItemKeepsConsistent(t: Tables, i: MenuItem)
    requires Consistent(t) && i.menuId in t.menus && i.mealId in t.meals && !HasItem(t, i.menuId, i.mealId)
    ensures Consistent(t.(items := t.items[t.nextId := i], nextId := t.nextId + 1))
  {
  }

  class App {
    var db: Tables

    /** Primary keys are fresh, every reference resolves, emails and menu
        dates are unique, and no meal is twice on one menu. */
    ghost predicate Valid()
      reads this
    {
      Consistent(db)
    }

    constructor ()
      ensures Valid() && db == Empty
    {
      db := Empty;
    }

    /** `register` (lines 151-218). The role text goes into the Enum column
        as it is; a text that names no role makes the commit fail. */
    method Register(body: RegisterBody, errorText: string) returns (r: Reply)
      requires Valid()
      modifies this
      ensures Valid()
      ensures !Truthy(body.email) || !Truthy(body.password) ==>
                r == Raised(ValidationError("Email and password are required")) && db == old(db)
      ensures Truthy(body.email) && Truthy(body.password) && EmailTaken(old(db), body.email.value) ==>
                r == Raised(ValidationError("Email already exists")) && db == old(db)
      ensures Truthy(body.email) && Truthy(body.password) && !EmailTaken(old(db), body.email.value)
              && RoleFromName(GetOr(body.role, "customer")).None? ==>
                r == Rewrapped(errorText) && db == old(db)
      ensures r.status == 201 <==>
                Truthy(body.email) && Truthy(body.password) && !EmailTaken(old(db), body.email.value)
                && RoleFromName(GetOr(body.role, "customer")).Some?
      ensures r.status == 201 ==>
                r.body == MessageRow("User created successfully", old(db).nextId)
                && db == old(db).(users := old(db).users[old(db).nextId := User(GetOr(body.name, ""), body.email.value, body.password.value,
                                                                                RoleFromName(GetOr(body.role, "customer")).value)],
                                  nextId := old(db).nextId + 1)
    {
      if !Truthy(body.email) || !Truthy(body.password) {
        return Raised(ValidationError("Email and password are required"));
      }
      if UserWithEmail(db, body.email.value).Some? {
        return Raised(ValidationError("Email already exists"));
      }
      var role := RoleFromName(GetOr(body.role, "customer"));
      if role.None? {
        return Rewrapped(errorText);
      }
      var id := db.nextId;
      db := db.(users := db.users[id := User(GetOr(body.name, ""), body.email.value, body.password.value, role.value)],
                nextId := id + 1);
      r := Reply(201, MessageRow("User created successfully", id));
    }

    /** `update_user` (lines 289-361). The email check raises a
        `ValidationError` inside the `try`, whose `except Exception` turns
        it into a `MealAPIError` of status 400 with the exception's text,
        which is empty. A role is applied only for an admin caller. */
    method UpdateUser(identity: string, userId: nat, changes: UserChanges, errorText: string) returns (r: Reply)
      requires Valid()
      modifies this
      ensures Valid()
      ensures !Succeeded(r) ==> db == old(db)
      ensures userId !in old(db).users ==> r == NotFound
      ensures userId in old(db).users && UserWithEmail(old(db), identity).None? ==> r == ServerError
      ensures userId in old(db).users && UserWithEmail(old(db), identity).Some? && !OwnerOrAdmin(old(db), identity, Some(userId)) ==>
                r == Raised(ForbiddenError(ForbiddenMessage))
      ensures userId in old(db).users && OwnerOrAdmin(old(db), identity, Some(userId))
              && changes.email.Some? && changes.email.value != old(db).users[userId].email
              && EmailTaken(old(db), changes.email.value) ==>
                r == Raised(MealApiError(""))
      ensures r.status == 200 ==>
                r.body == MessageRow("User updated successfully", userId) && userId in old(db).users
                && OwnerOrAdmin(old(db), identity, Some(userId)) && userId in db.users
                && db == old(db).(users := old(db).users[userId := db.users[userId]])
      ensures r.status == 200 ==>
                var before, after := old(db).users[userId], db.users[userId];
                var byAdmin := old(db).users[UserWithEmail(old(db), identity).value].role == Admin;
                after.name == GetOr(changes.name, before.name)
                && after.email == GetOr(changes.email, before.email)
                && after.password == GetOr(changes.password, before.password)
                && (changes.role.None? || !byAdmin ==> after.role == before.role)
                && (changes.role.Some? && byAdmin ==> Some(after.role) == RoleFromName(changes.role.value))
      ensures userId in old(db).users && OwnerOrAdmin(old(db), identity, Some(userId))
              && !(changes.email.Some? && changes.email.value != old(db).users[userId].email && EmailTaken(old(db), changes.email.value)) ==>
                (r.status == 200 ||
                 (r == Rewrapped(errorText) && changes.role.Some? && RoleFromName(changes.role.value).None?))
    {
      var me := UserWithEmail(db, identity);
      if userId !in db.users {
        return NotFound;
      }
      if me.None? {
        return ServerError;
      }
      var byAdmin := db.users[me.value].role == Admin;
      if me.value != userId && !byAdmin {
        return Raised(ForbiddenError(ForbiddenMessage));
      }
      var before := db.users[userId];
      if changes.email.Some? && changes.email.value != before.email && UserWithEmail(db, changes.email.value).Some? {
        return Raised(MealApiError(""));
      }
      var role := if changes.role.Some? && byAdmin then RoleFromName(changes.role.value) else Some(before.role);
      if role.None? {
        return Rewrapped(errorText);
      }
      var after := EditedUser(before, changes, role.value);
      ReplacingKeepsUniqueEmails(db.users, userId, after);
      ReplacingUserKeepsLinks(db, userId, after);
      db := db.(users := db.users[userId := after]);
      r := Reply(200, MessageRow("User updated successfully", userId));
    }

    /** `delete_user` (lines 363-396): admins only; the cascade removes the
        user's orders, notifications, meals and menus. */
    method DeleteUser(identity: string, userId: nat) returns (r: Reply)
      requires Valid()
      modifies this
      ensures Valid()
      ensures !Succeeded(r) ==> db == old(db)
      ensures RolesRequired(old(db), identity, [Admin]).Some? ==> r == RolesRequired(old(db), identity, [Admin]).value
      ensures RolesRequired(old(db), identity, [Admin]).None? && userId !in old(db).users ==> r == NotFound
      ensures r.status == 200 <==> RolesRequired(old(db), identity, [Admin]).None? && userId in old(db).users
      ensures r.status == 200 ==> r.body == Message("User deleted successfully") && db == Store.DeleteUser(old(db), userId)
    {
      var guard := RolesRequired(db, identity, [Admin]);
      if guard.Some? {
        return guard.value;
      }
      if userId !in db.users {
        return NotFound;
      }
      DeletingUserKeepsConsistent(db, userId);
      db := Store.DeleteUser(db, userId);
      r := Reply(200, Message("User deleted successfully"));
    }

    /** `create_meal` (lines 446-519). `hasImage` is whether a file came
        with the form, `upload` the `secure_url` of the upload (`None` when
        the upload throws), `price` the value `float` reads from the price
        text (`None` when it throws). */
    method CreateMeal(identity: string, name: Option<string>, description: Option<string>, priceText: Option<string>,
                      hasImage: bool, upload: Option<Option<string>>, price: Option<int>, errorText: string)
      returns (r: Reply)
      requires Valid()
      modifies this
      ensures Valid()
      ensures !Succeeded(r) ==> db == old(db)
      ensures RolesRequired(old(db), identity, [Caterer, Admin]).Some? ==>
                r == RolesRequired(old(db), identity, [Caterer, Admin]).value
      ensures RolesRequired(old(db), identity, [Caterer, Admin]).None? && (!Truthy(name) || !Truthy(priceText)) ==>
                r == Raised(ValidationError("Name and price are required"))
      ensures RolesRequired(old(db), identity, [Caterer, Admin]).None? && Truthy(name) && Truthy(priceText) && !hasImage ==>
                r == Raised(ValidationError("Image is required"))
      ensures RolesRequired(old(db), identity, [Caterer, Admin]).None? && Truthy(name) && Truthy(priceText) && hasImage
              && (upload.None? || price.None?) ==>
                r == Rewrapped(errorText)
      ensures r.status == 201 <==>
                RolesRequired(old(db), identity, [Caterer, Admin]).None? && Truthy(name) && Truthy(priceText) && hasImage
                && upload.Some? && price.Some?
      ensures r.status == 201 ==>
                r.body == MessageRow("Meal created successfully", old(db).nextId)
                && db == old(db).(meals := old(db).meals[old(db).nextId := Meal(name.value, Some(GetOr(description, "")), price.value,
                                                                                upload.value, UserWithEmail(old(db), identity))],
                                  nextId := old(db).nextId + 1)
    {
      var guard := RolesRequired(db, identity, [Caterer, Admin]);
      if guard.Some? {
        return guard.value;
      }
      if !Truthy(name) || !Truthy(priceText) {
        return Raised(ValidationError("Name and price are required"));
      }
      if !hasImage {
        return Raised(ValidationError("Image is required"));
      }
      if upload.None? || price.None? {
        return Rewrapped(errorText);
      }
      var id := db.nextId;
      var me := UserWithEmail(db, identity);
      AddingMealKeepsConsistent(db, Meal(name.value, Some(GetOr(description, "")), price.value, upload.value, me));
      db := db.(meals := db.meals[id := Meal(name.value, Some(GetOr(description, "")), price.value, upload.value, me)],
                nextId := id + 1);
      r := Reply(201, MessageRow("Meal created successfully", id));
    }

    /** `delete_meal` (lines 521-563): its caterer or an admin. */
    method DeleteMeal(identity: string, mealId: nat) returns (r: Reply)
      requires Valid()
      modifies this
      ensures Valid()
      ensures !Succeeded(r) ==> db == old(db)
      ensures RolesRequired(old(db), identity, [Caterer, Admin]).Some? ==>
                r == RolesRequired(old(db), identity, [Caterer, Admin]).value
      ensures RolesRequired(old(db), identity, [Caterer, Admin]).None? && mealId !in old(db).meals ==> r == NotFound
      ensures RolesRequired(old(db), identity, [Caterer, Admin]).None? && mealId in old(db).meals
              && !OwnerOrAdmin(old(db), identity, old(db).meals[mealId].catererId) ==>
                r == Raised(ForbiddenError(ForbiddenMessage))
      ensures r.status == 200 <==>
                RolesRequired(old(db), identity, [Caterer, Admin]).None? && mealId in old(db).meals
                && OwnerOrAdmin(old(db), identity, old(db).meals[mealId].catererId)
      ensures r.status == 200 ==> r.body == Message("Meal deleted successfully") && db == Store.DeleteMeal(old(db), mealId)
    {
      var guard := RolesRequired(db, identity, [Caterer, Admin]);
      if guard.Some? {
        return guard.value;
      }
      if mealId !in db.meals {
        return NotFound;
      }
      if !OwnerOrAdmin(db, identity, db.meals[mealId].catererId) {
        return Raised(ForbiddenError(ForbiddenMessage));
      }
      DeletingMealKeepsConsistent(db, mealId);
      db := Store.DeleteMeal(db, mealId);
      r := Reply(200, Message("Meal deleted successfully"));
    }

    /** `create_menu` (lines 598-654): one menu per date. */
    method CreateMenu(identity: string, date: Option<string>, parse: string -> Option<Date>) returns (r: Reply)
      requires Valid()
      modifies this
      ensures Valid()
      ensures !Succeeded(r) ==> db == old(db)
      ensures RolesRequired(old(db), identity, [Caterer, Admin]).Some? ==>
                r == RolesRequired(old(db), identity, [Caterer, Admin]).value
      ensures RolesRequired(old(db), identity, [Caterer, Admin]).None? && !Truthy(date) ==>
                r == Raised(ValidationError("Date is required"))
      ensures RolesRequired(old(db), identity, [Caterer, Admin]).None? && Truthy(date) && parse(date.value).None? ==>
                r == Raised(ValidationError(BadDate))
      ensures RolesRequired(old(db), identity, [Caterer, Admin]).None? && Truthy(date) && parse(date.value).Some?
              && MenuOn(old(db), parse(date.value).value).Some? ==>
                r == Raised(ValidationError("Menu for this date already exists"))
      ensures r.status == 201 <==>
                RolesRequired(old(db), identity, [Caterer, Admin]).None? && Truthy(date) && parse(date.value).Some?
                && MenuOn(old(db), parse(date.value).value).None?
      ensures r.status == 201 ==>
                r.body == MessageRow("Menu created successfully", old(db).nextId)
                && db == old(db).(menus := old(db).menus[old(db).nextId := Menu(parse(date.value).value, UserWithEmail(old(db), identity))],
                                  nextId := old(db).nextId + 1)
    {
      var guard := RolesRequired(db, identity, [Caterer, Admin]);
      if guard.Some? {
        return guard.value;
      }
      if !Truthy(date) {
        return Raised(ValidationError("Date is required"));
      }
      var d := parse(date.value);
      if d.None? {
        return Raised(ValidationError(BadDate));
      }
      if MenuOn(db, d.value).Some? {
        return Raised(ValidationError("Menu for this date already exists"));
      }
      var id := db.nextId;
      AddingMenuKeepsConsistent(db, Menu(d.value, UserWithEmail(db, identity)));
      db := db.(menus := db.menus[id := Menu(d.value, UserWithEmail(db, identity))], nextId := id + 1);
      r := Reply(201, MessageRow("Menu created successfully", id));
    }

    /** `update_menu` (lines 661-734): its caterer or an admin. An
        unreadable date is caught as a `ValueError` (422); a date another
        menu has raises a `ValidationError` that the generic handler turns
        into status 400 with an empty message. */
    method UpdateMenu(identity: string, menuId: nat, date: Option<string>, parse: string -> Option<Date>) returns (r: Reply)
      requires Valid()
      modifies this
      ensures Valid()
      ensures !Succeeded(r) ==> db == old(db)
      ensures RolesRequired(old(db), identity, [Caterer, Admin]).Some? ==>
                r == RolesRequired(old(db), identity, [Caterer, Admin]).value
      ensures RolesRequired(old(db), identity, [Caterer, Admin]).None? && menuId !in old(db).menus ==> r == NotFound
      ensures RolesRequired(old(db), identity, [Caterer, Admin]).None? && menuId in old(db).menus
              && !OwnerOrAdmin(old(db), identity, old(db).menus[menuId].catererId) ==>
                r == Raised(ForbiddenError(ForbiddenMessage))
      ensures RolesRequired(old(db), identity, [Caterer, Admin]).None? && menuId in old(db).menus
              && OwnerOrAdmin(old(db), identity, old(db).menus[menuId].catererId) && date.Some? ==>
                (parse(date.value).None? ==> r == Raised(ValidationError(BadDate)))
                && (parse(date.value).Some? && OtherMenuOn(old(db), parse(date.value).value, menuId) ==>
                      r == Raised(MealApiError("")))
      ensures r.status == 200 <==>
                RolesRequired(old(db), identity, [Caterer, Admin]).None? && menuId in old(db).menus
                && OwnerOrAdmin(old(db), identity, old(db).menus[menuId].catererId)
                && (date.Some? ==> parse(date.value).Some? && !OtherMenuOn(old(db), parse(date.value).value, menuId))
      ensures r.status == 200 ==>
                r.body == MessageRow("Menu updated successfully", menuId)
                && db == (if date.None? then old(db)
                          else old(db).(menus := old(db).menus[menuId := old(db).menus[menuId].(date := parse(date.value).value)]))
    {
      var guard := RolesRequired(db, identity, [Caterer, Admin]);
      if guard.Some? {
        return guard.value;
      }
      if menuId !in db.menus {
        return NotFound;
      }
      if !OwnerOrAdmin(db, identity, db.menus[menuId].catererId) {
        return Raised(ForbiddenError(ForbiddenMessage));
      }
      if date.Some? {
        var d := parse(date.value);
        if d.None? {
          return Raised(ValidationError(BadDate));
        }
        if OtherMenuOn(db, d.value, menuId) {
          return Raised(MealApiError(""));
        }
        db := db.(menus := db.menus[menuId := db.menus[menuId].(date := d.value)]);
      }
      r := Reply(200, MessageRow("Menu updated successfully", menuId));
    }

    /** `delete_menu` (lines 736-777): its caterer or an admin. */
    method DeleteMenu(identity: string, menuId: nat) returns (r: Reply)
      requires Valid()
      modifies this
      ensures Valid()
      ensures !Succeeded(r) ==> db == old(db)
      ensures RolesRequired(old(db), identity, [Caterer, Admin]).Some? ==>
                r == RolesRequired(old(db), identity, [Caterer, Admin]).value
      ensures RolesRequired(old(db), identity, [Caterer, Admin]).None? && menuId !in old(db).menus ==> r == NotFound
      ensures RolesRequired(old(db), identity, [Caterer, Admin]).None? && menuId in old(db).menus
              && !OwnerOrAdmin(old(db), identity, old(db).menus[menuId].catererId) ==>
                r == Raised(ForbiddenError(ForbiddenMessage))
      ensures r.status == 200 <==>
                RolesRequired(old(db), identity, [Caterer, Admin]).None? && menuId in old(db).menus
                && OwnerOrAdmin(old(db), identity, old(db).menus[menuId].catererId)
      ensures r.status == 200 ==> r.body == Message("Menu deleted successfully") && db == Store.DeleteMenu(old(db), menuId)
    {
      var guard := RolesRequired(db, identity, [Caterer, Admin]);
      if guard.Some? {
        return guard.value;
      }
      if menuId !in db.menus {
        return NotFound;
      }
      if !OwnerOrAdmin(db, identity, db.menus[menuId].catererId) {
        return Raised(ForbiddenError(ForbiddenMessage));
      }
      DeletingMenuKeepsConsistent(db, menuId);
      db := Store.DeleteMenu(db, menuId);
      r := Reply(200, Message("Menu deleted successfully"));
    }

    /** `add_menu_item` (lines 784-822): its menu's caterer or an admin; the
        meal must exist and not be on the menu already. */
    method AddMenuItem(identity: string, menuId: nat, mealId: Option<int>) returns (r: Reply)
      requires Valid()
      modifies this
      ensures Valid()
      ensures !Succeeded(r) ==> db == old(db)
      ensures RolesRequired(old(db), identity, [Caterer, Admin]).Some? ==>
                r == RolesRequired(old(db), identity, [Caterer, Admin]).value
      ensures RolesRequired(old(db), identity, [Caterer, Admin]).None? && menuId !in old(db).menus ==> r == NotFound
      ensures RolesRequired(old(db), identity, [Caterer, Admin]).None? && menuId in old(db).menus
              && !OwnerOrAdmin(old(db), identity, old(db).menus[menuId].catererId) ==>
                r == Raised(ForbiddenError(ForbiddenMessage))
      ensures RolesRequired(old(db), identity, [Caterer, Admin]).None? && menuId in old(db).menus
              && OwnerOrAdmin(old(db), identity, old(db).menus[menuId].catererId) ==>
                (!NumberTruthy(mealId) ==> r == Raised(ValidationError("Meal ID is required")))
                && (NumberTruthy(mealId) && (mealId.value < 0 || mealId.value as nat !in old(db).meals) ==> r == NotFound)
                && (NumberTruthy(mealId) && mealId.value > 0 && HasItem(old(db), menuId, mealId.value) ==>
                      r == Raised(ValidationError("This meal is already in the menu")))
      ensures r.status == 201 <==>
                RolesRequired(old(db), identity, [Caterer, Admin]).None? && menuId in old(db).menus
                && OwnerOrAdmin(old(db), identity, old(db).menus[menuId].catererId)
                && NumberTruthy(mealId) && mealId.value > 0 && mealId.value in old(db).meals
                && !HasItem(old(db), menuId, mealId.value)
      ensures r.status == 201 ==>
                r.body == MessageRow("Menu item added successfully", old(db).nextId)
                && db == old(db).(items := old(db).items[old(db).nextId := MenuItem(menuId, mealId.value)],
                                  nextId := old(db).nextId + 1)
    {
      var guard := RolesRequired(db, identity, [Caterer, Admin]);
      if guard.Some? {
        return guard.value;
      }
      if menuId !in db.menus {
        return NotFound;
      }
      if !OwnerOrAdmin(db, identity, db.menus[menuId].catererId) {
        return Raised(ForbiddenError(ForbiddenMessage));
      }
      if !NumberTruthy(mealId) {
        return Raised(ValidationError("Meal ID is required"));
      }
      if mealId.value < 0 || mealId.value as nat !in db.meals {
        return NotFound;
      }
      var meal: nat := mealId.value;
      if HasItem(db, menuId, meal) {
        return Raised(ValidationError("This meal is already in the menu"));
      }
      var id := db.nextId;
      AddingItemKeepsConsistent(db, MenuItem(menuId, meal));
      db := db.(items := db.items[id := MenuItem(menuId, meal)], nextId := id + 1);
      r := Reply(201, MessageRow("Menu item added successfully", id));
    }

    /** `remove_menu_item` (lines 824-845): its menu's caterer or an admin;
        the item's orders go with it. */
    method RemoveMenuItem(identity: string, itemId: nat) returns (r: Reply)
      requires Valid()
      modifies this
      ensures Valid()
      ensures !Succeeded(r) ==> db == old(db)
      ensures RolesRequired(old(db), identity, [Caterer, Admin]).Some? ==>
                r == RolesRequired(old(db), identity, [Caterer, Admin]).value
      ensures RolesRequired(old(db), identity, [Caterer, Admin]).None? && itemId !in old(db).items ==> r == NotFound
      ensures RolesRequired(old(db), identity, [Caterer, Admin]).None? && itemId in old(db).items
              && !OwnerOrAdmin(old(db), identity, old(db).menus[old(db).items[itemId].menuId].catererId) ==>
                r == Raised(ForbiddenError(ForbiddenMessage))
      ensures r.status == 200 <==>
                RolesRequired(old(db), identity, [Caterer, Admin]).None? && itemId in old(db).items
                && OwnerOrAdmin(old(db), identity, old(db).menus[old(db).items[itemId].menuId].catererId)
      ensures r.status == 200 ==> r.body == Message("Menu item removed successfully") && db == Store.DeleteItems(old(db), {itemId})
    {
      var guard := RolesRequired(db, identity, [Caterer, Admin]);
      if guard.Some? {
        return guard.value;
      }
      if itemId !in db.items {
        return NotFound;
      }
      var menuId := db.items[itemId].menuId;
      if !OwnerOrAdmin(db, identity, db.menus[menuId].catererId) {
        return Raised(ForbiddenError(ForbiddenMessage));
      }
      DeletingItemKeepsConsistent(db, itemId);
      db := DeleteItems(db, {itemId});
      r := Reply(200, Message("Menu item removed successfully"));
    }

    /** `create_order` (lines 901-971): customers only; both fields must be
        truthy. The order starts "pending"; when the menu's caterer exists
        they get one unread notification. */
    method CreateOrder(identity: string, body: OrderBody, now: int) returns (r: Reply)
      requires Valid()
      modifies this
      ensures Valid()
      ensures !Succeeded(r) ==> db == old(db)
      ensures RolesRequired(old(db), identity, [Customer]).Some? ==> r == RolesRequired(old(db), identity, [Customer]).value
      ensures RolesRequired(old(db), identity, [Customer]).None? && (!NumberTruthy(body.menuItemId) || !NumberTruthy(body.quantity)) ==>
                r == Raised(ValidationError("Menu item ID and quantity are required"))
      ensures RolesRequired(old(db), identity, [Customer]).None? && NumberTruthy(body.menuItemId) && NumberTruthy(body.quantity)
              && (body.menuItemId.value < 0 || body.menuItemId.value as nat !in old(db).items) ==>
                r == NotFound
      ensures r.status == 201 <==>
                RolesRequired(old(db), identity, [Customer]).None? && NumberTruthy(body.menuItemId) && NumberTruthy(body.quantity)
                && body.menuItemId.value > 0 && body.menuItemId.value in old(db).items
      ensures r.status == 201 ==>
                var t, id, item := old(db), old(db).nextId, body.menuItemId.value;
                var meal := t.meals[t.items[item].mealId];
                var caterer := t.menus[t.items[item].menuId].catererId;
                r.body == MessageRow("Order created successfully", id)
                && db.orders == t.orders[id := Order(UserWithEmail(t, identity).value, item, body.quantity.value,
                                                     meal.price * body.quantity.value, "pending")]
                && (caterer.Some? ==>
                      db.notifications == t.notifications[id + 1 := Notification(caterer.value, NewOrderMessage(meal.name), false, now)]
                      && db.nextId == id + 2)
                && (caterer.None? ==> db.notifications == t.notifications && db.nextId == id + 1)
                && db == t.(orders := db.orders, notifications := db.notifications, nextId := db.nextId)
    {
      var guard := RolesRequired(db, identity, [Customer]);
      if guard.Some? {
        return guard.value;
      }
      if !NumberTruthy(body.menuItemId) || !NumberTruthy(body.quantity) {
        return Raised(ValidationError("Menu item ID and quantity are required"));
      }
      if body.menuItemId.value < 0 || body.menuItemId.value as nat !in db.items {
        return NotFound;
      }
      var item: nat := body.menuItemId.value;
      var quantity := body.quantity.value;
      var meal := db.meals[db.items[item].mealId];
      var me := UserWithEmail(db, identity).value;
      var id := db.nextId;
      var o := Order(me, item, quantity, meal.price * quantity, "pending");
      AddingOrderKeepsLinks(db, o);
      var next := db.(orders := db.orders[id := o], nextId := id + 1);
      var caterer := db.menus[db.items[item].menuId].catererId;
      if caterer.Some? {
        var n := Notification(caterer.value, NewOrderMessage(meal.name), false, now);
        AddingNotificationKeepsLinks(next, n);
        next := next.(notifications := next.notifications[id + 1 := n], nextId := id + 2);
      }
      db := next;
      r := Reply(201, MessageRow("Order created successfully", id));
    }

    /** `update_order` (lines 991-1070): a customer may change only the
        quantity, a caterer or an admin only the status, to any text.
        Closing an order ("completed" or "cancelled") notifies its
        customer. */
    method UpdateOrder(identity: string, orderId: nat, changes: OrderChanges, now: int) returns (r: Reply)
      requires Valid()
      modifies this
      ensures Valid()
      ensures !Succeeded(r) ==> db == old(db)
      ensures orderId !in old(db).orders ==> r == NotFound
      ensures orderId in old(db).orders && UserWithEmail(old(db), identity).None? ==> r == ServerError
      ensures orderId in old(db).orders && UserWithEmail(old(db), identity).Some?
              && MayTouchOrder(old(db), UserWithEmail(old(db), identity).value, orderId) == Some(false) ==>
                r == Raised(ForbiddenError(ForbiddenMessage))
      ensures r.status == 200 <==>
                orderId in old(db).orders && UserWithEmail(old(db), identity).Some?
                && MayTouchOrder(old(db), UserWithEmail(old(db), identity).value, orderId) == Some(true)
      ensures r.status == 200 ==> orderId in db.orders
      ensures r.status == 200 ==>
                var t := old(db);
                var role := t.users[UserWithEmail(t, identity).value].role;
                var before, after := t.orders[orderId], db.orders[orderId];
                var meal := OrderedMeal(t, orderId);
                var closing := changes.status.Some? && role != Customer && changes.status.value in {"completed", "cancelled"};
                r.body == MessageRow("Order updated successfully", orderId)
                && db.orders == t.orders[orderId := after]
                && after.userId == before.userId && after.menuItemId == before.menuItemId
                && (changes.quantity.Some? && role == Customer ==>
                      after.quantity == changes.quantity.value && after.totalPrice == meal.price * changes.quantity.value)
                && (changes.quantity.None? || role != Customer ==>
                      after.quantity == before.quantity && after.totalPrice == before.totalPrice)
                && after.status == (if changes.status.Some? && role != Customer then changes.status.value else before.status)
                && (closing ==>
                      db.notifications == t.notifications[t.nextId := Notification(before.userId, StatusMessage(meal.name, changes.status.value), false, now)]
                      && db.nextId == t.nextId + 1)
                && (!closing ==> db.notifications == t.notifications && db.nextId == t.nextId)
                && db == t.(orders := db.orders, notifications := db.notifications, nextId := db.nextId)
    {
      var me := UserWithEmail(db, identity);
      if orderId !in db.orders {
        return NotFound;
      }
      if me.None? {
        return ServerError;
      }
      var allowed := MayTouchOrder(db, me.value, orderId);
      if allowed.None? {
        return ServerError;
      }
      if !allowed.value {
        return Raised(ForbiddenError(ForbiddenMessage));
      }
      var role := db.users[me.value].role;
      var meal := OrderedMeal(db, orderId);
      var before := db.orders[orderId];
      var after := EditedOrder(before, changes, role, meal.price);
      ReplacingOrderKeepsLinks(db, orderId, after);
      var next := db.(orders := db.orders[orderId := after]);
      if changes.status.Some? && role != Customer && changes.status.value in {"completed", "cancelled"} {
        var n := Notification(before.userId, StatusMessage(meal.name, changes.status.value), false, now);
        AddingNotificationKeepsLinks(next, n);
        next := next.(notifications := next.notifications[next.nextId := n], nextId := next.nextId + 1);
      }
      db := next;
      r := Reply(200, MessageRow("Order updated successfully", orderId));
    }

    /** `delete_order` (lines 1072-1107): admins only. */
    method DeleteOrder(identity: string, orderId: nat) returns (r: Reply)
      requires Valid()
      modifies this
      ensures Valid()
      ensures !Succeeded(r) ==> db == old(db)
      ensures RolesRequired(old(db), identity, [Admin]).Some? ==> r == RolesRequired(old(db), identity, [Admin]).value
      ensures RolesRequired(old(db), identity, [Admin]).None? && orderId !in old(db).orders ==> r == NotFound
      ensures r.status == 200 <==> RolesRequired(old(db), identity, [Admin]).None? && orderId in old(db).orders
      ensures r.status == 200 ==> r.body == Message("Order deleted successfully") && db == Store.DeleteOrder(old(db), orderId)
    {
      var guard := RolesRequired(db, identity, [Admin]);
      if guard.Some? {
        return guard.value;
      }
      if orderId !in db.orders {
        return NotFound;
      }
      DeletingOrderKeepsConsistent(db, orderId);
      db := Store.DeleteOrder(db, orderId);
      r := Reply(200, Message("Order deleted successfully"));
    }

    /** `mark_notification_as_read` (lines 1165-1204): only its owner; a
        second call changes nothing more. */
    method MarkNotificationAsRead(identity: string, id: nat) returns (r: Reply)
      requires Valid()
      modifies this
      ensures Valid()
      ensures !Succeeded(r) ==> db == old(db)
      ensures id !in old(db).notifications ==> r == NotFound
      ensures id in old(db).notifications && UserWithEmail(old(db), identity).None? ==> r == ServerError
      ensures id in old(db).notifications && UserWithEmail(old(db), identity).Some?
              && UserWithEmail(old(db), identity).value != old(db).notifications[id].userId ==>
                r == Raised(ForbiddenError(ForbiddenMessage))
      ensures r.status == 200 <==>
                id in old(db).notifications && UserWithEmail(old(db), identity) == Some(old(db).notifications[id].userId)
      ensures r.status == 200 ==>
                r.body == Row(id)
                && db == old(db).(notifications := old(db).notifications[id := old(db).notifications[id].(read := true)])
      ensures r.status == 200 && old(db).notifications[id].read ==> db == old(db)
    {
      var me := UserWithEmail(db, identity);
      if id !in db.notifications {
        return NotFound;
      }
      if me.None? {
        return ServerError;
      }
      if db.notifications[id].userId != me.value {
        return Raised(ForbiddenError(ForbiddenMessage));
      }
      SameRecipientsKeepConsistent(db, db.notifications[id := db.notifications[id].(read := true)]);
      db := db.(notifications := db.notifications[id := db.notifications[id].(read := true)]);
      r := Reply(200, Row(id));
    }

    /** `mark_all_notifications_as_read` (lines 1206-1235): every unread
        notification of the caller, and no one else's. An unknown caller
        fails inside the `try` and is answered with status 400. */
    method MarkAllNotificationsAsRead(identity: string, errorText: string) returns (r: Reply)
      requires Valid()
      modifies this
      ensures Valid()
      ensures UserWithEmail(old(db), identity).None? ==> r == Rewrapped(errorText) && db == old(db)
      ensures UserWithEmail(old(db), identity).Some? ==>
                var me := UserWithEmail(old(db), identity).value;
                r == Reply(200, Message("All notifications marked as read"))
                && db == old(db).(notifications := db.notifications)
                && db.notifications.Keys == old(db).notifications.Keys
                && (forall k :: k in db.notifications && db.notifications[k].userId == me ==> db.notifications[k].read)
                && (forall k :: k in db.notifications && old(db).notifications[k].userId != me ==>
                      db.notifications[k] == old(db).notifications[k])
                && (forall k :: k in db.notifications ==> db.notifications[k] == old(db).notifications[k].(read := db.notifications[k].read))
    {
      var me := UserWithEmail(db, identity);
      if me.None? {
        return Rewrapped(errorText);
      }
      var ns := db.notifications;
      var marked := map k | k in ns :: if ns[k].userId == me.value && !ns[k].read then ns[k].(read := true) else ns[k];
      SameRecipientsKeepConsistent(db, marked);
      db := db.(notifications := marked);
      r := Reply(200, Message("All notifications marked as read"));
    }
  }
}
