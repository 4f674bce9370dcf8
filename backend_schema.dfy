// The database tables of Backend/app/models/: their rows, the values an
// INSERT stores (NOT NULL columns, defaults), the uniqueness constraints and
// the ORM delete cascades.

/** Backend/app/models/user.py, restaurant.py, order.py and delivery.py. */
module Schema {
  import opened Common
  import Requests

  /** `UserRoles`: each member's name equals its value. */
  datatype Role = Customer | Caterer | Admin

  function RoleName(r: Role): string {
    match r
    case Customer => "customer"
    case Caterer => "caterer"
    case Admin => "admin"
  }

  /** `UserRoles(value)`: `None` where Python raises `ValueError`. */
  function RoleFromName(s: string): (r: Option<Role>)
    ensures r.Some? <==> s in {"customer", "caterer", "admin"}
    ensures r.Some? ==> RoleName(r.value) == s
  {
    if s == "customer" then Some(Customer)
    else if s == "caterer" then Some(Caterer)
    else if s == "admin" then Some(Admin)
    else None
  }

  /** Names and roles correspond one to one. */
  lemma RoleNameRoundTrip(r: Role, s: string)
    ensures RoleFromName(RoleName(r)) == Some(r)
    ensures RoleFromName(s) == Some(r) <==> s == RoleName(r)
  {
  }

  const DefaultRole: Role := Customer
  const DefaultQuantity: int := 1
  const DefaultStatus: string := "pending"

  /** A calendar date; parsing one from text is left to the caller. */
  datatype Date = Date(year: int, month: int, day: int)

  datatype User = User(name: string, email: string, password: string, role: Role)

  datatype Meal = Meal(name: string, description: Option<string>, price: int,
                       imageUrl: Option<string>, catererId: Option<nat>)

  datatype Menu = Menu(date: Date, catererId: Option<nat>)

  datatype MenuItem = MenuItem(menuId: nat, mealId: nat)

  datatype Notification = Notification(userId: nat, message: string, read: bool, createdAt: int)

  /** The `orders` table as order.py declares it. */
  datatype OrderRecord = OrderRecord(userId: nat, mealId: nat, quantity: int, totalPrice: int,
                                     status: Option<string>, specialInstructions: Option<string>)

  // The INSERT functions take the value given for each column, `None` when
  // the column is left out (or given as NULL), and return the stored row, or
  // `None` when a NOT NULL constraint rejects the row.

  function InsertUser(name: Option<string>, email: Option<string>, password: Option<string>,
                      role: Option<Role>): (u: Option<User>)
    ensures u.Some? <==> name.Some? && email.Some? && password.Some?
    ensures u.Some? ==> u.value.name == name.value && u.value.email == email.value
                        && u.value.password == password.value
    ensures u.Some? && role.None? ==> u.value.role == Customer
    ensures u.Some? && role.Some? ==> u.value.role == role.value
  {
    if name.Some? && email.Some? && password.Some? then
      Some(User(name.value, email.value, password.value, if role.Some? then role.value else DefaultRole))
    else None
  }

  function InsertMeal(name: Option<string>, description: Option<string>, price: Option<int>,
                      imageUrl: Option<string>, catererId: Option<nat>): (m: Option<Meal>)
    ensures m.Some? <==> name.Some? && price.Some?
    ensures m.Some? ==> m.value == Meal(name.value, description, price.value, imageUrl, catererId)
  {
    if name.Some? && price.Some? then Some(Meal(name.value, description, price.value, imageUrl, catererId)) else None
  }

  function InsertMenu(date: Option<Date>, catererId: Option<nat>): (m: Option<Menu>)
    ensures m.Some? <==> date.Some?
    ensures m.Some? ==> m.value.date == date.value && m.value.catererId == catererId
  {
    if date.Some? then Some(Menu(date.value, catererId)) else None
  }

  function InsertMenuItem(menuId: Option<nat>, mealId: Option<nat>): (i: Option<MenuItem>)
    ensures i.Some? <==> menuId.Some? && mealId.Some?
    ensures i.Some? ==> i.value == MenuItem(menuId.value, mealId.value)
  {
    if menuId.Some? && mealId.Some? then Some(MenuItem(menuId.value, mealId.value)) else None
  }

  /** order.py: `quantity` defaults to 1, `status` to "pending";
      `special_instructions` may stay empty. */
  function InsertOrder(userId: Option<nat>, mealId: Option<nat>, quantity: Option<int>, totalPrice: Option<int>,
                       status: Option<string>, specialInstructions: Option<string>): (o: Option<OrderRecord>)
    ensures o.Some? <==> userId.Some? && mealId.Some? && totalPrice.Some?
    ensures o.Some? ==> o.value.userId == userId.value && o.value.mealId == mealId.value
                        && o.value.totalPrice == totalPrice.value
                        && o.value.specialInstructions == specialInstructions
    ensures o.Some? ==> o.value.quantity == (if quantity.Some? then quantity.value else 1)
    ensures o.Some? ==> o.value.status == Some(if status.Some? then status.value else "pending")
  {
    if userId.Some? && mealId.Some? && totalPrice.Some? then
      Some(OrderRecord(userId.value, mealId.value, Requests.GetOr(quantity, DefaultQuantity), totalPrice.value,
                       Some(Requests.GetOr(status, DefaultStatus)), specialInstructions))
    else None
  }

  /** delivery.py: `read` defaults to false and `created_at` to the time of
      the insert. */
  function InsertNotification(userId: Option<nat>, message: Option<string>, read: Option<bool>,
                              now: int): (n: Option<Notification>)
    ensures n.Some? <==> userId.Some? && message.Some?
    ensures n.Some? ==> n.value.userId == userId.value && n.value.message == message.value
                        && n.value.createdAt == now
    ensures n.Some? ==> n.value.read == (read.Some? && read.value)
  {
    if userId.Some? && message.Some? then
      Some(Notification(userId.value, message.value, Requests.GetOr(read, false), now))
    else None
  }

  /** `email` is declared unique. */
  predicate UniqueEmails(users: map<nat, User>) {
    forall a, b :: a in users && b in users && users[a].email == users[b].email ==> a == b
  }

  /** `date` is declared unique. */
  predicate UniqueMenuDates(menus: map<nat, Menu>) {
    forall a, b :: a in menus && b in menus && menus[a].date == menus[b].date ==> a == b
  }

  /** Each (menu, meal) pair in at most one menu item. No column declares
      this; Backend/app.py checks it. */
  predicate UniqueMenuMeals(items: map<nat, MenuItem>) {
    forall a, b :: a in items && b in items && items[a] == items[b] ==> a == b
  }
}

/** The rows the handlers read and write, held in one value, and the delete
    cascades the relationships declare. */
module Store {
  import opened Common
  import opened Schema

  /** An order as the handlers write it: they set `menu_item_id`, the
      column that the `MenuItem.orders` relationship follows, rather than
      the `meal_id` that order.py declares. */
  datatype Order = Order(userId: nat, menuItemId: nat, quantity: int, totalPrice: int, status: string)

  /** All tables. Every key is below `nextId`, the next primary key. */
  datatype Tables = Tables(users: map<nat, User>, meals: map<nat, Meal>, menus: map<nat, Menu>,
                           items: map<nat, MenuItem>, orders: map<nat, Order>,
                           notifications: map<nat, Notification>, nextId: nat)

  const Empty: Tables := Tables(map[], map[], map[], map[], map[], map[], 1)

  predicate KeysBelow<T>(m: map<nat, T>, bound: nat) {
    forall k :: k in m ==> k < bound
  }

  predicate IdsFresh(t: Tables) {
    KeysBelow(t.users, t.nextId) && KeysBelow(t.meals, t.nextId) && KeysBelow(t.menus, t.nextId)
    && KeysBelow(t.items, t.nextId) && KeysBelow(t.orders, t.nextId) && KeysBelow(t.notifications, t.nextId)
  }

  /** Every reference points at an existing row. */
  predicate Linked(t: Tables) {
    (forall k :: k in t.meals && t.meals[k].catererId.Some? ==> t.meals[k].catererId.value in t.users)
    && (forall k :: k in t.menus && t.menus[k].catererId.Some? ==> t.menus[k].catererId.value in t.users)
    && (forall k :: k in t.items ==> t.items[k].menuId in t.menus && t.items[k].mealId in t.meals)
    && (forall k :: k in t.orders ==> t.orders[k].userId in t.users && t.orders[k].menuItemId in t.items)
    && (forall k :: k in t.notifications ==> t.notifications[k].userId in t.users)
  }

  /** The smallest key in `from..bound` whose row satisfies `p`: what
      `query.filter_by(...).first()` returns on rows kept in key order. */
  function FirstKey<T>(m: map<nat, T>, p: T -> bool, from: nat, bound: nat): (r: Option<nat>)
    ensures r.Some? ==> r.value in m && p(m[r.value]) && from <= r.value < bound
    ensures r.Some? ==> forall k :: from <= k < r.value && k in m ==> !p(m[k])
    ensures r.None? ==> forall k :: from <= k < bound && k in m ==> !p(m[k])
    decreases bound - from
  {
    if from >= bound then None
    else if from in m && p(m[from]) then Some(from)
    else FirstKey(m, p, from + 1, bound)
  }

  /** `User.query.filter_by(email=email).first()`. */
  function UserWithEmail(t: Tables, email: string): (r: Option<nat>)
    ensures r.Some? ==> r.value in t.users && t.users[r.value].email == email
    ensures IdsFresh(t) && r.None? ==> forall k :: k in t.users ==> t.users[k].email != email
  {
    FirstKey(t.users, (u: User) => u.email == email, 0, t.nextId)
  }

  /** `Menu.query.filter_by(date=date).first()`. */
  function MenuOn(t: Tables, date: Date): (r: Option<nat>)
    ensures r.Some? ==> r.value in t.menus && t.menus[r.value].date == date
    ensures IdsFresh(t) && r.None? ==> forall k :: k in t.menus ==> t.menus[k].date != date
  {
    FirstKey(t.menus, (m: Menu) => m.date == date, 0, t.nextId)
  }

  /** The rows of `m` that satisfy `p`. */
  function Keep<T>(m: map<nat, T>, p: T -> bool): (r: map<nat, T>)
    ensures forall k :: k in r <==> k in m && p(m[k])
    ensures forall k :: k in r ==> r[k] == m[k]
  {
    map k | k in m && p(m[k]) :: m[k]
  }

  /** The keys of `m` whose rows satisfy `p`. */
  function KeysWhere<T>(m: map<nat, T>, p: T -> bool): (s: set<nat>)
    ensures forall k :: k in s <==> k in m && p(m[k])
  {
    set k | k in m && p(m[k])
  }

  /** Deleting menu items deletes their orders (`MenuItem.orders`). */
  function DeleteItems(t: Tables, gone: set<nat>): (r: Tables)
    ensures forall k :: k in r.items <==> k in t.items && k !in gone
    ensures forall k :: k in r.orders <==> k in t.orders && t.orders[k].menuItemId !in gone
    ensures forall k :: k in r.items ==> r.items[k] == t.items[k]
    ensures forall k :: k in r.orders ==> r.orders[k] == t.orders[k]
    ensures r.users == t.users && r.meals == t.meals && r.menus == t.menus
    ensures r.notifications == t.notifications && r.nextId == t.nextId
  {
    t.(items := t.items - gone, orders := Keep(t.orders, (o: Order) => o.menuItemId !in gone))
  }

  /** `session.delete(meal)`: the meal, its menu items (`Meal.menu_items`)
      and their orders. */
  function DeleteMeal(t: Tables, id: nat): (r: Tables)
    ensures r.meals == t.meals - {id}
    ensures forall k :: k in r.items <==> k in t.items && t.items[k].mealId != id
    ensures forall k :: k in r.items ==> r.items[k] == t.items[k]
    ensures forall k :: k in r.orders <==>
              k in t.orders && !(t.orders[k].menuItemId in t.items && t.items[t.orders[k].menuItemId].mealId == id)
    ensures forall k :: k in r.orders ==> r.orders[k] == t.orders[k]
    ensures r.users == t.users && r.menus == t.menus
    ensures r.notifications == t.notifications && r.nextId == t.nextId
  {
    var gone := KeysWhere(t.items, (i: MenuItem) => i.mealId == id);
    DeleteItems(t, gone).(meals := t.meals - {id})
  }

  /** `session.delete(menu)`: the menu, its menu items (`Menu.menu_items`)
      and their orders. */
  function DeleteMenu(t: Tables, id: nat): (r: Tables)
    ensures r.menus == t.menus - {id}
    ensures forall k :: k in r.items <==> k in t.items && t.items[k].menuId != id
    ensures forall k :: k in r.items ==> r.items[k] == t.items[k]
    ensures forall k :: k in r.orders <==>
              k in t.orders && !(t.orders[k].menuItemId in t.items && t.items[t.orders[k].menuItemId].menuId == id)
    ensures forall k :: k in r.orders ==> r.orders[k] == t.orders[k]
    ensures r.users == t.users && r.meals == t.meals
    ensures r.notifications == t.notifications && r.nextId == t.nextId
  {
    var gone := KeysWhere(t.items, (i: MenuItem) => i.menuId == id);
    DeleteItems(t, gone).(menus := t.menus - {id})
  }

  predicate CateredMeal(t: Tables, mealId: nat, userId: nat) {
    mealId in t.meals && t.meals[mealId].catererId == Some(userId)
  }

  predicate CateredMenu(t: Tables, menuId: nat, userId: nat) {
    menuId in t.menus && t.menus[menuId].catererId == Some(userId)
  }

  /** `session.delete(user)`: the user, their orders and notifications,
      the meals and menus they cater, those meals' and menus' items, and
      the orders of those items (user.py's four relationships, then
      restaurant.py's). */
  function DeleteUser(t: Tables, id: nat): (r: Tables)
    ensures r.users == t.users - {id}
    ensures forall k :: k in r.meals <==> k in t.meals && t.meals[k].catererId != Some(id)
    ensures forall k :: k in r.menus <==> k in t.menus && t.menus[k].catererId != Some(id)
    ensures forall k :: k in r.items <==>
              k in t.items && !CateredMeal(t, t.items[k].mealId, id) && !CateredMenu(t, t.items[k].menuId, id)
    ensures forall k :: k in r.orders <==>
              k in t.orders && t.orders[k].userId != id
              && !(t.orders[k].menuItemId in t.items
                   && (CateredMeal(t, t.items[t.orders[k].menuItemId].mealId, id)
                       || CateredMenu(t, t.items[t.orders[k].menuItemId].menuId, id)))
    ensures forall k :: k in r.notifications <==> k in t.notifications && t.notifications[k].userId != id
    ensures forall k :: k in r.meals ==> r.meals[k] == t.meals[k]
    ensures forall k :: k in r.menus ==> r.menus[k] == t.menus[k]
    ensures forall k :: k in r.items ==> r.items[k] == t.items[k]
    ensures forall k :: k in r.orders ==> r.orders[k] == t.orders[k]
    ensures forall k :: k in r.notifications ==> r.notifications[k] == t.notifications[k]
    ensures r.nextId == t.nextId
  {
    var meals := KeysWhere(t.meals, (m: Meal) => m.catererId == Some(id));
    var menus := KeysWhere(t.menus, (m: Menu) => m.catererId == Some(id));
    var items := KeysWhere(t.items, (i: MenuItem) => i.mealId in meals || i.menuId in menus);
    t.(users := t.users - {id},
       meals := t.meals - meals,
       menus := t.menus - menus,
       items := t.items - items,
       orders := Keep(t.orders, (o: Order) => o.userId != id && o.menuItemId !in items),
       notifications := Keep(t.notifications, (n: Notification) => n.userId != id))
  }
  /** `session.delete(order)`: nothing depends on an order. */
  function DeleteOrder(t: Tables, id: nat): (r: Tables)
    ensures r.orders == t.orders - {id}
    ensures r == t.(orders := r.orders)
  {
    t.(orders := t.orders - {id})
  }

  /** No cascade leaves a row pointing at a deleted one. */
  lemma DeleteItemKeepsLinks(t: Tables, id: nat)
    requires Linked(t)
    ensures Linked(DeleteItems(t, {id}))
  {
  }

  lemma DeleteMealKeepsLinks(t: Tables, id: nat)
    requires Linked(t)
    ensures Linked(DeleteMeal(t, id))
  {
  }

  lemma DeleteMenuKeepsLinks(t: Tables, id: nat)
    requires Linked(t)
    ensures Linked(DeleteMenu(t, id))
  {
  }

  lemma DeleteUserKeepsLinks(t: Tables, id: nat)
    requires Linked(t)
    ensures Linked(DeleteUser(t, id))
  {
    var r := DeleteUser(t, id);
    forall k | k in r.items
      ensures r.items[k].menuId in r.menus && r.items[k].mealId in r.meals
    {
      assert r.items[k] == t.items[k];
    }
    forall k | k in r.orders
      ensures r.orders[k].userId in r.users && r.orders[k].menuItemId in r.items
    {
      assert r.orders[k] == t.orders[k];
    }
  }

  lemma DeleteOrderKeepsLinks(t: Tables, id: nat)
    requires Linked(t)
    ensures Linked(DeleteOrder(t, id))
  {
  }

  /** Deleting rows never breaks a uniqueness constraint. */
  lemma CascadesKeepUniqueness(t: Tables, id: nat)
    requires UniqueEmails(t.users) && UniqueMenuDates(t.menus) && UniqueMenuMeals(t.items)
    ensures var r := DeleteUser(t, id);
            UniqueEmails(r.users) && UniqueMenuDates(r.menus) && UniqueMenuMeals(r.items)
    ensures var r := DeleteMeal(t, id); UniqueMenuMeals(r.items)
    ensures var r := DeleteMenu(t, id); UniqueMenuDates(r.menus) && UniqueMenuMeals(r.items)
  {
  }
}
