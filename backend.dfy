/**
 * The REST handlers of the VendorBuddy backend, over an in-memory store.
 *
 * Each database table is a map from id to row, held in a field of `Store`; each handler is
 * a method that returns the HTTP status code it answers with and updates the tables the
 * way the handler's create/update calls do. Ids come from one counter, so a larger id means
 * a later creation time.
 */
module Backend {
  import opened Wrappers

  type Id = nat

  datatype Supplier = Supplier(
    name: string, distance: string, rating: int, verified: bool, specialties: seq<string>)

  datatype User = User(
    email: string, fullName: string, businessName: string, phone: string, location: string,
    passwordHash: string, userType: string, supplierId: Option<Id>)

  /** A user as the API returns it: every column except the password hash. */
  datatype PublicUser = PublicUser(
    id: Id, email: string, fullName: string, businessName: string, phone: string,
    location: string, userType: string, supplierId: Option<Id>)

  datatype Product = Product(
    name: string, category: string, price: real, unit: string, stock: real, status: string,
    supplierId: Id)

  datatype GroupOrder = GroupOrder(
    title: string, totalItems: int, currentMembers: int, maxMembers: int,
    deadline: string, savings: string, supplierId: Id)

  /** The body of `POST /signup`; the field names are the ones the client sends. */
  datatype SignupBody = SignupBody(
    email: string, FullName: string, BusinessName: string, phonenuber: string,
    localtion: string, Password: string, userType: string)

  /**
   * The body of `POST /supplier/add-product`. A missing string field is "" (falsy either way);
   * `supplierId` carries the caller's USER id, which the handler resolves to a supplier.
   */
  datatype ProductBody = ProductBody(
    name: string, category: string, price: real, unit: string, stock: real, status: string,
    supplierId: Option<Id>)

  /** The body of `POST /group-orders`; an absent field is None. */
  datatype GroupOrderBody = GroupOrderBody(
    title: string, totalItems: int, maxMembers: int,
    deadline: Option<string>, savings: Option<string>, supplierId: Option<Id>)

  /** One row of `GET /group-orders/active`: the order with its supplier's name. */
  datatype ActiveRow = ActiveRow(
    id: Id, title: string, supplier: string, totalItems: int, currentMembers: int,
    maxMembers: int, deadline: string, savings: string)

  function WithoutPassword(id: Id, u: User): (p: PublicUser)
  {
    PublicUser(id, u.email, u.fullName, u.businessName, u.phone, u.location, u.userType, u.supplierId)
  }

  /** The supplier row signup creates for a supplier account. */
  function NewSupplier(businessName: string): (r: Supplier)
  {
    Supplier(businessName, "", 0, false, [])
  }

  function NewUser(body: SignupBody, passwordHash: string, supplierId: Option<Id>): (r: User)
  {
    User(body.email, body.FullName, body.BusinessName, body.phonenuber, body.localtion,
         passwordHash, body.userType, supplierId)
  }

  // ------------------------------------------------------------------
  // Group-order membership

  /** The capacity invariant of one group order. */
  predicate WithinCapacity(g: GroupOrder)
  {
    0 <= g.currentMembers <= g.maxMembers
  }

  /** The handler's "Group is already full" test. */
  predicate IsFull(g: GroupOrder)
  {
    g.currentMembers >= g.maxMembers
  }

  datatype JoinOutcome = NotFound | Full | Admitted(order: GroupOrder)

  /** What `POST /group-orders/:id/join` decides for the row it found (None: no such row). */
  function JoinDecision(found: Option<GroupOrder>): (r: JoinOutcome)
    ensures r.NotFound? <==> found.None?
    ensures r.Full? <==> found.Some? && IsFull(found.value)
    ensures r.Admitted? ==>
      && r.order.currentMembers == found.value.currentMembers + 1
      && r.order == found.value.(currentMembers := r.order.currentMembers)
  {
    match found
    case None => NotFound
    case Some(g) => if IsFull(g) then Full else Admitted(g.(currentMembers := g.currentMembers + 1))
  }

  /** A join admitted into an order within capacity leaves it within capacity. */
  lemma JoinKeepsCapacity(g: GroupOrder)
    requires WithinCapacity(g)
    ensures JoinDecision(Some(g)).Admitted? ==> WithinCapacity(JoinDecision(Some(g)).order)
    ensures JoinDecision(Some(g)).Admitted? <==> g.currentMembers < g.maxMembers
  {
  }

  /** `n` join requests served one after another: the final row and how many were admitted. */
  function JoinRepeatedly(g: GroupOrder, n: nat): (r: (GroupOrder, nat))
    decreases n
  {
    if n == 0 then (g, 0)
    else
      var decision := JoinDecision(Some(g));
      if decision.Admitted? then
        var (last, admitted) := JoinRepeatedly(decision.order, n - 1);
        (last, admitted + 1)
      else JoinRepeatedly(g, n - 1)
  }

  function Min(a: int, b: int): (r: int)
  {
    if a <= b then a else b
  }

  /**
   * Of `n` joins served one at a time against an order with `k` free places, exactly
   * `min(n, k)` are admitted, the count rises by that much, and the order stays within
   * capacity; once `n >= k` the order ends exactly full.
   */
  lemma {:induction false} JoinRepeatedlyAdmits(g: GroupOrder, n: nat)
    requires WithinCapacity(g)
    ensures var (last, admitted) := JoinRepeatedly(g, n);
      && admitted == Min(n, g.maxMembers - g.currentMembers)
      && last == g.(currentMembers := g.currentMembers + admitted)
      && WithinCapacity(last)
      && (n >= g.maxMembers - g.currentMembers ==> last.currentMembers == last.maxMembers)
    decreases n
  {
    if n > 0 {
      var decision := JoinDecision(Some(g));
      if decision.Admitted? {
        JoinRepeatedlyAdmits(decision.order, n - 1);
      } else {
        JoinRepeatedlyAdmits(g, n - 1);
      }
    }
  }

  // ------------------------------------------------------------------
  // Group-order creation

  /** The request carries every field whose absence makes the handler fail. */
  predicate CreatableBody(body: GroupOrderBody)
  {
    body.deadline.Some? && body.savings.Some? && body.supplierId.Some?
  }

  /** The row `POST /group-orders` stores: nobody has joined yet. */
  function NewGroupOrder(body: GroupOrderBody): (g: GroupOrder)
    requires CreatableBody(body)
  {
    GroupOrder(body.title, body.totalItems, 0, body.maxMembers,
               body.deadline.value, body.savings.value, body.supplierId.value)
  }

  /** A new order starts within capacity exactly when its maximum is not negative. */
  lemma NewGroupOrderCapacity(body: GroupOrderBody)
    requires CreatableBody(body)
    ensures NewGroupOrder(body).currentMembers == 0
    ensures NewGroupOrder(body).maxMembers == body.maxMembers
    ensures WithinCapacity(NewGroupOrder(body)) <==> body.maxMembers >= 0
  {
  }

  /** The handler as written stores `maxMembers: -1`, giving a row with 0 members over a maximum of -1. */
  lemma NegativeMaximumBreaksCapacity()
    ensures var body := GroupOrderBody("Rice bulk", 10, -1, Some("2025-07-26"), Some("10%"), Some(0));
      CreatableBody(body) && !WithinCapacity(NewGroupOrder(body))
  {
  }

  /**
   * The numeric check the create-order page makes before sending (`totalItems <= 0 ||
   * maxMembers <= 0` is refused there), which the handler itself never repeats.
   */
  predicate AdmissibleCapacity(body: GroupOrderBody)
  {
    body.maxMembers > 0 && body.totalItems > 0
  }

  /** An order that passes the intended validation starts within capacity and not full. */
  lemma AdmissibleOrderStartsOpen(body: GroupOrderBody)
    requires CreatableBody(body) && AdmissibleCapacity(body)
    ensures WithinCapacity(NewGroupOrder(body)) && !IsFull(NewGroupOrder(body))
  {
  }

  // ------------------------------------------------------------------
  // Active-orders projection

  predicate SuppliersResolve(orders: map<Id, GroupOrder>, suppliers: map<Id, Supplier>)
  {
    forall id :: id in orders ==> orders[id].supplierId in suppliers
  }

  function Project(id: Id, g: GroupOrder, suppliers: map<Id, Supplier>): (r: ActiveRow)
    requires g.supplierId in suppliers
  {
    ActiveRow(id, g.title, suppliers[g.supplierId].name, g.totalItems, g.currentMembers,
              g.maxMembers, g.deadline, g.savings)
  }

  /** The rows of the orders with ids below `below`, newest (largest id) first. */
  function ActiveOrders(orders: map<Id, GroupOrder>, suppliers: map<Id, Supplier>, below: nat): (rows: seq<ActiveRow>)
    requires SuppliersResolve(orders, suppliers)
    ensures |rows| <= below
    ensures forall i :: 0 <= i < |rows| ==>
      && rows[i].id < below && rows[i].id in orders
      && rows[i] == Project(rows[i].id, orders[rows[i].id], suppliers)
  {
    if below == 0 then []
    else
      var rest := ActiveOrders(orders, suppliers, below - 1);
      if below - 1 in orders then [Project(below - 1, orders[below - 1], suppliers)] + rest else rest
  }

  /** Strictly decreasing ids: newest first, and no order listed twice. */
  predicate NewestFirst(rows: seq<ActiveRow>)
  {
    forall i, j :: 0 <= i < j < |rows| ==> rows[i].id > rows[j].id
  }

  /** Some row of `rows` is the order `id`. */
  predicate Lists(rows: seq<ActiveRow>, id: Id)
  {
    exists i :: 0 <= i < |rows| && rows[i].id == id
  }

  lemma {:induction false} ActiveOrdersNewestFirst(orders: map<Id, GroupOrder>, suppliers: map<Id, Supplier>, below: nat)
    requires SuppliersResolve(orders, suppliers)
    ensures NewestFirst(ActiveOrders(orders, suppliers, below))
  {
    if below > 0 {
      ActiveOrdersNewestFirst(orders, suppliers, below - 1);
      var rest := ActiveOrders(orders, suppliers, below - 1);
      var rows := ActiveOrders(orders, suppliers, below);
      if below - 1 in orders {
        assert rows == [Project(below - 1, orders[below - 1], suppliers)] + rest;
        forall i, j | 0 <= i < j < |rows| ensures rows[i].id > rows[j].id {
          assert rows[j] == rest[j - 1];
          if i > 0 { assert rows[i] == rest[i - 1]; }
        }
      } else {
        assert rows == rest;
      }
    }
  }

  /** Every order with an id below `below` is listed. */
  lemma {:induction false} ActiveOrdersComplete(orders: map<Id, GroupOrder>, suppliers: map<Id, Supplier>, below: nat, id: Id)
    requires SuppliersResolve(orders, suppliers)
    requires id < below && id in orders
    ensures Lists(ActiveOrders(orders, suppliers, below), id)
  {
    var rows := ActiveOrders(orders, suppliers, below);
    var rest := ActiveOrders(orders, suppliers, below - 1);
    if id == below - 1 {
      assert rows == [Project(below - 1, orders[below - 1], suppliers)] + rest;
      assert rows[0].id == id;
    } else {
      ActiveOrdersComplete(orders, suppliers, below - 1, id);
      var i :| 0 <= i < |rest| && rest[i].id == id;
      if below - 1 in orders {
        assert rows == [Project(below - 1, orders[below - 1], suppliers)] + rest;
        assert rows[i + 1] == rest[i];
      } else {
        assert rows == rest;
        assert rows[i] == rest[i];
      }
    }
  }

  // ------------------------------------------------------------------
  // Add-product validation

  /** The `!name || !category || !unit || !status || !userId` test, negated. */
  predicate HasRequiredFields(body: ProductBody)
  {
    body.name != "" && body.category != "" && body.unit != "" && body.status != "" && body.supplierId.Some?
  }

  /** The user exists and is linked to a supplier. */
  predicate IsSupplierUser(users: map<Id, User>, userId: Id)
  {
    userId in users && users[userId].supplierId.Some?
  }

  // ------------------------------------------------------------------
  // The store

  class Store {
    var users: map<Id, User>
    /** The unique index on `User.email`. */
    var emailIndex: map<string, Id>
    var suppliers: map<Id, Supplier>
    var products: map<Id, Product>
    var groupOrders: map<Id, GroupOrder>
    /** The next id to hand out; every id in use is below it. */
    var nextId: Id
    /** The password hash function, left uninterpreted. */
    const hash: string -> string

    /** Ids are below `nextId`, emails are unique, and every foreign key resolves. */
    ghost predicate Valid()
      reads this
    {
      && (forall id :: id in users ==> id < nextId)
      && (forall id :: id in suppliers ==> id < nextId)
      && (forall id :: id in products ==> id < nextId)
      && (forall id :: id in groupOrders ==> id < nextId)
      && (forall e :: e in emailIndex ==> emailIndex[e] in users && users[emailIndex[e]].email == e)
      && (forall id :: id in users ==> users[id].email in emailIndex && emailIndex[users[id].email] == id)
      && (forall id :: id in users && users[id].supplierId.Some? ==> users[id].supplierId.value in suppliers)
      && (forall id :: id in products ==> products[id].supplierId in suppliers)
      && SuppliersResolve(groupOrders, suppliers)
    }

    /** Every group order is within capacity. */
    ghost predicate AllWithinCapacity()
      reads this
    {
      forall id :: id in groupOrders ==> WithinCapacity(groupOrders[id])
    }

    /** `bcrypt.compare(password, stored)`. */
    predicate PasswordMatches(password: string, stored: string)
    {
      hash(password) == stored
    }

    constructor (hash: string -> string)
      ensures Valid() && AllWithinCapacity()
      ensures users == map[] && emailIndex == map[] && suppliers == map[]
      ensures products == map[] && groupOrders == map[]
      ensures this.hash == hash
    {
      users, emailIndex, suppliers, products, groupOrders := map[], map[], map[], map[], map[];
      nextId := 0;
      this.hash := hash;
    }

    /** `POST /signup`. */
    method SignUp(body: SignupBody) returns (status: int, user: Option<PublicUser>)
      requires Valid()
      modifies this`users, this`emailIndex, this`suppliers, this`nextId
      ensures Valid()
      ensures body.email in old(emailIndex) ==>
        && status == 400 && user == None
        && users == old(users) && emailIndex == old(emailIndex) && suppliers == old(suppliers)
      ensures body.email !in old(emailIndex) ==>
        && status == 201 && user.Some?
        && user.value.id !in old(users)
        && users == old(users)[user.value.id := NewUser(body, hash(body.Password), user.value.supplierId)]
        && emailIndex == old(emailIndex)[body.email := user.value.id]
        && user.value == WithoutPassword(user.value.id, users[user.value.id])
      ensures body.email !in old(emailIndex) && body.userType == "supplier" ==>
        && user.Some? && user.value.supplierId.Some?
        && user.value.supplierId.value !in old(suppliers)
        && suppliers == old(suppliers)[user.value.supplierId.value := NewSupplier(body.BusinessName)]
      ensures body.email !in old(emailIndex) && body.userType != "supplier" ==>
        && user.Some? && user.value.supplierId == None && suppliers == old(suppliers)
    {
      if body.email in emailIndex {
        return 400, None;
      }
      var passwordHash := hash(body.Password);
      var supplierId: Option<Id> := None;
      if body.userType == "supplier" {
        var sid := InsertSupplier(NewSupplier(body.BusinessName));
        supplierId := Some(sid);
      }
      var row := NewUser(body, passwordHash, supplierId);
      var uid := InsertUser(row);
      return 201, Some(WithoutPassword(uid, row));
    }

    /** Stores a new supplier row under a fresh id. */
    method InsertSupplier(row: Supplier) returns (sid: Id)
      requires Valid()
      modifies this`suppliers, this`nextId
      ensures Valid()
      ensures sid !in old(suppliers) && suppliers == old(suppliers)[sid := row]
      ensures sid < nextId
    {
      sid := nextId;
      suppliers := suppliers[sid := row];
      nextId := nextId + 1;
    }

    /** Stores a new user row under a fresh id and indexes its email. */
    method InsertUser(row: User) returns (uid: Id)
      requires Valid()
      requires row.email !in emailIndex
      requires row.supplierId.Some? ==> row.supplierId.value in suppliers
      modifies this`users, this`emailIndex, this`nextId
      ensures Valid()
      ensures uid !in old(users) && users == old(users)[uid := row]
      ensures emailIndex == old(emailIndex)[row.email := uid]
    {
      uid := nextId;
      users := users[uid := row];
      emailIndex := emailIndex[row.email := uid];
      nextId := nextId + 1;
    }

    /** `POST /signin`: reads the users table and changes nothing. */
    method SignIn(email: string, password: string) returns (status: int, user: Option<PublicUser>, cookie: Option<string>)
      requires Valid()
      ensures email !in emailIndex ==> status == 404 && user == None && cookie == None
      ensures email in emailIndex && !PasswordMatches(password, users[emailIndex[email]].passwordHash) ==>
        status == 401 && user == None && cookie == None
      ensures email in emailIndex && PasswordMatches(password, users[emailIndex[email]].passwordHash) ==>
        && status == 200 && cookie == Some(email)
        && user == Some(WithoutPassword(emailIndex[email], users[emailIndex[email]]))
        && user.value.email == email
    {
      if email !in emailIndex {
        return 404, None, None;
      }
      var id := emailIndex[email];
      var row := users[id];
      if !PasswordMatches(password, row.passwordHash) {
        return 401, None, None;
      }
      return 200, Some(WithoutPassword(id, row)), Some(row.email);
    }

    /** `POST /supplier/add-product`. */
    method AddProduct(body: ProductBody) returns (status: int, created: Option<(Id, Product)>)
      requires Valid()
      modifies this`products, this`nextId
      ensures Valid()
      ensures !HasRequiredFields(body) ==> status == 400 && created == None && products == old(products)
      ensures HasRequiredFields(body) && !IsSupplierUser(users, body.supplierId.value) ==>
        status == 400 && created == None && products == old(products)
      ensures HasRequiredFields(body) && IsSupplierUser(users, body.supplierId.value) ==>
        && status == 201 && created.Some?
        && created.value.0 !in old(products)
        && created.value.1 == Product(body.name, body.category, body.price, body.unit, body.stock,
                                      body.status, users[body.supplierId.value].supplierId.value)
        && products == old(products)[created.value.0 := created.value.1]
    {
      if !HasRequiredFields(body) {
        return 400, None;
      }
      var userId := body.supplierId.value;
      if userId !in users || users[userId].supplierId.None? {
        return 400, None;
      }
      var actualSupplierId := users[userId].supplierId.value;
      var row := Product(body.name, body.category, body.price, body.unit, body.stock, body.status, actualSupplierId);
      var pid := nextId;
      products := products[pid := row];
      nextId := nextId + 1;
      return 201, Some((pid, row));
    }

    /** `GET /supplier/:id/products`: reads and changes nothing. */
    method SupplierProducts(supplierId: Id) returns (status: int, listed: map<Id, Product>)
      requires Valid()
      ensures supplierId !in suppliers ==> status == 404 && listed == map[]
      ensures supplierId in suppliers ==> status == 200
      ensures forall pid :: pid in listed <==> supplierId in suppliers && pid in products && products[pid].supplierId == supplierId
      ensures forall pid :: pid in listed ==> listed[pid] == products[pid]
    {
      if supplierId !in suppliers {
        return 404, map[];
      }
      listed := map pid | pid in products && products[pid].supplierId == supplierId :: products[pid];
      status := 200;
    }

    /** `GET /group-orders/active`: every order with its supplier's name, newest first. */
    method ListActive() returns (rows: seq<ActiveRow>)
      requires Valid()
      ensures forall i :: 0 <= i < |rows| ==>
        rows[i].id in groupOrders && rows[i] == Project(rows[i].id, groupOrders[rows[i].id], suppliers)
      ensures forall id :: id in groupOrders ==> Lists(rows, id)
      ensures NewestFirst(rows)
    {
      rows := ActiveOrders(groupOrders, suppliers, nextId);
      ActiveOrdersNewestFirst(groupOrders, suppliers, nextId);
      forall id | id in groupOrders
        ensures Lists(rows, id)
      {
        ActiveOrdersComplete(groupOrders, suppliers, nextId, id);
      }
    }

    /** `POST /group-orders`, as written: no check on the numbers. */
    method CreateGroupOrder(body: GroupOrderBody) returns (status: int, created: Option<(Id, GroupOrder)>)
      requires Valid()
      modifies this`groupOrders, this`nextId
      ensures Valid()
      ensures !CreatableBody(body) || body.supplierId.value !in suppliers ==>
        status == 500 && created == None && groupOrders == old(groupOrders)
      ensures CreatableBody(body) && body.supplierId.value in suppliers ==>
        && status == 201 && created.Some?
        && created.value.0 !in old(groupOrders)
        && created.value.1 == NewGroupOrder(body)
        && groupOrders == old(groupOrders)[created.value.0 := created.value.1]
      ensures old(AllWithinCapacity()) && (created.Some? ==> body.maxMembers >= 0) ==> AllWithinCapacity()
    {
      if body.deadline.None? || body.savings.None? || body.supplierId.None? || body.supplierId.value !in suppliers {
        return 500, None;
      }
      var row := NewGroupOrder(body);
      var id := nextId;
      groupOrders := groupOrders[id := row];
      nextId := nextId + 1;
      return 201, Some((id, row));
    }

    /**
     * `POST /group-orders` repeating the create-order page's numeric check on the server:
     * 400 unless both numbers are positive.
     */
    method CreateGroupOrderChecked(body: GroupOrderBody) returns (status: int, created: Option<(Id, GroupOrder)>)
      requires Valid()
      modifies this`groupOrders, this`nextId
      ensures Valid()
      ensures !AdmissibleCapacity(body) ==> status == 400 && created == None && groupOrders == old(groupOrders)
      ensures AdmissibleCapacity(body) && (!CreatableBody(body) || body.supplierId.value !in suppliers) ==>
        status == 500 && created == None && groupOrders == old(groupOrders)
      ensures AdmissibleCapacity(body) && CreatableBody(body) && body.supplierId.value in suppliers ==>
        && status == 201 && created.Some?
        && created.value.0 !in old(groupOrders)
        && created.value.1 == NewGroupOrder(body)
        && groupOrders == old(groupOrders)[created.value.0 := created.value.1]
      ensures old(AllWithinCapacity()) ==> AllWithinCapacity()
    {
      if !AdmissibleCapacity(body) {
        return 400, None;
      }
      status, created := CreateGroupOrder(body);
    }

    /** `POST /group-orders/:id/join`. */
    method Join(id: Id) returns (status: int, updated: Option<GroupOrder>)
      requires Valid()
      modifies this`groupOrders
      ensures Valid()
      ensures id !in old(groupOrders) ==> status == 404 && updated == None && groupOrders == old(groupOrders)
      ensures id in old(groupOrders) && IsFull(old(groupOrders[id])) ==>
        status == 400 && updated == None && groupOrders == old(groupOrders)
      ensures id in old(groupOrders) && !IsFull(old(groupOrders[id])) ==>
        && status == 200
        && groupOrders == old(groupOrders)[id := old(groupOrders[id]).(currentMembers := old(groupOrders[id]).currentMembers + 1)]
        && updated == Some(groupOrders[id])
      ensures JoinDecision(if id in old(groupOrders) then Some(old(groupOrders[id])) else None) ==
        if status == 404 then NotFound else if status == 400 then Full else Admitted(updated.value)
      ensures old(AllWithinCapacity()) ==> AllWithinCapacity()
    {
      if id !in groupOrders {
        return 404, None;
      }
      var order := groupOrders[id];
      if order.currentMembers >= order.maxMembers {
        return 400, None;
      }
      var row := order.(currentMembers := order.currentMembers + 1);
      groupOrders := groupOrders[id := row];
      return 200, Some(row);
    }
  }

  /** A user who has just signed up can sign in with the password they chose. */
  method SignUpThenSignIn(store: Store, body: SignupBody) returns (status: int)
    requires store.Valid() && body.email !in store.emailIndex
    modifies store
    ensures store.Valid()
    ensures status == 200
  {
    var _, _ := store.SignUp(body);
    var user, cookie;
    status, user, cookie := store.SignIn(body.email, body.Password);
  }

  /** Three joins fill a three-place order and a fourth is refused. */
  method RiceBulkScenario(hash: string -> string) returns (joins: seq<int>)
    ensures joins == [200, 200, 200, 400]
  {
    var store := new Store(hash);
    var status, user := store.SignUp(SignupBody("acme@example.com", "A", "Acme", "", "", "pw", "supplier"));
    var acme := user.value.supplierId.value;
    var created;
    status, created := store.CreateGroupOrder(GroupOrderBody("Rice bulk", 40, 3, Some("2025-07-26"), Some("15%"), Some(acme)));
    assert status == 201;
    var id := created.value.0;
    var order;
    var first, second, third, fourth;
    first, order := store.Join(id);
    assert first == 200 && order.value.currentMembers == 1;
    second, order := store.Join(id);
    assert second == 200 && order.value.currentMembers == 2;
    third, order := store.Join(id);
    assert third == 200 && order.value.currentMembers == 3;
    fourth, order := store.Join(id);
    assert fourth == 400;
    joins := [first, second, third, fourth];
  }
}
