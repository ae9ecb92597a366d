/** The server's database and its request handlers (server.ts). The four
    tables are sequences in insertion order; AUTOINCREMENT without deletes
    makes a row's id its position plus one. Each handler is a method; a
    statement that the database rejects leaves every table unchanged and
    answers 500, as an uncaught exception does under Express. */
module Store {
  import opened Values
  import opened Wire
  import opened Tables
  import opened OrderPatch
  import opened Queries
  import opened Listing
  import opened Catalogue
  import opened Pricing

  /** `LIMIT 100` of the audit view. */
  const AuditLimit := 100

  /** The reply Express sends when a handler throws. */
  const ServerError: Reply<bool> := Failure(500, "Internal Server Error")

  ghost predicate EmailTaken(users: seq<User>, email: string)
  {
    exists i :: 0 <= i < |users| && users[i].email == email
  }

  /** The row INSERT INTO orders writes: the body's columns, the schema
      defaults for the rest, and `priority || 'normal'`. The body's
      `status` is not read. */
  function NewRow(id: int, body: NewOrder, now: int): Order
  {
    Order(id, body.userId, None, body.serviceId, body.packageName,
          body.priceUSD, body.priceHTG, body.options, body.brief,
          PendingValidation, PaymentPending, body.paymentMethod, body.paymentId,
          body.paymentProof, None, None, TextOr(body.priority, NormalPriority), now, now)
  }

  /** The text logged for a new order: `New order #<id> created`. */
  function CreatedDetails(id: nat): string
  {
    "New order #" + DecimalText(id) + " created"
  }

  /** The logged text names the order: between its fixed head and tail
      stand the digits of the id, so two orders never share a text. */
  lemma CreatedDetailsNamesOrder(id: nat, other: nat)
    ensures var t := CreatedDetails(id);
      && |t| >= 20 && t[..11] == "New order #" && t[|t| - 8..] == " created"
      && DigitsValue(t[11..|t| - 8]) == id
    ensures id != other ==> CreatedDetails(id) != CreatedDetails(other)
  {
    var t := CreatedDetails(id);
    var digits := DecimalText(id);
    assert t[11..|t| - 8] == digits;
    var u := CreatedDetails(other);
    assert u[11..|u| - 8] == DecimalText(other);
  }

  /** A new order waits for validation with a pending payment, unassigned,
      with nothing delivered, and priority "normal" unless one is supplied. */
  lemma NewRowDefaults(id: int, body: NewOrder, now: int)
    ensures var o := NewRow(id, body, now);
      && o.status == "pending_validation" && o.paymentStatus == "pending"
      && o.assignedTo == None && o.deliveryFiles == None && o.feedback == None
      && (!TruthyText(body.priority) ==> o.priority == "normal")
      && (TruthyText(body.priority) ==> o.priority == body.priority.value)
      && o.createdAt == now && o.updatedAt == now
  {
  }

  /** The status a client sends with a new order has no effect on the row. */
  lemma SentStatusIgnored(id: int, body: NewOrder, status: string, now: int)
    ensures NewRow(id, body.(status := status), now) == NewRow(id, body, now)
  {
  }

  /** The funnel always sends a priority, so the row keeps the funnel's
      priority, and a selection from the catalogue is stored as "normal". */
  lemma FunnelPriorityStored(id: int, body: NewOrder, sel: seq<AddOn>, now: int)
    requires body.priority == Some(PriorityOf(sel))
    ensures NewRow(id, body, now).priority == PriorityOf(sel)
    ensures (forall i :: 0 <= i < |sel| ==> sel[i] in UPSELLS) ==> NewRow(id, body, now).priority == "normal"
  {
    if forall i :: 0 <= i < |sel| ==> sel[i] in UPSELLS {
      CatalogueSelectionIsNormal(sel);
    }
  }

  function OrderRowTime(r: OrderRow): int { r.order.createdAt }
  function OrderTime(o: Order): int { o.createdAt }
  function MessageRowTime(r: MessageRow): int { r.message.createdAt }
  function AuditRowTime(r: AuditRow): int { r.entry.createdAt }

  function Min(a: int, b: int): int { if a < b then a else b }

  class Database {
    /** Whether SQLite enforces the FOREIGN KEY clauses of the schema. */
    const foreignKeys: bool
    var users: seq<User>
    var orders: seq<Order>
    var messages: seq<Message>
    var auditLogs: seq<AuditEntry>

    /** Ids are positions plus one, and no two users share an email. */
    ghost predicate Valid()
      reads this
    {
      && (forall i :: 0 <= i < |users| ==> users[i].id == i + 1)
      && (forall i, j :: 0 <= i < j < |users| ==> users[i].email != users[j].email)
      && (forall i :: 0 <= i < |orders| ==> orders[i].id == i + 1)
      && (forall i :: 0 <= i < |messages| ==> messages[i].id == i + 1)
      && (forall i :: 0 <= i < |auditLogs| ==> auditLogs[i].id == i + 1)
    }

    /** An empty database. */
    constructor (foreignKeys: bool)
      ensures Valid()
      ensures this.foreignKeys == foreignKeys
      ensures users == [] && orders == [] && messages == [] && auditLogs == []
    {
      this.foreignKeys := foreignKeys;
      users := [];
      orders := [];
      messages := [];
      auditLogs := [];
    }

    /** `logAction`: appends one audit entry; it is refused, and nothing is
        written, only when foreign keys are enforced and the user is unknown. */
    method LogAction(userId: int, action: string, details: string, now: int) returns (r: Reply<bool>)
      requires Valid()
      modifies this
      ensures Valid()
      ensures users == old(users) && orders == old(orders) && messages == old(messages)
      ensures foreignKeys && UserById(users, userId).None? ==> r == ServerError && auditLogs == old(auditLogs)
      ensures !(foreignKeys && UserById(users, userId).None?) ==>
        r == Ok(true) && auditLogs == old(auditLogs) + [AuditEntry(|old(auditLogs)| + 1, userId, action, details, now)]
    {
      if foreignKeys && UserById(users, userId).None? {
        return ServerError;
      }
      auditLogs := auditLogs + [AuditEntry(|auditLogs| + 1, userId, action, details, now)];
      r := Ok(true);
    }

    /** `SELECT * FROM users WHERE email = ?`: the position of the user with
        that email, if any. */
    method FindByEmail(email: string) returns (found: Option<nat>)
      ensures found.Some? ==> found.value < |users| && users[found.value].email == email
      ensures found.None? <==> !EmailTaken(users, email)
    {
      var i := 0;
      while i < |users|
        invariant 0 <= i <= |users|
        invariant forall j :: 0 <= j < i ==> users[j].email != email
      {
        if users[i].email == email {
          return Some(i);
        }
        i := i + 1;
      }
      found := None;
    }

    /** POST /api/auth/register: a new client with an unused email, and a
        REGISTER audit entry; an email already in use answers 400. */
    method Register(email: string, password: string, name: string, now: int) returns (r: Reply<PublicUser>)
      requires Valid()
      modifies this
      ensures Valid()
      ensures orders == old(orders) && messages == old(messages)
      ensures EmailTaken(old(users), email) ==>
        r == Failure(400, "Email already exists") && users == old(users) && auditLogs == old(auditLogs)
      ensures !EmailTaken(old(users), email) ==>
        var u := User(|old(users)| + 1, email, password, DefaultRole, name, DefaultUserStatus, now);
        && users == old(users) + [u]
        && auditLogs == old(auditLogs) + [AuditEntry(|old(auditLogs)| + 1, u.id, "REGISTER", "New user registered", now)]
        && r == Ok(Public(u))
    {
      var existing := FindByEmail(email);
      if existing.Some? {
        return Failure(400, "Email already exists");
      }
      var u := User(|users| + 1, email, password, DefaultRole, name, DefaultUserStatus, now);
      users := users + [u];
      var logged := LogAction(u.id, "REGISTER", "New user registered", now);
      r := Ok(Public(u));
    }

    /** POST /api/auth/login: succeeds, with a LOGIN audit entry, exactly when
        a user has that email and that password; otherwise 401 and no entry. */
    method Login(email: string, password: string, now: int) returns (r: Reply<PublicUser>)
      requires Valid()
      modifies this
      ensures Valid()
      ensures users == old(users) && orders == old(orders) && messages == old(messages)
      ensures r.Ok? <==> exists i :: 0 <= i < |users| && users[i].email == email && users[i].password == password
      ensures r.Ok? ==> exists i :: (0 <= i < |users| && users[i].email == email && r.value == Public(users[i]) &&
        auditLogs == old(auditLogs) + [AuditEntry(|old(auditLogs)| + 1, users[i].id, "LOGIN", "User logged in", now)])
      ensures r.Failure? ==> r == Failure(401, "Invalid credentials") && auditLogs == old(auditLogs)
    {
      var found := FindByEmail(email);
      if found.Some? && users[found.value].password == password {
        var u := users[found.value];
        var logged := LogAction(u.id, "LOGIN", "User logged in", now);
        r := Ok(Public(u));
      } else {
        r := Failure(401, "Invalid credentials");
      }
    }

    /** POST /api/orders: appends the new row and an ORDER_CREATED audit
        entry, and answers the new id. */
    method CreateOrder(body: NewOrder, now: int) returns (r: Reply<int>)
      requires Valid()
      modifies this
      ensures Valid()
      ensures users == old(users) && messages == old(messages)
      ensures foreignKeys && UserById(users, body.userId).None? ==>
        r == Failure(500, "Internal Server Error") && orders == old(orders) && auditLogs == old(auditLogs)
      ensures !(foreignKeys && UserById(users, body.userId).None?) ==>
        var id := |old(orders)| + 1;
        && r == Ok(id)
        && orders == old(orders) + [NewRow(id, body, now)]
        && auditLogs == old(auditLogs) + [AuditEntry(|old(auditLogs)| + 1, body.userId, "ORDER_CREATED", CreatedDetails(id), now)]
    {
      if foreignKeys && UserById(users, body.userId).None? {
        return Failure(500, "Internal Server Error");
      }
      var id := |orders| + 1;
      orders := orders + [NewRow(id, body, now)];
      var logged := LogAction(body.userId, "ORDER_CREATED", CreatedDetails(id), now);
      r := Ok(id);
    }

    /** GET /api/orders: the matching orders with their names, newest first. */
    method ListOrders(status: Option<string>, assignedTo: Option<int>) returns (rows: seq<OrderRow>)
      ensures multiset(rows) == multiset(OrderListing(orders, users, status, assignedTo))
      ensures NewestFirst(rows, OrderRowTime)
    {
      var found := [];
      var i := 0;
      while i < |orders|
        invariant 0 <= i <= |orders|
        invariant found == OrderListing(orders[..i], users, status, assignedTo)
      {
        var o := orders[i];
        assert orders[..i + 1][..i] == orders[..i];
        if OrderMatches(o, status, assignedTo) && UserById(users, o.userId).Some? {
          found := found + [JoinOrder(o, users)];
        }
        i := i + 1;
      }
      assert orders[..i] == orders;
      rows := SortNewestFirst(found, OrderRowTime);
    }

    /** GET /api/orders/user/:id: that user's orders, newest first. */
    method ListUserOrders(userId: int) returns (rows: seq<Order>)
      ensures multiset(rows) == multiset(OrdersOf(orders, userId))
      ensures NewestFirst(rows, OrderTime)
    {
      var found := [];
      var i := 0;
      while i < |orders|
        invariant 0 <= i <= |orders|
        invariant found == OrdersOf(orders[..i], userId)
      {
        assert orders[..i + 1][..i] == orders[..i];
        if orders[i].userId == userId {
          found := found + [orders[i]];
        }
        i := i + 1;
      }
      assert orders[..i] == orders;
      rows := SortNewestFirst(found, OrderTime);
    }

    /** GET /api/orders/:id/messages: the order's thread, oldest first. */
    method ListMessages(orderId: int) returns (rows: seq<MessageRow>)
      ensures multiset(rows) == multiset(Thread(messages, users, orderId))
      ensures OldestFirst(rows, MessageRowTime)
    {
      var found := [];
      var i := 0;
      while i < |messages|
        invariant 0 <= i <= |messages|
        invariant found == Thread(messages[..i], users, orderId)
      {
        var m := messages[i];
        assert messages[..i + 1][..i] == messages[..i];
        if m.orderId == orderId && UserById(users, m.senderId).Some? {
          found := found + [JoinMessage(m, users)];
        }
        i := i + 1;
      }
      assert messages[..i] == messages;
      rows := SortOldestFirst(found, MessageRowTime);
    }

    /** GET /api/admin/audit-logs: the newest hundred entries whose user
        exists, newest first; every entry left out is no newer than those kept. */
    method ListAuditLogs() returns (rows: seq<AuditRow>)
      ensures |rows| == Min(|AuditTrail(auditLogs, users)|, AuditLimit)
      ensures multiset(rows) <= multiset(AuditTrail(auditLogs, users))
      ensures NewestFirst(rows, AuditRowTime)
      ensures forall x, y :: x in AuditTrail(auditLogs, users) && x !in rows && y in rows ==>
        AuditRowTime(y) >= AuditRowTime(x)
    {
      var found := [];
      var i := 0;
      while i < |auditLogs|
        invariant 0 <= i <= |auditLogs|
        invariant found == AuditTrail(auditLogs[..i], users)
      {
        var e := auditLogs[i];
        assert auditLogs[..i + 1][..i] == auditLogs[..i];
        if UserById(users, e.userId).Some? {
          found := found + [AuditRow(e, UserById(users, e.userId).value.name)];
        }
        i := i + 1;
      }
      assert auditLogs[..i] == auditLogs;
      var sorted := SortNewestFirst(found, AuditRowTime);
      assert |sorted| == |multiset(sorted)| == |found|;
      var n := Min(|sorted|, AuditLimit);
      rows := sorted[..n];
      assert sorted == rows + sorted[n..];
      forall x | x in found && x !in rows
        ensures forall y :: y in rows ==> AuditRowTime(y) >= AuditRowTime(x)
      {
        assert x in multiset(sorted);
        LimitKeepsNewest(sorted, AuditRowTime, AuditLimit, x);
      }
    }

    /** GET /api/workspace/employees: employees and admins, in table order. */
    method ListStaff() returns (rows: seq<StaffRow>)
      ensures rows == StaffOf(users)
    {
      rows := [];
      var i := 0;
      while i < |users|
        invariant 0 <= i <= |users|
        invariant rows == StaffOf(users[..i])
      {
        assert users[..i + 1][..i] == users[..i];
        if IsStaff(users[i]) {
          rows := rows + [StaffRowOf(users[i])];
        }
        i := i + 1;
      }
      assert users[..i] == users;
    }

    /** The SET list PATCH builds, one `push` per supplied field. */
    method CollectUpdates(body: PatchBody) returns (updates: seq<Assignment>)
      ensures updates == Updates(body)
    {
      updates := [];
      if TruthyText(body.status) { updates := updates + [SetStatus(body.status.value)]; }
      if TruthyNumber(body.assignedTo) { updates := updates + [SetAssignedTo(body.assignedTo.value)]; }
      if TruthyText(body.paymentStatus) { updates := updates + [SetPaymentStatus(body.paymentStatus.value)]; }
      assert updates == FirstThree(body);
      if TruthyText(body.priority) { updates := updates + [SetPriority(body.priority.value)]; }
      if body.deliveryFiles.Some? { updates := updates + [SetDeliveryFiles(body.deliveryFiles.value)]; }
      if body.feedback.Some? { updates := updates + [SetFeedback(body.feedback.value)]; }
    }

    /** `UPDATE orders SET ...` on one row: the assignments run first to last. */
    method RunUpdates(o: Order, updates: seq<Assignment>) returns (row: Order)
      ensures row == ApplyAll(o, updates)
    {
      row := o;
      var k := 0;
      while k < |updates|
        invariant 0 <= k <= |updates|
        invariant row == ApplyAll(o, updates[..k])
      {
        assert updates[..k + 1][..k] == updates[..k];
        row := Apply(row, updates[k]);
        k := k + 1;
      }
      assert updates[..k] == updates;
    }

    /** The foreign key on `assigned_to` refuses the assignee PATCH would write. */
    predicate RejectsAssignee(body: PatchBody)
      reads this
    {
      foreignKeys && TruthyNumber(body.assignedTo) && UserById(users, body.assignedTo.value).None?
    }

    /** PATCH /api/orders/:id: 400 when no field is supplied; otherwise the
        order with that id, if any, gets exactly the supplied fields and a
        fresh `updated_at`, and nothing else changes. */
    method Patch(id: int, body: PatchBody, now: int) returns (r: Reply<bool>)
      requires Valid()
      modifies this
      ensures Valid()
      ensures users == old(users) && messages == old(messages) && auditLogs == old(auditLogs)
      ensures !AnySupplied(body) ==> r == Failure(400, "No updates provided") && orders == old(orders)
      ensures AnySupplied(body) && OrderById(old(orders), id).None? ==> r == Ok(true) && orders == old(orders)
      ensures AnySupplied(body) && OrderById(old(orders), id).Some? && RejectsAssignee(body) ==>
        r == ServerError && orders == old(orders)
      ensures AnySupplied(body) && OrderById(old(orders), id).Some? && !RejectsAssignee(body) ==>
        r == Ok(true) && orders == old(orders)[id - 1 := Patched(old(orders)[id - 1], body, now)]
    {
      var updates := CollectUpdates(body);
      if |updates| == 0 {
        return Failure(400, "No updates provided");
      }
      updates := updates + [StampUpdatedAt(now)];
      if !(1 <= id <= |orders|) {
        return Ok(true);
      }
      if RejectsAssignee(body) {
        return ServerError;
      }
      var row := RunUpdates(orders[id - 1], updates);
      UpdatesYieldPatched(orders[id - 1], body, now);
      orders := orders[id - 1 := row];
      r := Ok(true);
    }

    /** POST /api/orders/:id/messages: appends a message, of type `text`
        unless another type is given. */
    method PostMessage(orderId: int, senderId: int, content: string, kind: Option<string>, now: int) returns (r: Reply<bool>)
      requires Valid()
      modifies this
      ensures Valid()
      ensures users == old(users) && orders == old(orders) && auditLogs == old(auditLogs)
      ensures foreignKeys && (OrderById(orders, orderId).None? || UserById(users, senderId).None?) ==>
        r == ServerError && messages == old(messages)
      ensures !(foreignKeys && (OrderById(orders, orderId).None? || UserById(users, senderId).None?)) ==>
        r == Ok(true)
        && messages == old(messages) + [Message(|old(messages)| + 1, orderId, senderId, content, TextOr(kind, TextMessage), now)]
    {
      if foreignKeys && (OrderById(orders, orderId).None? || UserById(users, senderId).None?) {
        return ServerError;
      }
      messages := messages + [Message(|messages| + 1, orderId, senderId, content, TextOr(kind, TextMessage), now)];
      r := Ok(true);
    }
  }
}
