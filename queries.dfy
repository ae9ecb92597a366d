/** What the server's SELECT statements return, before ordering: each one
    scans a table, keeps the rows its WHERE clause accepts and, for a JOIN
    with `users`, only the rows whose referenced user exists (server.ts). */
module Queries {
  import opened Values
  import opened Tables

  /** A row of GET /api/orders: the order with its client's and assignee's names. */
  datatype OrderRow = OrderRow(order: Order, clientName: string, employeeName: Option<string>)

  /** A row of GET /api/orders/:id/messages: the message with its sender's name and role. */
  datatype MessageRow = MessageRow(message: Message, senderName: string, senderRole: string)

  /** A row of GET /api/admin/audit-logs: the entry with its user's name. */
  datatype AuditRow = AuditRow(entry: AuditEntry, userName: string)

  /** A row of GET /api/workspace/employees. */
  datatype StaffRow = StaffRow(id: int, name: string, email: string, role: string, status: string)

  /** `WHERE 1=1 [AND orders.status = ?] [AND orders.assigned_to = ?]`; a filter
      applies when its query value is present and non-empty. */
  predicate OrderMatches(o: Order, status: Option<string>, assignedTo: Option<int>)
  {
    && (TruthyText(status) ==> o.status == status.value)
    && (assignedTo.Some? ==> o.assignedTo == assignedTo)
  }

  /** `JOIN users u1 ON orders.user_id = u1.id LEFT JOIN users u2 ON orders.assigned_to = u2.id`. */
  function JoinOrder(o: Order, users: seq<User>): OrderRow
    requires UserById(users, o.userId).Some?
  {
    var employee := if o.assignedTo.Some? then UserById(users, o.assignedTo.value) else None;
    OrderRow(o, UserById(users, o.userId).value.name,
             if employee.Some? then Some(employee.value.name) else None)
  }

  /** The rows GET /api/orders selects, in table order. */
  function OrderListing(os: seq<Order>, users: seq<User>, status: Option<string>, assignedTo: Option<int>): seq<OrderRow>
  {
    if os == [] then []
    else
      var o := os[|os| - 1];
      OrderListing(os[..|os| - 1], users, status, assignedTo)
      + (if OrderMatches(o, status, assignedTo) && UserById(users, o.userId).Some? then [JoinOrder(o, users)] else [])
  }

  /** The rows GET /api/orders/user/:id selects, in table order. */
  function OrdersOf(os: seq<Order>, userId: int): seq<Order>
  {
    if os == [] then []
    else
      var o := os[|os| - 1];
      OrdersOf(os[..|os| - 1], userId) + (if o.userId == userId then [o] else [])
  }

  /** `JOIN users ON messages.sender_id = users.id`. */
  function JoinMessage(m: Message, users: seq<User>): MessageRow
    requires UserById(users, m.senderId).Some?
  {
    var sender := UserById(users, m.senderId).value;
    MessageRow(m, sender.name, sender.role)
  }

  /** The rows GET /api/orders/:id/messages selects, in table order. */
  function Thread(ms: seq<Message>, users: seq<User>, orderId: int): seq<MessageRow>
  {
    if ms == [] then []
    else
      var m := ms[|ms| - 1];
      Thread(ms[..|ms| - 1], users, orderId)
      + (if m.orderId == orderId && UserById(users, m.senderId).Some? then [JoinMessage(m, users)] else [])
  }

  /** The rows GET /api/admin/audit-logs selects before ordering and LIMIT. */
  function AuditTrail(es: seq<AuditEntry>, users: seq<User>): seq<AuditRow>
  {
    if es == [] then []
    else
      var e := es[|es| - 1];
      AuditTrail(es[..|es| - 1], users)
      + (if UserById(users, e.userId).Some? then [AuditRow(e, UserById(users, e.userId).value.name)] else [])
  }

  predicate IsStaff(u: User)
  {
    u.role == "employee" || u.role == "admin"
  }

  function StaffRowOf(u: User): StaffRow
  {
    StaffRow(u.id, u.name, u.email, u.role, u.status)
  }

  /** The rows GET /api/workspace/employees selects, in table order. */
  function StaffOf(us: seq<User>): seq<StaffRow>
  {
    if us == [] then []
    else
      var u := us[|us| - 1];
      StaffOf(us[..|us| - 1]) + (if IsStaff(u) then [StaffRowOf(u)] else [])
  }

  /** GET /api/orders returns exactly the orders that pass both filters and
      whose client exists, each joined with its names. */
  lemma {:induction false} OrderListingExact(os: seq<Order>, users: seq<User>, status: Option<string>, assignedTo: Option<int>)
    ensures forall r :: r in OrderListing(os, users, status, assignedTo) ==>
      && r.order in os && OrderMatches(r.order, status, assignedTo)
      && UserById(users, r.order.userId).Some? && r == JoinOrder(r.order, users)
    ensures forall o :: o in os && OrderMatches(o, status, assignedTo) && UserById(users, o.userId).Some? ==>
      JoinOrder(o, users) in OrderListing(os, users, status, assignedTo)
  {
    if os != [] {
      var front := os[..|os| - 1];
      OrderListingExact(front, users, status, assignedTo);
      assert os == front + [os[|os| - 1]];
    }
  }

  /** GET /api/orders/user/:id returns exactly that user's orders. */
  lemma {:induction false} OrdersOfExact(os: seq<Order>, userId: int)
    ensures forall o :: o in OrdersOf(os, userId) <==> o in os && o.userId == userId
  {
    if os != [] {
      var front := os[..|os| - 1];
      OrdersOfExact(front, userId);
      assert os == front + [os[|os| - 1]];
    }
  }

  /** GET /api/orders/:id/messages returns exactly that order's messages
      whose sender exists, each joined with the sender's name and role. */
  lemma {:induction false} ThreadExact(ms: seq<Message>, users: seq<User>, orderId: int)
    ensures forall r :: r in Thread(ms, users, orderId) ==>
      && r.message in ms && r.message.orderId == orderId
      && UserById(users, r.message.senderId).Some? && r == JoinMessage(r.message, users)
    ensures forall m :: m in ms && m.orderId == orderId && UserById(users, m.senderId).Some? ==>
      JoinMessage(m, users) in Thread(ms, users, orderId)
  {
    if ms != [] {
      var front := ms[..|ms| - 1];
      ThreadExact(front, users, orderId);
      assert ms == front + [ms[|ms| - 1]];
    }
  }

  /** The audit view before LIMIT holds exactly the entries whose user exists. */
  lemma {:induction false} AuditTrailExact(es: seq<AuditEntry>, users: seq<User>)
    ensures forall r :: r in AuditTrail(es, users) ==>
      r.entry in es && UserById(users, r.entry.userId).Some?
      && r.userName == UserById(users, r.entry.userId).value.name
    ensures forall e :: e in es && UserById(users, e.userId).Some? ==>
      AuditRow(e, UserById(users, e.userId).value.name) in AuditTrail(es, users)
  {
    if es != [] {
      var front := es[..|es| - 1];
      AuditTrailExact(front, users);
      assert es == front + [es[|es| - 1]];
    }
  }

  /** The staff listing holds exactly the employees and admins, without passwords. */
  lemma {:induction false} StaffOfExact(us: seq<User>)
    ensures forall r :: r in StaffOf(us) <==> exists u :: u in us && IsStaff(u) && r == StaffRowOf(u)
  {
    if us != [] {
      var front := us[..|us| - 1];
      StaffOfExact(front);
      assert us == front + [us[|us| - 1]];
    }
  }
}
