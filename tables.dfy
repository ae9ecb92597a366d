/** The rows of the server's four tables (server.ts): users, orders,
    messages and audit_logs, with the column defaults of the schema.
    Timestamps are the clock reading given to each handler. */
module Tables {
  import opened Values
  import opened Catalogue
  import opened Wire

  /** Column defaults of the schema. */
  const DefaultRole := "client"
  const DefaultUserStatus := "active"
  const PendingValidation := "pending_validation"
  const PaymentPending := "pending"
  const NormalPriority := "normal"
  const TextMessage := "text"

  datatype User = User(
    id: int,
    email: string,
    password: string,
    role: string,
    name: string,
    status: string,
    createdAt: int)

  /** A user record as the auth endpoints return it: every column but the password. */
  datatype PublicUser = PublicUser(
    id: int,
    email: string,
    role: string,
    name: string,
    status: string,
    createdAt: int)

  function Public(u: User): PublicUser
  {
    PublicUser(u.id, u.email, u.role, u.name, u.status, u.createdAt)
  }

  datatype Order = Order(
    id: int,
    userId: int,
    assignedTo: Option<int>,
    serviceId: Option<string>,
    packageName: Option<string>,
    priceUSD: int,
    priceHTG: int,
    options: seq<AddOn>,
    brief: Brief,
    status: string,
    paymentStatus: string,
    paymentMethod: Option<string>,
    paymentId: string,
    paymentProof: Option<string>,
    deliveryFiles: Option<seq<DeliveryFile>>,
    feedback: Option<Feedback>,
    priority: string,
    createdAt: int,
    updatedAt: int)

  datatype Message = Message(
    id: int,
    orderId: int,
    senderId: int,
    content: string,
    kind: string,
    createdAt: int)

  datatype AuditEntry = AuditEntry(
    id: int,
    userId: int,
    action: string,
    details: string,
    createdAt: int)

  /** The user with the given id, if any. Ids are row positions plus one
      (AUTOINCREMENT, and no row is ever deleted). */
  function UserById(users: seq<User>, id: int): Option<User>
  {
    if 1 <= id <= |users| then Some(users[id - 1]) else None
  }

  /** The order with the given id, if any. */
  function OrderById(orders: seq<Order>, id: int): Option<Order>
  {
    if 1 <= id <= |orders| then Some(orders[id - 1]) else None
  }
}
