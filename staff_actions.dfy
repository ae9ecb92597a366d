/** The PATCH bodies the staff screens send (src/App.tsx): the status
    menu, the assignee menu, the two payment buttons and the delivery
    upload. Each is a fixed body around the value the staff member picks. */
module StaffActions {
  import opened Values
  import opened Wire
  import opened OrderPatch

  /** `updateOrderStatus`: the status menu sends only the status. */
  function StatusChange(status: string): (b: PatchBody)
    ensures status != "" ==> AnySupplied(b)
  {
    EmptyPatch.(status := Some(status))
  }

  /** `assignOrder`: the assignee and status "production". The menu's
      "Choisir..." entry parses to NaN, which the JSON body carries as null. */
  function AssignEmployee(employee: Option<int>): (b: PatchBody)
    ensures AnySupplied(b)
  {
    EmptyPatch.(status := Some("production"), assignedTo := employee)
  }

  /** "Valider": payment confirmed and status "paid". */
  function ConfirmPayment(): (b: PatchBody)
    ensures AnySupplied(b)
  {
    EmptyPatch.(status := Some("paid"), paymentStatus := Some("confirmed"))
  }

  /** "Refuser": payment refused; the status is not sent. */
  function RefusePayment(): (b: PatchBody)
    ensures AnySupplied(b)
  {
    EmptyPatch.(paymentStatus := Some("refused"))
  }

  /** The files already delivered: the stored list, or none. */
  function DeliveredSoFar(current: Option<seq<DeliveryFile>>): seq<DeliveryFile>
  {
    if current.Some? then current.value else []
  }

  /** The delivery upload: the delivered files plus a mock entry for the
      new file (link "#"), and status "completed". */
  function Delivery(current: Option<seq<DeliveryFile>>, fileName: string): (b: PatchBody)
    ensures AnySupplied(b)
  {
    EmptyPatch.(status := Some("completed"),
                deliveryFiles := Some(DeliveredSoFar(current) + [DeliveryFile(fileName, "#")]))
  }

  /** The payment buttons are shown to an admin while the payment is pending. */
  predicate PaymentButtonsShown(role: string, paymentStatus: string)
  {
    role == "admin" && paymentStatus == "pending"
  }

  /** The delivery upload is shown to admins and employees. */
  predicate DeliveryShown(role: string)
  {
    role == "admin" || role == "employee"
  }
}
