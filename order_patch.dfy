/** PATCH /api/orders/:id (server.ts). The handler collects one column
    assignment per supplied, truthy field of the body, in a fixed order, adds
    a fresh `updated_at`, and runs them as one UPDATE. `Patched` is the
    column-by-column reference for the row that results. */
module OrderPatch {
  import opened Values
  import opened Wire
  import opened Tables

  /** One `column = ?` entry of the SET list, with its parameter. */
  datatype Assignment =
    | SetStatus(status: string)
    | SetAssignedTo(employee: int)
    | SetPaymentStatus(paymentStatus: string)
    | SetPriority(priority: string)
    | SetDeliveryFiles(files: seq<DeliveryFile>)
    | SetFeedback(feedback: Feedback)
    | StampUpdatedAt(now: int)

  function Apply(o: Order, a: Assignment): Order
  {
    match a
    case SetStatus(s) => o.(status := s)
    case SetAssignedTo(e) => o.(assignedTo := Some(e))
    case SetPaymentStatus(p) => o.(paymentStatus := p)
    case SetPriority(p) => o.(priority := p)
    case SetDeliveryFiles(f) => o.(deliveryFiles := Some(f))
    case SetFeedback(f) => o.(feedback := Some(f))
    case StampUpdatedAt(t) => o.(updatedAt := t)
  }

  /** The row after the assignments have run, first to last. */
  function ApplyAll(o: Order, us: seq<Assignment>): Order
  {
    if us == [] then o else Apply(ApplyAll(o, us[..|us| - 1]), us[|us| - 1])
  }

  /** The body carries at least one field the handler acts on. */
  predicate AnySupplied(body: PatchBody)
  {
    || TruthyText(body.status)
    || TruthyNumber(body.assignedTo)
    || TruthyText(body.paymentStatus)
    || TruthyText(body.priority)
    || body.deliveryFiles.Some?
    || body.feedback.Some?
  }

  /** `if (field) updates.push(...)`: `a` is None when the field is not supplied. */
  function Push(us: seq<Assignment>, a: Option<Assignment>): seq<Assignment>
  {
    if a.Some? then us + [a.value] else us
  }

  /** The `updates` list, one entry per supplied field, in the handler's order. */
  function Updates(body: PatchBody): (us: seq<Assignment>)
    ensures us == [] <==> !AnySupplied(body)
    ensures |us| <= 6
  {
    PushLastThree(FirstThree(body), body)
  }

  function FirstThree(body: PatchBody): seq<Assignment>
  {
    var us := Push([], if TruthyText(body.status) then Some(SetStatus(body.status.value)) else None);
    var us := Push(us, if TruthyNumber(body.assignedTo) then Some(SetAssignedTo(body.assignedTo.value)) else None);
    Push(us, if TruthyText(body.paymentStatus) then Some(SetPaymentStatus(body.paymentStatus.value)) else None)
  }

  function PushLastThree(us: seq<Assignment>, body: PatchBody): seq<Assignment>
  {
    var us := Push(us, if TruthyText(body.priority) then Some(SetPriority(body.priority.value)) else None);
    var us := Push(us, if body.deliveryFiles.Some? then Some(SetDeliveryFiles(body.deliveryFiles.value)) else None);
    Push(us, if body.feedback.Some? then Some(SetFeedback(body.feedback.value)) else None)
  }

  /** Column by column: a supplied field replaces its column, `updated_at`
      becomes the clock reading, and every other column keeps its value. */
  function Patched(o: Order, body: PatchBody, now: int): Order
  {
    o.(
      status := if TruthyText(body.status) then body.status.value else o.status,
      assignedTo := if TruthyNumber(body.assignedTo) then body.assignedTo else o.assignedTo,
      paymentStatus := if TruthyText(body.paymentStatus) then body.paymentStatus.value else o.paymentStatus,
      priority := if TruthyText(body.priority) then body.priority.value else o.priority,
      deliveryFiles := if body.deliveryFiles.Some? then body.deliveryFiles else o.deliveryFiles,
      feedback := if body.feedback.Some? then body.feedback else o.feedback,
      updatedAt := now)
  }

  /** Running one more, conditionally pushed, assignment. */
  lemma ApplyPush(o: Order, us: seq<Assignment>, a: Option<Assignment>)
    ensures ApplyAll(o, Push(us, a)) == if a.Some? then Apply(ApplyAll(o, us), a.value) else ApplyAll(o, us)
  {
    if a.Some? {
      assert (us + [a.value])[..|us|] == us;
    }
  }

  /** The first three entries of the SET list: status, assignee, payment status. */
  lemma FirstThreeUpdates(o: Order, body: PatchBody)
    ensures ApplyAll(o, FirstThree(body)) == o.(
      status := if TruthyText(body.status) then body.status.value else o.status,
      assignedTo := if TruthyNumber(body.assignedTo) then body.assignedTo else o.assignedTo,
      paymentStatus := if TruthyText(body.paymentStatus) then body.paymentStatus.value else o.paymentStatus)
  {
    var e1 := if TruthyText(body.status) then Some(SetStatus(body.status.value)) else None;
    var e2 := if TruthyNumber(body.assignedTo) then Some(SetAssignedTo(body.assignedTo.value)) else None;
    var u1 := Push([], e1);
    var u2 := Push(u1, e2);
    ApplyPush(o, [], e1);
    ApplyPush(o, u1, e2);
    ApplyPush(o, u2, if TruthyText(body.paymentStatus) then Some(SetPaymentStatus(body.paymentStatus.value)) else None);
  }

  /** The last three entries: priority, delivery files, feedback. */
  lemma LastThreeUpdates(o: Order, us: seq<Assignment>, body: PatchBody)
    ensures ApplyAll(o, PushLastThree(us, body)) == ApplyAll(o, us).(
      priority := if TruthyText(body.priority) then body.priority.value else ApplyAll(o, us).priority,
      deliveryFiles := if body.deliveryFiles.Some? then body.deliveryFiles else ApplyAll(o, us).deliveryFiles,
      feedback := if body.feedback.Some? then body.feedback else ApplyAll(o, us).feedback)
  {
    var e4 := if TruthyText(body.priority) then Some(SetPriority(body.priority.value)) else None;
    var e5 := if body.deliveryFiles.Some? then Some(SetDeliveryFiles(body.deliveryFiles.value)) else None;
    var u4 := Push(us, e4);
    var u5 := Push(u4, e5);
    ApplyPush(o, us, e4);
    ApplyPush(o, u4, e5);
    ApplyPush(o, u5, if body.feedback.Some? then Some(SetFeedback(body.feedback.value)) else None);
  }

  /** Running the handler's SET list, `updated_at` last, yields `Patched`. */
  lemma UpdatesYieldPatched(o: Order, body: PatchBody, now: int)
    ensures ApplyAll(o, Updates(body) + [StampUpdatedAt(now)]) == Patched(o, body, now)
  {
    FirstThreeUpdates(o, body);
    LastThreeUpdates(o, FirstThree(body), body);
    ApplyPush(o, Updates(body), Some(StampUpdatedAt(now)));
  }

  /** PATCH touches nothing but the six patchable columns and `updated_at`;
      a patchable column changes exactly when its field is supplied. */
  lemma PatchedFrame(o: Order, body: PatchBody, now: int)
    ensures var p := Patched(o, body, now);
      && p.id == o.id && p.userId == o.userId
      && p.serviceId == o.serviceId && p.packageName == o.packageName
      && p.priceUSD == o.priceUSD && p.priceHTG == o.priceHTG
      && p.options == o.options && p.brief == o.brief
      && p.paymentMethod == o.paymentMethod && p.paymentId == o.paymentId
      && p.paymentProof == o.paymentProof && p.createdAt == o.createdAt
      && p.updatedAt == now
      && (TruthyText(body.status) ==> p.status == body.status.value)
      && (!TruthyText(body.status) ==> p.status == o.status)
      && (TruthyNumber(body.assignedTo) ==> p.assignedTo == body.assignedTo)
      && (!TruthyNumber(body.assignedTo) ==> p.assignedTo == o.assignedTo)
      && (TruthyText(body.paymentStatus) ==> p.paymentStatus == body.paymentStatus.value)
      && (!TruthyText(body.paymentStatus) ==> p.paymentStatus == o.paymentStatus)
      && (TruthyText(body.priority) ==> p.priority == body.priority.value)
      && (!TruthyText(body.priority) ==> p.priority == o.priority)
      && (body.deliveryFiles.Some? ==> p.deliveryFiles == body.deliveryFiles)
      && (body.deliveryFiles.None? ==> p.deliveryFiles == o.deliveryFiles)
      && (body.feedback.Some? ==> p.feedback == body.feedback)
      && (body.feedback.None? ==> p.feedback == o.feedback)
  {
  }

  /** No transition rule: a supplied status is written whatever the order's
      current status is. */
  lemma StatusWrittenUnconditionally(o: Order, body: PatchBody, now: int)
    requires TruthyText(body.status)
    ensures Patched(o, body, now).status == body.status.value
  {
  }
}
