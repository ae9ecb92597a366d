/** The order lifecycle the app exhibits: the staff payloads run through
    the server's PATCH. The server checks no transition and no role, so
    the lifecycle is whatever sequence of clicks the staff make. */
module Lifecycle {
  import opened Values
  import opened Wire
  import opened Tables
  import opened OrderPatch
  import opened StaffActions

  /** One staff action, with the value picked in the screen. The screen
      works on its own copy of the order, as last fetched: a payment button
      carries the payment status that copy shows, and a delivery carries the
      copy's delivered files, from which its body is built. */
  datatype StaffAction =
    | ChangeStatus(status: string)
    | Assign(employee: Option<int>)
    | Confirm(shown: string)
    | Refuse(shown: string)
    | Deliver(fileName: string, seen: Option<seq<DeliveryFile>>)

  /** A staff action and the time the server receives it. */
  datatype Click = Click(action: StaffAction, at: int)

  /** The body an action sends. */
  function Payload(a: StaffAction): PatchBody
  {
    match a
    case ChangeStatus(s) => StatusChange(s)
    case Assign(e) => AssignEmployee(e)
    case Confirm(_) => ConfirmPayment()
    case Refuse(_) => RefusePayment()
    case Deliver(name, seen) => Delivery(seen, name)
  }

  /** The row after PATCH: unchanged when the body supplies nothing (400).
      The 500 of an enforced foreign key on the assignee is not a case here:
      the assignee menu lists only existing staff, so a staff click never
      names a missing user (`Store.Database.Patch` models that reply). */
  function ServerApply(o: Order, body: PatchBody, now: int): Order
  {
    if AnySupplied(body) then Patched(o, body, now) else o
  }

  /** The row after a sequence of clicks, first to last. */
  function Replay(o: Order, clicks: seq<Click>): Order
  {
    if clicks == [] then o
    else
      var c := clicks[|clicks| - 1];
      ServerApply(Replay(o, clicks[..|clicks| - 1]), Payload(c.action), c.at)
  }

  /** Every click was made from a screen whose copy equals the stored row
      at that moment (one screen open on the order, refreshed after each
      change): a payment button's status and a delivery's files are those
      stored. */
  predicate FreshCopies(o: Order, clicks: seq<Click>)
  {
    clicks == [] ||
    (var front := clicks[..|clicks| - 1];
     var a := clicks[|clicks| - 1].action;
     var stored := Replay(o, front);
     && FreshCopies(o, front)
     && (a.Confirm? ==> a.shown == stored.paymentStatus)
     && (a.Refuse? ==> a.shown == stored.paymentStatus)
     && (a.Deliver? ==> a.seen == stored.deliveryFiles))
  }

  /** What the screen lets a user of the given role click: the payment
      buttons for an admin while the screen's copy shows the payment
      pending, the delivery upload for staff. */
  predicate UiAllows(role: string, a: StaffAction)
  {
    match a
    case Confirm(shown) => PaymentButtonsShown(role, shown)
    case Refuse(shown) => PaymentButtonsShown(role, shown)
    case Deliver(_, _) => DeliveryShown(role)
    case _ => true
  }

  /** Every click of the sequence was offered by the screen. */
  predicate Guarded(role: string, clicks: seq<Click>)
  {
    forall i :: 0 <= i < |clicks| ==> UiAllows(role, clicks[i].action)
  }

  /** "Valider" sets payment "confirmed" and status "paid", whatever the status was. */
  lemma ConfirmMakesPaid(o: Order, now: int)
    ensures Patched(o, ConfirmPayment(), now) == o.(status := "paid", paymentStatus := "confirmed", updatedAt := now)
  {
  }

  /** "Refuser" sets payment "refused" and leaves the status as it was. */
  lemma RefuseKeepsStatus(o: Order, now: int)
    ensures Patched(o, RefusePayment(), now) == o.(paymentStatus := "refused", updatedAt := now)
  {
  }

  /** Assigning sets status "production"; the assignee changes only when
      one was picked. Picking "Choisir..." still moves the order to production. */
  lemma AssignMakesProduction(o: Order, employee: Option<int>, now: int)
    ensures var p := Patched(o, AssignEmployee(employee), now);
      && p.status == "production"
      && (TruthyNumber(employee) ==> p.assignedTo == employee)
      && (employee.None? ==> p.assignedTo == o.assignedTo)
      && p == o.(status := "production", assignedTo := p.assignedTo, updatedAt := now)
  {
  }

  /** A delivery overwrites the stored files with the screen's copy plus
      the new file, and sets status "completed". */
  lemma DeliveryCompletes(o: Order, seen: Option<seq<DeliveryFile>>, fileName: string, now: int)
    ensures Patched(o, Delivery(seen, fileName), now)
      == o.(status := "completed",
            deliveryFiles := Some(DeliveredSoFar(seen) + [DeliveryFile(fileName, "#")]),
            updatedAt := now)
  {
  }

  /** A delivery from a stale copy loses the files the copy lacks: a
      stored file missing from the screen's copy, other than the entry the
      upload adds, is gone from the row afterwards. */
  lemma StaleCopyDropsFile(o: Order, seen: Option<seq<DeliveryFile>>, b: DeliveryFile, fileName: string, now: int)
    requires o.deliveryFiles.Some? && b in o.deliveryFiles.value
    requires b !in DeliveredSoFar(seen)
    requires b != DeliveryFile(fileName, "#")
    ensures var files := ServerApply(o, Delivery(seen, fileName), now).deliveryFiles;
      files == Some(DeliveredSoFar(seen) + [DeliveryFile(fileName, "#")]) && b !in files.value
  {
    DeliveryCompletes(o, seen, fileName, now);
  }

  /** The same with two uploads of one file name: the row holds [a, f] where
      f is the app's own entry for the name, a screen that saw only [a]
      uploads another name, and f is lost. */
  lemma StaleCopyDropsUpload(o: Order, a: DeliveryFile, name: string, other: string, now: int)
    requires o.deliveryFiles == Some([a, DeliveryFile(name, "#")])
    requires a != DeliveryFile(name, "#") && other != name
    ensures var files := ServerApply(o, Delivery(Some([a]), other), now).deliveryFiles;
      files == Some([a, DeliveryFile(other, "#")]) && DeliveryFile(name, "#") !in files.value
  {
    StaleCopyDropsFile(o, Some([a]), DeliveryFile(name, "#"), other, now);
    assert [a] + [DeliveryFile(other, "#")] == [a, DeliveryFile(other, "#")];
  }

  /** No forward-only rule: the status menu can take a completed order back
      to "pending_validation". */
  lemma StatusCanGoBack(o: Order, now: int)
    requires o.status == "completed"
    ensures ServerApply(o, StatusChange("pending_validation"), now).status == "pending_validation"
  {
  }

  /** An order whose payment was refused can still be delivered and completed. */
  lemma RefusedYetCompleted(o: Order, shown: string, fileName: string, seen: Option<seq<DeliveryFile>>, t1: int, t2: int)
    ensures var r := Replay(o, [Click(Refuse(shown), t1), Click(Deliver(fileName, seen), t2)]);
      r.paymentStatus == "refused" && r.status == "completed"
  {
    var clicks := [Click(Refuse(shown), t1), Click(Deliver(fileName, seen), t2)];
    assert clicks[..1] == [Click(Refuse(shown), t1)];
    assert clicks[..1][..0] == [];
  }

  /** An empty status from the status menu is refused with 400 and changes nothing. */
  lemma EmptyStatusIgnored(o: Order, now: int)
    ensures ServerApply(o, StatusChange(""), now) == o
  {
  }

  /** What the client ordered never changes under the staff actions: the
      client, the choices, the prices, the brief, the payment details and
      the creation time. */
  lemma {:induction false} ReplayKeepsOrderTerms(o: Order, clicks: seq<Click>)
    ensures var r := Replay(o, clicks);
      && r.id == o.id && r.userId == o.userId
      && r.serviceId == o.serviceId && r.packageName == o.packageName
      && r.priceUSD == o.priceUSD && r.priceHTG == o.priceHTG
      && r.options == o.options && r.brief == o.brief
      && r.paymentMethod == o.paymentMethod && r.paymentId == o.paymentId
      && r.paymentProof == o.paymentProof && r.createdAt == o.createdAt
      && r.priority == o.priority && r.feedback == o.feedback
  {
    if clicks != [] {
      ReplayKeepsOrderTerms(o, clicks[..|clicks| - 1]);
    }
  }

  /** The payment status is the initial one until a payment button is used,
      and afterwards "confirmed" or "refused": no staff action writes any
      other payment status. */
  lemma {:induction false} ReplayPaymentStatus(o: Order, clicks: seq<Click>)
    ensures var p := Replay(o, clicks).paymentStatus;
      p == o.paymentStatus || p == "confirmed" || p == "refused"
  {
    if clicks != [] {
      ReplayPaymentStatus(o, clicks[..|clicks| - 1]);
    }
  }

  /** While every delivery is made from a fresh copy, files are only ever
      appended: the files delivered before a sequence of clicks are a
      prefix of those delivered after it. */
  lemma {:induction false} ReplayKeepsDeliveredFiles(o: Order, clicks: seq<Click>)
    requires FreshCopies(o, clicks)
    ensures var before := DeliveredSoFar(o.deliveryFiles);
      var after := DeliveredSoFar(Replay(o, clicks).deliveryFiles);
      |before| <= |after| && after[..|before|] == before
  {
    if clicks != [] {
      var prefix := clicks[..|clicks| - 1];
      ReplayKeepsDeliveredFiles(o, prefix);
      var mid := Replay(o, prefix);
      var c := clicks[|clicks| - 1];
      if c.action.Deliver? {
        var a := DeliveredSoFar(mid.deliveryFiles);
        var b := a + [DeliveryFile(c.action.fileName, "#")];
        assert DeliveredSoFar(Replay(o, clicks).deliveryFiles) == b;
        assert b[..|a|] == a;
      }
    }
  }

  /** The number of deliveries in a sequence of clicks. */
  function Deliveries(clicks: seq<Click>): nat
  {
    if clicks == [] then 0
    else Deliveries(clicks[..|clicks| - 1]) + (if clicks[|clicks| - 1].action.Deliver? then 1 else 0)
  }

  /** While every delivery is made from a fresh copy, each delivery adds
      exactly one file. */
  lemma {:induction false} ReplayCountsDeliveries(o: Order, clicks: seq<Click>)
    requires FreshCopies(o, clicks)
    ensures |DeliveredSoFar(Replay(o, clicks).deliveryFiles)| == |DeliveredSoFar(o.deliveryFiles)| + Deliveries(clicks)
  {
    if clicks != [] {
      ReplayCountsDeliveries(o, clicks[..|clicks| - 1]);
    }
  }

  /** With the screen's guards and an up-to-date copy, a payment that is
      no longer pending is never decided again: the payment buttons are gone. */
  lemma {:induction false} GuardedPaymentSettles(role: string, o: Order, clicks: seq<Click>)
    requires Guarded(role, clicks) && FreshCopies(o, clicks)
    requires o.paymentStatus != "pending"
    ensures Replay(o, clicks).paymentStatus == o.paymentStatus
  {
    if clicks != [] {
      var front := clicks[..|clicks| - 1];
      assert Guarded(role, front) by {
        forall i | 0 <= i < |front| ensures UiAllows(role, front[i].action) {
          assert front[i] == clicks[i];
        }
      }
      GuardedPaymentSettles(role, o, front);
    }
  }

  /** Two admin screens opened while the payment was pending both show the
      payment buttons: "Valider" on one and then "Refuser" on the other
      turns a confirmed payment into a refused one. */
  lemma TwoScreensOverturnPayment(o: Order, t1: int, t2: int)
    requires o.paymentStatus == "pending"
    ensures var clicks := [Click(Confirm("pending"), t1), Click(Refuse("pending"), t2)];
      && Guarded("admin", clicks)
      && Replay(o, clicks[..1]).paymentStatus == "confirmed"
      && Replay(o, clicks).paymentStatus == "refused"
  {
    var clicks := [Click(Confirm("pending"), t1), Click(Refuse("pending"), t2)];
    assert clicks[..1] == [Click(Confirm("pending"), t1)];
    assert clicks[..1][..0] == [];
  }

  /** With the screen's guards, only an admin changes the payment status. */
  lemma {:induction false} GuardedOnlyAdminDecides(role: string, o: Order, clicks: seq<Click>)
    requires Guarded(role, clicks)
    requires role != "admin"
    ensures Replay(o, clicks).paymentStatus == o.paymentStatus
  {
    if clicks != [] {
      var front := clicks[..|clicks| - 1];
      assert Guarded(role, front) by {
        forall i | 0 <= i < |front| ensures UiAllows(role, front[i].action) {
          assert front[i] == clicks[i];
        }
      }
      GuardedOnlyAdminDecides(role, o, front);
    }
  }
}
