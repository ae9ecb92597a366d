/** The order funnel of the app's main component (src/App.tsx): the screen
    shown, the logged-in user, and the choices the client accumulates on the
    way to a new order. Each handler the screens call is a method that
    replaces part of that state. */
module Funnel {
  import opened Values
  import opened Catalogue
  import opened Selection
  import opened Pricing
  import opened Wire
  import opened Tables

  /** The screens of the app. */
  datatype Step =
    | Home | ServiceStep | PackageStep | OptionsStep | BriefStep | Auth
    | Payment | Confirmation | Dashboard | Workspace | Admin

  /** The three payment buttons. */
  datatype PaymentMethod = MonCash | NatCash | Stripe

  /** The id each payment button stores and the order records. */
  function MethodId(m: PaymentMethod): (id: string)
    ensures id == "moncash" || id == "natcash" || id == "stripe"
  {
    match m
    case MonCash => "moncash"
    case NatCash => "natcash"
    case Stripe => "stripe"
  }

  /** The brief may be sent once the company name and the description are
      filled in (the `disabled` test of "Envoyer la demande"). */
  predicate BriefComplete(b: Brief)
  {
    b.companyName != "" && b.description != ""
  }

  /** The status every new-order payload carries. */
  const SubmittedStatus := "pending_validation"

  class Funnel {
    var step: Step
    var user: Option<PublicUser>
    var selectedService: Option<Service>
    var selectedPackage: Option<Package>
    var selectedOptions: seq<AddOn>
    var brief: Brief
    var paymentMethod: Option<PaymentMethod>
    var paymentId: string
    var paymentProof: Option<string>

    /** The selected add-ons have distinct ids. */
    ghost predicate Valid()
      reads this
    {
      DistinctIds(selectedOptions)
    }

    /** Every selected add-on is one the options screen offers. */
    ghost predicate FromCatalogue()
      reads this
    {
      forall i :: 0 <= i < |selectedOptions| ==> selectedOptions[i] in UPSELLS
    }

    /** The initial component state: home screen, nobody logged in, nothing chosen. */
    constructor ()
      ensures Valid() && FromCatalogue()
      ensures step == Home && user == None
      ensures selectedService == None && selectedPackage == None && selectedOptions == []
      ensures brief == EmptyBrief && paymentMethod == None && paymentId == "" && paymentProof == None
    {
      step := Home;
      user := None;
      selectedService := None;
      selectedPackage := None;
      selectedOptions := [];
      brief := EmptyBrief;
      paymentMethod := None;
      paymentId := "";
      paymentProof := None;
    }

    /** `setStep(...)` alone: the navigation and back buttons. */
    method Navigate(to: Step)
      modifies this
      ensures step == to
      ensures user == old(user) && selectedService == old(selectedService)
      ensures selectedPackage == old(selectedPackage) && selectedOptions == old(selectedOptions)
      ensures brief == old(brief) && paymentMethod == old(paymentMethod)
      ensures paymentId == old(paymentId) && paymentProof == old(paymentProof)
    {
      step := to;
    }

    /** A service card: remember the service, go to the packages. */
    method ChooseService(s: Service)
      modifies this
      ensures selectedService == Some(s) && step == PackageStep
      ensures user == old(user) && selectedPackage == old(selectedPackage)
      ensures selectedOptions == old(selectedOptions) && brief == old(brief)
      ensures paymentMethod == old(paymentMethod) && paymentId == old(paymentId) && paymentProof == old(paymentProof)
    {
      selectedService := Some(s);
      step := PackageStep;
    }

    /** A package card: remember the package, go to the add-ons. */
    method ChoosePackage(p: Package)
      modifies this
      ensures selectedPackage == Some(p) && step == OptionsStep
      ensures user == old(user) && selectedService == old(selectedService)
      ensures selectedOptions == old(selectedOptions) && brief == old(brief)
      ensures paymentMethod == old(paymentMethod) && paymentId == old(paymentId) && paymentProof == old(paymentProof)
    {
      selectedPackage := Some(p);
      step := OptionsStep;
    }

    /** `handleOptionToggle`: a click on an add-on selects it, or deselects
        it when it is already selected. */
    method ToggleOption(opt: AddOn)
      requires Valid()
      modifies this
      ensures Valid()
      ensures selectedOptions == Toggle(old(selectedOptions), opt)
      ensures HasId(selectedOptions, opt.id) <==> !HasId(old(selectedOptions), opt.id)
      ensures old(FromCatalogue()) && opt in UPSELLS ==> FromCatalogue()
      ensures step == old(step) && user == old(user) && selectedService == old(selectedService)
      ensures selectedPackage == old(selectedPackage) && brief == old(brief)
      ensures paymentMethod == old(paymentMethod) && paymentId == old(paymentId) && paymentProof == old(paymentProof)
    {
      ToggleKeepsDistinct(selectedOptions, opt);
      selectedOptions := Toggle(selectedOptions, opt);
    }

    /** The brief form's fields: `setBrief({...brief, field: value})`. */
    method EditBrief(b: Brief)
      modifies this
      ensures brief == b
      ensures step == old(step) && user == old(user) && selectedService == old(selectedService)
      ensures selectedPackage == old(selectedPackage) && selectedOptions == old(selectedOptions)
      ensures paymentMethod == old(paymentMethod) && paymentId == old(paymentId) && paymentProof == old(paymentProof)
    {
      brief := b;
    }

    /** "Envoyer la demande": disabled until the brief is complete; then to
        the login screen when nobody is logged in, to payment otherwise. */
    method SendBrief()
      modifies this
      ensures !BriefComplete(brief) ==> step == old(step)
      ensures BriefComplete(brief) && user.None? ==> step == Auth
      ensures BriefComplete(brief) && user.Some? ==> step == Payment
      ensures user == old(user) && selectedService == old(selectedService)
      ensures selectedPackage == old(selectedPackage) && selectedOptions == old(selectedOptions) && brief == old(brief)
      ensures paymentMethod == old(paymentMethod) && paymentId == old(paymentId) && paymentProof == old(paymentProof)
    {
      if !BriefComplete(brief) {
        return;
      }
      if user.None? {
        step := Auth;
      } else {
        step := Payment;
      }
    }

    /** `handleAuth` after a successful reply: the user is logged in and the
        home screen shows; a failed reply changes nothing. */
    method AuthAnswered(reply: Reply<PublicUser>)
      modifies this
      ensures reply.Ok? ==> user == Some(reply.value) && step == Home
      ensures reply.Failure? ==> user == old(user) && step == old(step)
      ensures selectedService == old(selectedService) && selectedPackage == old(selectedPackage)
      ensures selectedOptions == old(selectedOptions) && brief == old(brief)
      ensures paymentMethod == old(paymentMethod) && paymentId == old(paymentId) && paymentProof == old(paymentProof)
    {
      if reply.Ok? {
        user := Some(reply.value);
        step := Home;
      }
    }

    /** A payment button. */
    method ChoosePaymentMethod(m: PaymentMethod)
      modifies this
      ensures paymentMethod == Some(m)
      ensures step == old(step) && user == old(user) && selectedService == old(selectedService)
      ensures selectedPackage == old(selectedPackage) && selectedOptions == old(selectedOptions) && brief == old(brief)
      ensures paymentId == old(paymentId) && paymentProof == old(paymentProof)
    {
      paymentMethod := Some(m);
    }

    /** The transaction id field. */
    method EnterTransactionId(id: string)
      modifies this
      ensures paymentId == id
      ensures step == old(step) && user == old(user) && selectedService == old(selectedService)
      ensures selectedPackage == old(selectedPackage) && selectedOptions == old(selectedOptions) && brief == old(brief)
      ensures paymentMethod == old(paymentMethod) && paymentProof == old(paymentProof)
    {
      paymentId := id;
    }

    /** The proof picker, once the file has been read as a data URL. */
    method AttachProof(dataUrl: string)
      modifies this
      ensures paymentProof == Some(dataUrl)
      ensures step == old(step) && user == old(user) && selectedService == old(selectedService)
      ensures selectedPackage == old(selectedPackage) && selectedOptions == old(selectedOptions) && brief == old(brief)
      ensures paymentMethod == old(paymentMethod) && paymentId == old(paymentId)
    {
      paymentProof := Some(dataUrl);
    }

    /** The `disabled` test of "Confirmer l'envoi", negated: a method is
        chosen and, unless it is Stripe, a transaction id and a proof are given. */
    predicate SubmitEnabled()
      reads this
    {
      paymentMethod.Some? && (paymentMethod.value == Stripe || (paymentId != "" && TruthyText(paymentProof)))
    }

    /** The body `submitOrder` posts: the user's id, the choices, both
        totals, status "pending_validation" and the derived priority. */
    function OrderData(u: PublicUser): NewOrder
      reads this
    {
      NewOrder(
        u.id,
        if selectedService.Some? then Some(selectedService.value.id) else None,
        if selectedPackage.Some? then Some(selectedPackage.value.name) else None,
        Total(selectedPackage, selectedOptions, USD),
        Total(selectedPackage, selectedOptions, HTG),
        selectedOptions,
        brief,
        if paymentMethod.Some? then Some(MethodId(paymentMethod.value)) else None,
        paymentId,
        paymentProof,
        SubmittedStatus,
        Some(PriorityOf(selectedOptions)))
    }

    /** "Confirmer l'envoi": the body sent to POST /api/orders, or nothing
        when the button is disabled or nobody is logged in. */
    method Submit() returns (sent: Option<NewOrder>)
      ensures sent.Some? <==> SubmitEnabled() && user.Some?
      ensures sent.Some? ==> sent.value == OrderData(user.value)
      ensures sent.Some? ==> && sent.value.userId == user.value.id
                             && sent.value.serviceId == (if selectedService.Some? then Some(selectedService.value.id) else None)
                             && sent.value.packageName == (if selectedPackage.Some? then Some(selectedPackage.value.name) else None)
                             && sent.value.paymentMethod == Some(MethodId(paymentMethod.value))
                             && sent.value.paymentId == paymentId && sent.value.paymentProof == paymentProof
                             && sent.value.status == "pending_validation"
                             && sent.value.priceUSD == PackagePrice(selectedPackage, USD) + OptionsSum(selectedOptions, USD)
                             && sent.value.priceHTG == PackagePrice(selectedPackage, HTG) + OptionsSum(selectedOptions, HTG)
                             && sent.value.options == selectedOptions && sent.value.brief == brief
                             && (sent.value.paymentMethod.value != "stripe" ==> sent.value.paymentId != "" && TruthyText(sent.value.paymentProof))
                             && (sent.value.priority == Some("urgent") <==> HasId(selectedOptions, "urgent"))
                             && (sent.value.priority == Some("normal") <==> !HasId(selectedOptions, "urgent"))
      ensures sent.Some? && FromCatalogue() ==> sent.value.priority == Some("normal")
    {
      if !SubmitEnabled() || user.None? {
        return None;
      }
      if FromCatalogue() {
        CatalogueSelectionIsNormal(selectedOptions);
      }
      sent := Some(OrderData(user.value));
    }

    /** The reply to the POST: the confirmation screen on success, otherwise
        an alert and no change. */
    method SubmissionAnswered(ok: bool)
      modifies this
      ensures ok ==> step == Confirmation
      ensures !ok ==> step == old(step)
      ensures user == old(user) && selectedService == old(selectedService)
      ensures selectedPackage == old(selectedPackage) && selectedOptions == old(selectedOptions) && brief == old(brief)
      ensures paymentMethod == old(paymentMethod) && paymentId == old(paymentId) && paymentProof == old(paymentProof)
    {
      if ok {
        step := Confirmation;
      }
    }
  }
}
