/** The JSON bodies the app sends to the server. The fields the source
    serialises to text (`options`, `brief`, `delivery_files`, `feedback`) are
    kept here as structured values. */
module Wire {
  import opened Values
  import opened Catalogue

  /** The project brief the client fills in. */
  datatype Brief = Brief(
    companyName: string,
    slogan: string,
    colors: string,
    style: string,
    description: string,
    references: seq<string>)

  /** The brief form as it first appears: every text empty, style "moderne". */
  const EmptyBrief := Brief("", "", "", "moderne", "", [])

  /** A delivered file: a name and a link. */
  datatype DeliveryFile = DeliveryFile(name: string, url: string)

  /** A client's rating of a completed order. */
  datatype Feedback = Feedback(rating: int, comment: string)

  /** The body of POST /api/orders. `status` is sent by the app but the
      server does not read it. */
  datatype NewOrder = NewOrder(
    userId: int,
    serviceId: Option<string>,
    packageName: Option<string>,
    priceUSD: int,
    priceHTG: int,
    options: seq<AddOn>,
    brief: Brief,
    paymentMethod: Option<string>,
    paymentId: string,
    paymentProof: Option<string>,
    status: string,
    priority: Option<string>)

  /** The body of PATCH /api/orders/:id: every field may be absent. */
  datatype PatchBody = PatchBody(
    status: Option<string>,
    assignedTo: Option<int>,
    paymentStatus: Option<string>,
    priority: Option<string>,
    deliveryFiles: Option<seq<DeliveryFile>>,
    feedback: Option<Feedback>)

  const EmptyPatch := PatchBody(None, None, None, None, None, None)
}
