/** The `/create-checkout-session` handler around the normaliser: how a
    rejection or a provider failure becomes an HTTP response, and that the
    payment provider only ever sees a fully normalised cart. */
module Checkout {
  import opened Wrappers
  import opened Cart
  import opened Normalizer

  /** What the payment provider's session call answers. */
  datatype ProviderReply = Created(id: string, url: string) | ProviderFailed

  /** Why a request failed, as reported in the `error` field. */
  datatype Cause = Rejected(rejection: Rejection) | Provider

  datatype Body = SessionBody(id: string, url: string) | ErrorBody(cause: Cause)

  datatype Response = Response(status: int, body: Body)

  /** Handles one request. `createSession` stands for the provider's session
      call, which receives the normalised line items. */
  function Handle(products: Products, createSession: seq<LineItem> -> ProviderReply): (r: Response)
    ensures r.status == 200 || r.status == 400 || r.status == 500
    ensures r.status == 400 <==> Normalize(products) == Failure(NoProducts)
    ensures r.status == 200 <==>
              Normalize(products).Success? && createSession(Normalize(products).value).Created?
    ensures r.status == 200 ==>
              r.body == SessionBody(createSession(Normalize(products).value).id,
                                    createSession(Normalize(products).value).url)
    ensures Normalize(products).Failure? ==>
              r.body == ErrorBody(Rejected(Normalize(products).error))
  {
    match Normalize(products)
    case Failure(NoProducts) => Response(400, ErrorBody(Rejected(NoProducts)))
    case Failure(rejection) => Response(500, ErrorBody(Rejected(rejection)))
    case Success(items) =>
      match createSession(items)
      case Created(id, url) => Response(200, SessionBody(id, url))
      case ProviderFailed => Response(500, ErrorBody(Provider))
  }

  /** A rejected cart never reaches the provider: the response is the same
      whatever the provider would have answered. */
  lemma RejectionSkipsProvider(products: Products,
                               p1: seq<LineItem> -> ProviderReply,
                               p2: seq<LineItem> -> ProviderReply)
    requires Normalize(products).Failure?
    ensures Handle(products, p1) == Handle(products, p2)
  {
  }

  /** A per-entry rejection is answered with 500 and names the entry; only
      an absent, non-array or empty list is answered with 400. */
  lemma EntryRejectionIsServerError(entries: seq<CartEntry>, k: nat,
                                    createSession: seq<LineItem> -> ProviderReply)
    requires k < |entries|
    requires !EntryValid(entries[k])
    requires forall j :: 0 <= j < k ==> EntryValid(entries[j])
    ensures Handle(List(entries), createSession).status == 500
    ensures Handle(List(entries), createSession).body ==
              ErrorBody(Rejected(if !PriceAccepted(entries[k].price)
                                 then InvalidPrice(DisplayName(entries[k], k))
                                 else InvalidQuantity(DisplayName(entries[k], k))))
  {
    NormalizeFailsAtFirstInvalid(entries, k);
  }
}
