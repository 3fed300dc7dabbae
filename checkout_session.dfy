/**
 * The checkout-session creation handler (`POST /api/create-checkout-session`):
 * refuse to run without the processor's secret key, accept only an amount
 * listed in the product table, and ask for a one-item payment session at
 * that product's price.
 */
module CheckoutSessionRoute {
  import opened Wrappers
  import opened Http
  import opened Processor
  import opened DonationConfig

  const KeyMissing: string := "Stripe secret key is not configured"
  const InvalidAmountProvided: string := "Invalid amount provided"
  const InvalidDonationAmount: string := "Invalid donation amount"
  const CreateFailed: string := "Failed to create checkout session"

  datatype LineItem = LineItem(price: string, quantity: nat)

  /** The arguments of `checkout.sessions.create`. */
  datatype SessionParams = SessionParams(
    mode: string,
    paymentMethodTypes: seq<string>,
    lineItems: seq<LineItem>,
    successUrl: string,
    cancelUrl: string)

  /**
   * The session the handler asks for, or the response it gives without
   * asking. `secretKey` and `appUrl` are the environment's secret key and
   * public application URL. Without a key nothing else is looked at; a body
   * that does not parse ends in the catch-all 500; every refusal is an error
   * response of 400 or 500; a session is a one-item
   * card payment at a price of the table, which sends the donor back to the
   * application, to its success page once paid.
   */
  function SessionParamsFor(secretKey: Option<string>, appUrl: Option<string>, req: Request): (r: Result<SessionParams, Response>)
    ensures !Configured(secretKey) ==> r == Err(Fail(500, KeyMissing))
    ensures r.Err? ==> r.error.body.Error? && r.error.code in {400, 500}
    ensures Configured(secretKey) && req.Malformed? ==> r == Err(Fail(500, CreateFailed))
    ensures r.Ok? ==>
              && Configured(secretKey) && req.Json?
              && r.value.mode == "payment" && r.value.paymentMethodTypes == ["card"]
              && (exists i :: 0 <= i < |DonationProducts| && r.value.lineItems == [LineItem(DonationProducts[i].priceId, 1)])
              && r.value.cancelUrl == EnvText(appUrl)
              && r.value.successUrl == r.value.cancelUrl + "/success?session_id={CHECKOUT_SESSION_ID}"
  {
    if !Configured(secretKey) then Err(Fail(500, KeyMissing))
    else
      match req
      case Malformed => Err(Fail(500, CreateFailed))
      case Json(fields) =>
        var amount := Field(fields, "amount");
        if !Truthy(amount) || !amount.Number? || amount.n <= 0.0 then Err(Fail(400, InvalidAmountProvided))
        else
          match FindProductByAmount(amount.n)
          case None => Err(Fail(400, InvalidDonationAmount))
          case Some(product) =>
            Ok(SessionParams("payment", ["card"], [LineItem(product.priceId, 1)],
                             EnvText(appUrl) + "/success?session_id={CHECKOUT_SESSION_ID}",
                             EnvText(appUrl)))
  }

  /**
   * The response, given the processor's answer to the create call (the new
   * session's id): a missing secret key gives 500 for any request; success
   * returns the session id; a failed create call gives 500; a refused
   * request gets the refusal whatever the processor would have answered.
   */
  function CheckoutResponse(secretKey: Option<string>, appUrl: Option<string>, req: Request, created: Reply<string>): (r: Response)
    ensures !Configured(secretKey) ==> r == Fail(500, KeyMissing)
    ensures SessionParamsFor(secretKey, appUrl, req).Ok? && created.Returned? ==> r == Success(SessionId(created.value))
    ensures SessionParamsFor(secretKey, appUrl, req).Ok? && created.Threw? ==> r == Fail(500, CreateFailed)
    ensures SessionParamsFor(secretKey, appUrl, req).Err? ==> r == SessionParamsFor(secretKey, appUrl, req).error
  {
    match SessionParamsFor(secretKey, appUrl, req)
    case Err(resp) => resp
    case Ok(_) => if created.Threw? then Fail(500, CreateFailed) else Success(SessionId(created.value))
  }

  /** A missing, non-numeric or non-positive amount gives 400. */
  lemma CheckoutRejectsBadAmount(secretKey: Option<string>, appUrl: Option<string>, req: Request)
    requires Configured(secretKey) && req.Json?
    requires var a := Field(req.fields, "amount"); !a.Number? || a.n <= 0.0
    ensures SessionParamsFor(secretKey, appUrl, req) == Err(Fail(400, InvalidAmountProvided))
  {
  }

  /**
   * A session is requested exactly for a listed donation amount; it is in
   * payment mode with exactly one line item, of quantity 1, whose price is
   * the price id of the product listing that amount.
   */
  lemma CheckoutAcceptsOnlyTableAmounts(secretKey: Option<string>, appUrl: Option<string>, req: Request)
    requires Configured(secretKey) && req.Json?
    ensures var r := SessionParamsFor(secretKey, appUrl, req);
      var a := Field(req.fields, "amount");
      && (r.Ok? <==> a.Number? && IsDonationAmount(a.n))
      && (r.Ok? ==>
            && r.value.mode == "payment"
            && r.value.paymentMethodTypes == ["card"]
            && |r.value.lineItems| == 1
            && r.value.lineItems[0].quantity == 1
            && exists p :: p in DonationProducts && p.amount as real == a.n && r.value.lineItems[0].price == p.priceId)
      && (r.Err? ==> r.error.code == 400)
  {
    var a := Field(req.fields, "amount");
    var r := SessionParamsFor(secretKey, appUrl, req);
    if a.Number? && a.n > 0.0 {
      var found := FindProductByAmount(a.n);
      if found.Some? {
        var p := found.value;
        assert r.Ok? && r.value.lineItems == [LineItem(p.priceId, 1)];
        assert p in DonationProducts && p.amount as real == a.n;
      } else {
        assert r == Err(Fail(400, InvalidDonationAmount));
      }
    } else {
      assert a.Number? ==> !IsDonationAmount(a.n);
      assert r == Err(Fail(400, InvalidAmountProvided));
    }
  }
}
