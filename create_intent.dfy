/**
 * The payment-intent creation handler (`POST /api/payment/create-intent`):
 * accept only a listed donation amount and ask the processor for an intent
 * of that many cents, in US dollars, payable by card.
 */
module CreateIntentRoute {
  import opened Wrappers
  import opened Http
  import opened Processor
  import opened DonationConfig
  import PaymentStore

  const InvalidAmount: string := "Invalid donation amount"
  const CreateFailed: string := "Failed to create payment intent"

  /** The arguments of `paymentIntents.create`. */
  datatype IntentParams = IntentParams(amount: int, currency: string, paymentMethodTypes: seq<string>)

  /**
   * The intent the handler asks for, or the response it gives without
   * asking. An intent is requested exactly for a listed donation amount `a`,
   * and it is for `a * 100` cents (exactly, no rounding), in "usd", card
   * only; any other amount of a parsed body is refused with 400, and a body
   * that does not parse ends in the catch-all 500.
   */
  function IntentParamsFor(req: Request): (r: Result<IntentParams, Response>)
    ensures r.Ok? <==> req.Json? && Field(req.fields, "amount").Number? && IsDonationAmount(Field(req.fields, "amount").n)
    ensures r.Ok? ==> r.value.amount as real == Field(req.fields, "amount").n * 100.0
                      && r.value.currency == "usd" && r.value.paymentMethodTypes == ["card"]
    ensures req.Json? && r.Err? ==> r.error == Fail(400, InvalidAmount)
    ensures req.Malformed? ==> r == Err(Fail(500, CreateFailed))
  {
    match req
    case Malformed => Err(Fail(500, CreateFailed))
    case Json(fields) =>
      var amount := Field(fields, "amount");
      if !Truthy(amount) || !(amount.Number? && IsDonationAmount(amount.n)) then Err(Fail(400, InvalidAmount))
      else Ok(IntentParams((amount.n * 100.0).Floor, "usd", ["card"]))
  }

  /**
   * The response, given the processor's answer to the create call (the new
   * intent's client secret): success returns the client secret, a failed
   * create call gives 500, and a refused request gives 400 or 500 whatever
   * the processor would have answered.
   */
  function CreateIntentResponse(req: Request, created: Reply<Option<string>>): (r: Response)
    ensures IntentParamsFor(req).Ok? && created.Returned? ==> r == Success(ClientSecret(created.value))
    ensures IntentParamsFor(req).Ok? && created.Threw? ==> r == Fail(500, CreateFailed)
    ensures IntentParamsFor(req).Err? ==> r == IntentParamsFor(req).error && r.code in {400, 500}
  {
    match IntentParamsFor(req)
    case Err(resp) => resp
    case Ok(_) => if created.Threw? then Fail(500, CreateFailed) else Success(ClientSecret(created.value))
  }

  /**
   * The round trip of a donation: recording the payment of the requested
   * intent (`createPayment` with its cents) stores exactly the whole amount
   * the donor chose.
   */
  lemma DonationRoundTrip(req: Request, t: PaymentStore.Table, input: PaymentStore.CreateInput)
    requires PaymentStore.WellFormed(t)
    requires IntentParamsFor(req).Ok? && input.amount == IntentParamsFor(req).value.amount
    requires input.paymentIntentId !in t.payments
    ensures PaymentStore.Create(t, true, input).0.Ok?
    ensures PaymentStore.Create(t, true, input).0.value.amount == Field(req.fields, "amount").n
  {
    PaymentStore.CreateStoresInput(t, true, input);
  }
}
