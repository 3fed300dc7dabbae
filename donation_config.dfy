/**
 * The donation product table and the lookups over it: the whole-unit
 * amounts a donor may choose, each tied to one processor price.
 */
module DonationConfig {
  import opened Wrappers

  datatype DonationProduct = DonationProduct(
    id: string,
    amount: nat,          // whole currency units
    currency: string,
    description: string,
    priceId: string,
    productId: string,
    metadata: Option<map<string, string>>)

  const DonationProducts: seq<DonationProduct> := [
    DonationProduct("donation_10", 10, "usd",
      "Support our basic maintenance and server costs",
      "price_1QR5hLIKOlm7GILEu1IKP9jp", "prod_RJj9k0EP4qudaRLTc",
      Some(map["type" := "donation", "tier" := "basic"])),
    DonationProduct("donation_20", 20, "usd",
      "Help us improve transcription accuracy and add new features",
      "price_1QR5hZIKOlm7GILEyHI1ohKD", "prod_RJj9PZIPFAWY66",
      Some(map["type" := "donation", "tier" := "supporter"])),
    DonationProduct("donation_50", 50, "usd",
      "Enable us to add support for more languages and formats",
      "price_1QR5hmIKOlm7GILE6Aoo3ckF", "prod_RJjAhS5ijPP0HZ",
      Some(map["type" := "donation", "tier" := "premium"])),
    DonationProduct("donation_100", 100, "usd",
      "Contribute to major feature development and scaling",
      "price_1QR5i1IKOlm7GILEiFCbX7Hp", "prod_RJjAb0iaou8AbX",
      Some(map["type" := "donation", "tier" := "platinum"]))
  ]

  const DonationAmounts: seq<nat> := [10, 20, 50, 100]

  /** `DONATION_AMOUNTS.includes(amount)`: the amount is one of the listed whole amounts. */
  function IsDonationAmount(amount: real): (r: bool)
    ensures r <==> amount == 10.0 || amount == 20.0 || amount == 50.0 || amount == 100.0
  {
    assert DonationAmounts[0] == 10 && DonationAmounts[1] == 20;
    assert DonationAmounts[2] == 50 && DonationAmounts[3] == 100;
    exists i :: 0 <= i < |DonationAmounts| && DonationAmounts[i] as real == amount
  }

  /** `products.find(matches)`: the first product in table order that matches, if any. */
  function FirstMatch(products: seq<DonationProduct>, matches: DonationProduct -> bool): (r: Option<DonationProduct>)
    ensures r.Some? ==> matches(r.value)
    ensures r.Some? ==> exists i :: 0 <= i < |products| && products[i] == r.value &&
                                  forall j :: 0 <= j < i ==> !matches(products[j])
    ensures r.None? <==> forall i :: 0 <= i < |products| ==> !matches(products[i])
  {
    if products == [] then None
    else if matches(products[0]) then Some(products[0])
    else
      var rest := FirstMatch(products[1..], matches);
      assert forall i :: 1 <= i < |products| ==> products[i] == products[1..][i - 1];
      rest
  }

  /** The table lists exactly the donation amounts, in the same order. */
  lemma TableAmountsAreDonationAmounts()
    ensures |DonationProducts| == |DonationAmounts|
    ensures forall i :: 0 <= i < |DonationProducts| ==> DonationProducts[i].amount == DonationAmounts[i]
    ensures forall i, j :: 0 <= i < j < |DonationAmounts| ==> DonationAmounts[i] != DonationAmounts[j]
  {
  }

  /** Price ids are pairwise distinct and every product is priced in US dollars. */
  lemma TablePricesDistinctAndUsd()
    ensures forall i, j :: 0 <= i < j < |DonationProducts| ==>
              DonationProducts[i].priceId != DonationProducts[j].priceId
    ensures forall i :: 0 <= i < |DonationProducts| ==> DonationProducts[i].currency == "usd"
  {
  }

  /**
   * `findProductByAmount`: a product is found exactly when the amount is a
   * donation amount, and it is the table row listing that amount.
   */
  function FindProductByAmount(amount: real): (r: Option<DonationProduct>)
    ensures r.Some? <==> IsDonationAmount(amount)
    ensures r.Some? ==> r.value.amount as real == amount && r.value in DonationProducts && r.value.currency == "usd"
  {
    TableAmountsAreDonationAmounts();
    TablePricesDistinctAndUsd();
    FirstMatch(DonationProducts, (p: DonationProduct) => p.amount as real == amount)
  }

  /**
   * `findProductByPriceId`: a product is found exactly when some row carries
   * the price id, and it is then that unique row.
   */
  function FindProductByPriceId(priceId: string): (r: Option<DonationProduct>)
    ensures r.Some? <==> exists i :: 0 <= i < |DonationProducts| && DonationProducts[i].priceId == priceId
    ensures r.Some? ==> forall i :: 0 <= i < |DonationProducts| && DonationProducts[i].priceId == priceId ==>
                          r.value == DonationProducts[i]
  {
    TablePricesDistinctAndUsd();
    FirstMatch(DonationProducts, (p: DonationProduct) => p.priceId == priceId)
  }
}
