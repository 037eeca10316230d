/** Price display: `${price.toLocaleString()}` followed by the currency's name. */
module Money {
  /** `toLocaleString` on a number: locale-dependent digit grouping, left uninterpreted. */
  type NumberRenderer = int -> string

  /** The short currency name used by the cart and the product card. */
  const Ouguiya := " أوقية"
  /** The full currency name used by the product page. */
  const MauritanianOuguiya := " أوقية موريتانية"

  /** `formatPrice`: the rendered number, then the currency name; both can be read back off the result. */
  function FormatPrice(render: NumberRenderer, currency: string, price: int): (s: string)
    ensures |s| == |render(price)| + |currency|
    ensures s[..|render(price)|] == render(price) && s[|render(price)|..] == currency
  {
    render(price) + currency
  }
}
