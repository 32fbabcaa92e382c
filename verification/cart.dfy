/** The data that crosses the checkout endpoint: raw cart entries from the
    client, the line items handed to the payment provider, and the reasons a
    cart is rejected. */
module Cart {
  import opened Wrappers

  /** The result of JavaScript's `Number(v)` on a client-supplied value.
      `NotANumber` stands for every value that does not parse. */
  datatype Number = Finite(value: real) | PosInfinity | NegInfinity | NotANumber

  /** `Number.isFinite`. */
  predicate IsFinite(n: Number) {
    n.Finite?
  }

  /** `Number.isInteger`: finite and without a fractional part. */
  predicate IsInteger(n: Number) {
    n.Finite? && n.value.Floor as real == n.value
  }

  /** One element of the `products` array. `name` and `title` are the
      optional display strings, `price` is `Number(p.price)` and `quantity`
      is the raw quantity already passed through `Number`, or `None` when it
      is `undefined` or `null`. */
  datatype CartEntry = CartEntry(
    name: Option<string>,
    title: Option<string>,
    price: Number,
    quantity: Option<Number>)

  /** What the request body carries under `products`: nothing (also when the
      body itself is missing), something that is not an array, or an array. */
  datatype Products = Absent | NotAnArray | List(entries: seq<CartEntry>)

  /** One provider line item: `price_data.currency`,
      `price_data.product_data.name`, `price_data.unit_amount` (minor units)
      and `quantity`. */
  datatype LineItem = LineItem(currency: string, name: string, unitAmount: int, quantity: int)

  /** Why a cart is refused: the list itself, or one entry, named by its
      display name. */
  datatype Rejection = NoProducts | InvalidPrice(item: string) | InvalidQuantity(item: string)

  /** The currency every line item is priced in. */
  const Currency: string := "usd"

  /** A JavaScript string is truthy exactly when it is non-empty; an absent
      field is falsy. */
  predicate Truthy(s: Option<string>) {
    s.Some? && |s.value| > 0
  }
}
