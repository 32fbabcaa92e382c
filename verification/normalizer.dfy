/** The cart normaliser of the `/create-checkout-session` handler: it turns
    the client's `products` array into provider line items, entry by entry,
    and rejects the whole cart at the first entry it cannot price. */
module Normalizer {
  import opened Wrappers
  import opened Cart
  import Decimal

  // ---------------------------------------------------------------------------
  // Display name

  /** Ordered fallback resolution: the first truthy candidate, else `fallback`. */
  function FirstTruthy(candidates: seq<Option<string>>, fallback: string): (r: string)
    ensures (forall k :: 0 <= k < |candidates| ==> !Truthy(candidates[k])) ==> r == fallback
    ensures forall k :: 0 <= k < |candidates| && Truthy(candidates[k])
                        && (forall j :: 0 <= j < k ==> !Truthy(candidates[j]))
                        ==> r == candidates[k].value
  {
    if |candidates| == 0 then fallback
    else if Truthy(candidates[0]) then candidates[0].value
    else FirstTruthy(candidates[1..], fallback)
  }

  /** The positional name of the entry at zero-based index `i`: "Item 1",
      "Item 2", ... */
  function Placeholder(i: nat): string {
    "Item " + Decimal.Render(i + 1)
  }

  /** Recovers the one-based position from a positional name. */
  function PlaceholderPosition(s: string): Option<nat> {
    if |s| > 5 && s[..5] == "Item " && Decimal.AllDigits(s[5..])
    then Some(Decimal.Parse(s[5..]))
    else None
  }

  /** The name an entry is shown under: `name`, else `title`, else its
      position. */
  function DisplayName(e: CartEntry, i: nat): (r: string)
    ensures |r| > 0
  {
    if Truthy(e.name) then e.name.value
    else if Truthy(e.title) then e.title.value
    else Placeholder(i)
  }

  /** The positional name of entry `i` reads back as position `i + 1`. */
  lemma PlaceholderRoundTrip(i: nat)
    ensures PlaceholderPosition(Placeholder(i)) == Some(i + 1)
  {
    var s := Placeholder(i);
    assert s[..5] == "Item ";
    assert s[5..] == Decimal.Render(i + 1);
    Decimal.ParseRender(i + 1);
  }

  /** Two entries never share a positional name. */
  lemma PlaceholderInjective(i: nat, j: nat)
    requires Placeholder(i) == Placeholder(j)
    ensures i == j
  {
    var s := Placeholder(i);
    assert s[5..] == Decimal.Render(i + 1);
    assert Placeholder(j)[5..] == Decimal.Render(j + 1);
    Decimal.RenderInjective(i + 1, j + 1);
  }

  /** The display name follows the precedence list name, title, position. */
  lemma DisplayNamePrecedence(e: CartEntry, i: nat)
    ensures DisplayName(e, i) == FirstTruthy([e.name, e.title], Placeholder(i))
    ensures !Truthy(e.name) && !Truthy(e.title) ==>
              PlaceholderPosition(DisplayName(e, i)) == Some(i + 1)
  {
    var c := [e.name, e.title];
    if !Truthy(e.name) && !Truthy(e.title) {
      assert forall k :: 0 <= k < |c| ==> !Truthy(c[k]);
      PlaceholderRoundTrip(i);
    } else if !Truthy(e.name) {
      assert Truthy(c[1]) && !Truthy(c[0]);
    } else {
      assert Truthy(c[0]);
    }
  }

  // ---------------------------------------------------------------------------
  // Amounts

  /** `Math.round`: the nearest integer, halves rounded toward +infinity. */
  function RoundHalfUp(x: real): (n: int)
    ensures n as real - 0.5 <= x < n as real + 0.5
  {
    (x + 0.5).Floor
  }

  /** Only one integer lies in the half-open interval `RoundHalfUp` promises. */
  lemma RoundHalfUpUnique(x: real, m: int)
    requires m as real - 0.5 <= x < m as real + 0.5
    ensures RoundHalfUp(x) == m
  {
  }

  /** A major-unit price as a whole number of minor units (cents). */
  function Cents(price: real): (c: int)
    ensures price > 0.0 ==> c >= 0
    ensures c as real - 0.5 <= price * 100.0 < c as real + 0.5
  {
    RoundHalfUp(price * 100.0)
  }

  /** The quantity actually used: an absent quantity counts as 1. */
  function QuantityNumber(q: Option<Number>): Number {
    if q.Some? then q.value else Finite(1.0)
  }

  // ---------------------------------------------------------------------------
  // Per-entry validation

  predicate PriceAccepted(price: Number) {
    IsFinite(price) && price.value > 0.0
  }

  predicate QuantityAccepted(qty: Number) {
    IsInteger(qty) && qty.value > 0.0
  }

  /** An entry that becomes a line item rather than a rejection. */
  predicate EntryValid(e: CartEntry) {
    PriceAccepted(e.price) && QuantityAccepted(QuantityNumber(e.quantity))
  }

  /** The invariants every emitted line item satisfies. */
  predicate WellFormed(item: LineItem) {
    && item.currency == Currency
    && |item.name| > 0
    && item.unitAmount >= 0
    && item.quantity >= 1
  }

  /** The `map` callback for entry `e` at zero-based index `i`. The price is
      checked before the quantity, so an entry wrong in both is reported for
      its price. */
  function NormalizeEntry(e: CartEntry, i: nat): (r: Result<LineItem, Rejection>)
    ensures r.Success? <==> EntryValid(e)
    ensures r.Success? ==>
              && WellFormed(r.value)
              && r.value.name == DisplayName(e, i)
              && r.value.unitAmount == Cents(e.price.value)
              && r.value.quantity as real == QuantityNumber(e.quantity).value
    ensures r.Failure? ==>
              && (r.error.InvalidPrice? || r.error.InvalidQuantity?)
              && r.error.item == DisplayName(e, i)
              && (r.error.InvalidPrice? <==> !PriceAccepted(e.price))
  {
    var name := DisplayName(e, i);
    var price := e.price;
    var qty := QuantityNumber(e.quantity);
    if !IsFinite(price) || price.value <= 0.0 then
      Failure(InvalidPrice(name))
    else if !IsInteger(qty) || qty.value <= 0.0 then
      Failure(InvalidQuantity(name))
    else
      Success(LineItem(Currency, name, Cents(price.value), qty.value.Floor))
  }

  // ---------------------------------------------------------------------------
  // The whole list

  /** Maps `es[i..]`, stopping at the first entry that is rejected. */
  function MapFrom(es: seq<CartEntry>, i: nat): (r: Result<seq<LineItem>, Rejection>)
    requires i <= |es|
    ensures r.Success? ==> |r.value| == |es| - i
    ensures r.Failure? ==> !r.error.NoProducts?
    decreases |es| - i
  {
    if i == |es| then Success([])
    else
      match NormalizeEntry(es[i], i)
      case Failure(err) => Failure(err)
      case Success(item) =>
        match MapFrom(es, i + 1)
        case Failure(err) => Failure(err)
        case Success(rest) => Success([item] + rest)
  }

  /** The normalisation step: reject a missing, non-array or empty list,
      otherwise map every entry. */
  function Normalize(products: Products): (r: Result<seq<LineItem>, Rejection>)
    ensures r == Failure(NoProducts) <==> !products.List? || |products.entries| == 0
    ensures r.Success? ==> products.List? && |r.value| == |products.entries|
  {
    if !products.List? || |products.entries| == 0 then Failure(NoProducts)
    else MapFrom(products.entries, 0)
  }

  /** The index of the first rejected entry at or after `i`, or `|es|`. */
  function FirstInvalid(es: seq<CartEntry>, i: nat): (k: nat)
    requires i <= |es|
    ensures i <= k <= |es|
    ensures forall j :: i <= j < k ==> EntryValid(es[j])
    ensures k < |es| ==> !EntryValid(es[k])
    decreases |es| - i
  {
    if i == |es| || !EntryValid(es[i]) then i else FirstInvalid(es, i + 1)
  }

  // ---------------------------------------------------------------------------
  // Properties of the mapping

  lemma {:induction false} MapFromSucceedsIff(es: seq<CartEntry>, i: nat)
    requires i <= |es|
    ensures MapFrom(es, i).Success? <==> forall k :: i <= k < |es| ==> EntryValid(es[k])
    decreases |es| - i
  {
    if i < |es| {
      MapFromSucceedsIff(es, i + 1);
    }
  }

  lemma {:induction false} MapFromItems(es: seq<CartEntry>, i: nat)
    requires i <= |es|
    requires MapFrom(es, i).Success?
    ensures forall k :: i <= k < |es| ==>
              NormalizeEntry(es[k], k) == Success(MapFrom(es, i).value[k - i])
    decreases |es| - i
  {
    if i < |es| {
      MapFromItems(es, i + 1);
    }
  }

  lemma {:induction false} MapFromFirstInvalid(es: seq<CartEntry>, i: nat, k: nat)
    requires i <= k < |es|
    requires !EntryValid(es[k])
    requires forall j :: i <= j < k ==> EntryValid(es[j])
    ensures MapFrom(es, i) == Failure(NormalizeEntry(es[k], k).error)
    decreases k - i
  {
    if i < k {
      MapFromFirstInvalid(es, i + 1, k);
    }
  }

  /** A non-empty cart is accepted exactly when every entry is valid. */
  lemma NormalizeSucceedsIff(entries: seq<CartEntry>)
    ensures Normalize(List(entries)).Success? <==>
              |entries| > 0 && forall k :: 0 <= k < |entries| ==> EntryValid(entries[k])
  {
    if |entries| > 0 {
      MapFromSucceedsIff(entries, 0);
    }
  }

  /** On success item `k` comes from entry `k`: same order, the resolved
      display name, the price in cents, the quantity (1 when absent) and the
      fixed currency. */
  lemma NormalizeItems(entries: seq<CartEntry>)
    requires Normalize(List(entries)).Success?
    ensures |Normalize(List(entries)).value| == |entries|
    ensures forall k :: 0 <= k < |entries| ==>
              var item := Normalize(List(entries)).value[k];
              && EntryValid(entries[k])
              && WellFormed(item)
              && item.name == DisplayName(entries[k], k)
              && item.unitAmount == Cents(entries[k].price.value)
              && item.quantity as real == QuantityNumber(entries[k].quantity).value
  {
    MapFromItems(entries, 0);
    forall k | 0 <= k < |entries|
      ensures var item := Normalize(List(entries)).value[k];
              && EntryValid(entries[k])
              && WellFormed(item)
              && item.name == DisplayName(entries[k], k)
              && item.unitAmount == Cents(entries[k].price.value)
              && item.quantity as real == QuantityNumber(entries[k].quantity).value
    {
      assert NormalizeEntry(entries[k], k).Success?;
    }
  }

  /** Fail-fast: the rejection reported is the one of the lowest-index
      invalid entry, for its price if the price is bad, else for its
      quantity. */
  lemma NormalizeFailsAtFirstInvalid(entries: seq<CartEntry>, k: nat)
    requires k < |entries|
    requires !EntryValid(entries[k])
    requires forall j :: 0 <= j < k ==> EntryValid(entries[j])
    ensures Normalize(List(entries)) ==
              Failure(if !PriceAccepted(entries[k].price)
                      then InvalidPrice(DisplayName(entries[k], k))
                      else InvalidQuantity(DisplayName(entries[k], k)))
  {
    MapFromFirstInvalid(entries, 0, k);
  }

  /** Every rejection of a non-empty cart is caused by some entry, the first
      invalid one. */
  lemma NormalizeFailureHasCause(entries: seq<CartEntry>)
    requires |entries| > 0
    requires Normalize(List(entries)).Failure?
    ensures exists k :: 0 <= k < |entries| && !EntryValid(entries[k])
                        && (forall j :: 0 <= j < k ==> EntryValid(entries[j]))
                        && Normalize(List(entries)) == Failure(NormalizeEntry(entries[k], k).error)
  {
    NormalizeSucceedsIff(entries);
    var k := FirstInvalid(entries, 0);
    MapFromFirstInvalid(entries, 0, k);
  }

  /** Entries after a rejected one are never looked at: appending to a
      rejected cart leaves the rejection unchanged. */
  lemma FailFastIgnoresLaterEntries(entries: seq<CartEntry>, more: seq<CartEntry>)
    requires |entries| > 0
    requires Normalize(List(entries)).Failure?
    ensures Normalize(List(entries + more)) == Normalize(List(entries))
  {
    NormalizeSucceedsIff(entries);
    var k := FirstInvalid(entries, 0);
    var all := entries + more;
    assert forall j :: 0 <= j <= k ==> all[j] == entries[j];
    MapFromFirstInvalid(entries, 0, k);
    MapFromFirstInvalid(all, 0, k);
  }

  /** A cart's accepted prefix maps to the same items on its own. */
  lemma AcceptedPrefix(entries: seq<CartEntry>, more: seq<CartEntry>)
    requires |entries| > 0
    requires Normalize(List(entries + more)).Success?
    ensures Normalize(List(entries)).Success?
    ensures Normalize(List(entries)).value == Normalize(List(entries + more)).value[..|entries|]
  {
    var all := entries + more;
    assert forall j :: 0 <= j < |entries| ==> all[j] == entries[j];
    NormalizeSucceedsIff(all);
    NormalizeSucceedsIff(entries);
    MapFromItems(all, 0);
    MapFromItems(entries, 0);
    var a := Normalize(List(entries)).value;
    var b := Normalize(List(all)).value;
    forall j | 0 <= j < |entries|
      ensures a[j] == b[j]
    {
      assert NormalizeEntry(entries[j], j) == Success(a[j]);
      assert NormalizeEntry(all[j], j) == Success(b[j]);
    }
  }
}
