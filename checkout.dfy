/**
 * The Checkout page's price state: the package quantity, the selected
 * extras, the promo code, and the totals derived from them. Money is kept
 * in whole cents, where every price on the page is exact.
 */
module Checkout {
  import opened Wrappers
  import opened Seqs
  import opened Text

  datatype Extra = Extra(id: string, name: string, price: nat)

  /** The package price, `gig.price`, in cents. */
  const GigPrice: nat := 7500

  /** `serviceFee`, in cents. */
  const ServiceFee: nat := 525

  /** The promo discount, in cents. */
  const PromoDiscount: nat := 1000

  /** The code `applyPromoCode` accepts, compared after lowercasing. */
  const PromoCode: string := "save10"

  /** The extras on offer, in page order. */
  const Extras: seq<Extra> := [
    Extra("1", "Extra Fast Delivery (24 hours)", 2500),
    Extra("2", "Additional Revision", 1500),
    Extra("3", "Source Files", 2000),
    Extra("4", "Commercial License", 3000)
  ]

  /** `es.find(e => e.id === id)`: the first extra with that id, if any. */
  function FindExtra(es: seq<Extra>, id: string): (r: Option<Extra>)
    ensures r.None? <==> forall i :: 0 <= i < |es| ==> es[i].id != id
    ensures r.Some? ==> r.value in es && r.value.id == id
    ensures r.Some? ==> exists i :: 0 <= i < |es| && es[i] == r.value && forall j :: 0 <= j < i ==> es[j].id != id
  {
    if es == [] then None
    else if es[0].id == id then
      assert es[0] == es[0];
      Some(es[0])
    else
      var r := FindExtra(es[1..], id);
      if r.Some? then
        ghost var i :| 0 <= i < |es[1..]| && es[1..][i] == r.value && forall j :: 0 <= j < i ==> es[1..][j].id != id;
        assert es[i + 1] == r.value;
        assert forall j :: 0 <= j < i + 1 ==> es[j].id != id by {
          forall j | 0 <= j < i + 1 ensures es[j].id != id {
            if j > 0 {
              assert es[j] == es[1..][j - 1];
            }
          }
        }
        r
      else
        assert forall i :: 0 <= i < |es| ==> es[i].id != id by {
          forall i | 0 <= i < |es| ensures es[i].id != id {
            if i > 0 {
              assert es[i] == es[1..][i - 1];
            }
          }
        }
        r
  }

  /** `extra?.price || 0`: the price of the extra with that id; an unknown id costs nothing. */
  function PriceOf(id: string): (p: nat)
    ensures (forall e :: e in Extras ==> e.id != id) ==> p == 0
    ensures forall e :: e in Extras && e.id == id ==> p == e.price
  {
    match FindExtra(Extras, id)
    case None => 0
    case Some(e) => e.price
  }

  /**
   * The left-to-right `reduce((sum, id) => sum + price(id), 0)` over the
   * selected ids.
   */
  function SumOf(ids: seq<string>, price: string -> nat): nat {
    if ids == [] then 0 else SumOf(ids[..|ids| - 1], price) + price(ids[|ids| - 1])
  }

  /** `extrasTotal`: the price of every selected id, added up. */
  function ExtrasTotal(ids: seq<string>): (t: nat)
    ensures forall id :: id in ids ==> PriceOf(id) <= t
  {
    SumOfCovers(ids, PriceOf);
    SumOf(ids, PriceOf)
  }

  /** The sum is at least the price of each id in it. */
  lemma {:induction false} SumOfCovers(ids: seq<string>, price: string -> nat)
    ensures forall id :: id in ids ==> price(id) <= SumOf(ids, price)
  {
    if ids != [] {
      var init := ids[..|ids| - 1];
      SumOfCovers(init, price);
      assert ids == init + [ids[|ids| - 1]];
    }
  }

  /** Selecting one more id adds exactly its price. */
  lemma SumOfAppend(ids: seq<string>, id: string, price: string -> nat)
    ensures SumOf(ids + [id], price) == SumOf(ids, price) + price(id)
  {
    assert (ids + [id])[..|ids|] == ids;
  }

  lemma OneMoreTimes(c: int, p: int)
    ensures (c + 1) * p == c * p + p
  {
  }

  /** Removing every occurrence of an id takes off its price once per occurrence. */
  lemma {:induction false} SumOfRemove(ids: seq<string>, id: string, price: string -> nat)
    ensures SumOf(Remove(ids, id), price) + multiset(ids)[id] * price(id) == SumOf(ids, price)
  {
    if ids != [] {
      var init, last := ids[..|ids| - 1], ids[|ids| - 1];
      assert ids == init + [last];
      SumOfRemove(init, id, price);
      RemoveSnoc(init, last, id);
      var c, p := multiset(init)[id], price(id);
      assert multiset(ids) == multiset(init) + multiset([last]);
      if last == id {
        assert multiset(ids)[id] == c + 1;
        OneMoreTimes(c, p);
        assert Remove(ids, id) == Remove(init, id);
      } else {
        assert multiset(ids)[id] == c;
        SumOfAppend(Remove(init, id), last, price);
      }
    }
  }

  /**
   * `handleExtraToggle` on a list without duplicates: selecting an extra
   * adds its price, deselecting it takes its price off.
   */
  lemma ExtrasTotalToggle(ids: seq<string>, id: string)
    requires NoDup(ids)
    ensures ExtrasTotal(Toggle(ids, id)) == if id in ids then ExtrasTotal(ids) - PriceOf(id) else ExtrasTotal(ids) + PriceOf(id)
  {
    if id in ids {
      SumOfRemove(ids, id, PriceOf);
      NoDupCount(ids, id);
    } else {
      SumOfAppend(ids, id, PriceOf);
    }
  }

  /** `discount`: the promo discount exactly when the promo is applied. */
  function Discount(promoApplied: bool): (d: nat)
    ensures d == PromoDiscount <==> promoApplied
    ensures d == 0 <==> !promoApplied
  {
    if promoApplied then PromoDiscount else 0
  }

  /** `total = subtotal + extrasTotal + serviceFee - discount`, with `subtotal = gig.price * quantity`. */
  function Total(quantity: int, ids: seq<string>, promoApplied: bool): (t: int)
    ensures t >= GigPrice * quantity + ServiceFee - PromoDiscount
    ensures !promoApplied ==> t >= GigPrice * quantity + ServiceFee
  {
    GigPrice * quantity + ExtrasTotal(ids) + ServiceFee - Discount(promoApplied)
  }

  /** One more package raises the total by exactly the package price. */
  lemma TotalIncrement(quantity: int, ids: seq<string>, promoApplied: bool)
    ensures Total(quantity + 1, ids, promoApplied) == Total(quantity, ids, promoApplied) + GigPrice
  {
  }

  /** With at least one package the total is positive, the discount notwithstanding. */
  lemma TotalPositive(quantity: int, ids: seq<string>, promoApplied: bool)
    requires quantity >= 1
    ensures Total(quantity, ids, promoApplied) >= GigPrice + ServiceFee - PromoDiscount > 0
  {
  }

  function Max(a: int, b: int): int {
    if a >= b then a else b
  }

  class CheckoutPage {
    var quantity: int
    var selectedExtras: seq<string>
    var promoCode: string
    var promoApplied: bool

    /** What every reachable state satisfies: at least one package, no extra selected twice. */
    ghost predicate Valid()
      reads this
    {
      quantity >= 1 && NoDup(selectedExtras)
    }

    constructor ()
      ensures quantity == 1 && selectedExtras == [] && promoCode == "" && !promoApplied
      ensures Valid()
    {
      quantity := 1;
      selectedExtras := [];
      promoCode := "";
      promoApplied := false;
    }

    /** The plus button: `setQuantity(quantity + 1)`. */
    method Increment()
      requires Valid()
      modifies this`quantity
      ensures Valid()
      ensures quantity == old(quantity) + 1
      ensures Total(quantity, selectedExtras, promoApplied) == old(Total(quantity, selectedExtras, promoApplied)) + GigPrice
    {
      TotalIncrement(quantity, selectedExtras, promoApplied);
      quantity := quantity + 1;
    }

    /** The minus button: `setQuantity(Math.max(1, quantity - 1))`, so the quantity never drops below one. */
    method Decrement()
      requires Valid()
      modifies this`quantity
      ensures Valid()
      ensures old(quantity) > 1 ==> quantity == old(quantity) - 1
      ensures old(quantity) == 1 ==> quantity == 1
    {
      quantity := Max(1, quantity - 1);
    }

    /** `handleExtraToggle`: flips the membership of `extraId` and moves the total by its price. */
    method ToggleExtra(extraId: string)
      requires Valid()
      modifies this`selectedExtras
      ensures Valid()
      ensures selectedExtras == Toggle(old(selectedExtras), extraId)
      ensures extraId in old(selectedExtras) ==> Total(quantity, selectedExtras, promoApplied) == old(Total(quantity, selectedExtras, promoApplied)) - PriceOf(extraId)
      ensures extraId !in old(selectedExtras) ==> Total(quantity, selectedExtras, promoApplied) == old(Total(quantity, selectedExtras, promoApplied)) + PriceOf(extraId)
    {
      ToggleNoDup(selectedExtras, extraId);
      ExtrasTotalToggle(selectedExtras, extraId);
      selectedExtras := Toggle(selectedExtras, extraId);
    }

    /** The promo input's `onChange`. */
    method SetPromoCode(code: string)
      modifies this`promoCode
      ensures promoCode == code
    {
      promoCode := code;
    }

    /**
     * `applyPromoCode`: turns the promo on when the lowercased code is
     * `save10`, and never turns it off.
     */
    method ApplyPromoCode()
      modifies this`promoApplied
      ensures promoApplied <==> old(promoApplied) || Lower(promoCode) == PromoCode
      ensures old(promoApplied) ==> promoApplied
    {
      if Lower(promoCode) == PromoCode {
        promoApplied := true;
      }
    }
  }

  /** The code is accepted in any ASCII case, e.g. `SAVE10`. */
  lemma PromoCodeAnyCase()
    ensures Lower("SAVE10") == PromoCode
    ensures Lower("Save10") == PromoCode
  {
    assert Lower("SAVE10") == ['s', 'a', 'v', 'e', '1', '0'];
    assert Lower("Save10") == ['s', 'a', 'v', 'e', '1', '0'];
  }

  /** An id the page does not list costs nothing. */
  lemma UnknownExtraFree(id: string)
    requires id !in {"1", "2", "3", "4"}
    ensures PriceOf(id) == 0
  {
  }
}
