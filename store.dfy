/**
 * The public storefront page (pages/Store.tsx): a cart kept as a map from
 * product id to quantity, the two folds that derive the item count and the
 * amount payable from it, the seller-name formatting of the URL slug, and the
 * four-step checkout driven by the floating bottom button.
 */
module Store {
  import opened Wrappers
  import opened Text

  /** A catalog entry, with the fields of the `Product` record. Prices are whole
      amounts of money. */
  datatype Product = Product(
    id: string,
    name: string,
    price: int,
    stock: int,
    safetyBuffer: int,
    image: string)

  /** The catalog the page lists. */
  const MockProducts: seq<Product> := [
    Product("1", "Silk Floral Summer Dress", 250, 12, 2, "https://picsum.photos/400/500?random=1"),
    Product("2", "Vintage Leather Handbag", 180, 5, 1, "https://picsum.photos/400/500?random=2"),
    Product("3", "Minimalist Gold Hoops", 85, 45, 5, "https://picsum.photos/400/500?random=3")
  ]

  /** No two catalog entries share an id. */
  predicate UniqueIds(catalog: seq<Product>)
  {
    forall i, j :: 0 <= i < j < |catalog| ==> catalog[i].id != catalog[j].id
  }

  /** Position `i` holds the first product with that id. */
  predicate FirstWithId(catalog: seq<Product>, id: string, i: int)
  {
    0 <= i < |catalog| && catalog[i].id == id
    && forall j :: 0 <= j < i ==> catalog[j].id != id
  }

  /** `catalog.find(p => p.id === id)`: the first product with that id, if any. */
  function Find(catalog: seq<Product>, id: string): (r: Option<Product>)
    ensures r.Some? ==> r.value in catalog && r.value.id == id
    ensures r.None? <==> forall i :: 0 <= i < |catalog| ==> catalog[i].id != id
    ensures r.Some? ==> exists i :: FirstWithId(catalog, id, i) && r.value == catalog[i]
  {
    if catalog == [] then None
    else if catalog[0].id == id then Some(catalog[0])
    else Find(catalog[1..], id)
  }

  // ---------------------------------------------------------------------------
  // The cart

  /** The cart: product id to the quantity requested. */
  type Cart = map<string, int>

  /** What the page keeps true of its cart: no entry stores zero or less. */
  predicate AllPositive(cart: Cart)
  {
    forall id :: id in cart ==> cart[id] > 0
  }

  /** `cart[id] || 0`: the quantity of `id`, zero when the id has no entry. */
  function Quantity(cart: Cart, id: string): (q: int)
    ensures id !in cart ==> q == 0
    ensures AllPositive(cart) ==> (q > 0 <==> id in cart)
  {
    if id in cart then cart[id] else 0
  }

  function Max(a: int, b: int): int
  {
    if a < b then b else a
  }

  /** The state updater of `updateQuantity(id, delta)`: the new quantity is the
      old one plus `delta`, clamped at zero; a zero quantity removes the entry. */
  function UpdateQuantity(cart: Cart, id: string, delta: int): (r: Cart)
    ensures Quantity(r, id) == Max(0, Quantity(cart, id) + delta)
    ensures id in r <==> Quantity(cart, id) + delta > 0
    ensures r - {id} == cart - {id}
    ensures AllPositive(cart) ==> AllPositive(r)
  {
    var next := Max(0, Quantity(cart, id) + delta);
    if next == 0 then cart - {id} else cart[id := next]
  }

  /** Removing one unit of a product that is not in the cart leaves the cart as it was. */
  lemma RemoveAbsentIsNoOp(cart: Cart, id: string)
    requires id !in cart
    ensures UpdateQuantity(cart, id, -1) == cart
  {
    assert cart - {id} == cart;
  }

  // ---------------------------------------------------------------------------
  // Folds over the cart

  /** Some key of a non-empty cart. */
  ghost function AnyId(cart: Cart): string
    requires cart != map[]
  {
    var id :| id in cart; id
  }

  /** The sum of `term(id, quantity)` over the entries of the cart, in whatever
      order the entries are visited. */
  ghost function SumOver(cart: Cart, term: (string, int) -> int): int
    decreases |cart|
  {
    if cart == map[] then 0
    else
      var id := AnyId(cart);
      assert |cart - {id}| < |cart| by { assert (cart - {id}).Keys == cart.Keys - {id}; }
      term(id, cart[id]) + SumOver(cart - {id}, term)
  }

  /** The order of visiting does not matter: any entry can be taken out first. */
  lemma {:induction false} SumOverRemove(cart: Cart, term: (string, int) -> int, id: string)
    requires id in cart
    ensures SumOver(cart, term) == term(id, cart[id]) + SumOver(cart - {id}, term)
    decreases |cart|
  {
    var first := AnyId(cart);
    if first != id {
      assert (cart - {first}).Keys == cart.Keys - {first};
      assert (cart - {id}).Keys == cart.Keys - {id};
      SumOverRemove(cart - {first}, term, id);
      SumOverRemove(cart - {id}, term, first);
      assert cart - {first} - {id} == cart - {id} - {first};
    }
  }

  /** A sum of positive terms is positive exactly when there is an entry. */
  lemma {:induction false} SumOverPositive(cart: Cart, term: (string, int) -> int)
    requires forall id :: id in cart ==> term(id, cart[id]) > 0
    ensures SumOver(cart, term) >= 0
    ensures SumOver(cart, term) > 0 <==> cart != map[]
    decreases |cart|
  {
    if cart != map[] {
      var id := AnyId(cart);
      assert (cart - {id}).Keys == cart.Keys - {id};
      SumOverPositive(cart - {id}, term);
    }
  }

  /** How one `updateQuantity` changes a sum whose terms vanish at quantity zero. */
  lemma SumOverUpdate(cart: Cart, term: (string, int) -> int, id: string, delta: int)
    requires term(id, 0) == 0
    ensures SumOver(UpdateQuantity(cart, id, delta), term)
         == SumOver(cart, term) - term(id, Quantity(cart, id)) + term(id, Max(0, Quantity(cart, id) + delta))
  {
    var r := UpdateQuantity(cart, id, delta);
    if id in cart {
      SumOverRemove(cart, term, id);
    } else {
      assert cart - {id} == cart;
    }
    if id in r {
      SumOverRemove(r, term, id);
    }
  }

  function QuantityTerm(id: string, quantity: int): int
  {
    quantity
  }

  /** `cartCount`: the sum of all quantities in the cart. */
  ghost function CartCount(cart: Cart): int
  {
    SumOver(cart, QuantityTerm)
  }

  /** The item count is never negative, and it is positive exactly when the
      cart has an entry, so the page's `cartCount > 0` tests for a non-empty cart. */
  lemma CartCountPositive(cart: Cart)
    requires AllPositive(cart)
    ensures CartCount(cart) >= 0
    ensures CartCount(cart) > 0 <==> cart != map[]
  {
    SumOverPositive(cart, QuantityTerm);
  }

  /** The item count after `updateQuantity(id, delta)`. */
  lemma CartCountUpdate(cart: Cart, id: string, delta: int)
    ensures CartCount(UpdateQuantity(cart, id, delta))
         == CartCount(cart) - Quantity(cart, id) + Max(0, Quantity(cart, id) + delta)
  {
    SumOverUpdate(cart, QuantityTerm, id, delta);
  }

  /** The `+` button raises the item count by exactly one. */
  lemma CartCountAddOne(cart: Cart, id: string)
    requires AllPositive(cart)
    ensures CartCount(UpdateQuantity(cart, id, 1)) == CartCount(cart) + 1
  {
    CartCountUpdate(cart, id, 1);
  }

  /** The `-` button on a product in the cart lowers the item count by exactly one. */
  lemma CartCountRemoveOne(cart: Cart, id: string)
    requires AllPositive(cart) && id in cart
    ensures CartCount(UpdateQuantity(cart, id, -1)) == CartCount(cart) - 1
  {
    CartCountUpdate(cart, id, -1);
  }

  /** The amount one cart entry adds to the total: price times quantity for a
      product of the catalog, nothing for an unknown id. */
  function LineTotal(catalog: seq<Product>, id: string, quantity: int): int
  {
    match Find(catalog, id)
    case Some(p) => p.price * quantity
    case None => 0
  }

  /** One more unit of a product adds one unit's line to its line total. */
  lemma LineTotalStep(catalog: seq<Product>, id: string, quantity: int)
    ensures LineTotal(catalog, id, quantity + 1) == LineTotal(catalog, id, quantity) + LineTotal(catalog, id, 1)
  {
    match Find(catalog, id)
    case Some(p) =>
      assert p.price * (quantity + 1) == p.price * quantity + p.price;
    case None =>
  }

  function LineTerm(catalog: seq<Product>): (string, int) -> int
  {
    (id, quantity) => LineTotal(catalog, id, quantity)
  }

  /** `totalAmount`: the sum of the line totals of the cart entries. */
  ghost function Total(catalog: seq<Product>, cart: Cart): (amount: int)
    ensures cart == map[] ==> amount == 0
  {
    SumOver(cart, LineTerm(catalog))
  }

  /** An entry whose id is not in the catalog contributes nothing to the total. */
  lemma TotalIgnoresUnknownId(catalog: seq<Product>, cart: Cart, id: string)
    requires Find(catalog, id).None?
    ensures Total(catalog, cart) == Total(catalog, cart - {id})
  {
    if id in cart {
      SumOverRemove(cart, LineTerm(catalog), id);
    } else {
      assert cart - {id} == cart;
    }
  }

  /** The total after `updateQuantity(id, delta)`: the line of `id` is recomputed
      and every other line stays. */
  lemma TotalUpdate(catalog: seq<Product>, cart: Cart, id: string, delta: int)
    ensures Total(catalog, UpdateQuantity(cart, id, delta))
         == Total(catalog, cart) - LineTotal(catalog, id, Quantity(cart, id))
            + LineTotal(catalog, id, Max(0, Quantity(cart, id) + delta))
  {
    SumOverUpdate(cart, LineTerm(catalog), id, delta);
  }

  /** The total read off the catalog: for each listed product, its price times
      the quantity the page shows beside it. */
  function CatalogTotal(catalog: seq<Product>, cart: Cart): int
  {
    if catalog == [] then 0
    else catalog[0].price * Quantity(cart, catalog[0].id) + CatalogTotal(catalog[1..], cart)
  }

  /** The catalog total reads the cart only at the catalog's ids. */
  lemma {:induction false} CatalogTotalFrame(catalog: seq<Product>, a: Cart, b: Cart)
    requires forall i :: 0 <= i < |catalog| ==> Quantity(a, catalog[i].id) == Quantity(b, catalog[i].id)
    ensures CatalogTotal(catalog, a) == CatalogTotal(catalog, b)
  {
    if catalog != [] {
      CatalogTotalFrame(catalog[1..], a, b);
    }
  }

  /** Taking one entry out of the cart lowers the catalog total by that entry's line. */
  lemma {:induction false} CatalogTotalRemove(catalog: seq<Product>, cart: Cart, id: string)
    requires UniqueIds(catalog) && id in cart
    ensures CatalogTotal(catalog, cart) == LineTotal(catalog, id, cart[id]) + CatalogTotal(catalog, cart - {id})
  {
    if catalog == [] {
    } else if catalog[0].id == id {
      var tail := catalog[1..];
      forall i | 0 <= i < |tail| ensures Quantity(cart, tail[i].id) == Quantity(cart - {id}, tail[i].id) {
        assert tail[i].id == catalog[i + 1].id != catalog[0].id;
      }
      CatalogTotalFrame(tail, cart, cart - {id});
    } else {
      CatalogTotalRemove(catalog[1..], cart, id);
    }
  }

  /** With unique catalog ids, the page's fold over the cart equals the sum over
      the catalog of price times shown quantity. */
  lemma {:induction false} TotalMatchesCatalog(catalog: seq<Product>, cart: Cart)
    requires UniqueIds(catalog)
    ensures Total(catalog, cart) == CatalogTotal(catalog, cart)
    decreases |cart|
  {
    if cart == map[] {
      CatalogTotalFrame(catalog, cart, map[]);
      CatalogTotalOfEmpty(catalog);
    } else {
      var id := AnyId(cart);
      assert (cart - {id}).Keys == cart.Keys - {id};
      TotalMatchesCatalog(catalog, cart - {id});
      CatalogTotalRemove(catalog, cart, id);
    }
  }

  lemma {:induction false} CatalogTotalOfEmpty(catalog: seq<Product>)
    ensures CatalogTotal(catalog, map[]) == 0
  {
    if catalog != [] {
      CatalogTotalOfEmpty(catalog[1..]);
    }
  }

  // The examples below take their literal inputs as parameters fixed by a
  // `requires`: with the literal written into the call, the verifier unfolds the
  // recursive definitions on it eagerly and the proofs no longer stay small.

  /** Two dresses and one handbag cost 2 * 250 + 180 = 680. */
  lemma SampleCheckoutTotal(cart: Cart)
    requires cart == map["1" := 2, "2" := 1]
    ensures Total(MockProducts, cart) == 680
  {
    TotalMatchesCatalog(MockProducts, cart);
    assert Quantity(cart, "1") == 2 && Quantity(cart, "2") == 1 && Quantity(cart, "3") == 0;
    assert CatalogTotal(MockProducts[2..], cart) == 0;
  }

  /** Two dresses and one handbag are three items. */
  lemma SampleCheckoutCount(cart: Cart)
    requires cart == map["1" := 2, "2" := 1]
    ensures CartCount(cart) == 3
  {
    SumOverRemove(cart, QuantityTerm, "1");
    var rest := cart - {"1"};
    assert rest == map["2" := 1];
    SumOverRemove(rest, QuantityTerm, "2");
    assert rest - {"2"} == map[];
  }

  // ---------------------------------------------------------------------------
  // The seller name shown in the header

  /** `s.charAt(0).toUpperCase() + s.slice(1)`. */
  function Capitalize(s: string): (r: string)
    ensures |r| == |s|
    ensures forall j :: 0 < j < |s| ==> r[j] == s[j]
    ensures s != [] ==> r[0] == UpperChar(s[0])
  {
    if s == [] then [] else [UpperChar(s[0])] + s[1..]
  }

  function CapitalizeEach(parts: seq<string>): (r: seq<string>)
    ensures |r| == |parts|
  {
    if parts == [] then [] else [Capitalize(parts[0])] + CapitalizeEach(parts[1..])
  }

  lemma CapitalizeEachCons(first: string, rest: seq<string>)
    ensures CapitalizeEach([first] + rest) == [Capitalize(first)] + CapitalizeEach(rest)
  {
    assert ([first] + rest)[1..] == rest;
  }

  /** `formatSlug(slug)`: split at `-`, capitalize each piece, join with spaces. */
  function FormatSlug(slug: string): string
  {
    Join(CapitalizeEach(Split(slug, '-')), ' ')
  }

  /** `formatSlug(sellerSlug)` where the route parameter may be missing: the
      parameter defaults to the empty string. */
  function FormatSellerSlug(sellerSlug: Option<string>): (name: string)
    ensures sellerSlug.None? ==> name == ""
    ensures sellerSlug.Some? ==> name == FormatSlug(sellerSlug.value)
  {
    FormatSlug(sellerSlug.GetOr(""))
  }

  /** Character `i` of the formatted name, read off the slug alone: a dash
      becomes a space, the first character of each piece is upper-cased, any
      other character is kept. */
  function SlugChar(slug: string, i: nat): char
    requires i < |slug|
  {
    if slug[i] == '-' then ' '
    else if i == 0 || slug[i - 1] == '-' then UpperChar(slug[i])
    else slug[i]
  }

  /** A slug without a dash is one piece: it is only capitalized. */
  lemma FormatSlugWhole(slug: string)
    requires IndexOf(slug, '-') == |slug|
    ensures FormatSlug(slug) == Capitalize(slug)
  {
    SplitFirst(slug, '-');
    CapitalizeEachCons(slug, []);
  }

  /** One piece at a time: the formatted slug is the capitalized piece before
      the first dash, a space, and the formatted rest. */
  lemma FormatSlugAtDash(slug: string, i: nat)
    requires i == IndexOf(slug, '-') < |slug|
    ensures FormatSlug(slug) == Capitalize(slug[..i]) + [' '] + FormatSlug(slug[i + 1..])
  {
    var pieces := Split(slug[i + 1..], '-');
    SplitFirst(slug, '-');
    CapitalizeEachCons(slug[..i], pieces);
    JoinCons(Capitalize(slug[..i]), CapitalizeEach(pieces), ' ');
  }

  /** The formatted name has the slug's length and, position by position, the
      character `SlugChar` gives; in particular it holds no dash. */
  lemma {:induction false} FormatSlugSpec(slug: string)
    ensures |FormatSlug(slug)| == |slug|
    ensures forall i :: 0 <= i < |slug| ==> FormatSlug(slug)[i] == SlugChar(slug, i)
    ensures '-' !in FormatSlug(slug)
    decreases |slug|
  {
    var i := IndexOf(slug, '-');
    var r := FormatSlug(slug);
    if i == |slug| {
      FormatSlugWhole(slug);
      forall j | 0 <= j < |slug| ensures r[j] == SlugChar(slug, j) {
        assert slug[j] != '-';
        if j > 0 {
          assert slug[j - 1] != '-';
        }
      }
    } else {
      var head, tail := slug[..i], slug[i + 1..];
      FormatSlugAtDash(slug, i);
      FormatSlugSpec(tail);
      var rest := FormatSlug(tail);
      assert r == Capitalize(head) + [' '] + rest;
      forall j | 0 <= j < |slug| ensures r[j] == SlugChar(slug, j) {
        if j < i {
          assert r[j] == Capitalize(head)[j];
          assert slug[j] != '-';
          if j > 0 {
            assert slug[j - 1] != '-';
          }
        } else if j > i {
          var k := j - i - 1;
          assert r[j] == rest[k] == SlugChar(tail, k);
          assert tail[k] == slug[j];
          if k > 0 {
            assert tail[k - 1] == slug[j - 1];
          }
        }
      }
    }
    forall j | 0 <= j < |slug| ensures r[j] != '-' {
      assert r[j] == SlugChar(slug, j);
    }
  }

  /** A slug with exactly one dash formats to its two pieces, capitalized and
      joined by a space. */
  lemma FormatSlugTwoPieces(slug: string, i: nat)
    requires i < |slug| && slug[i] == '-'
    requires forall j :: 0 <= j < |slug| && j != i ==> slug[j] != '-'
    ensures FormatSlug(slug) == Capitalize(slug[..i]) + [' '] + Capitalize(slug[i + 1..])
  {
    var rest := slug[i + 1..];
    FormatSlugAtDash(slug, i);
    assert forall j :: 0 <= j < |rest| ==> rest[j] == slug[i + 1 + j];
    FormatSlugWhole(rest);
  }

  // A literal parameter, as for the sample checkout above.
  /** The storefront of `sarah-boutique` is headed "Sarah Boutique". */
  lemma FormatSlugExample(slug: string)
    requires slug == "sarah-boutique"
    ensures FormatSlug(slug) == "Sarah Boutique"
  {
    FormatSlugTwoPieces(slug, 5);
  }

  // ---------------------------------------------------------------------------
  // The checkout steps

  datatype Step = Browse | Form | Payment | Done

  /** Position of a step along `browse -> form -> payment -> done`. */
  function Rank(step: Step): nat
  {
    match step
    case Browse => 0
    case Form => 1
    case Payment => 2
    case Done => 3
  }

  /** The step the floating bottom button leads to, or `None` when no button is
      shown: the bar is rendered only while the cart count is positive, and the
      confirmation page replaces the whole view. */
  function BottomAction(step: Step, countPositive: bool): (next: Option<Step>)
    ensures next.Some? <==> step != Done && countPositive
    ensures next.Some? ==> Rank(next.value) == Rank(step) + 1
  {
    if step == Done then None
    else if !countPositive then None
    else match step
      case Browse => Some(Form)
      case Form => Some(Payment)
      case _ => Some(Done)
  }

  /** The page's two state cells, `cart` and `step`, with the catalog it lists. */
  class Storefront {
    const catalog: seq<Product>
    var cart: Cart
    var step: Step

    /** Quantities are positive, and past the browse view the cart is never empty. */
    ghost predicate Valid()
      reads this
    {
      AllPositive(cart) && (step != Browse ==> CartCount(cart) > 0)
    }

    /** A fresh visit: empty cart, browsing. */
    constructor (catalog: seq<Product>)
      ensures Valid()
      ensures this.catalog == catalog && cart == map[] && step == Browse
    {
      this.catalog := catalog;
      cart := map[];
      step := Browse;
    }

    /** The `+` button beside product `id` on the browse view. */
    method Add(id: string)
      requires Valid() && step == Browse
      modifies this
      ensures Valid() && step == Browse
      ensures cart == UpdateQuantity(old(cart), id, 1)
      ensures CartCount(cart) == old(CartCount(cart)) + 1
      ensures Total(catalog, cart) == old(Total(catalog, cart)) + LineTotal(catalog, id, 1)
    {
      ghost var q := Quantity(cart, id);
      CartCountAddOne(cart, id);
      TotalUpdate(catalog, cart, id, 1);
      LineTotalStep(catalog, id, q);
      assert Max(0, q + 1) == q + 1;
      cart := UpdateQuantity(cart, id, 1);
    }

    /** The `-` button beside product `id` on the browse view. */
    method Remove(id: string)
      requires Valid() && step == Browse
      modifies this
      ensures Valid() && step == Browse
      ensures cart == UpdateQuantity(old(cart), id, -1)
      ensures id !in old(cart) ==> cart == old(cart)
      ensures id in old(cart) ==> CartCount(cart) == old(CartCount(cart)) - 1
      ensures id in old(cart) ==> Total(catalog, cart) == old(Total(catalog, cart)) - LineTotal(catalog, id, 1)
    {
      if id in cart {
        CartCountRemoveOne(cart, id);
        ghost var q := cart[id];
        TotalUpdate(catalog, cart, id, -1);
        LineTotalStep(catalog, id, q - 1);
        assert Quantity(cart, id) == q && Max(0, q - 1) == q - 1;
      } else {
        RemoveAbsentIsNoOp(cart, id);
      }
      cart := UpdateQuantity(cart, id, -1);
    }

    /** A press of the floating bottom button, if one is shown: one step forward. */
    method Advance() returns (moved: bool)
      requires Valid()
      modifies this
      ensures Valid() && cart == old(cart)
      ensures moved <==> old(step) != Done && old(CartCount(cart)) > 0
      ensures BottomAction(old(step), old(CartCount(cart)) > 0) == if moved then Some(step) else None
      ensures !moved ==> step == old(step)
    {
      CartCountPositive(cart);
      var next := BottomAction(step, cart != map[]);
      moved := next.Some?;
      if moved {
        step := next.value;
      }
    }
  }
}
