/** The target catalog of the shooting range: the menu items the mugs are
    drawn from. In "products" mode there is one item per fetched product
    that has variants (falling back to a fixed placeholder list); in
    "variants" mode one item per variant of the selected product. All
    prices are integer cents. */
module Catalog {

  /** A product variant as the `/product` endpoint delivers it. */
  datatype Variant = Variant(id: string, name: string, price: int)

  /** A product as the `/product` endpoint delivers it. */
  datatype Product = Product(id: string, name: string, variants: seq<Variant>)

  /** One shootable target. */
  datatype MenuItem = MenuItem(id: string, name: string, price: int)

  /** The ids of the products, in order. */
  function ProductIds(products: seq<Product>): (ids: seq<string>)
    ensures |ids| == |products| && forall i :: 0 <= i < |products| ==> ids[i] == products[i].id
  {
    seq(|products|, i requires 0 <= i < |products| => products[i].id)
  }

  /** The ids of the targets, in order. */
  function MenuIds(items: seq<MenuItem>): (ids: seq<string>)
    ensures |ids| == |items| && forall i :: 0 <= i < |items| ==> ids[i] == items[i].id
  {
    seq(|items|, i requires 0 <= i < |items| => items[i].id)
  }

  /** The list shown before any product with variants is known. */
  const Placeholders: seq<MenuItem> := [
    MenuItem("1", "Espresso", 399),
    MenuItem("2", "Latte", 499),
    MenuItem("3", "Cappuccino", 449),
    MenuItem("4", "Mocha", 549),
    MenuItem("5", "Americano", 349)
  ]

  predicate HasVariants(p: Product)
  {
    |p.variants| > 0
  }

  /** The variant prices of the endpoint's schema are non-negative. */
  predicate VariantPricesNonNegative(p: Product)
  {
    forall i :: 0 <= i < |p.variants| ==> p.variants[i].price >= 0
  }

  predicate PricesNonNegative(products: seq<Product>)
  {
    forall j :: 0 <= j < |products| ==> VariantPricesNonNegative(products[j])
  }

  /** The menu item of a product: its id and name, priced at its first variant. */
  function ProductItem(p: Product): (m: MenuItem)
    requires HasVariants(p)
    ensures m.id == p.id && m.name == p.name && m.price == p.variants[0].price
  {
    MenuItem(p.id, p.name, p.variants[0].price)
  }

  /** The filter-then-map of the products: products without variants are
      dropped, the others become menu items in input order. */
  function ProductItems(products: seq<Product>): (r: seq<MenuItem>)
    ensures |r| <= |products|
    ensures PricesNonNegative(products) ==> forall i :: 0 <= i < |r| ==> r[i].price >= 0
  {
    if products == [] then []
    else
      var rest := ProductItems(products[1..]);
      assert PricesNonNegative(products) ==> PricesNonNegative(products[1..]) by {
        assert forall j :: 1 <= j < |products| ==> products[j] == products[1..][j - 1];
      }
      if HasVariants(products[0]) then [ProductItem(products[0])] + rest else rest
  }

  /** Exactly the products with variants have their items in the catalog:
      an item is in it iff some product with variants maps to it. */
  lemma {:induction false} ProductItemsMembers(products: seq<Product>, m: MenuItem)
    ensures m in ProductItems(products) <==>
      exists j :: 0 <= j < |products| && HasVariants(products[j]) && m == ProductItem(products[j])
    decreases |products|
  {
    if products != [] {
      ProductItemsMembers(products[1..], m);
      assert forall j :: 1 <= j < |products| ==> products[j] == products[1..][j - 1];
      if m in ProductItems(products[1..]) {
        var j :| 0 <= j < |products[1..]| && HasVariants(products[1..][j]) && m == ProductItem(products[1..][j]);
        assert HasVariants(products[j + 1]) && m == ProductItem(products[j + 1]);
      }
    }
  }

  /** Order and multiplicity: building the items of two lists laid end to end
      gives the two item lists laid end to end. With ProductItemsSingle this
      determines ProductItems completely: every product with variants
      contributes exactly one item, at its own position. */
  lemma {:induction false} ProductItemsConcat(a: seq<Product>, b: seq<Product>)
    ensures ProductItems(a + b) == ProductItems(a) + ProductItems(b)
    decreases |a|
  {
    if a == [] {
      assert a + b == b;
    } else {
      assert (a + b)[1..] == a[1..] + b;
      ProductItemsConcat(a[1..], b);
    }
  }

  /** A single product contributes its item exactly when it has variants. */
  lemma ProductItemsSingle(p: Product)
    ensures ProductItems([p]) == if HasVariants(p) then [ProductItem(p)] else []
  {
  }

  /** The product catalog, with the placeholder fallback when no product has
      variants. It is never empty. */
  function ProductCatalog(products: seq<Product>): (r: seq<MenuItem>)
    ensures |r| > 0
    ensures (exists j :: 0 <= j < |products| && HasVariants(products[j])) ==> r == ProductItems(products)
    ensures (forall j :: 0 <= j < |products| ==> !HasVariants(products[j])) ==> r == Placeholders
    ensures PricesNonNegative(products) ==> forall i :: 0 <= i < |r| ==> r[i].price >= 0
  {
    var items := ProductItems(products);
    if |items| > 0 then
      ProductItemsMembers(products, items[0]);
      items
    else
      assert forall j :: 0 <= j < |products| && HasVariants(products[j]) ==> ProductItem(products[j]) in items by {
        forall j | 0 <= j < |products| && HasVariants(products[j]) {
          ProductItemsMembers(products, ProductItem(products[j]));
        }
      }
      Placeholders
  }

  /** The menu item of a variant: same id and name, same price in cents. */
  function VariantItem(v: Variant): MenuItem
  {
    MenuItem(v.id, v.name, v.price)
  }

  /** The variant catalog of the selected product: one item per variant. */
  function VariantCatalog(variants: seq<Variant>): (r: seq<MenuItem>)
    ensures |r| == |variants|
    ensures forall i :: 0 <= i < |r| ==>
      r[i].id == variants[i].id && r[i].name == variants[i].name && r[i].price == variants[i].price
  {
    if variants == [] then [] else [VariantItem(variants[0])] + VariantCatalog(variants[1..])
  }
}
