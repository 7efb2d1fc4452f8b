/** The click handler of the shooting range: which mug a shot hit, what the
    hit does in the current game mode (select a product, or put a variant in
    the cart and score it), the catalog effects that rebuild the targets when
    the mode changes, and the delayed return to "products" mode.

    The scene graph is given abstractly. Each ray intersection is the chain
    of `userData.menuItemId` tags from the intersected node up through its
    parents to the root. The ray casting itself is not modelled. */
module ShootingRange {
  import opened Wrappers
  import opened Catalog
  import opened CartDisplay

  datatype Mode = Products | Variants

  /** The `userData.menuItemId` of one scene node, if it has one. */
  type Tag = Option<string>

  /** One intersection: the tags of the hit node, its parent, its parent's
      parent, and so on up to the root. */
  type Chain = seq<Tag>

  /** The text left in `lastHit`. A variant hit carries its price in cents
      (the display formatting is not modelled). */
  datatype HitNote =
    | Selected(productName: string)
    | VariantHit(productName: string, variantName: string, price: int)
    | Miss

  // ---------------------------------------------------------------------
  // Looking up ids

  /** `findIndex` on a list of ids: the first position holding `x`, or -1. */
  function IndexOf<T(==)>(s: seq<T>, x: T): (r: int)
    ensures -1 <= r < |s|
    ensures r == -1 <==> x !in s
    ensures r >= 0 ==> s[r] == x && forall k :: 0 <= k < r ==> s[k] != x
  {
    if s == [] then -1
    else if s[0] == x then 0
    else
      var r := IndexOf(s[1..], x);
      assert forall k :: 1 <= k < |s| ==> s[k] == s[1..][k - 1];
      if r == -1 then -1 else r + 1
  }

  /** `coffeeList?.data.find(p => p.id === id)`: the first fetched product
      with that id; nothing when the list is not loaded. */
  function FindProduct(coffeeList: Option<seq<Product>>, id: string): (r: Option<Product>)
    ensures r.Some? ==> coffeeList.Some? && r.value in coffeeList.value && r.value.id == id
    ensures r.None? ==> coffeeList.None? || forall j :: 0 <= j < |coffeeList.value| ==> coffeeList.value[j].id != id
    ensures r.Some? ==>
      exists k :: 0 <= k < |coffeeList.value| && r.value == coffeeList.value[k] &&
        forall j :: 0 <= j < k ==> coffeeList.value[j].id != id
  {
    if coffeeList.None? then None
    else
      var products := coffeeList.value;
      var k := IndexOf(ProductIds(products), id);
      if k >= 0 then
        assert forall j :: 0 <= j < k ==> products[j].id != id;
        Some(products[k])
      else None
  }

  // ---------------------------------------------------------------------
  // Walking up the parent chain

  /** A node stops the walk when its tag is truthy (a non-empty string) and
      the tagged id is in the current catalog. */
  predicate Matches(t: Tag, items: seq<MenuItem>)
  {
    t.Some? && t.value != "" && t.value in MenuIds(items)
  }

  /** How far up the chain the walk stops: the depth of the first node that
      matches the catalog, or nothing when no node does. A tagged node whose
      id is not in the catalog does not stop the walk. */
  function ResolvedDepth(chain: Chain, items: seq<MenuItem>): (r: Option<nat>)
    ensures r.Some? ==> r.value < |chain| && Matches(chain[r.value], items)
    ensures r.Some? ==> forall j :: 0 <= j < r.value ==> !Matches(chain[j], items)
    ensures r.None? ==> forall j :: 0 <= j < |chain| ==> !Matches(chain[j], items)
  {
    if chain == [] then None
    else if Matches(chain[0], items) then Some(0)
    else
      match ResolvedDepth(chain[1..], items)
      case None => None
      case Some(k) => Some(k + 1)
  }

  /** The `while` loop of the click handler: starting at the intersected
      node, each node with a truthy tag sets `menuItemId` and looks the id up
      in the catalog; the walk goes on to the parent until an id is found or
      the root is passed. */
  method WalkUp(chain: Chain, items: seq<MenuItem>) returns (mugIndex: int, menuItemId: Option<string>)
    ensures ResolvedDepth(chain, items).None? <==> mugIndex == -1
    ensures ResolvedDepth(chain, items).Some? ==>
      var k := ResolvedDepth(chain, items).value;
      && menuItemId == chain[k]
      && 0 <= mugIndex < |items|
      && items[mugIndex].id == chain[k].value
      && mugIndex == IndexOf(MenuIds(items), chain[k].value)
  {
    var i := 0;
    mugIndex, menuItemId := -1, None;
    while i < |chain| && mugIndex == -1
      invariant 0 <= i <= |chain|
      invariant mugIndex == -1 ==> forall j :: 0 <= j < i ==> !Matches(chain[j], items)
      invariant mugIndex != -1 ==>
        && 0 < i
        && ResolvedDepth(chain, items) == Some(i - 1)
        && menuItemId == chain[i - 1]
        && mugIndex == IndexOf(MenuIds(items), chain[i - 1].value)
    {
      if chain[i].Some? && chain[i].value != "" {
        menuItemId := chain[i];
        mugIndex := IndexOf(MenuIds(items), chain[i].value);
      }
      i := i + 1;
    }
  }

  // ---------------------------------------------------------------------
  // Merging a hit into the cart

  predicate UniqueIds(cart: seq<CartItem>)
  {
    forall i, j :: 0 <= i < j < |cart| ==> cart[i].id != cart[j].id
  }

  /** The `setCart` updater of a variant hit: when a line with the item's id
      exists, only its quantity goes up by one; otherwise the item is
      appended. Lines are matched on `id` alone. */
  function Merged(cart: seq<CartItem>, item: CartItem): (r: seq<CartItem>)
    ensures item.id in CartIds(cart) ==>
      var k := IndexOf(CartIds(cart), item.id);
      && |r| == |cart|
      && r[k] == cart[k].(quantity := cart[k].quantity + 1)
      && forall j :: 0 <= j < |cart| && j != k ==> r[j] == cart[j]
    ensures item.id !in CartIds(cart) ==> r == cart + [item]
  {
    var k := IndexOf(CartIds(cart), item.id);
    if k >= 0 then cart[k := cart[k].(quantity := cart[k].quantity + 1)] else cart + [item]
  }

  /** Merging keeps the ids of the cart distinct, and the set of ids grows by
      exactly the hit id. */
  lemma MergedKeepsIdsUnique(cart: seq<CartItem>, item: CartItem)
    requires UniqueIds(cart)
    ensures UniqueIds(Merged(cart, item))
    ensures forall id :: id in CartIds(Merged(cart, item)) <==> id in CartIds(cart) || id == item.id
  {
    var r := Merged(cart, item);
    if item.id in CartIds(cart) {
      var k := IndexOf(CartIds(cart), item.id);
      assert forall j :: 0 <= j < |r| ==> r[j].id == cart[j].id;
      assert CartIds(r) == CartIds(cart);
    } else {
      assert forall j :: 0 <= j < |cart| ==> cart[j].id != item.id;
      assert CartIds(r) == CartIds(cart) + [item.id];
    }
  }

  /** Merging a fresh line (quantity 1) raises the cart total by the unit
      price of the line that was bumped, or of the line that was added. */
  lemma MergedTotal(cart: seq<CartItem>, item: CartItem)
    requires item.quantity == 1
    ensures item.id in CartIds(cart) ==>
      Total(Merged(cart, item)) == Total(cart) + cart[IndexOf(CartIds(cart), item.id)].price
    ensures item.id !in CartIds(cart) ==> Total(Merged(cart, item)) == Total(cart) + item.price
  {
    if item.id in CartIds(cart) {
      TotalIncrement(cart, IndexOf(CartIds(cart), item.id));
    } else {
      TotalAppend(cart, item);
    }
  }

  /** Two hits on the same variant, starting from an empty cart, give one
      line of quantity 2, not two lines. */
  lemma MergeTwiceFromEmpty(item: CartItem)
    requires item.quantity == 1
    ensures Merged(Merged([], item), item) == [item.(quantity := 2)]
  {
  }

  // ---------------------------------------------------------------------
  // The state of the shooting range and its transitions

  /** The component's state together with the page's cart and `lastAdded`
      notification, which it writes through `setCart` and `setLastAdded`.
      `pendingResets` counts the 1.5 s timers started by variant hits that
      have not fired yet. */
  datatype RangeState = RangeState(
    mode: Mode,
    selectedProduct: Option<Product>,
    menuItems: seq<MenuItem>,
    lastHit: Option<HitNote>,
    shotsFired: nat,
    score: int,
    cart: seq<CartItem>,
    lastAdded: Option<string>,
    pendingResets: nat)

  /** The state when the page mounts. */
  const Initial: RangeState :=
    RangeState(Products, None, Placeholders, None, 0, 0, [], None, 0)

  /** `${selectedProduct?.name}` inside a template: "undefined" when null. */
  function NameInTemplate(p: Option<Product>): string
  {
    if p.Some? then p.value.name else "undefined"
  }

  /** `selectedProduct?.name || ""`. */
  function NameOrEmpty(p: Option<Product>): string
  {
    if p.Some? then p.value.name else ""
  }

  /** What a resolved hit on the catalog item with this id does. */
  function ApplyHit(s: RangeState, id: string, coffeeList: Option<seq<Product>>): RangeState
    requires id in MenuIds(s.menuItems)
  {
    if s.mode == Products then
      match FindProduct(coffeeList, id)
      case None => s
      case Some(p) => s.(selectedProduct := Some(p), mode := Variants, lastHit := Some(Selected(p.name)))
    else
      var v := s.menuItems[IndexOf(MenuIds(s.menuItems), id)];
      var line := CartItem(v.id, NameOrEmpty(s.selectedProduct), v.name, v.price, 1);
      s.(lastHit := Some(VariantHit(NameInTemplate(s.selectedProduct), v.name, v.price)),
         score := s.score + v.price,
         cart := Merged(s.cart, line),
         lastAdded := Some(NameInTemplate(s.selectedProduct) + " - " + v.name),
         pendingResets := s.pendingResets + 1)
  }

  /** One click. `scene` is nothing while the scene group is not mounted,
      otherwise the intersections, nearest first. Every click counts as a
      shot; the catalog itself is never changed by a click. */
  function Click(s: RangeState, scene: Option<seq<Chain>>, coffeeList: Option<seq<Product>>): (r: RangeState)
    ensures r.shotsFired == s.shotsFired + 1
    ensures r.menuItems == s.menuItems
  {
    var shot := s.(shotsFired := s.shotsFired + 1);
    if scene.None? then shot
    else if |scene.value| == 0 then shot.(lastHit := Some(Miss))
    else
      match ResolvedDepth(scene.value[0], s.menuItems)
      case None => shot.(lastHit := Some(Miss))
      case Some(k) => ApplyHit(shot, scene.value[0][k].value, coffeeList)
  }

  /** The two catalog effects: while in "products" mode with the product
      list loaded, the product catalog is rebuilt; while in "variants" mode
      with a selected product, the variant catalog replaces it. */
  function Sync(s: RangeState, coffeeList: Option<seq<Product>>): (r: RangeState)
    ensures r == s.(menuItems := r.menuItems)
    ensures s.mode == Products && coffeeList.Some? ==> r.menuItems == ProductCatalog(coffeeList.value)
    ensures s.mode == Products && coffeeList.None? ==> r == s
  {
    if coffeeList.Some? && s.mode == Products then
      s.(menuItems := ProductCatalog(coffeeList.value))
    else if s.mode == Variants && s.selectedProduct.Some? then
      s.(menuItems := VariantCatalog(s.selectedProduct.value.variants))
    else s
  }

  /** One of the timers started by a variant hit fires: back to "products"
      mode with no product selected. */
  function ResetFired(s: RangeState): (r: RangeState)
    requires s.pendingResets > 0
    ensures r.mode == Products && r.selectedProduct.None?
    ensures r.pendingResets == s.pendingResets - 1
    ensures r.cart == s.cart && r.score == s.score && r.menuItems == s.menuItems
    ensures r == s.(mode := r.mode, selectedProduct := r.selectedProduct, pendingResets := r.pendingResets)
  {
    s.(mode := Products, selectedProduct := None, pendingResets := s.pendingResets - 1)
  }

  /** The invariant every reachable state keeps: cart ids are distinct,
      quantities are at least 1, prices are non-negative, "variants" mode
      always has a selected product, and the score is non-negative. */
  predicate ValidState(s: RangeState)
  {
    && UniqueIds(s.cart)
    && (forall i :: 0 <= i < |s.cart| ==> s.cart[i].quantity >= 1 && s.cart[i].price >= 0)
    && (forall i :: 0 <= i < |s.menuItems| ==> s.menuItems[i].price >= 0)
    && (s.mode == Variants ==> s.selectedProduct.Some?)
    && (s.selectedProduct.Some? ==> VariantPricesNonNegative(s.selectedProduct.value))
    && s.score >= 0
  }

  // ---------------------------------------------------------------------
  // Properties of the transitions

  /** A shot that hits nothing, or whose nearest intersection has no
      ancestor in the catalog, is a miss and changes nothing but the shot
      count and the hit note. */
  lemma ClickMiss(s: RangeState, scene: seq<Chain>, coffeeList: Option<seq<Product>>)
    requires |scene| == 0 || ResolvedDepth(scene[0], s.menuItems).None?
    ensures Click(s, Some(scene), coffeeList)
         == s.(shotsFired := s.shotsFired + 1, lastHit := Some(Miss))
  {
  }

  /** Only the nearest intersection matters: farther ones are never looked at. */
  lemma ClickNearestOnly(s: RangeState, nearest: Chain, farther: seq<Chain>, coffeeList: Option<seq<Product>>)
    ensures Click(s, Some([nearest] + farther), coffeeList) == Click(s, Some([nearest]), coffeeList)
  {
  }

  /** In "products" mode, a resolved id that names a fetched product selects
      that product and switches to "variants" mode; the cart and score are
      untouched. */
  lemma ClickSelectsProduct(s: RangeState, chain: Chain, coffeeList: Option<seq<Product>>)
    requires s.mode == Products
    requires ResolvedDepth(chain, s.menuItems).Some?
    requires FindProduct(coffeeList, chain[ResolvedDepth(chain, s.menuItems).value].value).Some?
    ensures var r := Click(s, Some([chain]), coffeeList);
      var p := FindProduct(coffeeList, chain[ResolvedDepth(chain, s.menuItems).value].value).value;
      && r.mode == Variants
      && r.selectedProduct == Some(p)
      && p.id == chain[ResolvedDepth(chain, s.menuItems).value].value
      && r.lastHit == Some(Selected(p.name))
      && r.cart == s.cart && r.score == s.score
  {
  }

  /** In "products" mode, a resolved id with no fetched product behind it
      (a placeholder) is not a miss: nothing but the shot count changes. */
  lemma ClickOnPlaceholder(s: RangeState, chain: Chain, coffeeList: Option<seq<Product>>)
    requires s.mode == Products
    requires ResolvedDepth(chain, s.menuItems).Some?
    requires FindProduct(coffeeList, chain[ResolvedDepth(chain, s.menuItems).value].value).None?
    ensures Click(s, Some([chain]), coffeeList) == s.(shotsFired := s.shotsFired + 1)
  {
  }

  /** In "variants" mode, a resolved hit scores the variant's price, merges
      the variant into the cart (raising the total by one unit price), keeps
      the mode, and starts one reset timer. */
  lemma ClickAddsVariant(s: RangeState, chain: Chain, coffeeList: Option<seq<Product>>)
    requires s.mode == Variants
    requires ResolvedDepth(chain, s.menuItems).Some?
    ensures var r := Click(s, Some([chain]), coffeeList);
      var id := chain[ResolvedDepth(chain, s.menuItems).value].value;
      var v := s.menuItems[IndexOf(MenuIds(s.menuItems), id)];
      && v.id == id
      && r.mode == Variants && r.selectedProduct == s.selectedProduct
      && r.score == s.score + v.price
      && r.cart == Merged(s.cart, CartItem(v.id, NameOrEmpty(s.selectedProduct), v.name, v.price, 1))
      && r.pendingResets == s.pendingResets + 1
      && (id in CartIds(s.cart) ==> |r.cart| == |s.cart|)
      && (id !in CartIds(s.cart) ==> |r.cart| == |s.cart| + 1)
      && Total(r.cart) == Total(s.cart) + (if id in CartIds(s.cart) then s.cart[IndexOf(CartIds(s.cart), id)].price else v.price)
  {
    var id := chain[ResolvedDepth(chain, s.menuItems).value].value;
    var v := s.menuItems[IndexOf(MenuIds(s.menuItems), id)];
    MergedTotal(s.cart, CartItem(v.id, NameOrEmpty(s.selectedProduct), v.name, v.price, 1));
  }

  /** Every click keeps the invariant, given the endpoint's non-negative prices. */
  lemma ClickKeepsValid(s: RangeState, scene: Option<seq<Chain>>, coffeeList: Option<seq<Product>>)
    requires ValidState(s)
    requires coffeeList.Some? ==> PricesNonNegative(coffeeList.value)
    ensures ValidState(Click(s, scene, coffeeList))
  {
  }

  /** Rebuilding the catalog keeps the invariant. */
  lemma SyncKeepsValid(s: RangeState, coffeeList: Option<seq<Product>>)
    requires ValidState(s)
    requires coffeeList.Some? ==> PricesNonNegative(coffeeList.value)
    ensures ValidState(Sync(s, coffeeList))
  {
  }

  /** The product catalog is rebuilt only in "products" mode: in "variants"
      mode the targets are exactly the selected product's variants. */
  lemma SyncInVariantsMode(s: RangeState, coffeeList: Option<seq<Product>>)
    requires ValidState(s) && s.mode == Variants
    ensures var r := Sync(s, coffeeList);
      && |r.menuItems| == |s.selectedProduct.value.variants|
      && forall i :: 0 <= i < |r.menuItems| ==>
           r.menuItems[i].id == s.selectedProduct.value.variants[i].id
           && r.menuItems[i].name == s.selectedProduct.value.variants[i].name
           && r.menuItems[i].price == s.selectedProduct.value.variants[i].price
  {
  }

  /** A fired reset timer keeps the invariant. */
  lemma ResetKeepsValid(s: RangeState)
    requires ValidState(s) && s.pendingResets > 0
    ensures ValidState(ResetFired(s))
  {
  }

  /** The CLEAR button of the order panel: the page's cart and notification
      become what the panel leaves behind; nothing else changes. */
  function ClearPressed(s: RangeState): (r: RangeState)
    ensures r == s.(cart := r.cart, lastAdded := r.lastAdded)
    ensures r.cart == [] && Total(r.cart) == 0 && r.lastAdded == Some(ClearedMessage)
  {
    var panel := ClearAll(CartPanel(s.cart, s.lastAdded));
    s.(cart := panel.cart, lastAdded := panel.lastAdded)
  }

  /** Clearing the cart keeps the invariant. */
  lemma ClearKeepsValid(s: RangeState)
    requires ValidState(s)
    ensures ValidState(ClearPressed(s))
  {
  }

  /** In every valid state the cart total is non-negative. */
  lemma ValidTotalNonNegative(s: RangeState)
    requires ValidState(s)
    ensures Total(s.cart) >= 0
  {
    TotalNonNegative(s.cart);
  }

  /** A full round: one product "Latte" with one 450-cent variant. The shot
      hits the mug's mesh, whose parent carries a stale tag and whose
      grandparent carries the product id; then the variant is hit twice.
      The cart ends with one line of quantity 2 and a total of 900 cents. */
  lemma {:induction false} LatteRound()
    ensures var products := [Product("p1", "Latte", [Variant("v1", "12oz", 450)])];
      var list := Some(products);
      var s0 := Sync(Initial, list);
      var s1 := Click(s0, Some([[None, Some("gone"), Some("p1"), None]]), list);
      var s2 := Sync(s1, list);
      var s3 := Click(s2, Some([[Some("v1")]]), list);
      var s4 := Click(s3, Some([[Some("v1")], [Some("p1")]]), list);
      && s0.menuItems == [MenuItem("p1", "Latte", 450)]
      && s1.mode == Variants && s1.selectedProduct == Some(products[0])
      && s2.menuItems == [MenuItem("v1", "12oz", 450)]
      && s4.cart == [CartItem("v1", "Latte", "12oz", 450, 2)]
      && Total(s4.cart) == 900 && s4.score == 900 && s4.shotsFired == 3
  {
    var products := [Product("p1", "Latte", [Variant("v1", "12oz", 450)])];
    var list := Some(products);
    var s0 := Sync(Initial, list);
    assert ProductItems(products[1..]) == [];
    assert s0.menuItems == [MenuItem("p1", "Latte", 450)];
    var chain: Chain := [None, Some("gone"), Some("p1"), None];
    assert MenuIds(s0.menuItems) == ["p1"];
    assert !Matches(chain[0], s0.menuItems) && !Matches(chain[1], s0.menuItems) && Matches(chain[2], s0.menuItems);
    assert ResolvedDepth(chain, s0.menuItems) == Some(2);
    assert ProductIds(products) == ["p1"];
    var s1 := Click(s0, Some([chain]), list);
    assert s1.selectedProduct == Some(products[0]);
    var s2 := Sync(s1, list);
    assert s2.menuItems == [MenuItem("v1", "12oz", 450)];
    assert MenuIds(s2.menuItems) == ["v1"];
    var hit: Chain := [Some("v1")];
    assert ResolvedDepth(hit, s2.menuItems) == Some(0);
    var s3 := Click(s2, Some([hit]), list);
    assert s3.cart == [CartItem("v1", "Latte", "12oz", 450, 1)];
    ClickNearestOnly(s3, hit, [[Some("p1")]], list);
    assert CartIds(s3.cart) == ["v1"];
    var s4 := Click(s3, Some([hit]), list);
    assert s4.cart == [CartItem("v1", "Latte", "12oz", 450, 2)];
    assert Total(s4.cart) == Total([]) + 450 * 2;
  }

  // ---------------------------------------------------------------------
  // The component

  /** The shooting range component. Its fields are the React state of the
      component plus the page's cart and notification, which it updates
      through the setters it is given. */
  class ShootingRange {
    var gameMode: Mode
    var selectedProduct: Option<Product>
    var menuItems: seq<MenuItem>
    var lastHit: Option<HitNote>
    var shotsFired: nat
    var score: int
    var cart: seq<CartItem>
    var lastAdded: Option<string>
    var pendingResets: nat

    function State(): RangeState
      reads this
    {
      RangeState(gameMode, selectedProduct, menuItems, lastHit, shotsFired, score, cart, lastAdded, pendingResets)
    }

    constructor ()
      ensures State() == Initial && ValidState(State())
    {
      gameMode, selectedProduct, menuItems, lastHit := Products, None, Placeholders, None;
      shotsFired, score, cart, lastAdded, pendingResets := 0, 0, [], None, 0;
    }

    /** The cart updater: bump the quantity of the line with the same id in
        place, or append the new line. */
    method MergeIntoCart(item: CartItem)
      modifies this`cart
      ensures cart == Merged(old(cart), item)
    {
      var k := IndexOf(CartIds(cart), item.id);
      if k >= 0 {
        cart := cart[k := cart[k].(quantity := cart[k].quantity + 1)];
      } else {
        cart := cart + [item];
      }
    }

    /** The window click handler. */
    method HandleClick(scene: Option<seq<Chain>>, coffeeList: Option<seq<Product>>)
      requires ValidState(State())
      requires coffeeList.Some? ==> PricesNonNegative(coffeeList.value)
      modifies this
      ensures State() == Click(old(State()), scene, coffeeList)
      ensures ValidState(State())
    {
      ClickKeepsValid(State(), scene, coffeeList);
      shotsFired := shotsFired + 1;
      if scene.None? {
        return;
      }
      var intersects := scene.value;
      if |intersects| == 0 {
        lastHit := Some(Miss);
        return;
      }
      var mugIndex, menuItemId := WalkUp(intersects[0], menuItems);
      if mugIndex == -1 {
        lastHit := Some(Miss);
        return;
      }
      RegisterHit(mugIndex, menuItemId.value, coffeeList);
    }

    /** The body of the loop once `mugIndex` is found: the hit on the
        catalog item at that position, according to the game mode. */
    method RegisterHit(mugIndex: int, menuItemId: string, coffeeList: Option<seq<Product>>)
      requires 0 <= mugIndex < |menuItems| && menuItemId in MenuIds(menuItems)
      requires mugIndex == IndexOf(MenuIds(menuItems), menuItemId)
      modifies this
      ensures State() == ApplyHit(old(State()), menuItemId, coffeeList)
    {
      if gameMode == Products {
        var hitProduct := FindProduct(coffeeList, menuItemId);
        if hitProduct.Some? {
          selectedProduct := hitProduct;
          gameMode := Variants;
          lastHit := Some(Selected(hitProduct.value.name));
        }
      } else {
        var hitVariant := menuItems[mugIndex];
        lastHit := Some(VariantHit(NameInTemplate(selectedProduct), hitVariant.name, hitVariant.price));
        score := score + hitVariant.price;
        var newItem := CartItem(hitVariant.id, NameOrEmpty(selectedProduct), hitVariant.name, hitVariant.price, 1);
        MergeIntoCart(newItem);
        lastAdded := Some(NameInTemplate(selectedProduct) + " - " + hitVariant.name);
        pendingResets := pendingResets + 1;
      }
    }

    /** The two catalog effects, run after a render that changed the mode,
        the selected product or the fetched product list. */
    method SyncCatalog(coffeeList: Option<seq<Product>>)
      requires ValidState(State())
      requires coffeeList.Some? ==> PricesNonNegative(coffeeList.value)
      modifies this`menuItems
      ensures State() == Sync(old(State()), coffeeList)
      ensures ValidState(State())
    {
      SyncKeepsValid(State(), coffeeList);
      if coffeeList.Some? && gameMode == Products {
        menuItems := ProductCatalog(coffeeList.value);
      }
      if gameMode == Variants && selectedProduct.Some? {
        menuItems := VariantCatalog(selectedProduct.value.variants);
      }
    }

    /** A reset timer started by a variant hit fires. */
    method ResetTimerFires()
      requires ValidState(State()) && pendingResets > 0
      modifies this`gameMode, this`selectedProduct, this`pendingResets
      ensures State() == ResetFired(old(State()))
      ensures ValidState(State())
    {
      gameMode := Products;
      selectedProduct := None;
      pendingResets := pendingResets - 1;
    }

    /** The CLEAR button of the order panel, which is only shown while the
        cart has lines. */
    method ClearCart()
      requires ValidState(State()) && |cart| > 0
      modifies this`cart, this`lastAdded
      ensures State() == ClearPressed(old(State()))
      ensures ValidState(State())
    {
      ClearKeepsValid(State());
      cart := [];
      lastAdded := Some(ClearedMessage);
    }
  }
}
