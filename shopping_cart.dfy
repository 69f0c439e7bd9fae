/**
 * The shopping-cart example: a Ruleset `CartRules` of pure functions and a
 * `ShoppingCart` entity whose methods are bindings resolved through its
 * class-level default provider.
 */
module ShoppingCartExample {
  import opened Wrappers
  import opened Enforcement
  import opened PureShell

  datatype CartItem = CartItem(name: string, price: real, requiresAgeCheck: bool)

  datatype UserProfile = UserProfile(userId: string, age: int)

  /** The values a cart holds and its rules exchange. */
  datatype CartValue =
    | Items(items: seq<CartItem>)
    | Item(item: CartItem)
    | Profile(profile: UserProfile)
    | Flag(flag: bool)

  // ---------------------------------------------------------------------------
  // CartRules
  // ---------------------------------------------------------------------------

  /** `CartRules.add_item`: a new list, one longer, with the new item last and the old ones unchanged before it. */
  function AddItem(items: seq<CartItem>, newItem: CartItem): (r: seq<CartItem>)
    ensures |r| == |items| + 1
    ensures r[..|items|] == items && r[|items|] == newItem
  {
    items + [newItem]
  }

  /** `any(item.requires_age_check for item in items)` */
  function AnyRequiresAgeCheck(items: seq<CartItem>): (r: bool)
    ensures r <==> exists i :: 0 <= i < |items| && items[i].requiresAgeCheck
  {
    if items == [] then false
    else
      assert forall i :: 1 <= i < |items| ==> items[i] == items[1..][i - 1];
      items[0].requiresAgeCheck || AnyRequiresAgeCheck(items[1..])
  }

  /** `CartRules.is_valid`: only an age-restricted item asks for age 21 or more; an empty cart is valid. */
  function IsValid(items: seq<CartItem>, profile: UserProfile): (r: bool)
    ensures r <==> (forall i :: 0 <= i < |items| ==> !items[i].requiresAgeCheck) || profile.age >= 21
    ensures items == [] ==> r
  {
    if AnyRequiresAgeCheck(items) then profile.age >= 21 else true
  }

  /** `add_item` as the dispatcher calls it; other argument shapes raise `TypeError`. */
  function AddItemRule(args: seq<CartValue>): (r: Return<CartValue>)
    ensures r.Returned? <==> |args| == 2 && args[0].Items? && args[1].Item?
    ensures r.Returned? ==> r.value == Items(AddItem(args[0].items, args[1].item))
  {
    if |args| == 2 && args[0].Items? && args[1].Item? then Returned(Items(AddItem(args[0].items, args[1].item)))
    else Raised("TypeError")
  }

  /** `is_valid` as the dispatcher calls it; other argument shapes raise `TypeError`. */
  function IsValidRule(args: seq<CartValue>): (r: Return<CartValue>)
    ensures r.Returned? <==> |args| == 2 && args[0].Items? && args[1].Profile?
    ensures r.Returned? ==> r.value == Flag(IsValid(args[0].items, args[1].profile))
  {
    if |args| == 2 && args[0].Items? && args[1].Profile? then Returned(Flag(IsValid(args[0].items, args[1].profile)))
    else Raised("TypeError")
  }

  /** The class body of `CartRules`: three staticmethods. */
  const CartRulesMembers: seq<Member> := [
    Member("__module__", Data, false),
    Member("__doc__", Data, false),
    Member("add_item", StaticMethod, false),
    Member("calculate_total", StaticMethod, false),
    Member("is_valid", StaticMethod, false)
  ]

  /** `CartRules` as a provider (without `calculate_total`, which sums floats). */
  function CartRules(): (p: Provider<CartValue>)
    ensures p.name == "CartRules" && p.fns.Keys == {"add_item", "is_valid"}
  {
    Provider("CartRules", map["add_item" := AddItemRule, "is_valid" := IsValidRule])
  }

  // ---------------------------------------------------------------------------
  // ShoppingCart
  // ---------------------------------------------------------------------------

  /** `@shell_method('_items', mutates=True) def add_item(self, item)` */
  function AddItemBinding(): (b: Binding<CartValue>)
    ensures b.funcOrName == Named("add_item") && b.liveAttrNames == ["_items"] && b.mutates
  {
    ShellMethod(Single("_items"), None, true, "add_item")
  }

  /** `@shell_method(('_items', '_profile'), pure_func='is_valid') def is_valid_for_checkout(self)` */
  function IsValidForCheckoutBinding(): (b: Binding<CartValue>)
    ensures b.funcOrName == Named("is_valid") && b.liveAttrNames == ["_items", "_profile"] && !b.mutates
  {
    ShellMethod(Several(["_items", "_profile"]), Some(Named("is_valid")), false, "is_valid_for_checkout")
  }

  /** The class body of `ShoppingCart`. */
  const ShoppingCartMembers: seq<Member> := [
    Member("__module__", Data, false),
    Member("__doc__", Data, false),
    Member("__init__", PlainFunction, false),
    Member("get_total", ShellDescriptor, false),
    Member("add_item", ShellDescriptor, false),
    Member("is_valid_for_checkout", ShellDescriptor, false),
    SideEffectMethod(Member("display", PlainFunction, false))
  ]

  /** `CartRules` passes the Ruleset check, exposes only its staticmethods and declares to its provider. */
  lemma CartRulesAccepted()
    ensures RulesetCheck("CartRules", CartRulesMembers) == None
    ensures ExposesStaticMethods(CartRulesMembers, CartRules().fns)
            && DeclareRuleset("CartRules", CartRulesMembers, CartRules().fns) == Ok(CartRules())
  {
    assert "__module__"[..2] == "__" && "__doc__"[..2] == "__";
    assert "add_item"[..2] == "ad" && "calculate_total"[..2] == "ca" && "is_valid"[..2] == "is";
    assert CartRulesMembers[2].name == "add_item" && CartRulesMembers[4].name == "is_valid";
    assert forall i :: 0 <= i < |CartRulesMembers| ==> RulesetAccepts(CartRulesMembers[i]);
  }

  /** `ShoppingCart` passes the StatefulEntity check. */
  lemma ShoppingCartAccepted()
    ensures EntityCheck("ShoppingCart", ShoppingCartMembers) == None
  {
    assert "__module__"[..2] == "__" && "__doc__"[..2] == "__" && "__init__"[..2] == "__";
    assert forall i :: 0 <= i < |ShoppingCartMembers| ==> EntityAccepts(ShoppingCartMembers[i]);
  }

  /** A `ShoppingCart` as the dispatcher sees it: its class default is `CartRules`, it has no override. */
  ghost predicate IsCart(v: EntityView<CartValue>) {
    && v.entityClass == "ShoppingCart"
    && v.classRules == Some(CartRules())
    && v.instanceRules.None?
    && "_items" in v.fields && v.fields["_items"].Items?
    && "_profile" in v.fields && v.fields["_profile"].Profile?
  }

  /** The bindings resolve through the class default, because the cart has no override. */
  lemma CartResolvesThroughClassDefault(v: EntityView<CartValue>)
    requires IsCart(v)
    ensures Lookup(v, AddItemBinding()) == Ok(BoundMethod(AddItemRule, ["_items"], true))
    ensures Lookup(v, IsValidForCheckoutBinding()) == Ok(BoundMethod(IsValidRule, ["_items", "_profile"], false))
  {
  }

  /** The `add_item` binding returns None and replaces `_items` by the list with the item appended, and nothing else. */
  lemma AddItemBindingAppends(v: EntityView<CartValue>, item: CartItem)
    requires IsCart(v)
    ensures var c := Dispatch(v, AddItemBinding(), [Item(item)]);
      && c.result == Ok(None)
      && c.fields == v.fields["_items" := Items(v.fields["_items"].items + [item])]
      && c.fields["_profile"] == v.fields["_profile"]
      && IsCart(v.(fields := c.fields))
  {
    CartResolvesThroughClassDefault(v);
    var live := LiveValues(v.fields, ["_items"], "ShoppingCart");
    assert ["_items"][0] in v.fields;
    assert live.value == [v.fields["_items"]];
  }

  /** `cart.add_item(item)`: returns None and appends the item to `_items`; nothing else changes. */
  method AddItemOnce(cart: Entity<CartValue>, item: CartItem) returns (r: Result<Option<CartValue>, ShellError>)
    requires IsCart(cart.View())
    modifies cart
    ensures IsCart(cart.View())
    ensures r == Ok(None)
    ensures cart.fields == old(cart.fields)["_items" := Items(old(cart.fields["_items"].items) + [item])]
  {
    AddItemBindingAppends(cart.View(), item);
    r := cart.Invoke(AddItemBinding(), [Item(item)]);
  }

  /** `cart.add_item(x)` for each `x` in `xs`, in order: `_items` ends with the items in insertion order, `_profile` is untouched and every call returned None. */
  method AddItems(cart: Entity<CartValue>, xs: seq<CartItem>) returns (results: seq<Result<Option<CartValue>, ShellError>>)
    requires IsCart(cart.View())
    modifies cart
    ensures IsCart(cart.View())
    ensures cart.fields == old(cart.fields)["_items" := Items(old(cart.fields["_items"].items) + xs)]
    ensures cart.fields["_profile"] == old(cart.fields["_profile"])
    ensures |results| == |xs| && forall i :: 0 <= i < |results| ==> results[i] == Ok(None)
  {
    ghost var before := old(cart.fields["_items"].items);
    assert before + xs[..0] == before;
    results := [];
    var i := 0;
    while i < |xs|
      invariant i <= |xs|
      invariant IsCart(cart.View())
      invariant cart.fields == old(cart.fields)["_items" := Items(before + xs[..i])]
      invariant |results| == i && forall j :: 0 <= j < i ==> results[j] == Ok(None)
    {
      var r := AddItemOnce(cart, xs[i]);
      assert before + xs[..i] + [xs[i]] == before + xs[..i + 1];
      results := results + [r];
      i := i + 1;
    }
    assert xs[..i] == xs;
  }

  /** `is_valid_for_checkout` passes `(_items, _profile)` in that order and returns `is_valid`'s answer unchanged. */
  lemma IsValidForCheckoutPassesThrough(v: EntityView<CartValue>)
    requires IsCart(v)
    ensures Dispatch(v, IsValidForCheckoutBinding(), [])
            == CallOutcome(Ok(Some(Flag(IsValid(v.fields["_items"].items, v.fields["_profile"].profile)))), v.fields)
  {
    CartResolvesThroughClassDefault(v);
    var live := LiveValues(v.fields, ["_items", "_profile"], "ShoppingCart");
    assert ["_items", "_profile"][0] in v.fields && ["_items", "_profile"][1] in v.fields;
    assert live.value == [v.fields["_items"], v.fields["_profile"]];
  }

  // ---------------------------------------------------------------------------
  // The stateful shell
  // ---------------------------------------------------------------------------

  /** `@ruleset_provider(CartRules) class ShoppingCart(StatefulEntity)` */
  method DeclareShoppingCart() returns (t: EntityType<CartValue>)
    ensures fresh(t) && t.name == "ShoppingCart" && t.rules == Some(CartRules())
  {
    ShoppingCartAccepted();
    var declared := DeclareStatefulEntity<CartValue>("ShoppingCart", ShoppingCartMembers);
    if declared.Err? {
      assert false;
      return;
    }
    t := RulesetProvider(CartRules(), declared.value);
  }

  /** `ShoppingCart(user_id, age)`: an empty item list and the user's profile, no override. */
  method NewShoppingCart(t: EntityType<CartValue>, userId: string, age: int) returns (cart: Entity<CartValue>)
    ensures fresh(cart) && cart.cls == t && cart.instanceRules == None
    ensures cart.fields == map["_items" := Items([]), "_profile" := Profile(UserProfile(userId, age))]
  {
    cart := new Entity(t, map[], None);
    cart.SetField("_items", Items([]));
    cart.SetField("_profile", Profile(UserProfile(userId, age)));
  }

  /** A fresh cart holding one age-restricted item is valid for checkout exactly when the user is 21 or older. */
  method CheckoutWithRestrictedItem(t: EntityType<CartValue>, userId: string, age: int, item: CartItem)
    returns (verdict: Result<Option<CartValue>, ShellError>)
    requires t.name == "ShoppingCart" && t.rules == Some(CartRules())
    requires item.requiresAgeCheck
    ensures verdict == Ok(Some(Flag(age >= 21)))
  {
    var cart := NewShoppingCart(t, userId, age);
    var added := AddItemOnce(cart, item);
    assert cart.fields["_items"].items == [item];
    IsValidForCheckoutPassesThrough(cart.View());
    verdict := cart.Invoke(IsValidForCheckoutBinding(), []);
  }
}
