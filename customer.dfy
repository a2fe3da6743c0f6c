/** The customer-facing menu: filtering the catalog, building the cart,
    the quantity selector, calling a waiter and submitting the order. */
module Customer {
  import opened Types
  import opened Seqs
  import opened Text
  import opened Session
  import Constants

  /** The category tabs: 'Todos' or one category. */
  datatype CategoryFilter = Todos | Only(category: Category)

  /** The test one item passes to be listed: it is in the chosen tab, and
      the search text, ignoring ASCII case, occurs in its name or its
      description, so it is no longer than one of them. The 'Todos' tab
      with an empty search passes everything. */
  predicate Matches(item: MenuItem, selected: CategoryFilter, term: string): (ok: bool)
    ensures ok ==> selected == Todos || item.category == selected.category
    ensures ok ==> |term| <= |item.name| || |term| <= |item.description|
    ensures selected == Todos && term == "" ==> ok
  {
    ContainsEmpty(Lower(item.name));
    && (selected == Todos || item.category == selected.category)
    && (Contains(Lower(item.name), Lower(term)) || Contains(Lower(item.description), Lower(term)))
  }

  /** The search ignores the case of what is typed: a term and its
      lowercased form select the same dishes. */
  lemma SearchIgnoresTermCase(item: MenuItem, selected: CategoryFilter, term: string)
    ensures Matches(item, selected, Lower(term)) == Matches(item, selected, term)
  {
    LowerIdempotent(term);
  }

  /** `filteredItems`: the catalog entries that match, in catalog order. */
  function FilterItems(menu: seq<MenuItem>, selected: CategoryFilter, term: string): (r: seq<MenuItem>)
    ensures IsSubsequence(r, menu)
    ensures forall x :: x in r <==> x in menu && Matches(x, selected, term)
    ensures forall x :: multiset(r)[x] == if Matches(x, selected, term) then multiset(menu)[x] else 0
  {
    var keep := (x: MenuItem) => Matches(x, selected, term);
    FilterMembers(menu, keep);
    FilterMultiset(menu, keep);
    Filter(menu, keep)
  }

  /** The 'Todos' tab with an empty search box lists the whole menu. */
  lemma FilterAllShowsMenu(menu: seq<MenuItem>)
    ensures FilterItems(menu, Todos, "") == menu
  {
    forall k | 0 <= k < |menu|
      ensures Matches(menu[k], Todos, "")
    {
      ContainsEmpty(Lower(menu[k].name));
    }
    FilterKeepsAll(menu, (x: MenuItem) => Matches(x, Todos, ""));
  }

  /** One line's amount: `item.price * item.quantity`. It is nothing
      exactly when the dish is free or no unit is asked for, and it is never
      negative for a dish with a non-negative price. */
  function LineTotal(line: CartItem): (r: int)
    ensures r == 0 <==> line.item.price == 0 || line.quantity == 0
    ensures line.item.price >= 0 ==> r >= 0
  {
    line.item.price * line.quantity
  }

  /** No dish in the cart has a negative price. The owner's price input does
      not enforce this, so the cart properties that need it say so. */
  predicate PricesNonNegative(cart: seq<CartItem>)
  {
    forall k :: 0 <= k < |cart| ==> cart[k].item.price >= 0
  }

  /** `cartTotal`: the sum of the line amounts, folded from the left. When
      no price is negative, no line is worth more than the whole cart, and
      the cart is free exactly when every line is. */
  function CartTotal(cart: seq<CartItem>): (r: int)
    ensures PricesNonNegative(cart) ==> forall k :: 0 <= k < |cart| ==> 0 <= LineTotal(cart[k]) <= r
    ensures PricesNonNegative(cart) ==> (r == 0 <==> forall k :: 0 <= k < |cart| ==> LineTotal(cart[k]) == 0)
  {
    if cart == [] then 0
    else
      var init := cart[..|cart| - 1];
      assert forall k :: 0 <= k < |init| ==> init[k] == cart[k];
      CartTotal(init) + LineTotal(cart[|cart| - 1])
  }

  /** `cartItemCount`: the sum of the quantities, folded from the left. No
      line asks for more units than the badge shows, and the badge reads 0
      exactly when every line asks for none. */
  function CartItemCount(cart: seq<CartItem>): (r: nat)
    ensures forall k :: 0 <= k < |cart| ==> cart[k].quantity <= r
    ensures r == 0 <==> forall k :: 0 <= k < |cart| ==> cart[k].quantity == 0
  {
    if cart == [] then 0
    else
      var init := cart[..|cart| - 1];
      assert forall k :: 0 <= k < |init| ==> init[k] == cart[k];
      CartItemCount(init) + cart[|cart| - 1].quantity
  }

  /** The total of two carts joined is the sum of their totals. */
  lemma {:induction false} CartTotalAppend(a: seq<CartItem>, b: seq<CartItem>)
    ensures CartTotal(a + b) == CartTotal(a) + CartTotal(b)
    ensures CartItemCount(a + b) == CartItemCount(a) + CartItemCount(b)
    decreases |b|
  {
    if b == [] {
      assert a + b == a;
    } else {
      CartTotalAppend(a, b[..|b| - 1]);
      assert (a + b)[..|a + b| - 1] == a + b[..|b| - 1];
    }
  }

  /** A cart of one line totals that line's amount. */
  lemma CartTotalSingle(line: CartItem)
    ensures CartTotal([line]) == LineTotal(line)
    ensures CartItemCount([line]) == line.quantity
  {
    assert [line][..0] == [];
  }

  /** Adding a line adds its amount to the total and its quantity to the
      item count. */
  lemma AddLineRaisesTotals(cart: seq<CartItem>, line: CartItem)
    ensures CartTotal(cart + [line]) == CartTotal(cart) + LineTotal(line)
    ensures CartItemCount(cart + [line]) == CartItemCount(cart) + line.quantity
  {
    CartTotalAppend(cart, [line]);
    CartTotalSingle(line);
  }

  /** A dish with a negative price, which the owner's form lets through,
      lowers the total it is added to. */
  lemma NegativeLineLowersTotal(cart: seq<CartItem>, line: CartItem)
    requires line.item.price < 0 && line.quantity >= 1
    ensures CartTotal(cart + [line]) < CartTotal(cart)
  {
    AddLineRaisesTotals(cart, line);
    NegativeTimesUnits(line.item.price, line.quantity);
  }

  /** A negative price times one or more units is at most the price. */
  lemma {:induction false} NegativeTimesUnits(p: int, q: nat)
    requires p < 0 && q >= 1
    ensures p * q <= p
    decreases q
  {
    if q > 1 {
      NegativeTimesUnits(p, q - 1);
      assert p * q == p * (q - 1) + p;
    }
  }

  /** Cutting a cart around line `i` splits its total and item count into
      the part before, the line itself and the part after. */
  lemma SplitAround(cart: seq<CartItem>, i: nat)
    requires i < |cart|
    ensures CartTotal(cart) == CartTotal(cart[..i]) + LineTotal(cart[i]) + CartTotal(cart[i + 1..])
    ensures CartItemCount(cart) == CartItemCount(cart[..i]) + cart[i].quantity + CartItemCount(cart[i + 1..])
  {
    var before, after := cart[..i], cart[i + 1..];
    var upTo := before + [cart[i]];
    assert cart == upTo + after;
    CartTotalAppend(upTo, after);
    AddLineRaisesTotals(before, cart[i]);
  }

  /** Removing line `i` lowers the total by exactly that line's amount and
      the item count by its quantity. */
  lemma RemoveLineLowersTotals(cart: seq<CartItem>, i: nat)
    requires i < |cart|
    ensures CartTotal(cart) == CartTotal(cart[..i] + cart[i + 1..]) + LineTotal(cart[i])
    ensures CartItemCount(cart) == CartItemCount(cart[..i] + cart[i + 1..]) + cart[i].quantity
  {
    SplitAround(cart, i);
    CartTotalAppend(cart[..i], cart[i + 1..]);
  }

  /** With every quantity at least 1, the badge counts at least one unit
      per line. */
  lemma {:induction false} ItemCountAtLeastLines(cart: seq<CartItem>)
    requires QuantitiesPositive(cart)
    ensures CartItemCount(cart) >= |cart|
    decreases |cart|
  {
    if cart != [] {
      ItemCountAtLeastLines(cart[..|cart| - 1]);
    }
  }

  /** Two units of the first seed dish total 17000. */
  lemma CartScenario(obs: string)
    ensures CartTotal([CartItem(Constants.INITIAL_MENU[0], 2, Some(obs))]) == 17000
  {
    CartTotalSingle(CartItem(Constants.INITIAL_MENU[0], 2, Some(obs)));
  }

  /** The state local to CustomerMenu.tsx; the cart, the table and the
      handlers belong to the session it is shown in. */
  class CustomerMenu {
    const app: App
    var selectedCategory: CategoryFilter
    var searchTerm: string
    var selectedItem: Option<MenuItem>
    var waiterCalled: bool
    var isCartOpen: bool
    var quantity: nat
    var observation: string
    var customerName: string

    ghost predicate Valid()
      reads this, app, app.storage
    {
      quantity >= 1 && app.Valid()
    }

    constructor (app: App)
      requires app.Valid()
      ensures Valid() && this.app == app
      ensures selectedCategory == Todos && searchTerm == "" && selectedItem == None
      ensures !waiterCalled && !isCartOpen
      ensures quantity == 1 && observation == "" && customerName == ""
    {
      this.app := app;
      selectedCategory := Todos;
      searchTerm := "";
      selectedItem := None;
      waiterCalled := false;
      isCartOpen := false;
      quantity := 1;
      observation := "";
      customerName := "";
    }

    method SelectCategory(c: CategoryFilter)
      modifies this`selectedCategory
      ensures selectedCategory == c
    {
      selectedCategory := c;
    }

    method SetSearchTerm(term: string)
      modifies this`searchTerm
      ensures searchTerm == term
    {
      searchTerm := term;
    }

    /** Tapping a dish opens it; the effect on `selectedItem` then resets
        the quantity to 1 and clears the note. */
    method OpenItem(item: MenuItem)
      requires Valid()
      modifies this`selectedItem, this`quantity, this`observation
      ensures Valid()
      ensures selectedItem == Some(item) && quantity == 1 && observation == ""
    {
      selectedItem := Some(item);
      quantity := 1;
      observation := "";
    }

    /** 'Fechar' or the backdrop: the dish closes, the selector keeps its value. */
    method CloseItem()
      modifies this`selectedItem
      ensures selectedItem == None
    {
      selectedItem := None;
    }

    /** The cart controls of the open dish (note, quantity selector and
        'Adicionar') are shown only at a table and for an available dish. */
    predicate CanOrderSelected()
      reads this, app
    {
      app.HasTable() && selectedItem.Some? && selectedItem.value.available
    }

    /** The minus button: `Math.max(1, quantity - 1)`. */
    method DecrementQuantity()
      requires Valid() && CanOrderSelected()
      modifies this`quantity
      ensures Valid()
      ensures quantity == if old(quantity) > 1 then old(quantity) - 1 else 1
    {
      quantity := if quantity - 1 > 1 then quantity - 1 else 1;
    }

    /** The plus button. */
    method IncrementQuantity()
      requires Valid() && CanOrderSelected()
      modifies this`quantity
      ensures Valid()
      ensures quantity == old(quantity) + 1
    {
      quantity := quantity + 1;
    }

    /** The note field of the open dish. */
    method SetObservation(text: string)
      requires CanOrderSelected()
      modifies this`observation
      ensures observation == text
    {
      observation := text;
    }

    /** 'Adicionar': one line copying the open dish, with the chosen quantity
        and the trimmed note, goes to the end of the cart. */
    method AddToCart()
      requires Valid() && app.HasTable()
      requires selectedItem.Some? ==> selectedItem.value.available
      modifies this`selectedItem, app`cart
      ensures Valid() && selectedItem == None
      ensures old(selectedItem).None? ==> app.cart == old(app.cart)
      ensures old(selectedItem).Some? ==>
        app.cart == old(app.cart) + [CartItem(old(selectedItem).value, quantity, Some(Trim(observation)))]
    {
      if selectedItem.None? {
        return;
      }
      var line := CartItem(selectedItem.value, quantity, Some(Trim(observation)));
      app.cart := app.cart + [line];
      selectedItem := None;
    }

    /** The trash button of line `index`. */
    method RemoveFromCart(index: nat)
      requires Valid() && index < |app.cart|
      modifies app`cart
      ensures Valid()
      ensures app.cart == old(app.cart[..index] + app.cart[index + 1..])
      ensures |app.cart| == |old(app.cart)| - 1
    {
      ghost var before := app.cart;
      app.cart := app.cart[..index] + app.cart[index + 1..];
      assert forall k :: 0 <= k < |app.cart| ==> app.cart[k] == before[if k < index then k else k + 1];
    }

    /** 'Chamar Garçom' or the bill button, after the confirmation dialog;
        the two buttons are shown only at a table. */
    method Call(kind: RequestKind, confirmed: bool, requestId: string, timestamp: nat)
      requires Valid() && app.HasTable()
      modifies this`waiterCalled, app`waiterRequests
      ensures Valid()
      ensures !confirmed ==> app.waiterRequests == old(app.waiterRequests) && waiterCalled == old(waiterCalled)
      ensures confirmed ==> waiterCalled
      ensures confirmed ==>
        app.waiterRequests == [NewRequest(requestId, app.tableId.value, timestamp, kind)] + old(app.waiterRequests)
    {
      if confirmed {
        app.RequestWaiter(kind, requestId, timestamp);
        waiterCalled := true;
      }
    }

    method SetCustomerName(name: string)
      modifies this`customerName
      ensures customerName == name
    {
      customerName := name;
    }

    /** 'Ver Pedido', shown only at a table, with a non-empty cart and the
        sheet closed. */
    method OpenCart()
      requires app.HasTable() && |app.cart| > 0 && !isCartOpen
      modifies this`isCartOpen
      ensures isCartOpen
    {
      isCartOpen := true;
    }

    method CloseCart()
      modifies this`isCartOpen
      ensures !isCartOpen
    {
      isCartOpen := false;
    }

    /** 'Confirmar Pedido'. The button is disabled while the cart is empty;
        a blank name stops the submission with a prompt. Otherwise the cart
        and its total go to the session's order handler, the sheet closes
        and the name field is cleared. */
    method SubmitOrder(orderId: string, timestamp: nat)
      requires Valid() && |app.cart| > 0
      modifies this`isCartOpen, this`customerName, app`orders, app`cart
      ensures Valid()
      ensures IsBlank(old(customerName)) ==>
        && app.orders == old(app.orders) && app.cart == old(app.cart)
        && customerName == old(customerName) && isCartOpen == old(isCartOpen)
      ensures !IsBlank(old(customerName)) ==> customerName == "" && !isCartOpen
      ensures !IsBlank(old(customerName)) && old(app.HasTable()) ==>
        && app.orders == [Order(orderId, app.tableId.value, Some(old(customerName)), old(app.cart),
                                CartTotal(old(app.cart)), OrderPending, timestamp)] + old(app.orders)
        && app.cart == []
      ensures !IsBlank(old(customerName)) && !old(app.HasTable()) ==>
        app.orders == old(app.orders) && app.cart == old(app.cart)
    {
      if IsBlank(customerName) {
        return;
      }
      app.PlaceOrder(app.cart, CartTotal(app.cart), customerName, orderId, timestamp);
      isCartOpen := false;
      customerName := "";
    }

    /** The exit button: the session's exit handler. */
    method Exit(confirmed: bool)
      modifies app`tableId, app`view
      ensures confirmed ==> app.tableId == None && app.view == Session.Landing
      ensures !confirmed ==> app.tableId == old(app.tableId) && app.view == old(app.view)
    {
      app.ExitTable(confirmed);
    }
  }
}
