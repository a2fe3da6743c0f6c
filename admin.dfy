/** The owner's dashboard: catalog edits (delete, availability toggle,
    create, update), the counters on the overview, the order list shown
    newest first, and the one-step status buttons. */
module Admin {
  import opened Types
  import opened Seqs
  import opened Text
  import opened Session
  import opened Storage

  /** Catalog ids are pairwise distinct. */
  predicate IdsDistinct(menu: seq<MenuItem>)
  {
    forall i, j :: 0 <= i < j < |menu| ==> menu[i].id != menu[j].id
  }

  /** `menu.filter(item => item.id !== id)`. */
  function WithoutItem(menu: seq<MenuItem>, id: string): (r: seq<MenuItem>)
    ensures IsSubsequence(r, menu)
    ensures forall x :: x in r <==> x in menu && x.id != id
    ensures forall x :: multiset(r)[x] == if x.id != id then multiset(menu)[x] else 0
    ensures IdsDistinct(menu) ==> IdsDistinct(r)
  {
    var keep := (x: MenuItem) => x.id != id;
    FilterMembers(menu, keep);
    FilterMultiset(menu, keep);
    FilterKeepsIdsDistinct(menu, keep);
    Filter(menu, keep)
  }

  /** Dropping catalog entries cannot make two ids collide. */
  lemma {:induction false} FilterKeepsIdsDistinct(menu: seq<MenuItem>, p: MenuItem -> bool)
    ensures IdsDistinct(menu) ==> IdsDistinct(Filter(menu, p))
    decreases |menu|
  {
    if menu != [] && IdsDistinct(menu) {
      var rest := Filter(menu[1..], p);
      FilterKeepsIdsDistinct(menu[1..], p);
      FilterMembers(menu[1..], p);
      assert IdsDistinct(menu[1..]);
      if p(menu[0]) {
        assert forall x :: x in rest ==> x.id != menu[0].id;
        assert ([menu[0]] + rest)[1..] == rest;
      }
    }
  }

  /** The catalog entry with its availability flipped. */
  function Flipped(item: MenuItem): MenuItem
  {
    item.(available := !item.available)
  }

  /** `menu.map(item => item.id === id ? { ...item, available: !item.available } : item)`. */
  function ToggleAvailability(menu: seq<MenuItem>, id: string): (r: seq<MenuItem>)
    ensures |r| == |menu|
    ensures forall k :: 0 <= k < |menu| && menu[k].id == id ==> r[k] == Flipped(menu[k])
    ensures forall k :: 0 <= k < |menu| && menu[k].id != id ==> r[k] == menu[k]
  {
    if menu == [] then []
    else [if menu[0].id == id then Flipped(menu[0]) else menu[0]] + ToggleAvailability(menu[1..], id)
  }

  /** Toggling the same id twice gives back the catalog. */
  lemma {:induction false} ToggleTwice(menu: seq<MenuItem>, id: string)
    ensures ToggleAvailability(ToggleAvailability(menu, id), id) == menu
  {
    if menu != [] {
      ToggleTwice(menu[1..], id);
      assert ToggleAvailability(menu, id)[1..] == ToggleAvailability(menu[1..], id);
    }
  }

  /** `menu.map(item => item.id === id ? { ...form, id: item.id } : item)`. */
  function ReplaceItem(menu: seq<MenuItem>, id: string, form: MenuItem): (r: seq<MenuItem>)
    ensures |r| == |menu|
    ensures forall k :: 0 <= k < |menu| && menu[k].id == id ==> r[k] == form.(id := id)
    ensures forall k :: 0 <= k < |menu| && menu[k].id != id ==> r[k] == menu[k]
  {
    if menu == [] then []
    else [if menu[0].id == id then form.(id := menu[0].id) else menu[0]] + ReplaceItem(menu[1..], id, form)
  }

  /** Neither the toggle nor an update changes any id. */
  lemma EditsKeepIds(menu: seq<MenuItem>, id: string, form: MenuItem)
    ensures forall k :: 0 <= k < |menu| ==> ToggleAvailability(menu, id)[k].id == menu[k].id
    ensures forall k :: 0 <= k < |menu| ==> ReplaceItem(menu, id, form)[k].id == menu[k].id
    ensures IdsDistinct(menu) ==> IdsDistinct(ToggleAvailability(menu, id))
    ensures IdsDistinct(menu) ==> IdsDistinct(ReplaceItem(menu, id, form))
  {
  }

  const PLACEHOLDER_BASE: string := "https://picsum.photos/600/400?random="

  /** The image a new dish gets when the form has none: the placeholder
      service's address with the creation stamp appended. It is never empty,
      and the stamp can be read back from it, so two stamps never share an
      image. */
  function PlaceholderImage(stamp: string): (r: string)
    ensures |r| == |PLACEHOLDER_BASE| + |stamp|
    ensures r != ""
    ensures r[..|PLACEHOLDER_BASE|] == PLACEHOLDER_BASE && r[|PLACEHOLDER_BASE|..] == stamp
  {
    PLACEHOLDER_BASE + stamp
  }

  /** The dish `handleSave` creates: the form with the fresh id, and the
      form's image or, if it is absent or empty, the placeholder. */
  function NewItem(form: MenuItem, freshId: string, stamp: string): (r: MenuItem)
    ensures r.id == freshId
    ensures form.imageUrl.Some? && form.imageUrl.value != "" ==> r.imageUrl == form.imageUrl
    ensures form.imageUrl.None? || form.imageUrl.value == "" ==> r.imageUrl == Some(PlaceholderImage(stamp))
    ensures r.(id := form.id, imageUrl := form.imageUrl) == form
  {
    var image := if form.imageUrl.Some? && form.imageUrl.value != "" then form.imageUrl.value else PlaceholderImage(stamp);
    form.(id := freshId, imageUrl := Some(image))
  }

  /** Creating a dish with an id no entry has adds exactly one entry and
      keeps the ids distinct. */
  lemma CreateKeepsIdsDistinct(menu: seq<MenuItem>, form: MenuItem, freshId: string, stamp: string)
    requires IdsDistinct(menu)
    requires forall x :: x in menu ==> x.id != freshId
    ensures |menu + [NewItem(form, freshId, stamp)]| == |menu| + 1
    ensures IdsDistinct(menu + [NewItem(form, freshId, stamp)])
  {
    var r := menu + [NewItem(form, freshId, stamp)];
    forall i, j | 0 <= i < j < |r| ensures r[i].id != r[j].id {
      if j == |menu| {
        assert r[i] in menu;
      }
    }
  }

  /** `menu.filter(i => i.available)`. */
  function AvailableItems(menu: seq<MenuItem>): (r: seq<MenuItem>)
    ensures IsSubsequence(r, menu)
    ensures forall x :: x in r <==> x in menu && x.available
    ensures forall x :: multiset(r)[x] == if x.available then multiset(menu)[x] else 0
  {
    var keep := (x: MenuItem) => x.available;
    FilterMembers(menu, keep);
    FilterMultiset(menu, keep);
    Filter(menu, keep)
  }

  /** `activeItems`: how many catalog positions hold an available dish. */
  function ActiveItems(menu: seq<MenuItem>): (r: nat)
    ensures r == |set k | 0 <= k < |menu| && menu[k].available|
    ensures r <= |menu|
  {
    SubsequenceBounds(AvailableItems(menu), menu);
    CountAvailable(menu);
    |AvailableItems(menu)|
  }

  /** The available dishes are as many as the positions holding one. */
  lemma CountAvailable(menu: seq<MenuItem>)
    ensures |AvailableItems(menu)| == |set k | 0 <= k < |menu| && menu[k].available|
  {
    var keep := (x: MenuItem) => x.available;
    FilterCountsMatches(menu, keep, |menu|);
    assert menu[..|menu|] == menu;
    assert Matching(menu, keep, |menu|) == set k | 0 <= k < |menu| && menu[k].available;
  }

  /** Every dish is counted active exactly when every dish is available. */
  lemma ActiveItemsAll(menu: seq<MenuItem>)
    ensures ActiveItems(menu) == |menu| <==> forall k :: 0 <= k < |menu| ==> menu[k].available
  {
    FilterKeepsAll(menu, (x: MenuItem) => x.available);
  }

  /** `orders.filter(o => o.status === 'pending')`. */
  function PendingOnly(orders: seq<Order>): (r: seq<Order>)
    ensures IsSubsequence(r, orders)
    ensures forall x :: x in r <==> x in orders && x.status == OrderPending
    ensures forall x :: multiset(r)[x] == if x.status == OrderPending then multiset(orders)[x] else 0
  {
    var keep := (x: Order) => x.status == OrderPending;
    FilterMembers(orders, keep);
    FilterMultiset(orders, keep);
    Filter(orders, keep)
  }

  /** `pendingOrders`: how many positions of the order list are pending. */
  function PendingOrders(orders: seq<Order>): (r: nat)
    ensures r == |set k | 0 <= k < |orders| && orders[k].status == OrderPending|
    ensures r <= |orders|
  {
    SubsequenceBounds(PendingOnly(orders), orders);
    CountPending(orders);
    |PendingOnly(orders)|
  }

  /** The pending orders are as many as the positions holding one. */
  lemma CountPending(orders: seq<Order>)
    ensures |PendingOnly(orders)| == |set k | 0 <= k < |orders| && orders[k].status == OrderPending|
  {
    var keep := (x: Order) => x.status == OrderPending;
    FilterCountsMatches(orders, keep, |orders|);
    assert orders[..|orders|] == orders;
    assert Matching(orders, keep, |orders|) == set k | 0 <= k < |orders| && orders[k].status == OrderPending;
  }

  /** A newly placed order adds one to the pending counter. */
  lemma PlacedOrderIsPending(orders: seq<Order>, o: Order)
    requires o.status == OrderPending
    ensures PendingOrders([o] + orders) == PendingOrders(orders) + 1
  {
    assert ([o] + orders)[1..] == orders;
  }

  /** The order list is shown newest first. */
  predicate NewestFirst(s: seq<Order>)
  {
    forall i, j :: 0 <= i < j < |s| ==> s[i].timestamp >= s[j].timestamp
  }

  /** No order of `s` is newer than `bound`. */
  predicate NoneNewerThan(s: seq<Order>, bound: nat)
  {
    forall k :: 0 <= k < |s| ==> s[k].timestamp <= bound
  }

  /** An order no newer than any of the head of a newest-first list goes
      in front of it. */
  lemma ConsNewestFirst(x: Order, t: seq<Order>)
    requires NewestFirst(t) && NoneNewerThan(t, x.timestamp)
    ensures NewestFirst([x] + t)
  {
  }

  /** Drawn from `s` and `o`, all no newer than `bound`, `r` is no newer. */
  lemma DrawnFromBounded(r: seq<Order>, s: seq<Order>, o: Order, bound: nat)
    requires forall x :: x in r ==> x == o || x in s
    requires NoneNewerThan(s, bound) && o.timestamp <= bound
    ensures NoneNewerThan(r, bound)
  {
    forall k | 0 <= k < |r|
      ensures r[k].timestamp <= bound
    {
      assert r[k] in r;
      if r[k] != o {
        var j :| 0 <= j < |s| && s[j] == r[k];
      }
    }
  }

  /** Places `o` in front of the first order that is not newer than it. */
  function InsertByTime(o: Order, s: seq<Order>): (r: seq<Order>)
    requires NewestFirst(s)
    ensures NewestFirst(r)
    ensures multiset(r) == multiset(s) + multiset{o}
    ensures forall x :: x in r ==> x == o || x in s
  {
    if s == [] || o.timestamp >= s[0].timestamp then
      ConsNewestFirst(o, s);
      [o] + s
    else
      var rest := InsertByTime(o, s[1..]);
      assert NoneNewerThan(s[1..], s[0].timestamp);
      DrawnFromBounded(rest, s[1..], o, s[0].timestamp);
      ConsNewestFirst(s[0], rest);
      assert s == [s[0]] + s[1..];
      [s[0]] + rest
  }

  /** `[...orders].sort((a, b) => b.timestamp - a.timestamp)`: the same
      orders, newest first. */
  function SortNewestFirst(orders: seq<Order>): (r: seq<Order>)
    ensures NewestFirst(r)
    ensures multiset(r) == multiset(orders)
    ensures |r| == |orders|
  {
    if orders == [] then []
    else
      assert orders == [orders[0]] + orders[1..];
      InsertByTime(orders[0], SortNewestFirst(orders[1..]))
  }

  /** Position of a status along pending, preparing, ready, delivered. */
  function StatusRank(s: OrderStatus): nat
  {
    match s
    case OrderPending => 0
    case Preparing => 1
    case Ready => 2
    case Delivered => 3
  }

  /** The status the order card's button offers, if any. */
  function NextStatus(s: OrderStatus): (r: Option<OrderStatus>)
    ensures r.None? <==> s == Delivered
    ensures r.Some? ==> StatusRank(r.value) == StatusRank(s) + 1
  {
    match s
    case OrderPending => Some(Preparing)
    case Preparing => Some(Ready)
    case Ready => Some(Delivered)
    case Delivered => None
  }

  /** With distinct order ids, pressing the button of order `k` moves that
      order exactly one step forward and leaves every other order as it was. */
  lemma DashboardStepIsForward(orders: seq<Order>, k: nat)
    requires k < |orders|
    requires forall i, j :: 0 <= i < j < |orders| ==> orders[i].id != orders[j].id
    requires NextStatus(orders[k].status).Some?
    ensures var r := UpdateStatus(orders, orders[k].id, NextStatus(orders[k].status).value);
      && |r| == |orders|
      && StatusRank(r[k].status) == StatusRank(orders[k].status) + 1
      && r[k] == orders[k].(status := r[k].status)
      && forall i :: 0 <= i < |orders| && i != k ==> r[i] == orders[i]
  {
    var r := UpdateStatus(orders, orders[k].id, NextStatus(orders[k].status).value);
    forall i | 0 <= i < |orders| && i != k ensures r[i] == orders[i] {
      if i < k {
        assert orders[i].id != orders[k].id;
      } else {
        assert orders[k].id != orders[i].id;
      }
    }
  }

  /** The reply of the description generator: the generated text, or a failure. */
  datatype Generation = Generated(text: string) | GenerationFailed

  const FALLBACK_DESCRIPTION: string := "Descrição indisponível no momento."

  /** What `generateDishDescription` resolves to. */
  function DescriptionText(reply: Generation): (r: string)
    ensures reply.GenerationFailed? ==> r == FALLBACK_DESCRIPTION
    ensures reply.Generated? ==> r == Trim(reply.text)
  {
    match reply
    case Generated(text) => Trim(text)
    case GenerationFailed => FALLBACK_DESCRIPTION
  }

  /** The form a new dish starts from. */
  const BLANK_FORM: MenuItem := MenuItem("", "", "", 0, PratosPrincipais, None, true, None, None, None, None)

  /** The state local to AdminDashboard.tsx; the catalog, the orders and the
      handlers belong to the session it is shown in. */
  class AdminDashboard {
    const app: App
    var isModalOpen: bool
    var editingItem: Option<MenuItem>
    var formData: MenuItem
    var isGenerating: bool
    var settingsForm: RestaurantInfo

    ghost predicate Valid()
      reads this, app, app.storage
    {
      app.Valid()
    }

    constructor (app: App)
      requires app.Valid()
      ensures Valid() && this.app == app
      ensures !isModalOpen && editingItem == None && formData == BLANK_FORM && !isGenerating
      ensures settingsForm == app.info
    {
      this.app := app;
      isModalOpen := false;
      editingItem := None;
      formData := BLANK_FORM;
      isGenerating := false;
      settingsForm := app.info;
    }

    /** 'Novo Prato'. */
    method OpenNewItem()
      modifies this`editingItem, this`formData, this`isModalOpen
      ensures editingItem == None && formData == BLANK_FORM && isModalOpen
    {
      editingItem := None;
      formData := BLANK_FORM;
      isModalOpen := true;
    }

    /** The edit button of a dish. */
    method EditItem(item: MenuItem)
      modifies this`editingItem, this`formData, this`isModalOpen
      ensures editingItem == Some(item) && formData == item && isModalOpen
    {
      editingItem := Some(item);
      formData := item;
      isModalOpen := true;
    }

    /** The form inputs. */
    method SetFormData(form: MenuItem)
      modifies this`formData
      ensures formData == form
    {
      formData := form;
    }

    method CloseModal()
      modifies this`isModalOpen
      ensures !isModalOpen
    {
      isModalOpen := false;
    }

    /** The delete button, after the confirmation dialog. */
    method Delete(id: string, confirmed: bool)
      requires Valid()
      modifies app`menu, app.storage
      ensures Valid()
      ensures confirmed ==>
        && app.menu == WithoutItem(old(app.menu), id)
        && app.storage.entries == old(app.storage.entries)[MenuKey := MenuBlob(app.menu)]
      ensures !confirmed ==> app.menu == old(app.menu) && app.storage.entries == old(app.storage.entries)
    {
      if confirmed {
        var newMenu := WithoutItem(app.menu, id);
        app.menu := newMenu;
        app.storage.SaveMenu(newMenu);
      }
    }

    /** The availability switch of a dish. */
    method ToggleItem(id: string)
      requires Valid()
      modifies app`menu, app.storage
      ensures Valid()
      ensures app.menu == ToggleAvailability(old(app.menu), id)
      ensures app.storage.entries == old(app.storage.entries)[MenuKey := MenuBlob(app.menu)]
    {
      var newMenu := ToggleAvailability(app.menu, id);
      app.menu := newMenu;
      app.storage.SaveMenu(newMenu);
    }

    /** 'Gerar IA': with no dish name the generator is not called. */
    method GenerateDescription(reply: Generation) returns (invoked: bool)
      modifies this`formData
      ensures invoked <==> old(formData).name != ""
      ensures invoked ==> formData == old(formData).(description := DescriptionText(reply))
      ensures !invoked ==> formData == old(formData)
    {
      if formData.name == "" {
        return false;
      }
      invoked := true;
      formData := formData.(description := DescriptionText(reply));
    }

    /** 'Salvar Prato': the entry being edited is replaced by the form (keeping
        its id), or a new dish with `freshId` is appended; the catalog is
        stored and the modal closes with a blank form. */
    method Save(freshId: string, imageStamp: string)
      requires Valid()
      modifies this`isModalOpen, this`editingItem, this`formData, app`menu, app.storage
      ensures Valid()
      ensures old(editingItem).Some? ==> app.menu == ReplaceItem(old(app.menu), old(editingItem).value.id, old(formData))
      ensures old(editingItem).None? ==> app.menu == old(app.menu) + [NewItem(old(formData), freshId, imageStamp)]
      ensures app.storage.entries == old(app.storage.entries)[MenuKey := MenuBlob(app.menu)]
      ensures !isModalOpen && editingItem == None && formData == BLANK_FORM
    {
      var newMenu := app.menu;
      if editingItem.Some? {
        newMenu := ReplaceItem(newMenu, editingItem.value.id, formData);
      } else {
        newMenu := newMenu + [NewItem(formData, freshId, imageStamp)];
      }
      app.menu := newMenu;
      app.storage.SaveMenu(newMenu);
      isModalOpen := false;
      editingItem := None;
      formData := BLANK_FORM;
    }

    /** The button on an order card: it exists only while a next status
        exists, and asks the session for exactly that status. */
    method AdvanceOrder(order: Order)
      requires order in app.orders
      requires NextStatus(order.status).Some?
      modifies app`orders
      ensures app.orders == UpdateStatus(old(app.orders), order.id, NextStatus(order.status).value)
    {
      app.UpdateOrderStatus(order.id, NextStatus(order.status).value);
    }

    method SetSettingsForm(form: RestaurantInfo)
      modifies this`settingsForm
      ensures settingsForm == form
    {
      settingsForm := form;
    }

    /** 'Salvar Alterações' on the settings tab. */
    method SaveSettings()
      requires Valid()
      modifies app`info, app.storage
      ensures Valid() && app.info == settingsForm
      ensures app.storage.entries == old(app.storage.entries)[InfoKey := InfoBlob(settingsForm)]
    {
      app.UpdateInfo(settingsForm);
    }
  }
}
