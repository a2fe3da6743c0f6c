/** The top-level session controller: which screen is shown, the table the
    session is bound to, and the in-memory waiter requests, cart and orders,
    with the handlers the screens call. */
module Session {
  import opened Types
  import opened Seqs
  import opened Storage

  datatype View = Landing | Register | Customer | Admin

  /** Every cart line asks for at least one unit. */
  predicate QuantitiesPositive(cart: seq<CartItem>)
  {
    forall k :: 0 <= k < |cart| ==> cart[k].quantity >= 1
  }

  /** `prev.filter(r => r.id !== id)`. */
  function WithoutRequest(reqs: seq<WaiterRequest>, id: string): (r: seq<WaiterRequest>)
    ensures IsSubsequence(r, reqs)
    ensures forall x :: x in r <==> x in reqs && x.id != id
    ensures forall x :: multiset(r)[x] == if x.id != id then multiset(reqs)[x] else 0
    ensures (forall x :: x in reqs ==> x.id != id) ==> r == reqs
  {
    var keep := (x: WaiterRequest) => x.id != id;
    FilterMembers(reqs, keep);
    FilterMultiset(reqs, keep);
    FilterKeepsAll(reqs, keep);
    Filter(reqs, keep)
  }

  /** `prev.map(o => o.id === id ? { ...o, status } : o)`. */
  function UpdateStatus(orders: seq<Order>, id: string, status: OrderStatus): (r: seq<Order>)
    ensures |r| == |orders|
    ensures forall k :: 0 <= k < |orders| && orders[k].id == id ==> r[k] == orders[k].(status := status)
    ensures forall k :: 0 <= k < |orders| && orders[k].id != id ==> r[k] == orders[k]
  {
    if orders == [] then []
    else
      [if orders[0].id == id then orders[0].(status := status) else orders[0]]
      + UpdateStatus(orders[1..], id, status)
  }

  /** The request `handleRequestWaiter` creates: pending, for the session's
      table, of the asked kind, stamped with the given id and time. */
  function NewRequest(id: string, table: string, timestamp: nat, kind: RequestKind): (r: WaiterRequest)
    ensures r.status == Pending
    ensures r.id == id && r.tableId == table && r.kind == kind && r.timestamp == timestamp
  {
    WaiterRequest(id, table, timestamp, Pending, kind)
  }

  /** Requesting a waiter with an id no queued request has, then resolving
      that id, gives back the queue as it was. */
  lemma RequestThenResolve(prev: seq<WaiterRequest>, req: WaiterRequest)
    requires forall x :: x in prev ==> x.id != req.id
    ensures WithoutRequest([req] + prev, req.id) == prev
  {
    var keep := (x: WaiterRequest) => x.id != req.id;
    assert ([req] + prev)[1..] == prev;
    assert Filter([req] + prev, keep) == Filter(prev, keep);
    assert WithoutRequest(prev, req.id) == prev;
  }

  /** The status write itself makes no forward-only check: a delivered
      order can be set back to pending. */
  lemma UpdateStatusAcceptsRegression(o: Order)
    requires o.status == Delivered
    ensures UpdateStatus([o], o.id, OrderPending)[0].status == OrderPending
  {
  }

  /** The state of App.tsx. */
  class App {
    var view: View
    var loading: bool
    var menu: seq<MenuItem>
    var info: RestaurantInfo
    var tableId: Option<string>
    var waiterRequests: seq<WaiterRequest>
    var cart: seq<CartItem>
    var orders: seq<Order>
    const storage: StorageService

    ghost predicate Valid()
      reads this, storage
    {
      storage.Valid() && QuantitiesPositive(cart)
    }

    /** JavaScript truthiness of `tableId`: present and not empty. */
    predicate HasTable()
      reads this
    {
      tableId.Some? && tableId.value != ""
    }

    /** Mounting: the profile is read (and seeded) for the initial state, the
        table parameter of the address is taken if it is non-empty, and the
        menu is read (and seeded); the splash screen is showing. */
    constructor (store: StorageService, tableParam: Option<string>)
      requires store.Valid()
      modifies store
      ensures Valid() && storage == store
      ensures loading && view == Landing
      ensures info == InfoOf(old(store.entries))
      ensures menu == MenuOf(SeedInfo(old(store.entries)))
      ensures store.entries == SeedMenu(SeedInfo(old(store.entries)))
      ensures tableId == if tableParam.Some? && tableParam.value != "" then tableParam else None
      ensures waiterRequests == [] && cart == [] && orders == []
    {
      var i := store.GetRestaurantInfo();
      var m := store.GetMenu();
      storage := store;
      view := Landing;
      loading := true;
      info := i;
      menu := m;
      tableId := if tableParam.Some? && tableParam.value != "" then tableParam else None;
      waiterRequests := [];
      cart := [];
      orders := [];
    }

    /** The splash delay ends: with a table the customer view opens (and
        counts a visit); without one the landing screen stays. */
    method FinishSplash(today: string)
      requires Valid() && loading
      modifies this`view, this`loading, storage
      ensures Valid() && !loading
      ensures old(HasTable()) ==>
        && view == Customer
        && storage.entries == old(storage.entries)[ViewsKey := ViewsBlob(Bump(ViewsOf(old(storage.entries)), today))]
      ensures !old(HasTable()) ==> view == old(view) && storage.entries == old(storage.entries)
    {
      if HasTable() {
        view := Customer;
        storage.IncrementViews(today);
      }
      loading := false;
    }

    /** 'Criar Menu Grátis' on the landing screen. */
    method StartRegistration()
      requires !loading && view == Landing
      modifies this`view
      ensures view == Register
    {
      view := Register;
    }

    /** 'Ver Menu Demo' on the landing screen: entering the customer view
        counts one visit for today. */
    method OpenDemoMenu(today: string)
      requires Valid() && !loading && view == Landing
      modifies this`view, storage
      ensures Valid() && view == Customer
      ensures storage.entries == old(storage.entries)[ViewsKey := ViewsBlob(Bump(ViewsOf(old(storage.entries)), today))]
    {
      view := Customer;
      storage.IncrementViews(today);
    }

    /** 'Acesso Admin (Demo)': no credential check. */
    method OpenAdmin()
      requires !loading && view == Landing
      modifies this`view
      ensures view == Admin
    {
      view := Admin;
    }

    /** Registration's `onCancel`. */
    method CancelRegistration()
      requires view == Register
      modifies this`view
      ensures view == Landing
    {
      view := Landing;
    }

    /** The dashboard's `onLogout`. */
    method Logout()
      requires view == Admin
      modifies this`view
      ensures view == Landing
    {
      view := Landing;
    }

    method RequestWaiter(kind: RequestKind, id: string, timestamp: nat)
      modifies this`waiterRequests
      ensures !old(HasTable()) ==> waiterRequests == old(waiterRequests)
      ensures old(HasTable()) ==>
        waiterRequests == [NewRequest(id, tableId.value, timestamp, kind)] + old(waiterRequests)
    {
      if !HasTable() {
        return;
      }
      var request := NewRequest(id, tableId.value, timestamp, kind);
      waiterRequests := [request] + waiterRequests;
    }

    method ResolveRequest(id: string)
      modifies this`waiterRequests
      ensures waiterRequests == WithoutRequest(old(waiterRequests), id)
    {
      waiterRequests := WithoutRequest(waiterRequests, id);
    }

    method PlaceOrder(items: seq<CartItem>, total: int, customerName: string, id: string, timestamp: nat)
      requires Valid()
      modifies this`orders, this`cart
      ensures Valid()
      ensures !old(HasTable()) ==> orders == old(orders) && cart == old(cart)
      ensures old(HasTable()) ==>
        && orders == [Order(id, tableId.value, Some(customerName), items, total, OrderPending, timestamp)] + old(orders)
        && cart == []
    {
      if !HasTable() {
        return;
      }
      var order := Order(id, tableId.value, Some(customerName), items, total, OrderPending, timestamp);
      orders := [order] + orders;
      cart := [];
    }

    method UpdateOrderStatus(id: string, status: OrderStatus)
      modifies this`orders
      ensures orders == UpdateStatus(old(orders), id, status)
    {
      orders := UpdateStatus(orders, id, status);
    }

    /** Registration's `onComplete`: the new profile is kept and stored, and
        the dashboard opens. */
    method CompleteRegistration(newInfo: RestaurantInfo)
      requires Valid()
      modifies this`info, this`view, storage
      ensures Valid() && info == newInfo && view == Admin
      ensures storage.entries == old(storage.entries)[InfoKey := InfoBlob(newInfo)]
    {
      info := newInfo;
      storage.SaveRestaurantInfo(newInfo);
      view := Admin;
    }

    method UpdateInfo(newInfo: RestaurantInfo)
      requires Valid()
      modifies this`info, storage
      ensures Valid() && info == newInfo
      ensures storage.entries == old(storage.entries)[InfoKey := InfoBlob(newInfo)]
    {
      info := newInfo;
      storage.SaveRestaurantInfo(newInfo);
    }

    /** Leaving the customer view, after the confirmation dialog. */
    method ExitTable(confirmed: bool)
      modifies this`tableId, this`view
      ensures confirmed ==> tableId == None && view == Landing
      ensures !confirmed ==> tableId == old(tableId) && view == old(view)
    {
      if confirmed {
        tableId := None;
        view := Landing;
      }
    }
  }

  /** Loading with a table parameter opens that table's customer view and
      counts one visit; without one the landing screen is shown. */
  method LoadScenario(table: string, today: string)
    requires table != ""
  {
    var store := new StorageService();
    var app := new App(store, Some(table));
    app.FinishSplash(today);
    assert app.view == Customer && app.tableId == Some(table);
    var n := store.GetTodayViews(today);
    assert n == 1;

    var store2 := new StorageService();
    var app2 := new App(store2, None);
    app2.FinishSplash(today);
    assert app2.view == Landing && app2.tableId == None;
    n := store2.GetTodayViews(today);
    assert n == 0;
  }
}
