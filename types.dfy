/** Shared value types of the digital menu: menu items, the restaurant
    profile, cart lines, orders and waiter requests. Optional fields of the
    source records are `Option`s. Quantities and timestamps are naturals;
    prices, preparation times and order totals are integers, since the
    owner's number inputs accept negative values. */
module Types {

  datatype Option<T> = None | Some(value: T)

  /** The four menu categories ('Entradas', 'Pratos Principais', 'Bebidas',
      'Sobremesas'). */
  datatype Category = Entradas | PratosPrincipais | Bebidas | Sobremesas

  datatype MenuItem = MenuItem(
    id: string,
    name: string,
    description: string,
    price: int,
    category: Category,
    imageUrl: Option<string>,
    available: bool,
    prepTime: Option<int>,
    isVegetarian: Option<bool>,
    isSpicy: Option<bool>,
    isGlutenFree: Option<bool>)

  datatype RestaurantInfo = RestaurantInfo(
    name: string,
    slogan: Option<string>,
    category: Option<string>,
    phone: string,
    address: string,
    wifiName: Option<string>,
    wifiPassword: Option<string>)

  datatype RequestStatus = Pending | Completed

  /** 'call_waiter' or 'bill'. */
  datatype RequestKind = CallWaiter | Bill

  datatype WaiterRequest = WaiterRequest(
    id: string,
    tableId: string,
    timestamp: nat,
    status: RequestStatus,
    kind: RequestKind)

  /** A cart line: a copy of the menu item plus the quantity and the note. */
  datatype CartItem = CartItem(item: MenuItem, quantity: nat, observation: Option<string>)

  /** 'pending' | 'preparing' | 'ready' | 'delivered'. */
  datatype OrderStatus = OrderPending | Preparing | Ready | Delivered

  datatype Order = Order(
    id: string,
    tableId: string,
    customerName: Option<string>,
    items: seq<CartItem>,
    total: int,
    status: OrderStatus,
    timestamp: nat)
}
