/** Order registration against an inventory: an order names a product by its
    exact name, passes four checks in a fixed order and takes its amount out
    of stock. */
module Orders {
  import opened Wrappers
  import opened Products
  import opened Inventory

  /** A registered order; the date is the opaque registration time. */
  datatype Order = Order(client: string, product: Product, amount: int, date: string, state: string)

  /** The state every new order starts in. */
  const Registered: string := "Registrado"

  /** The stored form of an order: client, product name, amount, date, state. */
  datatype OrderRecord = OrderRecord(client: string, productName: string, amount: int, date: string, state: string)

  /** `to_dict()`: the product is stored by its name. */
  function ToRecord(o: Order): (r: OrderRecord)
    ensures r.productName == o.product.name
    ensures (r.client, r.amount, r.date, r.state) == (o.client, o.amount, o.date, o.state)
  {
    OrderRecord(o.client, o.product.name, o.amount, o.date, o.state)
  }

  /** `{p.nombre: p for p in productos}`: later products overwrite earlier ones of the same name. */
  function NameIndex(products: seq<Product>): (index: map<string, Product>)
    ensures forall n :: n in index ==> index[n] in products && index[n].name == n
    ensures forall p :: p in products ==> p.name in index
  {
    if products == [] then map[]
    else
      var last := products[|products| - 1];
      NameIndex(products[..|products| - 1])[last.name := last]
  }

  /** For a repeated name the index holds the last product with that name. */
  lemma {:induction false} NameIndexLastWins(products: seq<Product>, i: int)
    requires 0 <= i < |products|
    requires forall j :: i < j < |products| ==> products[j].name != products[i].name
    ensures NameIndex(products)[products[i].name] == products[i]
  {
    var n := |products|;
    if i < n - 1 {
      NameIndexLastWins(products[..n - 1], i);
    }
  }

  /** The message of the first check an order fails, in the order they run. */
  function OrderError(index: map<string, Product>, name: string, amount: int): (e: Option<string>)
    reads index.Values
    ensures e.None? <==> name in index && 0 < amount <= index[name].quantity && index[name].available
  {
    if name !in index then Some("Producto no encontrado")
    else if amount <= 0 then Some("Cantidad inválida")
    else if !index[name].available then Some("Producto no disponible")
    else if amount > index[name].quantity then Some("Stock insuficiente")
    else None
  }

  class OrderManager {
    const inventory: Inventory
    /** The name index, built once when the manager is created. */
    const index: map<string, Product>
    var orders: seq<Order>

    /** Builds the name index over the inventory it is given; there are no orders yet. */
    constructor (inventory: Inventory)
      ensures this.inventory == inventory
      ensures index == NameIndex(inventory.products)
      ensures orders == []
    {
      this.inventory := inventory;
      index := NameIndex(inventory.products);
      orders := [];
    }

    /** `registrar_pedido`: the first failing check is reported and nothing
        changes; otherwise the product's stock drops by exactly the amount
        and one order in state "Registrado" is appended and returned. */
    method RegisterOrder(client: string, name: string, amount: int, now: string) returns (r: Result<Order>)
      modifies this, index.Values
      ensures r.Err? <==> old(OrderError(index, name, amount)).Some?
      ensures r.Err? ==> Some(r.message) == old(OrderError(index, name, amount))
      ensures r.Err? ==> orders == old(orders)
      ensures forall p :: p in index.Values ==> p.price == old(p.price)
      ensures r.Err? ==> forall p :: p in index.Values ==>
        p.quantity == old(p.quantity) && p.available == old(p.available)
      ensures r.Ok? ==>
        var p := index[name];
        && r.value == Order(client, p, amount, now, Registered)
        && orders == old(orders) + [r.value]
        && p.quantity == old(p.quantity) - amount >= 0
        && p.available == (p.quantity > 0)
        && forall q :: q in index.Values && q != p ==>
             q.quantity == old(q.quantity) && q.available == old(q.available)
    {
      if name !in index {
        return Err("Producto no encontrado");
      }
      var p := index[name];
      if amount <= 0 {
        return Err("Cantidad inválida");
      }
      if !p.available {
        return Err("Producto no disponible");
      }
      if amount > p.quantity {
        return Err("Stock insuficiente");
      }
      p.SetQuantity(p.quantity - amount);
      var order := Order(client, p, amount, now, Registered);
      orders := orders + [order];
      return Ok(order);
    }

    /** `listar_pedidos`: the orders in registration order. */
    method ListOrders() returns (r: seq<Order>)
      ensures r == orders
    {
      return orders;
    }
  }
}
