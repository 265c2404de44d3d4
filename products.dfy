/** A stocked product and the older class-level product registry with its
    lookups. The one `Product` class unifies the HU product record, whose
    fields are `codigo`, `nombre`, `cantidad`, ..., and the older root-level
    class, whose fields are `_codigo`, `_nombre`, `_cantidad`, ...; it has
    the setters of both. */
module Products {
  import opened Wrappers

  /** A product. Code, name, category, description and expiry date never change
      in the modelled operations; price, quantity and availability do. */
  class Product {
    const code: int
    const name: string
    const category: string
    const description: string
    var price: int
    var quantity: int
    var available: bool
    const expiry: string

    /** The availability flag follows the quantity. */
    ghost predicate Valid()
      reads this
    {
      available == (quantity > 0)
    }

    /** Both product constructors: availability starts as `quantity > 0`. */
    constructor (code: int, name: string, category: string, description: string,
                 price: int, quantity: int, expiry: string)
      ensures this.code == code && this.name == name && this.category == category
      ensures this.description == description && this.expiry == expiry
      ensures this.price == price && this.quantity == quantity
      ensures Valid()
    {
      this.code, this.name, this.category, this.description := code, name, category, description;
      this.price, this.quantity, this.expiry := price, quantity, expiry;
      this.available := quantity > 0;
    }

    /** The current product's quantity setter: stores any value, negative ones
        included, and recomputes availability. */
    method SetQuantity(q: int)
      modifies this
      ensures quantity == q && available == (q > 0)
      ensures price == old(price)
      ensures Valid()
    {
      quantity := q;
      available := q > 0;
    }

    /** The older quantity setter: rejects a negative value, and never touches
        availability. */
    method SetQuantityChecked(q: int) returns (outcome: Outcome)
      modifies this
      ensures outcome.Pass? <==> q >= 0
      ensures outcome.Fail? ==> outcome.message == "La cantidad no puede ser negativa"
      ensures quantity == (if q >= 0 then q else old(quantity))
      ensures available == old(available) && price == old(price)
    {
      if q >= 0 {
        quantity := q;
        outcome := Pass;
      } else {
        outcome := Fail("La cantidad no puede ser negativa");
      }
    }

    /** The older price setter: rejects a negative price. */
    method SetPrice(p: int) returns (outcome: Outcome)
      modifies this
      ensures outcome.Pass? <==> p >= 0
      ensures outcome.Fail? ==> outcome.message == "El precio no puede ser negativo"
      ensures price == (if p >= 0 then p else old(price))
      ensures quantity == old(quantity) && available == old(available)
    {
      if p >= 0 {
        price := p;
        outcome := Pass;
      } else {
        outcome := Fail("El precio no puede ser negativo");
      }
    }

    /** The older availability setter: the only way that class changes availability. */
    method SetAvailability(b: bool)
      modifies this
      ensures available == b
      ensures quantity == old(quantity) && price == old(price)
    {
      available := b;
    }
  }

  /** The older class keeps every product it ever constructed in a class-level list. */
  class ProductRegistry {
    var products: seq<Product>

    constructor ()
      ensures products == []
    {
      products := [];
    }

    /** Constructing a product appends it to the registry. */
    method Register(code: int, name: string, category: string, description: string,
                    price: int, quantity: int, expiry: string) returns (p: Product)
      modifies this
      ensures fresh(p)
      ensures products == old(products) + [p]
      ensures p.code == code && p.name == name && p.category == category
      ensures p.price == price && p.quantity == quantity && p.available == (quantity > 0)
    {
      p := new Product(code, name, category, description, price, quantity, expiry);
      products := products + [p];
    }

    /** The first registered product whose code equals the (parsed) code asked for. */
    method FindByCode(c: int) returns (r: Option<Product>)
      ensures r == First(products, (p: Product) => p.code == c)
    {
      var i := 0;
      while i < |products|
        invariant 0 <= i <= |products|
        invariant forall j :: 0 <= j < i ==> products[j].code != c
      {
        if products[i].code == c {
          return Some(products[i]);
        }
        i := i + 1;
      }
      return None;
    }

    /** Every registered product of exactly that category, in registration order. */
    method FindByCategory(c: string) returns (r: seq<Product>)
      ensures r == Filter(products, (p: Product) => p.category == c)
    {
      r := [];
      var i := 0;
      while i < |products|
        invariant 0 <= i <= |products|
        invariant r == Filter(products[..i], (p: Product) => p.category == c)
      {
        assert products[..i + 1][..i] == products[..i];
        if products[i].category == c {
          r := r + [products[i]];
        }
        i := i + 1;
      }
      assert products[..i] == products;
    }

    /** The first registered product with exactly that name (case-sensitive). */
    method FindByName(n: string) returns (r: Option<Product>)
      ensures r == First(products, (p: Product) => p.name == n)
    {
      var i := 0;
      while i < |products|
        invariant 0 <= i <= |products|
        invariant forall j :: 0 <= j < i ==> products[j].name != n
      {
        if products[i].name == n {
          return Some(products[i]);
        }
        i := i + 1;
      }
      return None;
    }
  }
}
