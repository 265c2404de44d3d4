/** The older stand-alone sale registration at the repository root: products
    are asked for one code at a time until the code "0", each accepted line
    takes its amount out of stock at once, and a sale is recorded only when at
    least one line was accepted. */
module LegacySales {
  import opened Wrappers
  import opened Strings
  import opened Products
  import opened Inventory
  import opened Sales

  /** One round of the sale prompt: the code typed and the amount typed. */
  datatype SaleEntry = SaleEntry(code: string, amount: string)

  /** The lines accepted so far and the stock each product has left. */
  datatype Progress = Progress(lines: seq<SaleLine>, stock: map<Product, int>)

  /** The current stock of every product of the inventory. */
  function Quantities(products: seq<Product>): (m: map<Product, int>)
    reads set p | p in products
    ensures forall p :: p in products ==> p in m && m[p] == p.quantity
  {
    map p | p in products :: p.quantity
  }

  /** One round once the code is looked up and the amount read: an unknown
      code, an amount that is not an integer, or an amount outside 1..stock
      is skipped; otherwise the line is accepted and its amount leaves the
      stock at once. */
  function Round(s: Progress, found: Option<Product>, amount: Option<int>): (r: Progress)
    requires found.Some? ==> found.value in s.stock
    ensures r.stock.Keys == s.stock.Keys
  {
    if found.Some? && amount.Some? && 0 < amount.value <= s.stock[found.value] then
      var p := found.value;
      Progress(s.lines + [SaleLine(p, amount.value)], s.stock[p := s.stock[p] - amount.value])
    else s
  }

  /** One round of the prompt: the product is looked up by code or name and
      the amount is read with `int`. */
  function Step(s: Progress, products: seq<Product>, e: SaleEntry): (r: Progress)
    requires forall p :: p in products ==> p in s.stock
    ensures r.stock.Keys == s.stock.Keys
  {
    Round(s, Lookup(products, e.code), ParseInt(e.amount))
  }

  /** The rounds up to the first code "0", taken in order. */
  function Sell(entries: seq<SaleEntry>, products: seq<Product>, s: Progress): (r: Progress)
    requires forall p :: p in products ==> p in s.stock
    ensures r.stock.Keys == s.stock.Keys
  {
    if entries == [] || entries[0].code == "0" then s
    else Sell(entries[1..], products, Step(s, products, entries[0]))
  }

  /** An accepted line: a product of the inventory and a positive amount. */
  predicate ValidLine(l: SaleLine, products: seq<Product>) {
    l.product in products && l.amount > 0
  }

  /** `after` is `before` followed by valid lines only. */
  predicate Extends(before: seq<SaleLine>, after: seq<SaleLine>, products: seq<Product>) {
    |before| <= |after| && after[..|before|] == before &&
    forall i :: |before| <= i < |after| ==> ValidLine(after[i], products)
  }

  lemma ExtendsTransitive(a: seq<SaleLine>, b: seq<SaleLine>, c: seq<SaleLine>, products: seq<Product>)
    requires Extends(a, b, products) && Extends(b, c, products)
    ensures Extends(a, c, products)
  {
    assert c[..|b|][..|a|] == c[..|a|];
    forall i | |a| <= i < |b|
      ensures ValidLine(c[i], products)
    {
      assert c[..|b|][i] == c[i];
    }
  }

  /** A round appends at most one line, and a valid one. */
  lemma RoundExtends(s: Progress, found: Option<Product>, amount: Option<int>, products: seq<Product>)
    requires found.Some? ==> found.value in s.stock && found.value in products
    ensures Extends(s.lines, Round(s, found, amount).lines, products)
  {
    assert s.lines[..|s.lines|] == s.lines;
    if found.Some? && amount.Some? && 0 < amount.value <= s.stock[found.value] {
      assert (s.lines + [SaleLine(found.value, amount.value)])[..|s.lines|] == s.lines;
    }
  }

  /** Lines are only ever appended, and each one appended is valid. */
  lemma {:induction false} SellExtends(entries: seq<SaleEntry>, products: seq<Product>, s: Progress)
    requires forall p :: p in products ==> p in s.stock
    ensures Extends(s.lines, Sell(entries, products, s).lines, products)
  {
    if entries != [] && entries[0].code != "0" {
      var next := Step(s, products, entries[0]);
      RoundExtends(s, Lookup(products, entries[0].code), ParseInt(entries[0].amount), products);
      SellExtends(entries[1..], products, next);
      ExtendsTransitive(s.lines, next.lines, Sell(entries[1..], products, next).lines, products);
    } else {
      assert s.lines[..|s.lines|] == s.lines;
    }
  }

  /** The stock left of each product is the stock at the start minus the
      amounts of the lines accepted for it. */
  lemma {:induction false} SellTakesAmounts(entries: seq<SaleEntry>, products: seq<Product>, s: Progress,
                                            start: map<Product, int>)
    requires forall p :: p in products ==> p in s.stock
    requires forall p :: p in s.stock ==> p in start && s.stock[p] == start[p] - AmountFor(s.lines, p)
    ensures var r := Sell(entries, products, s);
      forall p :: p in r.stock ==> r.stock[p] == start[p] - AmountFor(r.lines, p)
  {
    if entries != [] && entries[0].code != "0" {
      var next := Step(s, products, entries[0]);
      if next != s {
        var l := next.lines[|next.lines| - 1];
        assert next.lines == s.lines + [l];
        assert (s.lines + [l])[..|s.lines|] == s.lines;
      }
      SellTakesAmounts(entries[1..], products, next, start);
    }
  }

  /** No round takes more than is left, so stock that starts non-negative stays so. */
  lemma {:induction false} SellKeepsStock(entries: seq<SaleEntry>, products: seq<Product>, s: Progress)
    requires forall p :: p in products ==> p in s.stock
    requires forall p :: p in s.stock ==> s.stock[p] >= 0
    ensures var r := Sell(entries, products, s);
      forall p :: p in r.stock ==> 0 <= r.stock[p] <= s.stock[p]
  {
    if entries != [] && entries[0].code != "0" {
      var next := Step(s, products, entries[0]);
      SellKeepsStock(entries[1..], products, next);
    }
  }

  /** One round of `Sell` taken off the front of the remaining entries. */
  lemma SellUnfold(entries: seq<SaleEntry>, i: int, products: seq<Product>, s: Progress)
    requires 0 <= i < |entries| && entries[i].code != "0"
    requires forall p :: p in products ==> p in s.stock
    ensures Sell(entries[i..], products, s) == Sell(entries[i + 1..], products, Step(s, products, entries[i]))
  {
    assert entries[i..][0] == entries[i];
    assert entries[i..][1..] == entries[i + 1..];
  }

  /** Rounds after the code "0" are never looked at. */
  lemma FinishStops(entries: seq<SaleEntry>, rest: seq<SaleEntry>, products: seq<Product>, s: Progress)
    requires forall p :: p in products ==> p in s.stock
    requires forall e :: e in entries ==> e.code != "0"
    ensures Sell(entries + [SaleEntry("0", "")] + rest, products, s) == Sell(entries, products, s)
  {
    if entries != [] {
      assert (entries + [SaleEntry("0", "")] + rest)[1..] == entries[1..] + [SaleEntry("0", "")] + rest;
      FinishStops(entries[1..], rest, products, Step(s, products, entries[0]));
    } else {
      assert (entries + [SaleEntry("0", "")] + rest)[0].code == "0";
    }
  }

  /** The body of the sale loop once the code is looked up and the amount
      read: an accepted line is appended and its amount taken out of the
      product's stock, and nothing else changes. */
  method TakeRound(ghost products: seq<Product>, found: Option<Product>, amount: Option<int>,
                   lines: seq<SaleLine>, ghost stock: map<Product, int>)
    returns (lines': seq<SaleLine>, ghost stock': map<Product, int>)
    requires forall q :: q in products ==> q in stock && q.quantity == stock[q]
    requires found.Some? ==> found.value in products
    modifies if found.Some? then {found.value} else {}
    ensures Progress(lines', stock') == Round(Progress(lines, stock), found, amount)
    ensures forall q :: q in products ==> q in stock' && q.quantity == stock'[q]
    ensures forall q :: q in products ==> q.available == old(q.available) && q.price == old(q.price)
  {
    lines', stock' := lines, stock;
    if found.Some? && amount.Some? && 0 < amount.value <= found.value.quantity {
      var p := found.value;
      lines' := lines + [SaleLine(p, amount.value)];
      p.quantity := p.quantity - amount.value;
      stock' := stock[p := stock[p] - amount.value];
    }
  }

  /** One round of the sale loop: the product is looked up by code or name,
      the amount read, and the round taken as `Step` says. */
  method SaleRound(inventory: Inventory, ghost products: seq<Product>, e: SaleEntry,
                   lines: seq<SaleLine>, ghost stock: map<Product, int>)
    returns (lines': seq<SaleLine>, ghost stock': map<Product, int>)
    requires inventory.products == products
    requires forall q :: q in products ==> q in stock && q.quantity == stock[q]
    modifies inventory.products
    ensures inventory.products == products
    ensures Progress(lines', stock') == Step(Progress(lines, stock), products, e)
    ensures forall q :: q in products ==> q in stock' && q.quantity == stock'[q]
    ensures forall q :: q in products ==> q.available == old(q.available) && q.price == old(q.price)
  {
    var found := inventory.FindProduct(e.code);
    var amount := ParseInt(e.amount);
    lines', stock' := TakeRound(products, found, amount, lines, stock);
  }

  /** The sale loop: rounds are taken in order until the code "0" or the
      end of the entries; the stock of every product ends as `Sell` leaves it. */
  method SellRounds(inventory: Inventory, entries: seq<SaleEntry>) returns (lines: seq<SaleLine>)
    modifies inventory.products
    ensures inventory.products == old(inventory.products)
    ensures var r := Sell(entries, inventory.products, Progress([], old(Quantities(inventory.products))));
      && lines == r.lines
      && forall p :: p in inventory.products ==> p.quantity == r.stock[p]
    ensures forall p :: p in inventory.products ==> p.available == old(p.available) && p.price == old(p.price)
  {
    var products := inventory.products;
    ghost var stock := Quantities(products);
    ghost var target := Sell(entries, products, Progress([], stock));
    lines := [];
    var i := 0;
    while i < |entries|
      invariant 0 <= i <= |entries|
      invariant inventory.products == products
      invariant forall q :: q in products ==> q in stock && q.quantity == stock[q]
      invariant Sell(entries[i..], products, Progress(lines, stock)) == target
      invariant forall q :: q in products ==> q.available == old(q.available) && q.price == old(q.price)
    {
      if entries[i].code == "0" {
        assert entries[i..][0].code == "0";
        break;
      }
      SellUnfold(entries, i, products, Progress(lines, stock));
      lines, stock := SaleRound(inventory, products, entries[i], lines, stock);
      i := i + 1;
    }
    assert Progress(lines, stock) == target;
  }

  /** The class-level list of the older sales. */
  class LegacySalesBook {
    var sales: seq<Sale>

    constructor ()
      ensures sales == []
    {
      sales := [];
    }

    /** `registrar_venta`, with the typed rounds given as a list. The stock of
        every product ends as `Sell` leaves it; availability and prices are
        never touched; a sale with the accepted lines is recorded at the end
        exactly when some line was accepted. */
    method RegisterSale(inventory: Inventory, client: string, payment: string, date: string,
                        entries: seq<SaleEntry>) returns (sale: Option<Sale>)
      modifies this`sales, inventory.products
      ensures var r := Sell(entries, inventory.products, Progress([], old(Quantities(inventory.products))));
        && (forall p :: p in inventory.products ==> p.quantity == r.stock[p])
        && (sale.Some? <==> r.lines != [])
        && (sale.Some? ==> sale.value == Sale(client, r.lines, payment, date) && sales == old(sales) + [sale.value])
        && (sale.None? ==> sales == old(sales))
      ensures forall p :: p in inventory.products ==> p.available == old(p.available) && p.price == old(p.price)
    {
      var lines := SellRounds(inventory, entries);
      if lines != [] {
        var s := Sale(client, lines, payment, date);
        sales := sales + [s];
        return Some(s);
      }
      return None;
    }
  }

  /** What a recorded sale did to stock: every product lost exactly the
      amounts of its lines and no stock went below zero. */
  lemma RegisteredSaleTakesStock(entries: seq<SaleEntry>, products: seq<Product>, start: map<Product, int>)
    requires forall p :: p in products ==> p in start
    requires forall p :: p in start ==> start[p] >= 0
    ensures var r := Sell(entries, products, Progress([], start));
      forall p :: p in start ==> 0 <= r.stock[p] == start[p] - AmountFor(r.lines, p)
  {
    SellTakesAmounts(entries, products, Progress([], start), start);
    SellKeepsStock(entries, products, Progress([], start));
  }
}
