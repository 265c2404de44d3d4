/** Sales of the current application: a sale is a client, a list of
    (product, amount) lines, a payment method and a date. Creating a sale
    records it and takes the sold amounts out of stock; cancelling one puts
    them back. */
module Sales {
  import opened Wrappers
  import opened Strings
  import opened Products

  datatype SaleLine = SaleLine(product: Product, amount: int)

  /** The date is kept as the opaque value the source formats and parses. */
  datatype Sale = Sale(client: string, lines: seq<SaleLine>, payment: string, date: string)

  /** The products a list of lines mentions. */
  function ProductsOf(lines: seq<SaleLine>): set<Product> {
    set l | l in lines :: l.product
  }

  lemma ProductsOfAppend(a: seq<SaleLine>, b: seq<SaleLine>)
    ensures ProductsOf(a + b) == ProductsOf(a) + ProductsOf(b)
  {
    forall p | p in ProductsOf(a + b) ensures p in ProductsOf(a) + ProductsOf(b) {
      var l :| l in a + b && l.product == p;
    }
    forall p | p in ProductsOf(a) + ProductsOf(b) ensures p in ProductsOf(a + b) {
      if p in ProductsOf(a) {
        var l :| l in a && l.product == p;
        assert l in a + b;
      } else {
        var l :| l in b && l.product == p;
        assert l in a + b;
      }
    }
  }

  /** The number of units of `p` the lines take, summed over repeated lines. */
  function AmountFor(lines: seq<SaleLine>, p: Product): int {
    if lines == [] then 0
    else
      var last := lines[|lines| - 1];
      AmountFor(lines[..|lines| - 1], p) + (if last.product == p then last.amount else 0)
  }

  lemma {:induction false} AmountForAppend(a: seq<SaleLine>, b: seq<SaleLine>, p: Product)
    ensures AmountFor(a + b, p) == AmountFor(a, p) + AmountFor(b, p)
  {
    if b == [] {
      assert a + b == a;
    } else {
      assert (a + b)[..|a + b| - 1] == a + b[..|b| - 1];
      AmountForAppend(a, b[..|b| - 1], p);
    }
  }

  /** A product no line mentions is not taken at all. */
  lemma {:induction false} AmountForAbsent(lines: seq<SaleLine>, p: Product)
    requires p !in ProductsOf(lines)
    ensures AmountFor(lines, p) == 0
  {
    if lines != [] {
      assert lines[|lines| - 1] in lines;
      AmountForAbsent(lines[..|lines| - 1], p);
    }
  }

  /** `total()`: the sum of unit price times amount over the lines. */
  function Total(lines: seq<SaleLine>): (r: int)
    reads ProductsOf(lines)
    ensures lines == [] ==> r == 0
  {
    if lines == [] then 0
    else
      var last := lines[|lines| - 1];
      ProductsOfAppend(lines[..|lines| - 1], [last]);
      assert lines[..|lines| - 1] + [last] == lines;
      Total(lines[..|lines| - 1]) + last.product.price * last.amount
  }

  /** Totals add up over concatenated lines. */
  lemma {:induction false} TotalAppend(a: seq<SaleLine>, b: seq<SaleLine>)
    ensures Total(a + b) == Total(a) + Total(b)
  {
    if b == [] {
      assert a + b == a;
    } else {
      assert (a + b)[..|a + b| - 1] == a + b[..|b| - 1];
      TotalAppend(a, b[..|b| - 1]);
    }
  }

  /** With non-negative prices and amounts the total is non-negative. */
  lemma {:induction false} TotalNonNegative(lines: seq<SaleLine>)
    requires forall l :: l in lines ==> l.amount >= 0 && l.product.price >= 0
    ensures Total(lines) >= 0
  {
    if lines != [] {
      assert lines[|lines| - 1] in lines;
      TotalNonNegative(lines[..|lines| - 1]);
    }
  }

  // ------------------------------------------------------------ records

  /** One product entry of a stored sale: codigo, nombre, cantidad, precio_unitario. */
  datatype LineRecord = LineRecord(code: int, name: string, amount: int, unitPrice: int)

  /** A stored sale: cliente, forma_pago, fecha_venta and its product entries. */
  datatype SaleRecord = SaleRecord(client: string, payment: string, date: string, products: seq<LineRecord>)

  /** One entry per line, in the same order. */
  function LineRecords(lines: seq<SaleLine>): (r: seq<LineRecord>)
    reads ProductsOf(lines)
    ensures |r| == |lines|
    ensures forall i :: 0 <= i < |lines| ==>
      r[i] == LineRecord(lines[i].product.code, lines[i].product.name, lines[i].amount, lines[i].product.price)
  {
    if lines == [] then []
    else
      var last := lines[|lines| - 1];
      ProductsOfAppend(lines[..|lines| - 1], [last]);
      assert lines[..|lines| - 1] + [last] == lines;
      LineRecords(lines[..|lines| - 1]) + [LineRecord(last.product.code, last.product.name, last.amount, last.product.price)]
  }

  /** `to_dict()`. */
  function ToRecord(s: Sale): (r: SaleRecord)
    reads ProductsOf(s.lines)
    ensures r.client == s.client && r.payment == s.payment && r.date == s.date
    ensures r.products == LineRecords(s.lines)
  {
    SaleRecord(s.client, s.payment, s.date, LineRecords(s.lines))
  }

  /** The reconstruction of stored lines: each entry becomes a line of the
      first known product with that code; entries of unknown codes are dropped. */
  function RebuildLines(records: seq<LineRecord>, known: seq<Product>): (r: seq<SaleLine>)
    ensures |r| <= |records|
    ensures forall l :: l in r ==> l.product in known
    ensures forall l :: l in r ==> exists k :: k in records && k.code == l.product.code && k.amount == l.amount
  {
    if records == [] then []
    else
      var rest := RebuildLines(records[..|records| - 1], known);
      var rec := records[|records| - 1];
      match First(known, (p: Product) => p.code == rec.code)
      case None => rest
      case Some(p) => rest + [SaleLine(p, rec.amount)]
  }

  /** No two known products share a code. */
  predicate UniqueCodes(known: seq<Product>) {
    forall i, j :: 0 <= i < j < |known| ==> known[i].code != known[j].code
  }

  /** With unique codes, the first known product with a known product's code is that product. */
  lemma FirstWithCode(known: seq<Product>, p: Product)
    requires UniqueCodes(known) && p in known
    ensures First(known, (q: Product) => q.code == p.code) == Some(p)
  {
    var found := First(known, (q: Product) => q.code == p.code);
    var a :| 0 <= a < |known| && known[a] == found.value;
    var b :| 0 <= b < |known| && known[b] == p;
  }

  /** Storing the lines of a sale and rebuilding them gives the same lines back,
      provided every sold product is known and codes are unique. */
  lemma {:induction false} RebuildRoundTrip(lines: seq<SaleLine>, known: seq<Product>)
    requires UniqueCodes(known)
    requires forall l :: l in lines ==> l.product in known
    ensures RebuildLines(LineRecords(lines), known) == lines
  {
    if lines != [] {
      var n := |lines|;
      var last := lines[n - 1];
      var front := lines[..n - 1];
      assert lines == front + [last];
      var records := LineRecords(lines);
      assert records[..n - 1] == LineRecords(front);
      RebuildRoundTrip(front, known);
      assert last in lines;
      FirstWithCode(known, last.product);
    }
  }

  /** The sales a rebuilt list of stored sales consists of. */
  function RebuiltSales(records: seq<SaleRecord>, known: seq<Product>): (r: seq<Sale>)
    ensures |r| == |records|
    ensures forall i :: 0 <= i < |records| ==>
      r[i] == Sale(records[i].client, RebuildLines(records[i].products, known), records[i].payment, records[i].date)
  {
    if records == [] then []
    else
      var rec := records[|records| - 1];
      RebuiltSales(records[..|records| - 1], known) + [Sale(rec.client, RebuildLines(rec.products, known), rec.payment, rec.date)]
  }

  /** Rebuilding one more stored sale appends its sale. */
  lemma RebuiltSalesSnoc(records: seq<SaleRecord>, i: int, known: seq<Product>)
    requires 0 <= i < |records|
    ensures RebuiltSales(records[..i + 1], known) == RebuiltSales(records[..i], known) +
      [Sale(records[i].client, RebuildLines(records[i].products, known), records[i].payment, records[i].date)]
  {
    assert records[..i + 1][..i] == records[..i];
  }

  /** Every line of every sale, in order. */
  function AllLines(sales: seq<Sale>): seq<SaleLine> {
    if sales == [] then [] else AllLines(sales[..|sales| - 1]) + sales[|sales| - 1].lines
  }

  /** One more sale adds its lines, its products and its amounts to the totals. */
  lemma AllLinesSnoc(before: seq<Sale>, s: Sale)
    ensures AllLines(before + [s]) == AllLines(before) + s.lines
    ensures ProductsOf(AllLines(before + [s])) == ProductsOf(AllLines(before)) + ProductsOf(s.lines)
    ensures forall p :: AmountFor(AllLines(before + [s]), p) == AmountFor(AllLines(before), p) + AmountFor(s.lines, p)
  {
    assert (before + [s])[..|before|] == before;
    ProductsOfAppend(AllLines(before), s.lines);
    forall p ensures AmountFor(AllLines(before + [s]), p) == AmountFor(AllLines(before), p) + AmountFor(s.lines, p) {
      AmountForAppend(AllLines(before), s.lines, p);
    }
  }

  // -------------------------------------------------------- stock effects

  /** `actualizar_inventario`: each line takes its amount out of stock and the
      availability flag is set from the new quantity. */
  method UpdateInventory(lines: seq<SaleLine>)
    modifies ProductsOf(lines)
    ensures forall p :: p in ProductsOf(lines) ==>
      && p.quantity == old(p.quantity) - AmountFor(lines, p)
      && p.available == (p.quantity > 0)
      && p.price == old(p.price)
  {
    var i := 0;
    while i < |lines|
      invariant 0 <= i <= |lines|
      invariant forall p :: p in ProductsOf(lines) ==>
        p.quantity == old(p.quantity) - AmountFor(lines[..i], p) && p.price == old(p.price)
      invariant forall p :: p in ProductsOf(lines[..i]) ==> p.available == (p.quantity > 0)
    {
      var l := lines[i];
      assert l in lines;
      assert lines[..i + 1][..i] == lines[..i];
      ProductsOfAppend(lines[..i], [l]);
      assert lines[..i] + [l] == lines[..i + 1];
      l.product.SetQuantity(l.product.quantity - l.amount);
      l.product.SetAvailability(l.product.quantity > 0);
      i := i + 1;
    }
    assert lines[..i] == lines;
  }

  /** The cancellation loop: each line's amount goes back into stock and the
      product is marked available. */
  method RestoreInventory(lines: seq<SaleLine>)
    modifies ProductsOf(lines)
    ensures forall p :: p in ProductsOf(lines) ==>
      && p.quantity == old(p.quantity) + AmountFor(lines, p)
      && p.available
      && p.price == old(p.price)
  {
    var i := 0;
    while i < |lines|
      invariant 0 <= i <= |lines|
      invariant forall p :: p in ProductsOf(lines) ==>
        p.quantity == old(p.quantity) + AmountFor(lines[..i], p) && p.price == old(p.price)
      invariant forall p :: p in ProductsOf(lines[..i]) ==> p.available
    {
      var l := lines[i];
      assert l in lines;
      assert lines[..i + 1][..i] == lines[..i];
      ProductsOfAppend(lines[..i], [l]);
      assert lines[..i] + [l] == lines[..i + 1];
      l.product.SetQuantity(l.product.quantity + l.amount);
      l.product.SetAvailability(true);
      i := i + 1;
    }
    assert lines[..i] == lines;
  }

  /** The class-level list of sales. */
  class SalesBook {
    var sales: seq<Sale>

    constructor ()
      ensures sales == []
    {
      sales := [];
    }

    /** The sale constructor: the sale is recorded at the end, then its
        amounts are taken out of stock. */
    method NewSale(client: string, lines: seq<SaleLine>, payment: string, date: string) returns (s: Sale)
      modifies this, ProductsOf(lines)
      ensures s == Sale(client, lines, payment, date)
      ensures sales == old(sales) + [s]
      ensures forall p :: p in ProductsOf(lines) ==>
        && p.quantity == old(p.quantity) - AmountFor(lines, p)
        && p.available == (p.quantity > 0)
        && p.price == old(p.price)
    {
      s := Sale(client, lines, payment, date);
      sales := sales + [s];
      UpdateInventory(lines);
    }

    /** Cancels the sale at a 0-based position: a position inside the list
        removes exactly that sale and puts its amounts back; any other position
        changes nothing. */
    method CancelSale(index: int) returns (ok: bool)
      modifies this, if 0 <= index < |sales| then ProductsOf(sales[index].lines) else {}
      ensures ok <==> 0 <= index < |old(sales)|
      ensures !ok ==> sales == old(sales)
      ensures ok ==> sales == old(sales[..index] + sales[index + 1..])
      ensures ok ==> var lines := old(sales[index].lines);
        forall p :: p in ProductsOf(lines) ==>
          && p.quantity == old(p.quantity) + AmountFor(lines, p)
          && p.available
          && p.price == old(p.price)
    {
      if 0 <= index < |sales| {
        var sale := sales[index];
        sales := sales[..index] + sales[index + 1..];
        RestoreInventory(sale.lines);
        return true;
      }
      return false;
    }

    /** `filtrar_por_cliente`: the sales whose client contains the name, ignoring case. */
    function SalesOfClient(name: string): (r: seq<Sale>)
      reads this
      ensures forall v :: v in r ==> v in sales && Contains(ToLower(v.client), ToLower(name))
      ensures forall v :: v in sales && Contains(ToLower(v.client), ToLower(name)) ==> v in r
    {
      Filter(sales, (v: Sale) => Contains(ToLower(v.client), ToLower(name)))
    }

    /** The inner loop of the loader: rebuilds the lines of one stored sale. */
    method Rebuild(records: seq<LineRecord>, known: seq<Product>) returns (lines: seq<SaleLine>)
      ensures lines == RebuildLines(records, known)
    {
      lines := [];
      var i := 0;
      while i < |records|
        invariant 0 <= i <= |records|
        invariant lines == RebuildLines(records[..i], known)
      {
        assert records[..i + 1][..i] == records[..i];
        var rec := records[i];
        var found := First(known, (p: Product) => p.code == rec.code);
        if found.Some? {
          lines := lines + [SaleLine(found.value, rec.amount)];
        }
        i := i + 1;
      }
      assert records[..i] == records;
    }

    /** One step of the loader: rebuilds one stored sale through the sale constructor. */
    method AddStored(rec: SaleRecord, known: seq<Product>) returns (s: Sale)
      modifies this, set p | p in known
      ensures s == Sale(rec.client, RebuildLines(rec.products, known), rec.payment, rec.date)
      ensures sales == old(sales) + [s]
      ensures forall p :: p in known ==> p.quantity == old(p.quantity) - AmountFor(s.lines, p)
      ensures forall p :: p in ProductsOf(s.lines) ==> p.available == (p.quantity > 0)
      ensures forall p :: p in known && p !in ProductsOf(s.lines) ==>
        p.available == old(p.available) && p.quantity == old(p.quantity)
    {
      var lines := Rebuild(rec.products, known);
      s := NewSale(rec.client, lines, rec.payment, rec.date);
      forall p | p in known && p !in ProductsOf(lines)
        ensures p.quantity == old(p.quantity) - AmountFor(lines, p)
      {
        AmountForAbsent(lines, p);
      }
    }

    /** The loader's loop body: one stored sale is rebuilt, and the stock
        still equals the stock at the start minus every rebuilt line. */
    method LoadStep(rec: SaleRecord, known: seq<Product>, ghost start: map<Product, int>) returns (s: Sale)
      requires forall p :: p in known ==> p in start && p.quantity == start[p] - AmountFor(AllLines(sales), p)
      requires forall p :: p in ProductsOf(AllLines(sales)) ==> p in known && p.available == (p.quantity > 0)
      modifies this, set p | p in known
      ensures s == Sale(rec.client, RebuildLines(rec.products, known), rec.payment, rec.date)
      ensures sales == old(sales) + [s]
      ensures forall p :: p in known ==> p.quantity == start[p] - AmountFor(AllLines(sales), p)
      ensures forall p :: p in ProductsOf(AllLines(sales)) ==> p in known && p.available == (p.quantity > 0)
    {
      ghost var before := sales;
      s := AddStored(rec, known);
      AllLinesSnoc(before, s);
      forall p | p in ProductsOf(AllLines(sales)) ensures p in known && p.available == (p.quantity > 0) {
        if p !in ProductsOf(s.lines) {
          assert p in ProductsOf(AllLines(before));
        }
      }
    }

    /** `cargar_desde_json`: clears the list, then rebuilds every stored sale
        through the sale constructor, which takes the amounts out of stock again.
        A missing, empty or unreadable file leaves the list empty. */
    method Load(file: Option<seq<SaleRecord>>, known: seq<Product>)
      modifies this, set p | p in known
      ensures file.None? ==> sales == []
      ensures file.Some? ==> sales == RebuiltSales(file.value, known)
      ensures forall p :: p in known ==> p.quantity == old(p.quantity) - AmountFor(AllLines(sales), p)
      ensures forall p :: p in ProductsOf(AllLines(sales)) ==> p.available == (p.quantity > 0)
    {
      ghost var start := map p | p in known :: p.quantity;
      sales := [];
      if file.None? {
        return;
      }
      var records := file.value;
      var i := 0;
      while i < |records|
        invariant 0 <= i <= |records|
        invariant sales == RebuiltSales(records[..i], known)
        invariant forall p :: p in known ==> p in start && start[p] == old(p.quantity)
        invariant forall p :: p in known ==> p.quantity == start[p] - AmountFor(AllLines(sales), p)
        invariant forall p :: p in ProductsOf(AllLines(sales)) ==> p in known && p.available == (p.quantity > 0)
      {
        RebuiltSalesSnoc(records, i, known);
        var s := LoadStep(records[i], known, start);
        i := i + 1;
      }
      assert records[..i] == records;
    }
  }

  // ------------------------------------------------------------------
  // The loader as written: `HU/Venta.py` imports the product class that has
  // no class-level product list, so reading `Producto.productos` raises
  // `AttributeError` at the first stored sale that has products.

  /** What the loader as written leaves behind: the sales rebuilt before it
      stopped, and whether it stopped with an exception. */
  datatype LoadOutcome = LoadOutcome(sales: seq<Sale>, outcome: Outcome)

  /** A stored sale is rebuilt with no lines. */
  function Bare(records: seq<SaleRecord>): (r: seq<Sale>)
    ensures |r| == |records|
    ensures forall i :: 0 <= i < |records| ==> r[i] == Sale(records[i].client, [], records[i].payment, records[i].date)
  {
    seq(|records|, i requires 0 <= i < |records| => Sale(records[i].client, [], records[i].payment, records[i].date))
  }

  /** The loader loop exactly as written over the records of a readable file:
      sales without products are rebuilt, and the first one with products
      raises an exception that the loader does not catch. */
  function LoadAsWritten(records: seq<SaleRecord>): (r: LoadOutcome)
    ensures |r.sales| <= |records|
    ensures r.outcome.Fail? ==> |r.sales| < |records|
  {
    match FirstIndex(records, (v: SaleRecord) => v.products != [])
    case None => LoadOutcome(Bare(records), Pass)
    case Some(k) => LoadOutcome(Bare(records[..k]),
                                Fail("AttributeError: type object 'Producto' has no attribute 'productos'"))
  }

  /** The loader as written raises exactly when some stored sale has products;
      the sales it keeps are a prefix of the corrected loader's, stopping just
      before the first sale with products. */
  lemma StoredProductsRaise(records: seq<SaleRecord>, known: seq<Product>)
    ensures LoadAsWritten(records).outcome.Fail? <==> exists i :: 0 <= i < |records| && records[i].products != []
    ensures var n := |LoadAsWritten(records).sales|;
      && n <= |records|
      && LoadAsWritten(records).sales == RebuiltSales(records, known)[..n]
      && (LoadAsWritten(records).outcome.Fail? ==> n < |records| && records[n].products != [])
  {
    var r := LoadAsWritten(records);
    var n := |r.sales|;
    match FirstIndex(records, (v: SaleRecord) => v.products != [])
    case None =>
    case Some(k) =>
      assert n == k;
    var full := RebuiltSales(records, known);
    forall i | 0 <= i < n ensures r.sales[i] == full[..n][i] {
      assert records[i].products == [];
    }
  }

  /** A file whose sales have no products loads the same way as written and
      corrected. */
  lemma LoadAsWrittenWithoutProducts(records: seq<SaleRecord>, known: seq<Product>)
    requires forall i :: 0 <= i < |records| ==> records[i].products == []
    ensures LoadAsWritten(records) == LoadOutcome(RebuiltSales(records, known), Pass)
  {
    StoredProductsRaise(records, known);
  }
}
