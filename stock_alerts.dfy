/** Low-stock alerts: per-product thresholds (default 5), the list of products
    under their threshold, and the edge detector that reports only the
    products that were not under threshold at the previous check. */
module StockAlerts {
  import opened Wrappers
  import opened Strings
  import opened Products
  import opened Inventory

  const DefaultThreshold: int := 5

  /** The threshold map is keyed by `str(code)`; unconfigured codes get the default. */
  function ThresholdIn(thresholds: map<string, int>, code: int): (t: int)
    ensures IntToString(code) in thresholds ==> t == thresholds[IntToString(code)]
    ensures IntToString(code) !in thresholds ==> t == DefaultThreshold
  {
    var key := IntToString(code);
    if key in thresholds then thresholds[key] else DefaultThreshold
  }

  /** Configuring one code's threshold changes that code's threshold only. */
  lemma ThresholdAfterConfigure(thresholds: map<string, int>, code: int, t: int, other: int)
    ensures ThresholdIn(thresholds[IntToString(code) := t], other)
         == if other == code then t else ThresholdIn(thresholds, other)
  {
    if other != code && IntToString(other) == IntToString(code) {
      IntToStringInjective(other, code);
    }
  }

  /** A product is low when its quantity is strictly below its threshold. */
  predicate IsLow(p: Product, thresholds: map<string, int>)
    reads p
  {
    p.quantity < ThresholdIn(thresholds, p.code)
  }

  /** The low products, in inventory order. */
  function LowStock(products: seq<Product>, thresholds: map<string, int>): (r: seq<Product>)
    reads products
    ensures |r| <= |products|
    ensures forall p :: p in r ==> p in products && IsLow(p, thresholds)
    ensures forall p :: p in products && IsLow(p, thresholds) ==> p in r
  {
    if products == [] then []
    else
      var last := products[|products| - 1];
      LowStock(products[..|products| - 1], thresholds) + (if IsLow(last, thresholds) then [last] else [])
  }

  /** The `str(code)` keys of a list of products. */
  function CodeKeys(products: seq<Product>): set<string> {
    set p | p in products :: IntToString(p.code)
  }

  /** The products whose code was not alerted at the previous check, in order. */
  function NewAlerts(current: seq<Product>, lastAlerted: set<string>): seq<Product> {
    Filter(current, (p: Product) => IntToString(p.code) !in lastAlerted)
  }

  /** The new alerts are exactly the current alerts whose code was not alerted before. */
  lemma NewAlertsExactly(current: seq<Product>, lastAlerted: set<string>, p: Product)
    ensures p in NewAlerts(current, lastAlerted) <==> p in current && IntToString(p.code) !in lastAlerted
  {
  }

  /** The edge detector run against its own result reports nothing: a second
      check with no stock change in between yields no new alert. */
  lemma SecondCheckReportsNothing(current: seq<Product>)
    ensures NewAlerts(current, CodeKeys(current)) == []
  {
    FilterNone(current, (p: Product) => IntToString(p.code) !in CodeKeys(current));
  }

  /** One exported alert: code, name, stock and threshold. */
  datatype AlertRecord = AlertRecord(code: int, name: string, stock: int, threshold: int)

  /** The exported record of one product. */
  function RecordOf(p: Product, thresholds: map<string, int>): AlertRecord
    reads p
  {
    AlertRecord(p.code, p.name, p.quantity, ThresholdIn(thresholds, p.code))
  }

  /** The exported records of a list of products, in the same order. */
  function RecordsOf(products: seq<Product>, thresholds: map<string, int>): (r: seq<AlertRecord>)
    reads products
    ensures |r| == |products|
    ensures forall i :: 0 <= i < |products| ==> r[i] == RecordOf(products[i], thresholds)
  {
    seq(|products|, i requires 0 <= i < |products| reads products => RecordOf(products[i], thresholds))
  }

  /** The record of a low product shows a stock below its threshold. */
  lemma LowRecordsBelowThreshold(low: seq<Product>, products: seq<Product>, thresholds: map<string, int>)
    requires low == LowStock(products, thresholds)
    ensures forall a :: a in RecordsOf(low, thresholds) ==> a.stock < a.threshold
  {
    var r := RecordsOf(low, thresholds);
    forall a | a in r ensures a.stock < a.threshold {
      var i :| 0 <= i < |r| && r[i] == a;
      assert low[i] in low;
    }
  }

  class AlertManager {
    const inventory: Inventory
    var thresholds: map<string, int>
    /** The codes reported at the previous check (a list in the source, used only for membership). */
    var lastAlerted: set<string>
    /** The thresholds file and the last-alerted file; `None` while missing. */
    ghost var thresholdFile: Option<map<string, int>>
    ghost var alertFile: Option<set<string>>

    /** Loads both files; a missing or unreadable file gives the empty default. */
    constructor (inventory: Inventory, storedThresholds: Option<map<string, int>>,
                 storedAlerts: Option<set<string>>)
      ensures this.inventory == inventory
      ensures thresholds == (if storedThresholds.Some? then storedThresholds.value else map[])
      ensures lastAlerted == (if storedAlerts.Some? then storedAlerts.value else {})
      ensures thresholdFile == storedThresholds && alertFile == storedAlerts
    {
      this.inventory := inventory;
      thresholds := if storedThresholds.Some? then storedThresholds.value else map[];
      lastAlerted := if storedAlerts.Some? then storedAlerts.value else {};
      thresholdFile, alertFile := storedThresholds, storedAlerts;
    }

    /** The configured threshold of a code, or the default 5. */
    function Threshold(code: int): (t: int)
      reads this
      ensures IntToString(code) in thresholds ==> t == thresholds[IntToString(code)]
      ensures IntToString(code) !in thresholds ==> t == DefaultThreshold
    {
      ThresholdIn(thresholds, code)
    }

    /** A negative threshold is rejected and nothing changes; otherwise the
        code's threshold becomes `t`, the others keep theirs, and the map is saved. */
    method ConfigureThreshold(code: int, t: int) returns (outcome: Outcome)
      modifies this`thresholds, this`thresholdFile
      ensures outcome.Pass? <==> t >= 0
      ensures outcome.Fail? ==> outcome.message == "El umbral no puede ser negativo"
      ensures outcome.Fail? ==> thresholds == old(thresholds) && thresholdFile == old(thresholdFile)
      ensures outcome.Pass? ==> thresholds == old(thresholds)[IntToString(code) := t]
      ensures outcome.Pass? ==> thresholdFile == Some(thresholds)
      ensures outcome.Pass? ==> forall other :: Threshold(other) == if other == code then t else old(Threshold(other))
    {
      if t < 0 {
        return Fail("El umbral no puede ser negativo");
      }
      thresholds := thresholds[IntToString(code) := t];
      thresholdFile := Some(thresholds);
      forall other ensures Threshold(other) == if other == code then t else old(Threshold(other)) {
        ThresholdAfterConfigure(old(thresholds), code, t, other);
      }
      return Pass;
    }

    /** Every inventory product under its threshold, in inventory order. */
    method ListLowStock() returns (low: seq<Product>)
      ensures low == LowStock(inventory.products, thresholds)
    {
      var products := inventory.products;
      low := [];
      var i := 0;
      while i < |products|
        invariant 0 <= i <= |products|
        invariant low == LowStock(products[..i], thresholds)
      {
        assert products[..i + 1][..i] == products[..i];
        if products[i].quantity < Threshold(products[i].code) {
          low := low + [products[i]];
        }
        i := i + 1;
      }
      assert products[..i] == products;
    }

    /** Returns the new alerts and the current ones, then remembers the current
        codes (and saves them) as the baseline of the next check. */
    method DetectNewAlerts() returns (newAlerts: seq<Product>, current: seq<Product>)
      modifies this`lastAlerted, this`alertFile
      ensures current == LowStock(inventory.products, thresholds)
      ensures newAlerts == NewAlerts(current, old(lastAlerted))
      ensures lastAlerted == CodeKeys(current) && alertFile == Some(lastAlerted)
    {
      current := ListLowStock();
      newAlerts := NewAlerts(current, lastAlerted);
      lastAlerted := CodeKeys(current);
      alertFile := Some(lastAlerted);
      assert unchanged(inventory.products);
    }

    /** One record per low product, in the same order, each below its threshold. */
    method ExportCurrentAlerts() returns (alerts: seq<AlertRecord>)
      ensures var low := LowStock(inventory.products, thresholds);
        && |alerts| == |low|
        && forall i :: 0 <= i < |low| ==> alerts[i] == RecordOf(low[i], thresholds)
      ensures forall a :: a in alerts ==> a.stock < a.threshold
    {
      var low := ListLowStock();
      alerts := BuildRecords(low, thresholds);
      LowRecordsBelowThreshold(low, inventory.products, thresholds);
    }
  }

  /** The export loop: one record per product, in order. */
  method BuildRecords(products: seq<Product>, thresholds: map<string, int>) returns (alerts: seq<AlertRecord>)
    ensures alerts == RecordsOf(products, thresholds)
  {
    alerts := [];
    var i := 0;
    while i < |products|
      invariant 0 <= i <= |products|
      invariant alerts == RecordsOf(products[..i], thresholds)
    {
      alerts := alerts + [RecordOf(products[i], thresholds)];
      i := i + 1;
    }
    assert products[..i] == products;
  }

  /** Two consecutive checks with no stock change in between: the second
      reports no new alert. */
  method CheckTwice(manager: AlertManager) returns (first: seq<Product>, second: seq<Product>)
    modifies manager`lastAlerted, manager`alertFile
    ensures first == NewAlerts(LowStock(manager.inventory.products, manager.thresholds), old(manager.lastAlerted))
    ensures second == []
  {
    var current: seq<Product>;
    var again: seq<Product>;
    first, current := manager.DetectNewAlerts();
    second, again := manager.DetectNewAlerts();
    assert again == current;
    SecondCheckReportsNothing(current);
  }
}
