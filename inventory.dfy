/** The inventory: an ordered list of products, the lookup by code or name,
    and the stock update that writes one entry to the stock history file. */
module Inventory {
  import opened Wrappers
  import opened Strings
  import opened Products

  /** One entry of the stock history file: product code, product name, stock
      before, stock after, reason and the time of the change. */
  datatype LedgerEntry = LedgerEntry(code: int, name: string, before: int, after: int,
                                     reason: string, timestamp: string)

  /** A missing history file reads as an empty history. */
  function StoredHistory(file: Option<seq<LedgerEntry>>): (h: seq<LedgerEntry>)
    ensures file.None? ==> h == []
    ensures file.Some? ==> h == file.value
  {
    match file
    case None => []
    case Some(entries) => entries
  }

  /** The lookup rule: the code rendered as text equals the identifier, or the
      names agree ignoring case. */
  predicate Matches(p: Product, id: string) {
    IntToString(p.code) == id || ToLower(p.name) == ToLower(id)
  }

  /** The product the lookup returns: the first one that matches. */
  function Lookup(products: seq<Product>, id: string): (r: Option<Product>)
    ensures r.Some? ==> r.value in products
  {
    First(products, (p: Product) => Matches(p, id))
  }

  /** The lookup finds the first matching product, and finds nothing exactly
      when no product matches. */
  lemma LookupIsFirstMatch(products: seq<Product>, id: string)
    ensures Lookup(products, id).None? <==> forall p :: p in products ==> !Matches(p, id)
    ensures Lookup(products, id).Some? ==>
      exists i :: 0 <= i < |products| && products[i] == Lookup(products, id).value && Matches(products[i], id)
        && forall j :: 0 <= j < i ==> !Matches(products[j], id)
  {
    var m := (p: Product) => Matches(p, id);
    match FirstIndex(products, m)
    case None =>
    case Some(i) =>
      assert products[i] == Lookup(products, id).value;
  }

  /** An identifier as callers pass it: a number (the graphical dialogs pass
      `int(codigo)`) or a text. */
  datatype Identifier = Number(n: int) | Text(s: string)

  /** `str(identificador)`. */
  function IdText(id: Identifier): string {
    match id
    case Number(n) => IntToString(n)
    case Text(s) => s
  }

  class Inventory {
    var products: seq<Product>
    /** The stock history file; `None` while it does not exist. */
    ghost var historyFile: Option<seq<LedgerEntry>>

    /** A fresh inventory holds no products; the history file is whatever is on disk. */
    constructor (ghost file: Option<seq<LedgerEntry>>)
      ensures products == [] && historyFile == file
    {
      products := [];
      historyFile := file;
    }

    /** Appends the product at the end, without checking for a duplicate code. */
    method AddProduct(p: Product)
      modifies this
      ensures products == old(products) + [p]
      ensures historyFile == old(historyFile)
    {
      products := products + [p];
    }

    /** The first product whose code, as text, equals the identifier or whose
        name equals it ignoring case. */
    method FindProduct(id: string) returns (r: Option<Product>)
      ensures r == Lookup(products, id)
    {
      var matches := (p: Product) => Matches(p, id);
      var i := 0;
      while i < |products|
        invariant 0 <= i <= |products|
        invariant First(products, matches) == First(products[i..], matches)
      {
        FirstCons(products[i..], matches);
        assert products[i..][1..] == products[i + 1..];
        if Matches(products[i], id) {
          return Some(products[i]);
        }
        i := i + 1;
      }
      return None;
    }

    /** Appends one entry to the history file, reading a missing file as empty. */
    method RecordHistory(p: Product, before: int, after: int, reason: string, now: string)
      modifies this`historyFile
      ensures historyFile == Some(StoredHistory(old(historyFile)) + [LedgerEntry(p.code, p.name, before, after, reason, now)])
    {
      historyFile := Some(StoredHistory(historyFile) + [LedgerEntry(p.code, p.name, before, after, reason, now)]);
    }

    /** Sets the quantity of the product the identifier finds, a number or a
        text, both compared through `str()`. An unknown identifier or a negative
        quantity changes nothing and yields false; on success the quantity is
        written (availability is left as it was) and one history entry records
        the change. */
    method UpdateStock(id: Identifier, newQuantity: int, reason: string, now: string) returns (ok: bool)
      modifies this, products
      ensures products == old(products)
      ensures ok <==> Lookup(products, IdText(id)).Some? && newQuantity >= 0
      ensures !ok ==> historyFile == old(historyFile)
      ensures !ok ==> forall q :: q in products ==>
        q.quantity == old(q.quantity) && q.available == old(q.available) && q.price == old(q.price)
      ensures ok ==>
        var p := Lookup(products, IdText(id)).value;
        && p.quantity == newQuantity
        && p.available == old(p.available) && p.price == old(p.price)
        && StoredHistory(historyFile) == StoredHistory(old(historyFile))
             + [LedgerEntry(p.code, p.name, old(p.quantity), newQuantity, reason, now)]
        && forall q :: q in products && q != p ==>
             q.quantity == old(q.quantity) && q.available == old(q.available) && q.price == old(q.price)
    {
      var found := FindProduct(IdText(id));
      if found.None? {
        return false;
      }
      var p := found.value;
      if newQuantity < 0 {
        return false;
      }
      var before := p.quantity;
      p.quantity := newQuantity;
      RecordHistory(p, before, newQuantity, reason, now);
      return true;
    }
  }

  // ------------------------------------------------------------------
  // The lookup as written, for identifiers that are numbers.

  /** The lookup loop exactly as written: after a code mismatch it calls
      `.lower()` on the identifier itself, which raises `AttributeError` when
      the identifier is a number. */
  function LookupAsWritten(products: seq<Product>, id: Identifier): (r: Result<Option<Product>>)
    ensures r.Err? ==> id.Number? && products != []
    ensures r.Ok? && r.value.Some? ==> r.value.value in products && Matches(r.value.value, IdText(id))
  {
    if products == [] then Ok(None)
    else if IntToString(products[0].code) == IdText(id) then Ok(Some(products[0]))
    else if id.Number? then Err("AttributeError: 'int' object has no attribute 'lower'")
    else if ToLower(products[0].name) == ToLower(id.s) then Ok(Some(products[0]))
    else LookupAsWritten(products[1..], id)
  }

  /** For a text identifier the loop as written is the lookup of the model. */
  lemma {:induction false} LookupAsWrittenOnText(products: seq<Product>, s: string)
    ensures LookupAsWritten(products, Text(s)) == Ok(Lookup(products, s))
  {
    if products != [] {
      FirstCons(products, (p: Product) => Matches(p, s));
      if !Matches(products[0], s) {
        LookupAsWrittenOnText(products[1..], s);
      }
    }
  }

  /** A number identifier that is not the first product's code raises, even
      when a later product carries that code. */
  lemma NumberIdentifierRaises(products: seq<Product>, n: int)
    requires products != [] && products[0].code != n
    ensures LookupAsWritten(products, Number(n)).Err?
  {
    if IntToString(products[0].code) == IntToString(n) {
      IntToStringInjective(products[0].code, n);
    }
  }

  /** With `str()` applied to the identifier, a number identifier finds a
      product whenever some product carries that code. */
  lemma NumberIdentifierFound(products: seq<Product>, q: Product, n: int)
    requires q in products && q.code == n
    ensures Lookup(products, IdText(Number(n))).Some?
  {
    assert Matches(q, IntToString(n));
  }
}
