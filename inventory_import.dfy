/**
 * The product spreadsheet import and the stock summary of
 * backend/inventory/views.py. `upload_excel` folds the sheet's rows into a
 * dictionary keyed by SKU (or "NO-SKU-" + name when the SKU cell is empty),
 * summing stock and letting the latest row win for every other field, then
 * adds the stock already in the database for real SKUs. A cell that
 * `Decimal` cannot read, or a SKU typed as a number, aborts the import with
 * the generic 400 of the `except` clause. `stats` counts the business's
 * products by stock level.
 */
module InventoryImport {
  import opened Common

  // ---------------------------------------------------------------------------
  // Cells and `Decimal(str(x or 0))`

  /** A cell as the sheet reader returns it: empty (`None`), text, or a number. */
  datatype Cell = Empty | Text(text: string) | Number(value: real)

  /** Python truthiness: an empty cell, empty text and zero are false. */
  predicate Truthy(c: Cell)
  {
    match c
    case Empty => false
    case Text(t) => t != ""
    case Number(v) => v != 0.0
  }

  /** The position of the first '.', or the length when there is none. */
  function DotAt(b: string): (i: nat)
    ensures i <= |b|
  {
    if |b| == 0 || b[0] == '.' then 0 else 1 + DotAt(b[1..])
  }

  /** `DotAt` stops at the first '.', and only there. */
  lemma {:induction false} DotAtFirst(b: string)
    ensures forall j :: 0 <= j < DotAt(b) ==> b[j] != '.'
    ensures DotAt(b) < |b| ==> b[DotAt(b)] == '.'
  {
    if |b| > 0 && b[0] != '.' {
      DotAtFirst(b[1..]);
    }
  }

  /** The value of the digits after a decimal point: 0.d1d2... is (d1 + 0.d2...) / 10. */
  function FracValue(f: string): real
    requires AllDigits(f)
  {
    if |f| == 0 then 0.0 else (DigitValue(f[0]) as real + FracValue(f[1..])) / 10.0
  }

  /** A fractional part is at least 0 and below 1. */
  lemma {:induction false} FracValueBounds(f: string)
    requires AllDigits(f)
    ensures 0.0 <= FracValue(f) < 1.0
  {
    if |f| > 0 {
      FracValueBounds(f[1..]);
    }
  }

  /** Digits with at most one '.', and at least one digit on either side of it. */
  function UnsignedDecimal(b: string): Option<real>
  {
    var i := DotAt(b);
    Numeral(b[..i], if i < |b| then b[i + 1..] else "")
  }

  /** The value of a whole part and a fractional part, when both are digits and not both empty. */
  function Numeral(whole: string, frac: string): Option<real>
  {
    if |whole| + |frac| > 0 && AllDigits(whole) && AllDigits(frac) then
      Some(DigitsValue(whole) as real + FracValue(frac))
    else None
  }

  /**
   * `Decimal(text)`: surrounding whitespace is ignored, an optional sign comes
   * first, then a decimal numeral; anything else raises, here `None`.
   */
  function DecimalText(s: string): Option<real>
  {
    var t := Strip(s);
    if |t| > 0 && (t[0] == '+' || t[0] == '-') then
      match UnsignedDecimal(t[1..])
      case None => None
      case Some(v) => Some(if t[0] == '-' then -v else v)
    else UnsignedDecimal(t)
  }

  /** `Decimal(str(x or 0))`: a false cell reads as 0, a number as itself, text as `Decimal` reads it. */
  function Amount(c: Cell): (v: Option<real>)
    ensures !Truthy(c) ==> v == Some(0.0)
    ensures c.Number? ==> v == Some(c.value)
  {
    match c
    case Empty => Some(0.0)
    case Number(x) => Some(x)
    case Text(t) => if t == "" then Some(0.0) else DecimalText(t)
  }

  /** Text with no whitespace at either end is its own stripped form. */
  lemma StripUnpadded(s: string)
    requires |s| > 0 && !IsSpace(s[0]) && !IsSpace(s[|s| - 1])
    ensures Strip(s) == s
  {
  }

  /** Digits without a point read as their value. */
  lemma UnsignedWhole(b: string)
    requires |b| > 0 && AllDigits(b)
    ensures UnsignedDecimal(b) == Some(DigitsValue(b) as real)
  {
    DotAtFirst(b);
    assert b[..|b|] == b;
  }

  /** A whole number written out reads as its value. */
  lemma DecimalWhole(w: nat)
    ensures DecimalText(NatToDecimal(w)) == Some(w as real)
  {
    var d := NatToDecimal(w);
    DecimalRoundTrip(w);
    assert IsDigit(d[0]) && IsDigit(d[|d| - 1]);
    StripUnpadded(d);
    UnsignedWhole(d);
  }

  /** Digits, a point and digits read as the whole part plus the fractional value. */
  lemma UnsignedPoint(a: string, f: string)
    requires AllDigits(a) && AllDigits(f) && |a| + |f| > 0
    ensures UnsignedDecimal(a + "." + f) == Some(DigitsValue(a) as real + FracValue(f))
  {
    var s := a + "." + f;
    DotAfterDigits(a, "." + f);
    assert s == a + ("." + f);
    assert s[..|a|] == a && s[|a| + 1..] == f;
    assert UnsignedDecimal(s) == Numeral(a, f);
    NumeralOfDigits(a, f);
  }

  lemma NumeralOfDigits(a: string, f: string)
    requires AllDigits(a) && AllDigits(f) && |a| + |f| > 0
    ensures Numeral(a, f) == Some(DigitsValue(a) as real + FracValue(f))
  {
  }

  /** The first point after a run of digits is the one that ends the run. */
  lemma {:induction false} DotAfterDigits(a: string, t: string)
    requires AllDigits(a) && |t| > 0 && t[0] == '.'
    ensures DotAt(a + t) == |a|
  {
    if |a| == 0 {
      assert a + t == t;
    } else {
      assert (a + t)[1..] == a[1..] + t;
      DotAfterDigits(a[1..], t);
    }
  }

  /** Unpadded unsigned text reads as its numeral. */
  lemma DecimalOfUnsigned(s: string)
    requires |s| > 0 && !IsSpace(s[0]) && !IsSpace(s[|s| - 1]) && s[0] != '+' && s[0] != '-'
    ensures DecimalText(s) == UnsignedDecimal(s)
  {
    StripUnpadded(s);
  }

  /** Numeral text without trailing whitespace reads, behind a minus sign, as its negated value. */
  lemma DecimalOfNegated(s: string, v: real)
    requires |s| > 0 && !IsSpace(s[|s| - 1]) && UnsignedDecimal(s) == Some(v)
    ensures DecimalText("-" + s) == Some(-v)
  {
    var n := "-" + s;
    assert n[1..] == s && n[0] == '-' && n[|n| - 1] == s[|s| - 1];
    StripUnpadded(n);
  }

  /** Digits, a point and digits read as their value. */
  lemma DecimalNumeral(a: string, f: string)
    requires |a| > 0 && AllDigits(a) && AllDigits(f)
    ensures DecimalText(a + "." + f) == Some(DigitsValue(a) as real + FracValue(f))
  {
    NumeralUnpadded(a, f);
    UnsignedPoint(a, f);
    DecimalOfUnsigned(a + "." + f);
  }

  /** A numeral starts with a digit and ends with a digit or the point. */
  lemma NumeralUnpadded(a: string, f: string)
    requires |a| > 0 && AllDigits(a) && AllDigits(f)
    ensures var s := a + "." + f;
            |s| > 0 && !IsSpace(s[0]) && !IsSpace(s[|s| - 1]) && s[0] != '+' && s[0] != '-'
  {
    var s := a + "." + f;
    assert s[0] == a[0] && IsDigit(a[0]);
    if |f| > 0 {
      assert s[|s| - 1] == f[|f| - 1];
    } else {
      assert s[|s| - 1] == '.';
    }
  }

  /** A character of the numeral that is no digit, whitespace, sign or point makes the text unreadable. */
  lemma DecimalRejects(t: string, j: nat)
    requires j < |t| && !IsDigit(t[j]) && !IsSpace(t[j]) && t[j] != '+' && t[j] != '-' && t[j] != '.'
    ensures DecimalText(t) == None
  {
    StripKeeps(t, j);
    var s := Strip(t);
    var m :| 0 <= m < |s| && s[m] == t[j];
    if |s| > 0 && (s[0] == '+' || s[0] == '-') {
      assert m > 0 && s[1..][m - 1] == t[j];
      UnsignedRejects(s[1..], m - 1);
    } else {
      UnsignedRejects(s, m);
    }
  }

  lemma UnsignedRejects(b: string, p: nat)
    requires p < |b| && !IsDigit(b[p]) && b[p] != '.'
    ensures UnsignedDecimal(b) == None
  {
    var i := DotAt(b);
    DotAtFirst(b);
    if p < i {
      assert b[..i][p] == b[p];
    } else if p > i {
      assert b[i + 1..][p - i - 1] == b[p];
    }
  }

  // ---------------------------------------------------------------------------
  // Rows, keys and the fold

  /**
   * One sheet row after padding to seven cells. The SKU and the three amounts
   * are cells of any kind; name, description and unit are read as text.
   */
  datatype Row = Row(name: string, description: Option<string>, sku: Cell, price: Cell,
                     unit: string, stock: Cell, minStock: Cell)

  /** The aggregated data for one key. */
  datatype Entry = Entry(name: string, description: Option<string>, sku: Cell, price: real,
                         unit: string, stock: real, minStock: real)

  /** `not any(row)`: every cell false. */
  predicate Blank(r: Row)
  {
    r.name == "" && (r.description.None? || r.description.value == "") && !Truthy(r.sku) &&
    !Truthy(r.price) && r.unit == "" && !Truthy(r.stock) && !Truthy(r.minStock)
  }

  /** The two skip rules: a blank row, or a row without a name. */
  predicate Skipped(r: Row)
  {
    Blank(r) || r.name == ""
  }

  /** A blank row has no name, so the name rule alone decides what is skipped. */
  lemma SkipIsNameless(r: Row)
    ensures Skipped(r) <==> r.name == ""
  {
  }

  /** The three amounts of the row convert without raising. */
  predicate Parsed(r: Row)
  {
    Amount(r.price).Some? && Amount(r.stock).Some? && Amount(r.minStock).Some?
  }

  /** A row the loop gets past: skipped, or with all three amounts readable. */
  predicate Readable(r: Row) { Skipped(r) || Parsed(r) }

  predicate AllReadable(rows: seq<Row>) { forall i :: 0 <= i < |rows| ==> Readable(rows[i]) }

  /** A text price that holds a letter makes a named row unreadable. */
  lemma UnreadablePrice(r: Row, j: nat)
    requires r.name != "" && r.price.Text? && j < |r.price.text|
    requires var c := r.price.text[j]; !IsDigit(c) && !IsSpace(c) && c != '+' && c != '-' && c != '.'
    ensures !Readable(r)
  {
    DecimalRejects(r.price.text, j);
  }

  const NoSkuPrefix := "NO-SKU-"

  /** A dictionary key: the SKU cell's text or number, or "NO-SKU-" + name. */
  datatype SkuKey = TextKey(text: string) | NumberKey(number: real)

  /** `sku or f"NO-SKU-{name}"`. */
  function Key(r: Row): (k: SkuKey)
    ensures Truthy(r.sku) && r.sku.Text? ==> k == TextKey(r.sku.text)
    ensures Truthy(r.sku) && r.sku.Number? ==> k == NumberKey(r.sku.value)
    ensures !Truthy(r.sku) ==> k == TextKey(NoSkuPrefix + r.name) && StartsWith(k.text, NoSkuPrefix)
  {
    match r.sku
    case Text(t) => if t != "" then TextKey(t) else TextKey(NoSkuPrefix + r.name)
    case Number(v) => if v != 0.0 then NumberKey(v) else TextKey(NoSkuPrefix + r.name)
    case Empty => TextKey(NoSkuPrefix + r.name)
  }

  function Value(c: Cell): real
    requires Amount(c).Some?
  {
    Amount(c).value
  }

  /** The entry a row would create on its own; the unit defaults to "pcs". */
  function FromRow(r: Row): (e: Entry)
    requires Parsed(r)
    ensures e.name == r.name && e.description == r.description && e.sku == r.sku
    ensures Amount(r.price) == Some(e.price) && Amount(r.stock) == Some(e.stock) &&
            Amount(r.minStock) == Some(e.minStock)
    ensures e.unit == if r.unit == "" then "pcs" else r.unit
  {
    Entry(r.name, r.description, r.sku, Value(r.price), if r.unit == "" then "pcs" else r.unit,
          Value(r.stock), Value(r.minStock))
  }

  /**
   * One step of the fold: a new key gets the row's entry; a known key adds
   * the row's stock and takes every other field from the row, except the
   * recorded SKU, which stays the first row's.
   */
  function Step(m: map<SkuKey, Entry>, r: Row): map<SkuKey, Entry>
    requires Readable(r)
  {
    if Skipped(r) then m else Put(m, Key(r), FromRow(r))
  }

  /** Files entry `e` under `k`: as is for a new key, merged into the known one otherwise. */
  function Put(m: map<SkuKey, Entry>, k: SkuKey, e: Entry): map<SkuKey, Entry>
  {
    if k !in m then m[k := e] else m[k := e.(stock := m[k].stock + e.stock, sku := m[k].sku)]
  }

  /** The dictionary after the first `|rows|` rows. */
  function Aggregate(rows: seq<Row>): map<SkuKey, Entry>
    requires AllReadable(rows)
  {
    if |rows| == 0 then map[] else Step(Aggregate(rows[..|rows| - 1]), rows[|rows| - 1])
  }

  /** The dictionary's keys in insertion order. */
  function KeyOrder(rows: seq<Row>): seq<SkuKey>
    requires AllReadable(rows)
  {
    if |rows| == 0 then []
    else
      var prev := KeyOrder(rows[..|rows| - 1]);
      var r := rows[|rows| - 1];
      if Skipped(r) || Key(r) in Aggregate(rows[..|rows| - 1]) then prev else prev + [Key(r)]
  }

  /** The summed stock of the rows read under key `k`. */
  function StockFor(rows: seq<Row>, k: SkuKey): real
    requires AllReadable(rows)
  {
    if |rows| == 0 then 0.0
    else StockFor(rows[..|rows| - 1], k) +
         (if !Skipped(rows[|rows| - 1]) && Key(rows[|rows| - 1]) == k then Value(rows[|rows| - 1].stock) else 0.0)
  }

  predicate NoDuplicates<T(==)>(s: seq<T>)
  {
    forall i, j :: 0 <= i < j < |s| ==> s[i] != s[j]
  }

  // ---------------------------------------------------------------------------
  // What the fold computes

  /** A key is present exactly when some read row carries it. */
  lemma {:induction false} AggregateKeys(rows: seq<Row>, k: SkuKey)
    requires AllReadable(rows)
    ensures k in Aggregate(rows) <==> exists i | 0 <= i < |rows| :: !Skipped(rows[i]) && Key(rows[i]) == k
  {
    if |rows| > 0 {
      var n := |rows| - 1;
      AggregateKeys(rows[..n], k);
      StepKeys(Aggregate(rows[..n]), rows[n], k);
      CarriedSnoc(rows, k);
    }
  }

  /** Some row among all but the last carries the key, or the last one does. */
  lemma CarriedSnoc(rows: seq<Row>, k: SkuKey)
    requires |rows| > 0
    ensures var n := |rows| - 1;
            (exists i | 0 <= i < |rows| :: !Skipped(rows[i]) && Key(rows[i]) == k) <==>
            (exists i | 0 <= i < n :: !Skipped(rows[..n][i]) && Key(rows[..n][i]) == k) ||
            (!Skipped(rows[n]) && Key(rows[n]) == k)
  {
    var n := |rows| - 1;
    var pre := rows[..n];
    if exists i | 0 <= i < n :: !Skipped(pre[i]) && Key(pre[i]) == k {
      var i :| 0 <= i < n && !Skipped(pre[i]) && Key(pre[i]) == k;
      assert rows[i] == pre[i];
    }
    if exists i | 0 <= i < |rows| :: !Skipped(rows[i]) && Key(rows[i]) == k {
      var i :| 0 <= i < |rows| && !Skipped(rows[i]) && Key(rows[i]) == k;
      if i < n {
        assert pre[i] == rows[i];
      }
    }
  }

  /** A step adds the row's key, unless the row is skipped, and keeps every other key. */
  lemma StepKeys(m: map<SkuKey, Entry>, r: Row, k: SkuKey)
    requires Readable(r)
    ensures k in Step(m, r) <==> k in m || (!Skipped(r) && Key(r) == k)
  {
  }

  /** The stock recorded for a key is the sum of the stock cells of its rows. */
  lemma {:induction false} AggregateStock(rows: seq<Row>, k: SkuKey)
    requires AllReadable(rows) && k in Aggregate(rows)
    ensures Aggregate(rows)[k].stock == StockFor(rows, k)
  {
    var n := |rows| - 1;
    if k in Aggregate(rows[..n]) {
      AggregateStock(rows[..n], k);
    } else {
      AggregateKeys(rows[..n], k);
      StockForAbsent(rows[..n], k);
    }
  }

  lemma {:induction false} StockForAbsent(rows: seq<Row>, k: SkuKey)
    requires AllReadable(rows)
    requires forall i | 0 <= i < |rows| :: Skipped(rows[i]) || Key(rows[i]) != k
    ensures StockFor(rows, k) == 0.0
  {
    if |rows| > 0 {
      StockForAbsent(rows[..|rows| - 1], k);
    }
  }

  /**
   * Last row wins: for the last read row under a key, the entry's name,
   * description, price, unit and minimum level are that row's.
   */
  lemma {:induction false} LastRowWins(rows: seq<Row>, j: nat)
    requires AllReadable(rows) && j < |rows| && !Skipped(rows[j])
    requires forall i | j < i < |rows| :: Skipped(rows[i]) || Key(rows[i]) != Key(rows[j])
    ensures Key(rows[j]) in Aggregate(rows)
    ensures var e := Aggregate(rows)[Key(rows[j])];
            e == FromRow(rows[j]).(stock := e.stock, sku := e.sku)
  {
    var n, prev, k := |rows| - 1, rows[..|rows| - 1], Key(rows[j]);
    assert AllReadable(prev);
    var before := Aggregate(prev);
    if j < n {
      assert prev[j] == rows[j];
      LastRowWins(prev, j);
      StepKeepsOther(before, rows[n], k);
      assert Aggregate(rows)[k] == before[k];
    } else {
      StepSetsEntry(before, rows[n]);
    }
  }

  /** A step leaves the entry under any other key as it was. */
  lemma StepKeepsOther(m: map<SkuKey, Entry>, r: Row, k: SkuKey)
    requires Readable(r) && (Skipped(r) || Key(r) != k)
    ensures k in Step(m, r) <==> k in m
    ensures k in m ==> Step(m, r)[k] == m[k]
  {
  }

  /** A step on a read row files the row's entry, stock and recorded SKU aside, under its key. */
  lemma StepSetsEntry(m: map<SkuKey, Entry>, r: Row)
    requires Readable(r) && !Skipped(r)
    ensures Key(r) in Step(m, r)
    ensures var e := Step(m, r)[Key(r)]; e == FromRow(r).(stock := e.stock, sku := e.sku)
  {
  }

  /** The insertion order lists each key once, and exactly the dictionary's keys. */
  lemma {:induction false} KeyOrderIsKeys(rows: seq<Row>)
    requires AllReadable(rows)
    ensures NoDuplicates(KeyOrder(rows))
    ensures forall k :: k in KeyOrder(rows) <==> k in Aggregate(rows)
  {
    if |rows| > 0 {
      KeyOrderIsKeys(rows[..|rows| - 1]);
    }
  }

  /** One more row: the fold and the key order take one step. */
  lemma PrefixStep(rows: seq<Row>, i: nat)
    requires i < |rows| && AllReadable(rows[..i + 1])
    ensures Aggregate(rows[..i + 1]) == Step(Aggregate(rows[..i]), rows[i])
    ensures KeyOrder(rows[..i + 1]) ==
            if Skipped(rows[i]) || Key(rows[i]) in Aggregate(rows[..i]) then KeyOrder(rows[..i])
            else KeyOrder(rows[..i]) + [Key(rows[i])]
  {
    assert rows[..i + 1][..i] == rows[..i];
  }

  /** A named row whose SKU is a non-zero number puts a number key in the dictionary. */
  lemma NumberSkuKey(rows: seq<Row>, i: nat)
    requires AllReadable(rows) && i < |rows| && rows[i].name != "" && rows[i].sku.Number? && rows[i].sku.value != 0.0
    ensures exists k :: k in Aggregate(rows) && k.NumberKey?
  {
    AggregateKeys(rows, Key(rows[i]));
  }

  // ---------------------------------------------------------------------------
  // The merge with the database and the endpoint

  /** A product row to upsert. */
  datatype Product = Product(sku: Cell, name: string, description: Option<string>, price: real,
                             unit: string, stock: real, minStock: real)

  /** Stock already in the database, looked up only for real SKUs. */
  function DbStock(db: map<string, real>, key: string): (s: real)
    ensures StartsWith(key, NoSkuPrefix) ==> s == 0.0
    ensures !StartsWith(key, NoSkuPrefix) ==> s == if key in db then db[key] else 0.0
  {
    if !StartsWith(key, NoSkuPrefix) && key in db then db[key] else 0.0
  }

  /** The product built for one key: database stock plus the file's summed stock. */
  function ToProduct(key: string, e: Entry, db: map<string, real>): (p: Product)
    ensures p.stock == DbStock(db, key) + e.stock
    ensures p.sku == e.sku && p.name == e.name && p.description == e.description && p.price == e.price &&
            p.unit == e.unit && p.minStock == e.minStock
  {
    Product(e.sku, e.name, e.description, e.price, e.unit, DbStock(db, key) + e.stock, e.minStock)
  }

  datatype UploadResult =
    | NoActiveBusiness
    | Unreadable
    | NothingToImport
    | Imported(products: seq<Product>)

  /**
   * `upload_excel` from the resolved business on: fold the rows (an amount
   * `Decimal` cannot read aborts), refuse an empty result, filter the real
   * SKUs (a number key aborts), then build one product per key in insertion
   * order.
   */
  method UploadExcel(active: bool, rows: seq<Row>, db: map<string, real>) returns (r: UploadResult)
    ensures !active ==> r == NoActiveBusiness
    ensures active && !AllReadable(rows) ==> r == Unreadable
    ensures active && AllReadable(rows) && Aggregate(rows) == map[] ==> r == NothingToImport
    ensures active && AllReadable(rows) && (exists k :: k in Aggregate(rows) && k.NumberKey?) ==> r == Unreadable
    ensures active && AllReadable(rows) && Aggregate(rows) != map[] && (forall k :: k in Aggregate(rows) ==> k.TextKey?) ==>
              var keys := KeyOrder(rows);
              (forall k :: k in keys <==> k in Aggregate(rows)) &&
              r.Imported? && |r.products| == |keys| &&
              forall i :: 0 <= i < |r.products| ==> r.products[i] == ToProduct(keys[i].text, Aggregate(rows)[keys[i]], db)
  {
    if !active {
      return NoActiveBusiness;
    }
    var ok, m, keys := CollectRows(rows);
    if !ok {
      return Unreadable;
    }
    KeyOrderIsKeys(rows);
    if m == map[] {
      return NothingToImport;
    }
    var texts := RealSkus(keys);
    if texts.None? {
      return Unreadable;
    }
    var products := BuildProducts(keys, m, db);
    r := Imported(products);
  }

  lemma ReadableSnoc(rows: seq<Row>, i: nat)
    requires i < |rows| && AllReadable(rows[..i]) && Readable(rows[i])
    ensures AllReadable(rows[..i + 1])
  {
    assert rows[..i + 1] == rows[..i] + [rows[i]];
  }

  /** The loop over the sheet's rows that fills the dictionary and its key order, or stops at a row it cannot read. */
  method CollectRows(rows: seq<Row>) returns (ok: bool, m: map<SkuKey, Entry>, keys: seq<SkuKey>)
    ensures ok <==> AllReadable(rows)
    ensures ok ==> m == Aggregate(rows) && keys == KeyOrder(rows)
  {
    m, keys := map[], [];
    var i := 0;
    while i < |rows|
      invariant 0 <= i <= |rows|
      invariant AllReadable(rows[..i])
      invariant m == Aggregate(rows[..i]) && keys == KeyOrder(rows[..i])
    {
      var rowOk;
      rowOk, m, keys := AddRow(m, keys, rows[i]);
      if !rowOk {
        return false, m, keys;
      }
      ReadableSnoc(rows, i);
      PrefixStep(rows, i);
      i := i + 1;
    }
    assert rows[..|rows|] == rows;
    ok := true;
  }

  /**
   * The loop body: skip a blank or nameless row; else convert the three
   * amounts (failing when one cannot be read) and start or update the entry
   * under the row's key.
   */
  method AddRow(m: map<SkuKey, Entry>, keys: seq<SkuKey>, row: Row)
    returns (ok: bool, m': map<SkuKey, Entry>, keys': seq<SkuKey>)
    ensures ok <==> Readable(row)
    ensures ok ==> m' == Step(m, row)
    ensures ok ==> keys' == if Skipped(row) || Key(row) in m then keys else keys + [Key(row)]
  {
    ok, m', keys' := true, m, keys;
    if Skipped(row) {
      return;
    }
    var price, stock, minStock := Amount(row.price), Amount(row.stock), Amount(row.minStock);
    if price.None? || stock.None? || minStock.None? {
      return false, m, keys;
    }
    var k := Key(row);
    var entry := FromRow(row);
    if k !in m {
      m' := m[k := entry];
      keys' := keys + [k];
    } else {
      assert stock.value == entry.stock;
      m' := m[k := entry.(stock := m[k].stock + stock.value, sku := m[k].sku)];
    }
    assert m' == Put(m, k, entry);
    StepOfParsed(m, row);
  }

  /** On a row that is read and not skipped, a step files the row's entry under its key. */
  lemma StepOfParsed(m: map<SkuKey, Entry>, r: Row)
    requires Parsed(r) && !Skipped(r)
    ensures Step(m, r) == Put(m, Key(r), FromRow(r))
  {
  }

  /**
   * `[s for s in keys if not s.startswith('NO-SKU-')]`: the real SKUs, in key
   * order; `None` when a key is a number, which has no `startswith`.
   */
  method RealSkus(keys: seq<SkuKey>) returns (skus: Option<seq<string>>)
    ensures skus.Some? <==> forall i :: 0 <= i < |keys| ==> keys[i].TextKey?
    ensures skus.Some? ==> forall s :: s in skus.value <==> TextKey(s) in keys && !StartsWith(s, NoSkuPrefix)
  {
    var acc: seq<string> := [];
    var i := 0;
    while i < |keys|
      invariant 0 <= i <= |keys|
      invariant forall j :: 0 <= j < i ==> keys[j].TextKey?
      invariant forall s :: s in acc <==> TextKey(s) in keys[..i] && !StartsWith(s, NoSkuPrefix)
    {
      if keys[i].NumberKey? {
        return None;
      }
      assert keys[..i + 1] == keys[..i] + [keys[i]];
      if !StartsWith(keys[i].text, NoSkuPrefix) {
        acc := acc + [keys[i].text];
      }
      i := i + 1;
    }
    assert keys[..i] == keys;
    skus := Some(acc);
  }

  /** The loop that builds one product per key, in key order. */
  method BuildProducts(keys: seq<SkuKey>, m: map<SkuKey, Entry>, db: map<string, real>) returns (products: seq<Product>)
    requires forall k :: k in keys ==> k in m && k.TextKey?
    ensures |products| == |keys|
    ensures forall t :: 0 <= t < |keys| ==> products[t] == ToProduct(keys[t].text, m[keys[t]], db)
  {
    products := [];
    var j := 0;
    while j < |keys|
      invariant 0 <= j <= |keys| && |products| == j
      invariant forall t :: 0 <= t < j ==> products[t] == ToProduct(keys[t].text, m[keys[t]], db)
    {
      products := products + [ToProduct(keys[j].text, m[keys[j]], db)];
      j := j + 1;
    }
  }

  /**
   * A key without a database row, and every "NO-SKU-" key even when such a
   * row exists, gets just the file's stock; a real SKU with a row adds to it.
   */
  lemma MergeStock(key: string, e: Entry, db: map<string, real>)
    ensures key !in db || StartsWith(key, NoSkuPrefix) ==> ToProduct(key, e, db).stock == e.stock
    ensures key in db && !StartsWith(key, NoSkuPrefix) ==> ToProduct(key, e, db).stock == db[key] + e.stock
  {
  }

  // ---------------------------------------------------------------------------
  // `stats`

  datatype StockLevel = StockLevel(price: real, stock: real, minLevel: real)

  predicate OutOfStock(p: StockLevel) { p.stock <= 0.0 }

  predicate LowStock(p: StockLevel) { 0.0 < p.stock <= p.minLevel }

  datatype Stats = Stats(totalProducts: nat, totalValue: real, outOfStock: nat, lowStock: nat)

  /** The `Sum(base_price * stock_quantity)` aggregate; no product gives 0. */
  function StockValue(products: seq<StockLevel>): real
  {
    if |products| == 0 then 0.0 else products[0].price * products[0].stock + StockValue(products[1..])
  }

  /** The stock value of two groups of products is the sum of their values. */
  lemma {:induction false} StockValueAppend(a: seq<StockLevel>, b: seq<StockLevel>)
    ensures StockValue(a + b) == StockValue(a) + StockValue(b)
  {
    if |a| > 0 {
      assert (a + b)[1..] == a[1..] + b;
      StockValueAppend(a[1..], b);
    } else {
      assert a + b == b;
    }
  }

  /** Products without stock add nothing to the stock value. */
  lemma {:induction false} EmptyStockHasNoValue(products: seq<StockLevel>)
    requires forall i :: 0 <= i < |products| ==> products[i].stock == 0.0
    ensures StockValue(products) == 0.0
  {
    if |products| > 0 {
      EmptyStockHasNoValue(products[1..]);
    }
  }

  /** The figures of `stats` over the business's products. */
  function StockStats(products: seq<StockLevel>): (s: Stats)
    ensures s.totalProducts == |products| && s.totalValue == StockValue(products)
    ensures s.outOfStock == |Filter(products, (p: StockLevel) => OutOfStock(p))|
    ensures s.lowStock == |Filter(products, (p: StockLevel) => LowStock(p))|
  {
    Stats(|products|, StockValue(products), |Filter(products, (p: StockLevel) => OutOfStock(p))|,
          |Filter(products, (p: StockLevel) => LowStock(p))|)
  }

  /** Out-of-stock and low-stock never overlap, so together they never exceed the product count. */
  lemma {:induction false} StatsDisjoint(products: seq<StockLevel>)
    ensures StockStats(products).outOfStock + StockStats(products).lowStock <= StockStats(products).totalProducts
  {
    if |products| > 0 {
      StatsDisjoint(products[1..]);
    }
  }
}
