/** Reading a stored price ledger back: the per-row defaulting that lets
    files written by older versions load, the loop that fills the ledger
    from the rows, and the row that saving writes for each record. The
    file itself (opening, the CSV dialect, number parsing and formatting)
    is outside this model: rows arrive already split into fields. */
module LedgerFile {
  import opened Prices

  /** One row as a dictionary-producing CSV reader yields it: a column that
      the file's header does not have is None. `price` is the single price
      column of the oldest files. Every row names its item: a file whose
      header lacks the item column is not modelled. */
  datatype Row = Row(
    item: Item,
    currentPrice: Option<Price>,
    price: Option<Price>,
    lastPrice: Option<Price>,
    targetPrice: Option<Price>)

  /** The record a row stands for. The current price falls back to the old
      `price` column and then to 0; last and target fall back to current. */
  function RecordOf(row: Row): (r: PriceRecord)
    ensures row.currentPrice.Some? ==> r.current == row.currentPrice.value
    ensures row.currentPrice.None? && row.price.Some? ==> r.current == row.price.value
    ensures row.currentPrice.None? && row.price.None? ==> r.current == 0.0
    ensures r.last == if row.lastPrice.Some? then row.lastPrice.value else r.current
    ensures r.target == if row.targetPrice.Some? then row.targetPrice.value else r.current
  {
    var current := row.currentPrice.GetOr(row.price.GetOr(0.0));
    PriceRecord(current, row.lastPrice.GetOr(current), row.targetPrice.GetOr(current))
  }

  /** The row saving writes for one record: the four current columns. */
  function SavedRow(item: Item, rec: PriceRecord): Row
  {
    Row(item, Some(rec.current), None, Some(rec.last), Some(rec.target))
  }

  /** A saved row reads back as the record it was written from. */
  lemma SavedRowReadsBack(item: Item, rec: PriceRecord)
    ensures SavedRow(item, rec).item == item
    ensures RecordOf(SavedRow(item, rec)) == rec
  {
  }

  /** The ledger the rows fill, row by row; a later row for the same item
      replaces an earlier one. */
  function Loaded(rows: seq<Row>): Ledger
  {
    if rows == [] then map[]
    else
      var n := |rows| - 1;
      Loaded(rows[..n])[rows[n].item := RecordOf(rows[n])]
  }

  /** The items that some row names. */
  function RowItems(rows: seq<Row>): set<Item>
  {
    set r | r in rows :: r.item
  }

  /** Whether row `i` is the last one naming its item. */
  predicate IsLastFor(rows: seq<Row>, i: nat)
    requires i < |rows|
  {
    forall j :: i < j < |rows| ==> rows[j].item != rows[i].item
  }

  /** The loaded ledger has exactly the items the rows name. */
  lemma {:induction false} LoadedKeys(rows: seq<Row>)
    ensures Loaded(rows).Keys == RowItems(rows)
  {
    if rows != [] {
      var n := |rows| - 1;
      LoadedKeys(rows[..n]);
      assert rows == rows[..n] + [rows[n]];
      assert RowItems(rows) == RowItems(rows[..n]) + {rows[n].item};
    }
  }

  /** Each item holds the record of the last row that names it. */
  lemma {:induction false} LoadedLastWins(rows: seq<Row>, i: nat)
    requires i < |rows| && IsLastFor(rows, i)
    ensures rows[i].item in Loaded(rows)
    ensures Loaded(rows)[rows[i].item] == RecordOf(rows[i])
  {
    var n := |rows| - 1;
    if i < n {
      assert IsLastFor(rows[..n], i);
      LoadedLastWins(rows[..n], i);
    }
  }

  /** Item names without repetition, as the keys of a dictionary are. */
  predicate NoDuplicates(order: seq<Item>)
  {
    forall i, j :: 0 <= i < j < |order| ==> order[i] != order[j]
  }

  /** The rows saving writes for a ledger, listed in the order `order`. */
  function SavedRows(ledger: Ledger, order: seq<Item>): (rows: seq<Row>)
    requires forall k :: k in order ==> k in ledger
    ensures |rows| == |order|
    ensures forall i :: 0 <= i < |order| ==> rows[i] == SavedRow(order[i], ledger[order[i]])
  {
    if order == [] then []
    else [SavedRow(order[0], ledger[order[0]])] + SavedRows(ledger, order[1..])
  }

  /** In saved rows, each item's row is the last row naming it. */
  lemma SavedRowIsLast(ledger: Ledger, order: seq<Item>, i: nat)
    requires NoDuplicates(order) && (forall k :: k in order ==> k in ledger) && i < |order|
    ensures IsLastFor(SavedRows(ledger, order), i)
  {
    var rows := SavedRows(ledger, order);
    forall j | i < j < |rows| ensures rows[j].item != rows[i].item {
      assert rows[j].item == order[j] && rows[i].item == order[i];
    }
  }

  /** The saved rows name exactly the ledger's items. */
  lemma SavedRowItems(ledger: Ledger, order: seq<Item>)
    requires forall k :: k in order <==> k in ledger
    ensures RowItems(SavedRows(ledger, order)) == ledger.Keys
  {
    var rows := SavedRows(ledger, order);
    forall k | k in ledger ensures k in RowItems(rows) {
      var i :| 0 <= i < |order| && order[i] == k;
      assert rows[i] in rows;
    }
  }

  /** Each listed item loads back with the record it was saved from. */
  lemma SavedRecordLoads(ledger: Ledger, order: seq<Item>, i: nat)
    requires NoDuplicates(order) && (forall k :: k in order ==> k in ledger) && i < |order|
    ensures order[i] in Loaded(SavedRows(ledger, order))
    ensures Loaded(SavedRows(ledger, order))[order[i]] == ledger[order[i]]
  {
    SavedRowIsLast(ledger, order, i);
    LoadedLastWins(SavedRows(ledger, order), i);
    SavedRowReadsBack(order[i], ledger[order[i]]);
  }

  /** A ledger saved in any listing of its items loads back unchanged. */
  lemma SaveThenLoad(ledger: Ledger, order: seq<Item>)
    requires NoDuplicates(order) && (forall k :: k in order <==> k in ledger)
    ensures Loaded(SavedRows(ledger, order)) == ledger
  {
    var loaded := Loaded(SavedRows(ledger, order));
    assert loaded.Keys == ledger.Keys by {
      LoadedKeys(SavedRows(ledger, order));
      SavedRowItems(ledger, order);
    }
    forall k | k in ledger ensures loaded[k] == ledger[k] {
      var i :| 0 <= i < |order| && order[i] == k;
      SavedRecordLoads(ledger, order, i);
    }
  }

  /** Fills a ledger from the rows of a stored file, in file order. */
  method Load(rows: seq<Row>) returns (prices: Ledger)
    ensures prices == Loaded(rows)
    ensures prices.Keys == RowItems(rows)
    ensures forall i :: 0 <= i < |rows| && IsLastFor(rows, i) ==> prices[rows[i].item] == RecordOf(rows[i])
  {
    prices := map[];
    for i := 0 to |rows|
      invariant prices == Loaded(rows[..i])
    {
      var row := rows[i];
      var current := if row.currentPrice.Some? then row.currentPrice.value
                     else if row.price.Some? then row.price.value
                     else 0.0;
      var last := if row.lastPrice.Some? then row.lastPrice.value else current;
      var target := if row.targetPrice.Some? then row.targetPrice.value else current;
      prices := prices[row.item := PriceRecord(current, last, target)];
      assert rows[..i + 1][..i] == rows[..i];
    }
    assert rows[..|rows|] == rows;
    LoadedKeys(rows);
    forall i | 0 <= i < |rows| && IsLastFor(rows, i) ensures prices[rows[i].item] == RecordOf(rows[i]) {
      LoadedLastWins(rows, i);
    }
  }
}
