/** Data model of the food price tracker: a price record per tracked item,
    a user's ledger of records, and the observations one form submission
    carries. */
module Prices {

  /** A value that may be absent: a CSV column missing from the header, or
      a lookup that finds nothing. */
  datatype Option<+T> = None | Some(value: T) {
    /** The value if present, else `default`: a dictionary's get(key, default). */
    function GetOr(default: T): T
    {
      match this
      case Some(v) => v
      case None => default
    }
  }

  /** An item name, the key of a ledger and of a batch. */
  type Item = string

  /** Prices are only ever compared (<, >, <=, ==), never computed with,
      so exact reals stand in for the source's floats. */
  type Price = real

  /** The stored state of one item: its latest observed price, the price it
      had just before the latest update, and the user's target price. */
  datatype PriceRecord = PriceRecord(current: Price, last: Price, target: Price)

  /** One user's ledger: item -> record. Key order carries no meaning. */
  type Ledger = map<Item, PriceRecord>

  /** One observation of a submitted batch. */
  datatype Entry = Entry(item: Item, current: Price, target: Price)

  /** The items a batch mentions. */
  function Items(batch: seq<Entry>): set<Item>
  {
    set e | e in batch :: e.item
  }

  /** The items of two consecutive parts of a batch. */
  lemma ItemsConcat(a: seq<Entry>, b: seq<Entry>)
    ensures Items(a + b) == Items(a) + Items(b)
  {
    forall k | k in Items(a + b) ensures k in Items(a) + Items(b) {
      var e :| e in a + b && e.item == k;
      assert e in a || e in b;
    }
    forall k | k in Items(a) + Items(b) ensures k in Items(a + b) {
      if k in Items(a) {
        var e :| e in a && e.item == k;
        assert e in a + b;
      } else {
        var e :| e in b && e.item == k;
        assert e in a + b;
      }
    }
  }

  /** A batch is a dictionary keyed by item, in insertion order: no item
      occurs twice. */
  predicate Distinct(batch: seq<Entry>)
  {
    forall i, j :: 0 <= i < j < |batch| ==> batch[i].item != batch[j].item
  }
}
