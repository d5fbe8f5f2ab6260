/** Building the batch of observations from the rows of the tracking form:
    each name is trimmed, a name that is blank after trimming is dropped, and
    the batch is a dictionary keyed by the trimmed name, so a later row with
    the same name replaces the prices of an earlier one. */
module BatchForm {
  import opened Prices

  /** The characters that trimming removes: whitespace as Python's str
      defines it (the ASCII controls 9-13 and 28-31, space, the C1 control
      NEL U+0085, and the Unicode space separators and line and paragraph
      separators). */
  predicate IsSpace(c: char)
  {
    var n := c as int;
    || 0x09 <= n <= 0x0D
    || 0x1C <= n <= 0x20
    || n == 0x85 || n == 0xA0 || n == 0x1680
    || 0x2000 <= n <= 0x200A
    || n == 0x2028 || n == 0x2029 || n == 0x202F || n == 0x205F || n == 0x3000
  }

  predicate AllSpace(s: string)
  {
    forall k :: 0 <= k < |s| ==> IsSpace(s[k])
  }

  /** Neither end of `s` is whitespace. */
  predicate Trimmed(s: string)
  {
    s == [] || (!IsSpace(s[0]) && !IsSpace(s[|s| - 1]))
  }

  /** `s` without its leading whitespace. */
  function TrimStart(s: string): string
  {
    if s != [] && IsSpace(s[0]) then TrimStart(s[1..]) else s
  }

  /** `s` without its trailing whitespace. */
  function TrimEnd(s: string): string
  {
    if s != [] && IsSpace(s[|s| - 1]) then TrimEnd(s[..|s| - 1]) else s
  }

  /** TrimStart removes a whitespace prefix, and exactly all of it. */
  lemma {:induction false} TrimStartSpec(s: string)
    ensures |TrimStart(s)| <= |s| && TrimStart(s) == s[|s| - |TrimStart(s)|..]
    ensures AllSpace(s[..|s| - |TrimStart(s)|])
    ensures TrimStart(s) == [] || !IsSpace(TrimStart(s)[0])
  {
    if s != [] && IsSpace(s[0]) {
      TrimStartSpec(s[1..]);
      var m := |s| - |TrimStart(s)|;
      forall k | 0 <= k < m ensures IsSpace(s[..m][k]) {
        if k == 0 {
          assert s[..m][k] == s[0];
        } else {
          assert s[..m][k] == s[1..][..m - 1][k - 1];
        }
      }
    }
  }

  /** TrimEnd removes a whitespace suffix, and exactly all of it. */
  lemma {:induction false} TrimEndSpec(s: string)
    ensures |TrimEnd(s)| <= |s| && TrimEnd(s) == s[..|TrimEnd(s)|]
    ensures AllSpace(s[|TrimEnd(s)|..])
    ensures TrimEnd(s) == [] || !IsSpace(TrimEnd(s)[|TrimEnd(s)| - 1])
  {
    if s != [] && IsSpace(s[|s| - 1]) {
      var n := |s| - 1;
      TrimEndSpec(s[..n]);
      var m := |TrimEnd(s)|;
      forall k | 0 <= k < |s| - m ensures IsSpace(s[m..][k]) {
        if m + k < n {
          assert s[m..][k] == s[..n][m..][k];
        }
      }
    }
  }

  /** How much leading whitespace `s` has. */
  function Lead(s: string): nat
  {
    TrimStartSpec(s);
    |s| - |TrimStart(s)|
  }

  /** `s` without leading and trailing whitespace: no longer than `s`, and
      neither of its ends is whitespace. */
  function Trim(s: string): (t: string)
    ensures |t| <= |s| && Trimmed(t)
  {
    TrimStartSpec(s);
    TrimEndSpec(TrimStart(s));
    TrimEnd(TrimStart(s))
  }

  /** Trimming yields the slice of `s` that starts after its leading
      whitespace, whose two ends are not whitespace and after which only
      whitespace follows. */
  lemma TrimIsSlice(s: string)
    ensures Trimmed(Trim(s))
    ensures Lead(s) + |Trim(s)| <= |s| && Trim(s) == s[Lead(s)..Lead(s) + |Trim(s)|]
    ensures AllSpace(s[..Lead(s)]) && AllSpace(s[Lead(s) + |Trim(s)|..])
  {
    var t := TrimStart(s);
    var r := TrimEnd(t);
    TrimStartSpec(s);
    TrimEndSpec(t);
    assert s[Lead(s) + |r|..] == t[|r|..];
  }

  /** A name is blank after trimming iff it is all whitespace. */
  lemma TrimBlank(s: string)
    ensures Trim(s) == [] <==> AllSpace(s)
  {
    TrimIsSlice(s);
    var i := Lead(s);
    if Trim(s) == [] {
      forall k | 0 <= k < |s| ensures IsSpace(s[k]) {
        if k < i { assert s[k] == s[..i][k]; } else { assert s[k] == s[i..][k - i]; }
      }
    } else {
      assert s[i] == Trim(s)[0];
    }
  }

  /** Trimming a trimmed name changes nothing; in particular trimming twice
      is trimming once. */
  lemma TrimIdempotent(s: string)
    ensures Trimmed(s) ==> Trim(s) == s
    ensures Trim(Trim(s)) == Trim(s)
  {
    var t := Trim(s);
    TrimIsSlice(s);
    TrimStartSpec(s);
    assert TrimEnd(t) == t;
    if Trimmed(s) {
      assert TrimStart(s) == s;
      assert TrimEnd(s) == s;
    }
  }

  /** One row of the form: the typed name and the two prices. */
  datatype FormRow = FormRow(name: string, price: Price, target: Price)

  /** Assigning `e` under its item in a dictionary kept in insertion order: an
      item already present keeps its position and takes the new prices; a new
      item goes at the end. */
  function Put(batch: seq<Entry>, e: Entry): (r: seq<Entry>)
    ensures |r| == if e.item in Items(batch) then |batch| else |batch| + 1
  {
    if batch == [] then [e]
    else if batch[0].item == e.item then [e] + batch[1..]
    else [batch[0]] + Put(batch[1..], e)
  }

  /** A new item is appended. */
  lemma PutNew(batch: seq<Entry>, e: Entry)
    requires e.item !in Items(batch)
    ensures Put(batch, e) == batch + [e]
  {
    if batch != [] {
      assert batch[0] in batch;
      assert Items(batch[1..]) <= Items(batch) by { ItemsConcat([batch[0]], batch[1..]); assert batch == [batch[0]] + batch[1..]; }
      PutNew(batch[1..], e);
    }
  }

  /** After assigning, the item holds the new prices, and every other
      position is what it was. */
  lemma {:induction false} PutAt(batch: seq<Entry>, e: Entry)
    ensures e in Put(batch, e)
    ensures forall i :: 0 <= i < |batch| && batch[i].item != e.item ==> Put(batch, e)[i] == batch[i]
  {
    if batch != [] && batch[0].item != e.item {
      PutAt(batch[1..], e);
      var r := Put(batch, e);
      forall i | 0 < i < |batch| && batch[i].item != e.item ensures r[i] == batch[i] {
        assert batch[1..][i - 1] == batch[i];
      }
    }
  }

  /** Assigning one item keeps the entry of any other item. */
  lemma PutKeeps(batch: seq<Entry>, e: Entry, x: Entry)
    requires x in batch && x.item != e.item
    ensures x in Put(batch, e)
  {
    PutAt(batch, e);
    var k :| 0 <= k < |batch| && batch[k] == x;
    assert Put(batch, e)[k] == x;
  }

  /** Assigning adds the item to the keys. */
  lemma {:induction false} PutItems(batch: seq<Entry>, e: Entry)
    ensures Items(Put(batch, e)) == Items(batch) + {e.item}
  {
    if batch != [] {
      assert batch == [batch[0]] + batch[1..];
      ItemsConcat([batch[0]], batch[1..]);
      if batch[0].item == e.item {
        ItemsConcat([e], batch[1..]);
      } else {
        PutItems(batch[1..], e);
        ItemsConcat([batch[0]], Put(batch[1..], e));
      }
    }
  }

  /** Assigning keeps the keys distinct. */
  lemma {:induction false} PutDistinct(batch: seq<Entry>, e: Entry)
    requires Distinct(batch)
    ensures Distinct(Put(batch, e))
  {
    if batch != [] && batch[0].item != e.item {
      var tail := batch[1..];
      PutDistinct(tail, e);
      PutItems(tail, e);
      var r := Put(batch, e);
      assert r == [batch[0]] + Put(tail, e);
      forall j | 0 < j < |r| ensures r[0].item != r[j].item {
        var x := Put(tail, e)[j - 1];
        assert r[j] == x && x in Put(tail, e);
        if x.item in Items(tail) {
          var y :| y in tail && y.item == x.item;
          var k :| 0 <= k < |tail| && tail[k] == y;
          assert batch[k + 1] == y;
        }
      }
    }
  }

  /** The name a row is filed under, and whether it is filed at all. */
  function Key(row: FormRow): string
  {
    Trim(row.name)
  }

  /** The batch the rows build, row by row. */
  function Built(rows: seq<FormRow>): seq<Entry>
  {
    if rows == [] then []
    else
      var n := |rows| - 1;
      var key := Key(rows[n]);
      if key == "" then Built(rows[..n])
      else Put(Built(rows[..n]), Entry(key, rows[n].price, rows[n].target))
  }

  /** The names the rows file something under. */
  function Keys(rows: seq<FormRow>): set<Item>
  {
    set r | r in rows && Key(r) != "" :: Key(r)
  }

  /** The names filed by all rows: those of the earlier rows and that of
      the last one, if it is not blank. */
  lemma KeysSnoc(rows: seq<FormRow>)
    requires rows != []
    ensures Keys(rows) == Keys(rows[..|rows| - 1]) + (if Key(rows[|rows| - 1]) == "" then {} else {Key(rows[|rows| - 1])})
  {
    var n := |rows| - 1;
    assert rows == rows[..n] + [rows[n]];
    forall r | r in rows ensures r in rows[..n] || r == rows[n] {
    }
  }

  /** The built batch is a dictionary whose keys are exactly the non-blank
      trimmed names of the rows. */
  lemma {:induction false} BuiltItems(rows: seq<FormRow>)
    ensures Distinct(Built(rows))
    ensures Items(Built(rows)) == Keys(rows)
  {
    if rows != [] {
      var n := |rows| - 1;
      BuiltItems(rows[..n]);
      KeysSnoc(rows);
      if Key(rows[n]) != "" {
        PutItems(Built(rows[..n]), Entry(Key(rows[n]), rows[n].price, rows[n].target));
        PutDistinct(Built(rows[..n]), Entry(Key(rows[n]), rows[n].price, rows[n].target));
      }
    }
  }

  /** Every key of the built batch is trimmed and not blank. */
  lemma BuiltTrimmed(rows: seq<FormRow>)
    ensures forall i :: 0 <= i < |Built(rows)| ==>
              Built(rows)[i].item != "" && Trim(Built(rows)[i].item) == Built(rows)[i].item
  {
    var b := Built(rows);
    BuiltItems(rows);
    forall i | 0 <= i < |b| ensures b[i].item != "" && Trim(b[i].item) == b[i].item {
      assert b[i] in b;
      assert b[i].item in Keys(rows);
      var r :| r in rows && Key(r) != "" && Key(r) == b[i].item;
      TrimIdempotent(r.name);
    }
  }

  /** Whether row `j` is the last row filed under its name. */
  predicate LastFiledAt(rows: seq<FormRow>, j: nat)
    requires j < |rows|
  {
    forall j' :: j < j' < |rows| ==> Key(rows[j']) != Key(rows[j])
  }

  /** The last row filed under a name decides that name's prices. */
  lemma {:induction false} BuiltLastWins(rows: seq<FormRow>, j: nat)
    requires j < |rows| && Key(rows[j]) != "" && LastFiledAt(rows, j)
    ensures Entry(Key(rows[j]), rows[j].price, rows[j].target) in Built(rows)
  {
    var n := |rows| - 1;
    var e := Entry(Key(rows[j]), rows[j].price, rows[j].target);
    var last := Entry(Key(rows[n]), rows[n].price, rows[n].target);
    var prev := Built(rows[..n]);
    assert Built(rows) == if last.item == "" then prev else Put(prev, last);
    if j == n {
      PutAt(prev, e);
    } else {
      assert LastFiledAt(rows[..n], j);
      BuiltLastWins(rows[..n], j);
      if last.item != "" {
        PutKeeps(prev, last, e);
      }
    }
  }

  /** Builds the batch from the form rows, in row order. */
  method BuildBatch(rows: seq<FormRow>) returns (batch: seq<Entry>)
    ensures batch == Built(rows)
    ensures Distinct(batch) && Items(batch) == Keys(rows)
    ensures forall i :: 0 <= i < |batch| ==> batch[i].item != "" && Trim(batch[i].item) == batch[i].item
    ensures forall j :: 0 <= j < |rows| && Key(rows[j]) != "" && LastFiledAt(rows, j) ==>
              Entry(Key(rows[j]), rows[j].price, rows[j].target) in batch
  {
    batch := [];
    for i := 0 to |rows|
      invariant batch == Built(rows[..i])
    {
      var name := Trim(rows[i].name);
      if name != "" {
        batch := Put(batch, Entry(name, rows[i].price, rows[i].target));
      }
      assert rows[..i + 1][..i] == rows[..i];
    }
    assert rows[..|rows|] == rows;
    BuiltItems(rows);
    BuiltTrimmed(rows);
    forall j | 0 <= j < |rows| && Key(rows[j]) != "" && LastFiledAt(rows, j)
      ensures Entry(Key(rows[j]), rows[j].price, rows[j].target) in batch
    {
      BuiltLastWins(rows, j);
    }
  }
}
