/** Reconciliation of one submitted batch of observations against a user's
    ledger: classify each price change, raise the target alerts and produce
    the next ledger. The ledger arrives as an input and leaves as an output;
    loading and saving it are the caller's business. */
module Reconciler {
  import opened Prices

  /** How an observed price compares with the item's prior price. */
  datatype Message =
    | Decreased(item: Item, prior: Price, price: Price)
    | Increased(item: Item, prior: Price, price: Price)
    | Unchanged(item: Item, price: Price)

  /** An observation whose price is at or below its target. */
  datatype Alert = Alert(item: Item, price: Price, target: Price)

  /** What reconciling produces: the next ledger and the two ordered logs. */
  datatype Outcome = Outcome(ledger: Ledger, messages: seq<Message>, alerts: seq<Alert>)

  /** The price an observation is compared with: the item's current price in
      the ledger, or the observed price itself for an item never seen. */
  function Prior(ledger: Ledger, item: Item, price: Price): Price
  {
    if item in ledger then ledger[item].current else price
  }

  /** Exactly one of the three kinds applies, decided by exact comparison. */
  function Classify(item: Item, prior: Price, price: Price): (m: Message)
    ensures m.item == item && m.price == price
    ensures m.Decreased? <==> price < prior
    ensures m.Increased? <==> price > prior
    ensures m.Unchanged? <==> price == prior
    ensures !m.Unchanged? ==> m.prior == prior
  {
    if price < prior then Decreased(item, prior, price)
    else if price > prior then Increased(item, prior, price)
    else Unchanged(item, price)
  }

  /** The alert condition; the boundary is inclusive. */
  predicate Reached(e: Entry)
  {
    e.current <= e.target
  }

  /** One turn of the update loop: read the prior price from the WORKING
      ledger, log a message and possibly an alert, overwrite the record. */
  function Step(o: Outcome, e: Entry): Outcome
  {
    var prior := Prior(o.ledger, e.item, e.current);
    Outcome(
      o.ledger[e.item := PriceRecord(e.current, prior, e.target)],
      o.messages + [Classify(e.item, prior, e.current)],
      if Reached(e) then o.alerts + [Alert(e.item, e.current, e.target)] else o.alerts)
  }

  /** The update loop run over a batch in batch order, starting from `stored`. */
  function Run(stored: Ledger, batch: seq<Entry>): Outcome
  {
    if batch == [] then Outcome(stored, [], [])
    else Step(Run(stored, batch[..|batch| - 1]), batch[|batch| - 1])
  }

  // ---------------------------------------------------------------------
  // Reference definitions: what each observation should produce, judged
  // against the ledger as it was BEFORE the batch.

  /** The record an observation should leave behind. */
  function RecordFor(stored: Ledger, e: Entry): PriceRecord
  {
    PriceRecord(e.current, Prior(stored, e.item, e.current), e.target)
  }

  /** The message an observation should get. */
  function MessageFor(stored: Ledger, e: Entry): Message
  {
    Classify(e.item, Prior(stored, e.item, e.current), e.current)
  }

  /** One message per observation, in batch order. */
  function MessagesOf(stored: Ledger, batch: seq<Entry>): seq<Message>
  {
    if batch == [] then [] else [MessageFor(stored, batch[0])] + MessagesOf(stored, batch[1..])
  }

  /** The alert an observation raises: one if it reached its target, else none. */
  function AlertFor(e: Entry): seq<Alert>
  {
    if Reached(e) then [Alert(e.item, e.current, e.target)] else []
  }

  /** The observations that reached their target, as alerts, in batch order. */
  function AlertsOf(batch: seq<Entry>): seq<Alert>
  {
    if batch == [] then [] else AlertFor(batch[0]) + AlertsOf(batch[1..])
  }

  // ---------------------------------------------------------------------
  // Alerts

  /** Alerts of consecutive parts of a batch come out in batch order. */
  lemma {:induction false} AlertsOfConcat(a: seq<Entry>, b: seq<Entry>)
    ensures AlertsOf(a + b) == AlertsOf(a) + AlertsOf(b)
  {
    if a == [] {
      assert a + b == b;
    } else {
      calc {
        AlertsOf(a + b);
        { assert (a + b)[0] == a[0]; assert (a + b)[1..] == a[1..] + b; }
        AlertFor(a[0]) + AlertsOf(a[1..] + b);
        { AlertsOfConcat(a[1..], b); }
        AlertFor(a[0]) + (AlertsOf(a[1..]) + AlertsOf(b));
      }
    }
  }

  /** Alerts never outnumber the observations. */
  lemma {:induction false} AlertsOfBound(batch: seq<Entry>)
    ensures |AlertsOf(batch)| <= |batch|
  {
    if batch != [] {
      AlertsOfBound(batch[1..]);
    }
  }

  /** An alert is raised for an observation iff its price is at or below its
      target. */
  lemma {:induction false} AlertsOfMember(batch: seq<Entry>, a: Alert)
    ensures a in AlertsOf(batch) <==>
      a.price <= a.target && exists i :: 0 <= i < |batch| && batch[i] == Entry(a.item, a.price, a.target)
  {
    if batch != [] {
      var e := batch[0];
      AlertsOfMember(batch[1..], a);
      if a in AlertsOf(batch[1..]) {
        var i :| 0 <= i < |batch[1..]| && batch[1..][i] == Entry(a.item, a.price, a.target);
        assert batch[i + 1] == Entry(a.item, a.price, a.target);
      }
      if a.price <= a.target && exists i :: 0 <= i < |batch| && batch[i] == Entry(a.item, a.price, a.target) {
        var i :| 0 <= i < |batch| && batch[i] == Entry(a.item, a.price, a.target);
        if i > 0 {
          assert batch[1..][i - 1] == batch[i];
        }
      }
    }
  }

  // ---------------------------------------------------------------------
  // The update loop against the reference definitions

  /** No item of a batch occurs in what precedes it. */
  lemma LastIsNew(batch: seq<Entry>)
    requires Distinct(batch) && batch != []
    ensures batch[|batch| - 1].item !in Items(batch[..|batch| - 1])
    ensures Distinct(batch[..|batch| - 1])
  {
    var n := |batch| - 1;
    forall e | e in batch[..n] ensures e.item != batch[n].item {
      var j :| 0 <= j < n && batch[..n][j] == e;
    }
  }

  /** The next ledger holds the stored items and the batch items, no others. */
  lemma {:induction false} RunKeys(stored: Ledger, batch: seq<Entry>)
    ensures Run(stored, batch).ledger.Keys == stored.Keys + Items(batch)
  {
    if batch != [] {
      var n := |batch| - 1;
      RunKeys(stored, batch[..n]);
      assert batch == batch[..n] + [batch[n]];
      assert Items(batch) == Items(batch[..n]) + {batch[n].item};
    }
  }

  /** An item the batch does not mention keeps its record, or stays absent. */
  lemma {:induction false} RunUntouched(stored: Ledger, batch: seq<Entry>, k: Item)
    requires k !in Items(batch)
    ensures k in Run(stored, batch).ledger <==> k in stored
    ensures k in stored ==> Run(stored, batch).ledger[k] == stored[k]
  {
    if batch != [] {
      var n := |batch| - 1;
      assert batch[n] in batch;
      assert Items(batch[..n]) <= Items(batch) by {
        forall e | e in batch[..n] ensures e in batch {
        }
      }
      RunUntouched(stored, batch[..n], k);
    }
  }

  /** Every batch item ends with the record its observation calls for: the new
      current and target prices, and the pre-batch current price as last. */
  lemma {:induction false} RunRecord(stored: Ledger, batch: seq<Entry>, i: nat)
    requires Distinct(batch) && i < |batch|
    ensures batch[i].item in Run(stored, batch).ledger
    ensures Run(stored, batch).ledger[batch[i].item] == RecordFor(stored, batch[i])
  {
    var n := |batch| - 1;
    LastIsNew(batch);
    if i == n {
      RunUntouched(stored, batch[..n], batch[n].item);
    } else {
      RunRecord(stored, batch[..n], i);
    }
  }

  /** Exactly one message per observation, in batch order, each classifying
      the observed price against the pre-batch current price. */
  lemma {:induction false} RunMessages(stored: Ledger, batch: seq<Entry>)
    requires Distinct(batch)
    ensures |Run(stored, batch).messages| == |batch|
    ensures forall i :: 0 <= i < |batch| ==> Run(stored, batch).messages[i] == MessageFor(stored, batch[i])
  {
    if batch != [] {
      var n := |batch| - 1;
      LastIsNew(batch);
      RunMessages(stored, batch[..n]);
      RunUntouched(stored, batch[..n], batch[n].item);
    }
  }

  /** The alerts do not depend on the ledger, hence not on the
      classification either: an increased item can still alert. */
  lemma {:induction false} RunAlerts(stored: Ledger, batch: seq<Entry>)
    ensures Run(stored, batch).alerts == AlertsOf(batch)
  {
    if batch != [] {
      var n := |batch| - 1;
      RunAlerts(stored, batch[..n]);
      assert batch == batch[..n] + [batch[n]];
      AlertsOfConcat(batch[..n], [batch[n]]);
      assert [batch[n]][1..] == [];
    }
  }

  /** A first-time item is recorded with last == current and is classified
      unchanged. */
  lemma FirstObservation(stored: Ledger, batch: seq<Entry>, i: nat)
    requires Distinct(batch) && i < |batch| && batch[i].item !in stored
    ensures |Run(stored, batch).messages| == |batch|
    ensures Run(stored, batch).messages[i] == Unchanged(batch[i].item, batch[i].current)
    ensures batch[i].item in Run(stored, batch).ledger
    ensures Run(stored, batch).ledger[batch[i].item] == PriceRecord(batch[i].current, batch[i].current, batch[i].target)
  {
    RunMessages(stored, batch);
    RunRecord(stored, batch, i);
  }

  /** Because items are distinct, the next ledger does not depend on the
      order of the batch. */
  lemma OrderIndependent(stored: Ledger, a: seq<Entry>, b: seq<Entry>)
    requires Distinct(a) && Distinct(b) && multiset(a) == multiset(b)
    ensures Run(stored, a).ledger == Run(stored, b).ledger
  {
    RunKeys(stored, a);
    RunKeys(stored, b);
    assert Items(a) == Items(b) by {
      forall e ensures e in a <==> e in b {
        assert e in a <==> e in multiset(a);
      }
    }
    forall k | k in Run(stored, a).ledger
      ensures Run(stored, a).ledger[k] == Run(stored, b).ledger[k]
    {
      if k in Items(a) {
        var i :| 0 <= i < |a| && a[i].item == k;
        assert a[i] in multiset(b);
        var j :| 0 <= j < |b| && b[j] == a[i];
        RunRecord(stored, a, i);
        RunRecord(stored, b, j);
      } else {
        RunUntouched(stored, a, k);
        RunUntouched(stored, b, k);
      }
    }
  }

  /** The i-th message belongs to the i-th observation. */
  lemma {:induction false} MessagesOfAt(stored: Ledger, batch: seq<Entry>)
    ensures |MessagesOf(stored, batch)| == |batch|
    ensures forall i :: 0 <= i < |batch| ==> MessagesOf(stored, batch)[i] == MessageFor(stored, batch[i])
  {
    if batch != [] {
      MessagesOfAt(stored, batch[1..]);
    }
  }

  lemma {:induction false} MessagesOfConcat(stored: Ledger, a: seq<Entry>, b: seq<Entry>)
    ensures MessagesOf(stored, a + b) == MessagesOf(stored, a) + MessagesOf(stored, b)
  {
    if a == [] {
      assert a + b == b;
    } else {
      assert (a + b)[1..] == a[1..] + b;
      MessagesOfConcat(stored, a[1..], b);
    }
  }

  /** Taking out the element at `j` of a batch that holds the first element of
      another batch leaves the two batches' tails permutations of each other. */
  lemma RemoveMatching(a: seq<Entry>, b: seq<Entry>, j: nat)
    requires multiset(a) == multiset(b) && a != [] && j < |b| && b[j] == a[0]
    ensures b == b[..j] + ([b[j]] + b[j + 1..])
    ensures multiset(a[1..]) == multiset(b[..j] + b[j + 1..])
  {
    var x, left, right := a[0], b[..j], b[j + 1..];
    assert b == left + ([x] + right);
    var A, L, R := multiset(a[1..]), multiset(left), multiset(right);
    assert multiset(a) == multiset{x} + A by { assert a == [x] + a[1..]; }
    assert multiset(b) == multiset{x} + (L + R);
    assert multiset(left + right) == L + R;
    forall y ensures A[y] == (L + R)[y] {
      assert (multiset{x} + A)[y] == (multiset{x} + (L + R))[y];
    }
  }

  /** Reordering a batch only reorders its messages. */
  lemma {:induction false} MessagesPermuted(stored: Ledger, a: seq<Entry>, b: seq<Entry>)
    requires multiset(a) == multiset(b)
    ensures multiset(MessagesOf(stored, a)) == multiset(MessagesOf(stored, b))
    decreases |a|
  {
    if a == [] {
      assert |b| == |multiset(b)| == 0;
    } else {
      var x := a[0];
      assert x in multiset(b);
      var j :| 0 <= j < |b| && b[j] == x;
      var left, right := b[..j], b[j + 1..];
      RemoveMatching(a, b, j);
      MessagesPermuted(stored, a[1..], left + right);
      var m, l, r := [MessageFor(stored, x)], MessagesOf(stored, left), MessagesOf(stored, right);
      assert MessagesOf(stored, b) == l + (m + r) by {
        MessagesOfConcat(stored, left, [x] + right);
      }
      assert MessagesOf(stored, left + right) == l + r by {
        MessagesOfConcat(stored, left, right);
      }
      assert MessagesOf(stored, a) == m + MessagesOf(stored, a[1..]);
      MiddleFirst(l, m, r);
    }
  }

  /** Moving the middle part of a sequence to the front keeps its elements. */
  lemma MiddleFirst<T>(l: seq<T>, m: seq<T>, r: seq<T>)
    ensures multiset(l + (m + r)) == multiset(m) + multiset(l + r)
  {
  }

  /** A sequence is its part before `j`, its element `j` and its part after. */
  lemma SplitAround<T>(b: seq<T>, j: nat)
    requires j < |b|
    ensures b == b[..j] + ([b[j]] + b[j + 1..])
  {
    assert b[j..] == [b[j]] + b[j + 1..];
    assert b == b[..j] + b[j..];
  }

  /** The alerts of a batch around its element `j`. */
  lemma AlertsSplit(b: seq<Entry>, j: nat)
    requires j < |b|
    ensures AlertsOf(b) == AlertsOf(b[..j]) + (AlertFor(b[j]) + AlertsOf(b[j + 1..]))
    ensures AlertsOf(b[..j] + b[j + 1..]) == AlertsOf(b[..j]) + AlertsOf(b[j + 1..])
  {
    SplitAround(b, j);
    AlertsOfConcat(b[..j], [b[j]] + b[j + 1..]);
    assert AlertsOf([b[j]] + b[j + 1..]) == AlertFor(b[j]) + AlertsOf(b[j + 1..]) by {
      assert ([b[j]] + b[j + 1..])[1..] == b[j + 1..];
    }
    AlertsOfConcat(b[..j], b[j + 1..]);
  }

  /** Taking one observation out of a batch takes out only its own alert. */
  lemma AlertsRemove(b: seq<Entry>, j: nat)
    requires j < |b|
    ensures multiset(AlertsOf(b)) == multiset(AlertFor(b[j])) + multiset(AlertsOf(b[..j] + b[j + 1..]))
  {
    AlertsSplit(b, j);
    MiddleFirst(AlertsOf(b[..j]), AlertFor(b[j]), AlertsOf(b[j + 1..]));
  }

  /** Reordering a batch only reorders its alerts. */
  lemma {:induction false} AlertsPermuted(a: seq<Entry>, b: seq<Entry>)
    requires multiset(a) == multiset(b)
    ensures multiset(AlertsOf(a)) == multiset(AlertsOf(b))
    decreases |a|
  {
    if a == [] {
      assert |b| == |multiset(b)| == 0;
    } else {
      var x := a[0];
      assert x in multiset(b);
      var j :| 0 <= j < |b| && b[j] == x;
      var rest := b[..j] + b[j + 1..];
      assert multiset(a[1..]) == multiset(rest) by {
        RemoveMatching(a, b, j);
      }
      assert multiset(AlertsOf(a[1..])) == multiset(AlertsOf(rest)) by {
        AlertsPermuted(a[1..], rest);
      }
      assert multiset(AlertsOf(b)) == multiset(AlertFor(x)) + multiset(AlertsOf(rest)) by {
        AlertsRemove(b, j);
      }
      assert AlertsOf(a) == AlertFor(x) + AlertsOf(a[1..]);
    }
  }

  /** Only the order of the messages and alerts depends on the order of the
      batch. */
  lemma ReorderedBatch(stored: Ledger, a: seq<Entry>, b: seq<Entry>)
    requires Distinct(a) && Distinct(b) && multiset(a) == multiset(b)
    ensures Run(stored, a).ledger == Run(stored, b).ledger
    ensures multiset(Run(stored, a).messages) == multiset(Run(stored, b).messages)
    ensures multiset(Run(stored, a).alerts) == multiset(Run(stored, b).alerts)
  {
    OrderIndependent(stored, a, b);
    RunMessages(stored, a);
    RunMessages(stored, b);
    MessagesOfAt(stored, a);
    MessagesOfAt(stored, b);
    assert Run(stored, a).messages == MessagesOf(stored, a);
    assert Run(stored, b).messages == MessagesOf(stored, b);
    MessagesPermuted(stored, a, b);
    RunAlerts(stored, a);
    RunAlerts(stored, b);
    AlertsPermuted(a, b);
  }

  /** Submitting the same batch again: every item is now unchanged, its last
      price equals its current price, and the alerts fire again (they are
      recomputed, not edge-triggered). */
  lemma RepeatSubmission(stored: Ledger, batch: seq<Entry>)
    requires Distinct(batch)
    ensures var first := Run(stored, batch);
            var second := Run(first.ledger, batch);
            && second.alerts == first.alerts
            && |second.messages| == |batch|
            && (forall i :: 0 <= i < |batch| ==> second.messages[i] == Unchanged(batch[i].item, batch[i].current))
            && (forall i :: 0 <= i < |batch| ==>
                  batch[i].item in second.ledger &&
                  second.ledger[batch[i].item] == PriceRecord(batch[i].current, batch[i].current, batch[i].target))
  {
    var first := Run(stored, batch);
    RunAlerts(stored, batch);
    RunAlerts(first.ledger, batch);
    RunMessages(first.ledger, batch);
    forall i | 0 <= i < |batch|
      ensures Prior(first.ledger, batch[i].item, batch[i].current) == batch[i].current
    {
      RunRecord(stored, batch, i);
    }
    forall i | 0 <= i < |batch|
      ensures batch[i].item in Run(first.ledger, batch).ledger
      ensures Run(first.ledger, batch).ledger[batch[i].item] == PriceRecord(batch[i].current, batch[i].current, batch[i].target)
    {
      RunRecord(first.ledger, batch, i);
    }
  }

  // ---------------------------------------------------------------------
  // The update loop

  /** Reconciles `batch` against `stored`: returns the next ledger, one message
      per observation and the alerts, each log in batch order. */
  method Reconcile(stored: Ledger, batch: seq<Entry>)
    returns (ledger: Ledger, messages: seq<Message>, alerts: seq<Alert>)
    requires Distinct(batch)
    ensures Outcome(ledger, messages, alerts) == Run(stored, batch)
    ensures ledger.Keys == stored.Keys + Items(batch)
    ensures forall k :: k in stored && k !in Items(batch) ==> ledger[k] == stored[k]
    ensures forall i :: 0 <= i < |batch| ==> ledger[batch[i].item] == RecordFor(stored, batch[i])
    ensures |messages| == |batch|
    ensures forall i :: 0 <= i < |batch| ==> messages[i] == MessageFor(stored, batch[i])
    ensures alerts == AlertsOf(batch)
  {
    ledger, messages, alerts := stored, [], [];
    for i := 0 to |batch|
      invariant Outcome(ledger, messages, alerts) == Run(stored, batch[..i])
    {
      var e := batch[i];
      var prior := if e.item in ledger then ledger[e.item].current else e.current;
      if e.current < prior {
        messages := messages + [Decreased(e.item, prior, e.current)];
      } else if e.current > prior {
        messages := messages + [Increased(e.item, prior, e.current)];
      } else {
        messages := messages + [Unchanged(e.item, e.current)];
      }
      if e.current <= e.target {
        alerts := alerts + [Alert(e.item, e.current, e.target)];
      }
      ledger := ledger[e.item := PriceRecord(e.current, prior, e.target)];
      assert batch[..i + 1][..i] == batch[..i];
    }
    assert batch[..|batch|] == batch;
    RunKeys(stored, batch);
    forall k | k in stored && k !in Items(batch) ensures ledger[k] == stored[k] {
      RunUntouched(stored, batch, k);
    }
    forall i | 0 <= i < |batch| ensures ledger[batch[i].item] == RecordFor(stored, batch[i]) {
      RunRecord(stored, batch, i);
    }
    RunMessages(stored, batch);
    RunAlerts(stored, batch);
  }

  // Example cases, checked against Reconcile's contract.

  /** A cheaper price at or below target: decreased, alerted, last = old current. */
  method CheaperScenario()
  {
    var l, m, a := Reconcile(map["milk" := PriceRecord(5.0, 5.0, 6.0)], [Entry("milk", 4.0, 4.5)]);
    assert m[0] == Decreased("milk", 5.0, 4.0);
    assert a == [Alert("milk", 4.0, 4.5)];
    assert l["milk"] == PriceRecord(4.0, 5.0, 4.5);
  }

  /** A dearer price above target: increased, no alert. */
  method DearerScenario()
  {
    var l, m, a := Reconcile(map["eggs" := PriceRecord(3.0, 3.0, 3.0)], [Entry("eggs", 3.5, 2.0)]);
    assert m[0] == Increased("eggs", 3.0, 3.5);
    assert a == [];
    assert l["eggs"] == PriceRecord(3.5, 3.0, 2.0);
  }

  /** A dearer price still within target: increased AND alerted. */
  method DearerButWithinTargetScenario()
  {
    var l, m, a := Reconcile(map["rice" := PriceRecord(2.0, 2.0, 9.0)], [Entry("rice", 2.5, 2.5)]);
    assert m[0] == Increased("rice", 2.0, 2.5);
    assert a == [Alert("rice", 2.5, 2.5)];
  }

  /** A new item is unchanged with last = current; an unmentioned item is kept. */
  method NewItemScenario()
  {
    var l, m, a := Reconcile(map["eggs" := PriceRecord(3.0, 2.0, 3.0)], [Entry("bread", 1.0, 0.5)]);
    assert m[0] == Unchanged("bread", 1.0);
    assert a == [];
    assert l["bread"] == PriceRecord(1.0, 1.0, 0.5);
    assert l["eggs"] == PriceRecord(3.0, 2.0, 3.0);
  }
}
