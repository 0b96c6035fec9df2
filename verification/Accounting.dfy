/** The check that accepted invoices and accounting entries correspond. */
module Accounting {
  import opened InvoiceUseCases

  type OrderId = nat
  type EntryId = nat

  /** The invoice statuses of a tenant's orders, and the order of each accounting entry. */
  datatype Books = Books(orders: map<OrderId, InvoiceStatus>, entries: map<EntryId, OrderId>)

  /** Entries belong to existing orders, at most one to each. */
  ghost predicate Sound(b: Books)
  {
    && (forall e :: e in b.entries ==> b.entries[e] in b.orders)
    && (forall e, f :: e in b.entries && f in b.entries && b.entries[e] == b.entries[f] ==> e == f)
  }

  function AcceptedOrders(b: Books): set<OrderId>
  {
    set o | o in b.orders && b.orders[o] == Accepted
  }

  function MissingOrders(b: Books): set<OrderId>
  {
    set o | o in AcceptedOrders(b) && o !in b.entries.Values
  }

  function OrphanEntries(b: Books): set<EntryId>
  {
    set e | e in b.entries && !(b.entries[e] in b.orders && b.orders[b.entries[e]] == Accepted)
  }

  datatype Consistency = Consistency(
    acceptedOrders: nat, entriesGenerated: nat, missingEntries: nat, orphanEntries: nat, ok: bool, hasAlert: bool)

  function GetConsistency(b: Books): Consistency
  {
    var missing, orphans := |MissingOrders(b)|, |OrphanEntries(b)|;
    Consistency(|AcceptedOrders(b)|, |b.entries|, missing, orphans,
                missing == 0 && orphans == 0, missing > 0 || orphans > 0)
  }

  function EntriesOf(entries: map<EntryId, OrderId>, targets: set<OrderId>): set<EntryId>
  {
    set e | e in entries && entries[e] in targets
  }

  lemma OneMore(s: set<nat>, x: nat)
    requires x !in s
    ensures |s + {x}| == |s| + 1
  {
  }

  lemma TwoParts(whole: set<nat>, a: set<nat>, b: set<nat>)
    requires whole == a + b && a !! b
    ensures |whole| == |a| + |b|
  {
  }

  /** The entries of some orders are as many as the orders among them that have one. */
  lemma {:induction false} EntriesMatchOrders(entries: map<EntryId, OrderId>, targets: set<OrderId>)
    requires forall e, f :: e in entries && f in entries && entries[e] == entries[f] ==> e == f
    ensures |EntriesOf(entries, targets)| == |targets * entries.Values|
    decreases |targets|
  {
    if targets == {} {
      assert EntriesOf(entries, targets) == {};
    } else {
      var t :| t in targets;
      var fewer := targets - {t};
      EntriesMatchOrders(entries, fewer);
      var small, smallTargets := EntriesOf(entries, fewer), fewer * entries.Values;
      if t in entries.Values {
        var e :| e in entries && entries[e] == t;
        assert EntriesOf(entries, targets) == small + {e};
        OneMore(small, e);
        assert targets * entries.Values == smallTargets + {t};
        OneMore(smallTargets, t);
      } else {
        assert EntriesOf(entries, targets) == small;
        assert targets * entries.Values == smallTargets;
      }
    }
  }

  lemma OkMeansEqual(b: Books)
    requires Sound(b)
    ensures MissingOrders(b) == {} && OrphanEntries(b) == {} <==> b.entries.Values == AcceptedOrders(b)
  {
    if MissingOrders(b) == {} && OrphanEntries(b) == {} {
      forall o ensures o in b.entries.Values <==> o in AcceptedOrders(b) {
        if o in b.entries.Values {
          var e :| e in b.entries && b.entries[e] == o;
          assert e !in OrphanEntries(b);
        } else {
          assert o !in MissingOrders(b);
        }
      }
    }
    if b.entries.Values == AcceptedOrders(b) {
      forall e | e in b.entries ensures e !in OrphanEntries(b) {
        assert b.entries[e] in b.entries.Values;
      }
    }
  }

  lemma AcceptedSplit(b: Books)
    ensures |AcceptedOrders(b)| == |AcceptedOrders(b) * b.entries.Values| + |MissingOrders(b)|
  {
    TwoParts(AcceptedOrders(b), AcceptedOrders(b) * b.entries.Values, MissingOrders(b));
  }

  lemma EntriesSplit(b: Books)
    ensures |b.entries| == |EntriesOf(b.entries, AcceptedOrders(b))| + |OrphanEntries(b)|
  {
    TwoParts(b.entries.Keys, EntriesOf(b.entries, AcceptedOrders(b)), OrphanEntries(b));
  }

  lemma CountsBalance(b: Books)
    requires Sound(b)
    ensures |AcceptedOrders(b)| - |MissingOrders(b)| == |b.entries| - |OrphanEntries(b)|
  {
    EntriesMatchOrders(b.entries, AcceptedOrders(b));
    AcceptedSplit(b);
    EntriesSplit(b);
  }

  /** The counts balance, and the check passes exactly when entries and accepted orders
      correspond one to one. */
  lemma ConsistencyCountsABijection(b: Books)
    requires Sound(b)
    ensures var c := GetConsistency(b);
            && c.acceptedOrders - c.missingEntries == c.entriesGenerated - c.orphanEntries
            && c.entriesGenerated == |b.entries|
            && c.acceptedOrders == |set o | o in b.orders && b.orders[o] == Accepted|
            && c.missingEntries == |set o | o in b.orders && b.orders[o] == Accepted && o !in b.entries.Values|
            && c.orphanEntries == |set e | e in b.entries && b.orders[b.entries[e]] != Accepted|
            && (c.ok <==> b.entries.Values == set o | o in b.orders && b.orders[o] == Accepted)
            && (c.ok ==> c.acceptedOrders == c.entriesGenerated)
            && (c.hasAlert <==> !c.ok)
  {
    CountsBalance(b);
    OkMeansEqual(b);
    assert AcceptedOrders(b) == set o | o in b.orders && b.orders[o] == Accepted;
    assert MissingOrders(b) == set o | o in b.orders && b.orders[o] == Accepted && o !in b.entries.Values;
    assert OrphanEntries(b) == set e | e in b.entries && b.orders[b.entries[e]] != Accepted;
  }
}
