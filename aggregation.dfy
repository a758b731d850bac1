/** Grouping an account's outgoing transfers by receiver (the `receiverMap` of the controller).
    A JavaScript `Map` iterates its keys in first-insertion order, so it is modelled as the
    sequence of keys in that order beside a map from key to running total. */
module Aggregation {
  import opened Ledger

  /** The receiver -> total `Map`: `keys` in insertion order, `totals` the value of each key. */
  datatype Grouping = Grouping(keys: seq<AccountId>, totals: map<AccountId, int>) {
    /** Each key once, and exactly the keys that carry a total. */
    ghost predicate Valid() {
      && Distinct(keys)
      && forall r :: r in totals <==> r in keys
    }
  }

  predicate Distinct(xs: seq<AccountId>) {
    forall i, j :: 0 <= i < j < |xs| ==> xs[i] != xs[j]
  }

  /** Some transfer in `txs` goes to `r`. */
  predicate Sends(txs: seq<Transfer>, r: AccountId) {
    exists i :: 0 <= i < |txs| && txs[i].receiver == r
  }

  /** Reference definition of the keys: the distinct receivers of `txs`, each placed where it
      first occurs (a key is appended only when it is not yet present). */
  function Receivers(txs: seq<Transfer>): (keys: seq<AccountId>)
    ensures Distinct(keys)
    ensures forall r :: r in keys <==> Sends(txs, r)
  {
    if txs == [] then []
    else
      var prefix := txs[..|txs| - 1];
      var r := txs[|txs| - 1].receiver;
      var prev := Receivers(prefix);
      SendsLast(txs);
      if r in prev then prev else prev + [r]
  }

  /** Reference definition of a key's value: the sum of the amounts of exactly those transfers
      in `txs` whose receiver is `r`. */
  function TotalTo(txs: seq<Transfer>, r: AccountId): int {
    if txs == [] then 0
    else
      var last := txs[|txs| - 1];
      TotalTo(txs[..|txs| - 1], r) + (if last.receiver == r then last.amount else 0)
  }

  /** The sum of all amounts in `txs`. */
  function SumAmounts(txs: seq<Transfer>): int {
    if txs == [] then 0 else SumAmounts(txs[..|txs| - 1]) + txs[|txs| - 1].amount
  }

  /** The sum of the totals of `keys`, added up left to right: the `reduce` over the map's values. */
  function SumValues(keys: seq<AccountId>, totals: map<AccountId, int>): int
    requires forall k :: k in keys ==> k in totals
  {
    if keys == [] then 0 else SumValues(keys[..|keys| - 1], totals) + totals[keys[|keys| - 1]]
  }

  /** The grouping the loop is to produce, built from the reference definitions. */
  function Group(txs: seq<Transfer>): (g: Grouping)
    ensures g.Valid()
  {
    var keys := Receivers(txs);
    Grouping(keys, map r | r in keys :: TotalTo(txs, r))
  }

  /** The index of the first transfer in `txs` that goes to `r`. */
  function FirstIndex(txs: seq<Transfer>, r: AccountId): (i: nat)
    requires Sends(txs, r)
    ensures i < |txs| && txs[i].receiver == r
    ensures forall j :: 0 <= j < i ==> txs[j].receiver != r
  {
    var prefix := txs[..|txs| - 1];
    if Sends(prefix, r) then FirstIndex(prefix, r) else |txs| - 1
  }

  /** The `forEach` over the transfers: a key is inserted with 0 the first time its receiver is
      seen, then the amount is added to it. */
  method GroupByReceiver(txs: seq<Transfer>) returns (g: Grouping)
    ensures g == Group(txs)
  {
    var keys: seq<AccountId> := [];
    var totals: map<AccountId, int> := map[];
    for i := 0 to |txs|
      invariant keys == Receivers(txs[..i])
      invariant forall r :: r in totals <==> r in keys
      invariant forall r :: r in totals ==> totals[r] == TotalTo(txs[..i], r)
    {
      var r := txs[i].receiver;
      assert txs[..i + 1][..i] == txs[..i];
      if r !in totals {
        TotalToAbsent(txs[..i], r);
        keys := keys + [r];
        totals := totals[r := 0];
      }
      totals := totals[r := totals[r] + txs[i].amount];
    }
    assert txs[..|txs|] == txs;
    g := Grouping(keys, totals);
  }

  // ---------------------------------------------------------------------------------------
  // Helpers about the last element of a sequence of transfers

  lemma SendsLast(txs: seq<Transfer>)
    requires txs != []
    ensures forall r :: Sends(txs, r) <==>
      Sends(txs[..|txs| - 1], r) || txs[|txs| - 1].receiver == r
  {
    var prefix := txs[..|txs| - 1];
    forall r | Sends(txs, r) && txs[|txs| - 1].receiver != r
      ensures Sends(prefix, r)
    {
      var i :| 0 <= i < |txs| && txs[i].receiver == r;
      assert prefix[i] == txs[i];
    }
    forall r | Sends(prefix, r)
      ensures Sends(txs, r)
    {
      var i :| 0 <= i < |prefix| && prefix[i].receiver == r;
      assert txs[i] == prefix[i];
    }
  }

  /** A receiver that no transfer goes to has total 0. */
  lemma {:induction false} TotalToAbsent(txs: seq<Transfer>, r: AccountId)
    requires !Sends(txs, r)
    ensures TotalTo(txs, r) == 0
  {
    if txs != [] {
      SendsLast(txs);
      TotalToAbsent(txs[..|txs| - 1], r);
    }
  }

  // ---------------------------------------------------------------------------------------
  // Properties of the grouping

  /** The keys are in first-occurrence order: an earlier key was first sent to earlier. */
  lemma {:induction false} ReceiversInFirstOccurrenceOrder(txs: seq<Transfer>, i: nat, j: nat)
    requires i < j < |Receivers(txs)|
    ensures FirstIndex(txs, Receivers(txs)[i]) < FirstIndex(txs, Receivers(txs)[j])
  {
    var keys := Receivers(txs);
    var prefix := txs[..|txs| - 1];
    var prev := Receivers(prefix);
    var r := txs[|txs| - 1].receiver;
    if r in prev || j < |prev| {
      assert keys[i] == prev[i] && keys[j] == prev[j];
      ReceiversInFirstOccurrenceOrder(prefix, i, j);
      FirstIndexOfPrefix(txs, keys[i]);
      FirstIndexOfPrefix(txs, keys[j]);
    } else {
      assert keys[i] == prev[i];
      FirstIndexOfPrefix(txs, keys[i]);
    }
  }

  /** Appending a transfer does not move the first occurrence of a receiver already present. */
  lemma FirstIndexOfPrefix(txs: seq<Transfer>, r: AccountId)
    requires txs != [] && Sends(txs[..|txs| - 1], r)
    ensures Sends(txs, r)
    ensures FirstIndex(txs, r) == FirstIndex(txs[..|txs| - 1], r)
  {
    SendsLast(txs);
  }

  /** Conservation: the per-receiver totals add up to the sum of all the transfers' amounts. */
  lemma GroupConserves(txs: seq<Transfer>)
    ensures SumValues(Group(txs).keys, Group(txs).totals) == SumAmounts(txs)
  {
    var g := Group(txs);
    SumValuesOfTotals(g.keys, g.totals, txs);
    ReceiversSumTotals(txs);
  }

  /** Sum of the reference totals of `keys`, left to right. */
  function SumTotals(keys: seq<AccountId>, txs: seq<Transfer>): int {
    if keys == [] then 0 else SumTotals(keys[..|keys| - 1], txs) + TotalTo(txs, keys[|keys| - 1])
  }

  lemma {:induction false} SumValuesOfTotals(keys: seq<AccountId>, totals: map<AccountId, int>, txs: seq<Transfer>)
    requires forall k :: k in keys ==> k in totals && totals[k] == TotalTo(txs, k)
    ensures SumValues(keys, totals) == SumTotals(keys, txs)
  {
    if keys != [] {
      SumValuesOfTotals(keys[..|keys| - 1], totals, txs);
    }
  }

  /** Adding the last transfer raises the sum over distinct `keys` by its amount when its
      receiver is one of them, and leaves it alone otherwise. */
  lemma {:induction false} SumTotalsStep(keys: seq<AccountId>, txs: seq<Transfer>)
    requires txs != [] && Distinct(keys)
    ensures SumTotals(keys, txs) == SumTotals(keys, txs[..|txs| - 1]) +
      (if txs[|txs| - 1].receiver in keys then txs[|txs| - 1].amount else 0)
  {
    if keys != [] {
      var init := keys[..|keys| - 1];
      assert Distinct(init);
      assert keys == init + [keys[|keys| - 1]];
      SumTotalsStep(init, txs);
    }
  }

  lemma {:induction false} ReceiversSumTotals(txs: seq<Transfer>)
    ensures SumTotals(Receivers(txs), txs) == SumAmounts(txs)
  {
    if txs != [] {
      var prefix := txs[..|txs| - 1];
      var prev := Receivers(prefix);
      var last := txs[|txs| - 1];
      ReceiversSumTotals(prefix);
      SumTotalsStep(prev, txs);
      if last.receiver !in prev {
        var keys := prev + [last.receiver];
        assert keys[..|keys| - 1] == prev;
        TotalToAbsent(prefix, last.receiver);
      }
    }
  }
}
