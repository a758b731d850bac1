/** The controller's recursion as written, without a cycle guard. Its nested calls are counted
    against `fuel`: `OutOfFuel` means the recursion was still descending when the fuel ran out,
    and a recursion that runs out of fuel for every fuel never returns.

    Two results: on two accounts that send only to each other the unguarded recursion never
    returns (`CycleNeverReturns`), and wherever it does return, the guarded `Hierarchy.Build`
    returns the very same tree or error (`GuardIsConservative`). Not every cycle diverges: a
    branch that fails with NotFound before the recursion reaches the cycle ends the build with
    that error. */
module Unguarded {
  import opened Ledger
  import opened Aggregation
  import opened Hierarchy

  datatype Run<T> = Done(result: T) | OutOfFuel

  /** `buildHierarchy` as written, with at most `fuel` nested calls. */
  function Unfold(s: Store, id: AccountId, fuel: nat): (r: Run<Result<Node>>)
    ensures r.Done? ==> fuel > 0
    ensures r.Done? && r.result.Ok? ==> Untruncated(r.result.value)
    decreases fuel, 0
  {
    if fuel == 0 then OutOfFuel
    else if id !in s.users then Done(Err(NotFound(id)))
    else
      var user := s.users[id];
      var g := Group(Outgoing(s.transfers, id));
      if g.keys == [] then Done(Ok(Node(user.name, user.balance, [], false)))
      else
        match UnfoldChildren(s, g.keys, g.totals, fuel - 1)
        case OutOfFuel => OutOfFuel
        case Done(Err(e)) => Done(Err(e))
        case Done(Ok(children)) => Done(Ok(Node(user.name, SumValues(g.keys, g.totals), children, false)))
  }

  /** The children of one node as written: every receiver in key order, no guard. */
  function UnfoldChildren(s: Store, keys: seq<AccountId>, totals: map<AccountId, int>,
                          fuel: nat): (r: Run<Result<seq<Node>>>)
    requires forall k :: k in keys ==> k in totals
    ensures r.Done? && r.result.Ok? ==> forall c :: c in r.result.value ==> Untruncated(c)
    decreases fuel, 1, |keys|
  {
    if keys == [] then Done(Ok([]))
    else
      match Unfold(s, keys[0], fuel)
      case OutOfFuel => OutOfFuel
      case Done(Err(e)) => Done(Err(e))
      case Done(Ok(child)) =>
        match UnfoldChildren(s, keys[1..], totals, fuel)
        case OutOfFuel => OutOfFuel
        case Done(Err(e)) => Done(Err(e))
        case Done(Ok(rest)) => Done(Ok([child.(budget := totals[keys[0]])] + rest))
  }

  /** A recursion that returns with some fuel returns the same result with more. */
  lemma {:induction false} UnfoldMono(s: Store, id: AccountId, f: nat, g: nat)
    requires f <= g && Unfold(s, id, f).Done?
    ensures Unfold(s, id, g) == Unfold(s, id, f)
    decreases f, 0
  {
    if id in s.users {
      var gr := Group(Outgoing(s.transfers, id));
      if gr.keys != [] {
        UnfoldChildrenMono(s, gr.keys, gr.totals, f - 1, g - 1);
      }
    }
  }

  lemma {:induction false} UnfoldChildrenMono(s: Store, keys: seq<AccountId>, totals: map<AccountId, int>,
                                              f: nat, g: nat)
    requires forall k :: k in keys ==> k in totals
    requires f <= g && UnfoldChildren(s, keys, totals, f).Done?
    ensures UnfoldChildren(s, keys, totals, g) == UnfoldChildren(s, keys, totals, f)
    decreases f, 1, |keys|
  {
    if keys != [] {
      UnfoldMono(s, keys[0], f, g);
      if Unfold(s, keys[0], f).result.Ok? {
        UnfoldChildrenMono(s, keys[1..], totals, f, g);
      }
    }
  }

  /** The least fuel with which the recursion returns. */
  ghost function MinFuel(s: Store, id: AccountId, f: nat): (m: nat)
    requires Unfold(s, id, f).Done?
    ensures 0 < m <= f && Unfold(s, id, m) == Unfold(s, id, f)
    ensures Unfold(s, id, m - 1).OutOfFuel?
  {
    if Unfold(s, id, f - 1).OutOfFuel? then f
    else
      UnfoldMono(s, id, f - 1, f);
      MinFuel(s, id, f - 1)
  }

  /** The guard never fires along a recursion that returns: an account on the path above needs
      more fuel than `f`, while `id` returns with exactly `f`. */
  lemma {:induction false} GuardAgrees(s: Store, id: AccountId, visited: set<AccountId>, f: nat)
    requires Unfold(s, id, f).Done?
    requires 0 < f && Unfold(s, id, f - 1).OutOfFuel?
    requires forall v :: v in visited ==> Unfold(s, v, f).OutOfFuel?
    ensures Build(s, id, visited) == Unfold(s, id, f).result
    decreases f, 0
  {
    assert id !in visited;
    if id in s.users {
      var g := Group(Outgoing(s.transfers, id));
      if g.keys != [] {
        var path := visited + {id};
        forall v | v in path
          ensures Unfold(s, v, f - 1).OutOfFuel?
        {
          if v != id && Unfold(s, v, f - 1).Done? {
            UnfoldMono(s, v, f - 1, f);
          }
        }
        GuardAgreesChildren(s, g.keys, g.totals, path, f - 1);
      }
    }
  }

  lemma {:induction false} GuardAgreesChildren(s: Store, keys: seq<AccountId>, totals: map<AccountId, int>,
                                               path: set<AccountId>, f: nat)
    requires forall k :: k in keys ==> k in totals
    requires UnfoldChildren(s, keys, totals, f).Done?
    requires forall v :: v in path ==> Unfold(s, v, f).OutOfFuel?
    ensures BuildChildren(s, keys, totals, path) == UnfoldChildren(s, keys, totals, f).result
    decreases f, 1, |keys|
  {
    if keys != [] {
      var m := MinFuel(s, keys[0], f);
      forall v | v in path
        ensures Unfold(s, v, m).OutOfFuel?
      {
        if Unfold(s, v, m).Done? {
          UnfoldMono(s, v, m, f);
        }
      }
      GuardAgrees(s, keys[0], path, m);
      if Unfold(s, keys[0], f).result.Ok? {
        GuardAgreesChildren(s, keys[1..], totals, path, f);
      }
    }
  }

  /** Wherever the recursion as written returns, the guarded build returns the same tree (with
      no node cut off) or the same error. */
  lemma GuardIsConservative(s: Store, id: AccountId, f: nat)
    requires Unfold(s, id, f).Done?
    ensures Build(s, id, {}) == Unfold(s, id, f).result
    ensures Build(s, id, {}).Ok? ==> Untruncated(Build(s, id, {}).value)
  {
    var m := MinFuel(s, id, f);
    GuardAgrees(s, id, {}, m);
  }

  // ---------------------------------------------------------------------------------------
  // A transfer cycle between two accounts

  /** `a` sends to `b` only (`x` in all) and `b` sends to `a` only (`y` in all). */
  ghost predicate TwoCycle(s: Store, a: AccountId, b: AccountId, x: int, y: int) {
    && a in s.users && b in s.users && a != b
    && Group(Outgoing(s.transfers, a)) == Grouping([b], map[b := x])
    && Group(Outgoing(s.transfers, b)) == Grouping([a], map[a := y])
  }

  /** An account that sends to one receiver only is stuck as long as that receiver is. */
  lemma UnfoldThroughOne(s: Store, id: AccountId, k: AccountId, f: nat)
    requires id in s.users && 0 < f
    requires Group(Outgoing(s.transfers, id)).keys == [k]
    requires Unfold(s, k, f - 1).OutOfFuel?
    ensures Unfold(s, id, f).OutOfFuel?
  {
    var g := Group(Outgoing(s.transfers, id));
    assert g.keys[0] == k;
    assert UnfoldChildren(s, g.keys, g.totals, f - 1).OutOfFuel?;
  }

  /** As written, the recursion from either account of a two-account cycle never returns,
      whatever the fuel. */
  lemma {:induction false} CycleNeverReturns(s: Store, a: AccountId, b: AccountId, x: int, y: int, f: nat)
    requires TwoCycle(s, a, b, x, y)
    ensures Unfold(s, a, f).OutOfFuel?
    ensures Unfold(s, b, f).OutOfFuel?
  {
    if f > 0 {
      CycleNeverReturns(s, a, b, x, y, f - 1);
      UnfoldThroughOne(s, a, b, f);
      UnfoldThroughOne(s, b, a, f);
    }
  }

  /** The guarded build of an expanded account that sends to one receiver only. */
  lemma BuildThroughOne(s: Store, id: AccountId, visited: set<AccountId>, k: AccountId, amount: int, child: Node)
    requires id in s.users && id !in visited
    requires Group(Outgoing(s.transfers, id)) == Grouping([k], map[k := amount])
    requires Build(s, k, visited + {id}) == Ok(child)
    ensures Build(s, id, visited) == Ok(Node(s.users[id].name, amount, [child.(budget := amount)], false))
  {
    var keys, totals := [k], map[k := amount];
    var path := visited + {id};
    assert keys[0] == k && keys[1..] == [] && keys[..0] == [];
    assert Build(s, keys[0], path) == Ok(child);
    assert BuildChildren(s, keys[1..], totals, path) == Ok([]);
    assert [child.(budget := amount)] + [] == [child.(budget := amount)];
    assert BuildChildren(s, keys, totals, path) == Ok([child.(budget := amount)]);
    assert SumValues(keys, totals) == amount;
  }

  /** With the guard, the build from `a` is finite: the branch that comes back to `a` is cut
      off, and its budget is the amount `b` sent to `a`. */
  lemma CycleIsCut(s: Store, a: AccountId, b: AccountId, x: int, y: int)
    requires TwoCycle(s, a, b, x, y)
    ensures Build(s, a, {}) ==
      Ok(Node(s.users[a].name, x,
              [Node(s.users[b].name, x, [Node(s.users[a].name, y, [], true)], false)], false))
  {
    var na, nb := s.users[a].name, s.users[b].name;
    var leaf := Node(na, s.users[a].balance, [], true);
    assert {a} + {b} == {a, b};
    assert Build(s, a, {a, b}) == Ok(leaf);
    BuildThroughOne(s, b, {a}, a, y, leaf);
    assert {} + {a} == {a};
    BuildThroughOne(s, a, {}, b, x, Node(nb, y, [leaf.(budget := y)], false));
  }

  // The concrete store: A (balance 100) sends 15 to B (balance 5), and B sends 15 back to A.

  const CyclicStore := Store(map["A" := Account("A", 100), "B" := Account("B", 5)],
                             [Transfer("A", "B", 15), Transfer("B", "A", 15)])

  /** Grouping a single transfer: one key, its receiver, with the transfer's amount. */
  lemma GroupOfOne(t: Transfer)
    ensures Group([t]) == Grouping([t.receiver], map[t.receiver := t.amount])
  {
    assert [t][..0] == [];
    assert Receivers([t][..0]) == [];
    assert Receivers([t]) == [t.receiver];
    assert TotalTo([t], t.receiver) == TotalTo([], t.receiver) + t.amount;
    var g := Group([t]);
    assert g.totals == map[t.receiver := t.amount];
  }

  lemma CyclicStoreIsTwoCycle()
    ensures TwoCycle(CyclicStore, "A", "B", 15, 15)
  {
    var ts := CyclicStore.transfers;
    assert ts[1..] == [Transfer("B", "A", 15)];
    assert ts[1..][1..] == [];
    assert Outgoing(ts[1..], "A") == [];
    assert Outgoing(ts[1..], "B") == [Transfer("B", "A", 15)];
    assert Outgoing(ts, "A") == [Transfer("A", "B", 15)];
    assert Outgoing(ts, "B") == [Transfer("B", "A", 15)];
    GroupOfOne(Transfer("A", "B", 15));
    GroupOfOne(Transfer("B", "A", 15));
    assert "A" in CyclicStore.users && "B" in CyclicStore.users && "A" != "B";
  }

  /** As written, the build from A on the concrete store never returns. */
  lemma CyclicStoreNeverReturns(f: nat)
    ensures Unfold(CyclicStore, "A", f).OutOfFuel?
  {
    CyclicStoreIsTwoCycle();
    CycleNeverReturns(CyclicStore, "A", "B", 15, 15, f);
  }

  /** With the guard, the build from A on the concrete store is A -> B -> A (cut off). */
  lemma CyclicStoreIsCut()
    ensures Build(CyclicStore, "A", {}) ==
      Ok(Node("A", 15, [Node("B", 15, [Node("A", 15, [], true)], false)], false))
  {
    CyclicStoreIsTwoCycle();
    CycleIsCut(CyclicStore, "A", "B", 15, 15);
  }
}
