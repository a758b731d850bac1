/** The fund-flow tree rooted at one account, as a recursive function over the stores.

    The controller recurses on every receiver without a cycle guard; a transfer cycle makes it
    recurse forever. This definition carries the set of accounts already expanded on the current
    root-to-node path and, when an account on that path is reached again, emits a leaf marked
    `truncated` instead of expanding it. Module `Unguarded` proves that this changes nothing on
    every store where the unguarded recursion terminates. */
module Hierarchy {
  import opened Ledger
  import opened Aggregation

  /** One node of the tree. `truncated` is set only on a leaf cut off by the cycle guard. */
  datatype Node = Node(name: string, budget: int, children: seq<Node>, truncated: bool)

  /** Builds the tree for `id`, with `visited` the accounts expanded on the path above it. */
  function Build(s: Store, id: AccountId, visited: set<AccountId>): (r: Result<Node>)
    ensures id !in s.users ==> r == Err(NotFound(id))
    ensures r.Err? ==> r.error.id !in s.users
    ensures r.Ok? ==> id in s.users && r.value.name == s.users[id].name
    ensures r.Ok? ==> (r.value.truncated <==> id in visited)
    decreases |s.users.Keys - visited|, 0
  {
    if id !in s.users then Err(NotFound(id))
    else
      var user := s.users[id];
      if id in visited then Ok(Node(user.name, user.balance, [], true))
      else
        var g := Group(Outgoing(s.transfers, id));
        if g.keys == [] then Ok(Node(user.name, user.balance, [], false))
        else
          FewerUnvisited(s.users.Keys, visited, id);
          match BuildChildren(s, g.keys, g.totals, visited + {id})
          case Err(e) => Err(e)
          case Ok(children) => Ok(Node(user.name, SumValues(g.keys, g.totals), children, false))
  }

  /** The `Promise.all` over the receivers, taken in key order: each child is built and its
      budget overwritten with the amount sent to it; the first failure fails them all. */
  function BuildChildren(s: Store, keys: seq<AccountId>, totals: map<AccountId, int>,
                         visited: set<AccountId>): (r: Result<seq<Node>>)
    requires forall k :: k in keys ==> k in totals
    ensures r.Err? ==> r.error.id !in s.users
    decreases |s.users.Keys - visited|, 1, |keys|
  {
    if keys == [] then Ok([])
    else
      match Build(s, keys[0], visited)
      case Err(e) => Err(e)
      case Ok(child) =>
        match BuildChildren(s, keys[1..], totals, visited)
        case Err(e) => Err(e)
        case Ok(rest) => Ok([child.(budget := totals[keys[0]])] + rest)
  }

  lemma FewerUnvisited(all: set<AccountId>, visited: set<AccountId>, id: AccountId)
    requires id in all && id !in visited
    ensures |all - (visited + {id})| < |all - visited|
  {
    assert all - (visited + {id}) == (all - visited) - {id};
  }

  /** Sum of the budgets of a list of nodes, left to right. */
  function SumBudgets(nodes: seq<Node>): int {
    if nodes == [] then 0 else SumBudgets(nodes[..|nodes| - 1]) + nodes[|nodes| - 1].budget
  }

  /** Every node of the tree, at any depth, is free of the cycle guard's mark. */
  ghost predicate Untruncated(n: Node) {
    && !n.truncated
    && forall c :: c in n.children ==> Untruncated(c)
  }

  // ---------------------------------------------------------------------------------------
  // The children list

  /** A successful children list has one child per key, in key order; child `i` is the tree
      built for key `i` with its budget replaced by that key's total. */
  lemma {:induction false} BuildChildrenOk(s: Store, keys: seq<AccountId>, totals: map<AccountId, int>,
                                           visited: set<AccountId>)
    requires forall k :: k in keys ==> k in totals
    requires BuildChildren(s, keys, totals, visited).Ok?
    ensures |BuildChildren(s, keys, totals, visited).value| == |keys|
    ensures forall i :: 0 <= i < |keys| ==>
      && Build(s, keys[i], visited).Ok?
      && BuildChildren(s, keys, totals, visited).value[i]
         == Build(s, keys[i], visited).value.(budget := totals[keys[i]])
    decreases |keys|
  {
    if keys != [] {
      var first := Build(s, keys[0], visited);
      var tail := BuildChildren(s, keys[1..], totals, visited);
      assert first.Ok? && tail.Ok?;
      var cs := BuildChildren(s, keys, totals, visited).value;
      assert cs == [first.value.(budget := totals[keys[0]])] + tail.value;
      BuildChildrenOk(s, keys[1..], totals, visited);
      forall i | 0 < i < |keys|
        ensures Build(s, keys[i], visited).Ok?
        ensures cs[i] == Build(s, keys[i], visited).value.(budget := totals[keys[i]])
      {
        assert keys[1..][i - 1] == keys[i];
      }
    }
  }

  /** Fail-fast: the children list fails exactly when some child fails, and then with the error
      of the first failing child in key order. */
  lemma {:induction false} BuildChildrenErr(s: Store, keys: seq<AccountId>, totals: map<AccountId, int>,
                                            visited: set<AccountId>)
    requires forall k :: k in keys ==> k in totals
    ensures BuildChildren(s, keys, totals, visited).Err? <==>
      exists i :: 0 <= i < |keys| && Build(s, keys[i], visited).Err?
    ensures BuildChildren(s, keys, totals, visited).Err? ==>
      exists i :: && 0 <= i < |keys|
                  && Build(s, keys[i], visited) == Err(BuildChildren(s, keys, totals, visited).error)
                  && forall j :: 0 <= j < i ==> Build(s, keys[j], visited).Ok?
    decreases |keys|
  {
    if keys != [] {
      BuildChildrenErr(s, keys[1..], totals, visited);
      var r := BuildChildren(s, keys, totals, visited);
      if Build(s, keys[0], visited).Ok? {
        forall i | 0 <= i < |keys| - 1
          ensures keys[1..][i] == keys[i + 1]
        {
        }
        if r.Err? {
          var i :| && 0 <= i < |keys| - 1
                   && Build(s, keys[1..][i], visited) == Err(r.error)
                   && forall j :: 0 <= j < i ==> Build(s, keys[1..][j], visited).Ok?;
          assert Build(s, keys[i + 1], visited) == Err(r.error);
          forall j | 0 <= j < i + 1
            ensures Build(s, keys[j], visited).Ok?
          {
            if j > 0 { assert keys[j] == keys[1..][j - 1]; }
          }
        } else {
          forall i | 0 <= i < |keys|
            ensures Build(s, keys[i], visited).Ok?
          {
            if i > 0 { assert keys[i] == keys[1..][i - 1]; }
          }
        }
      } else {
        assert Build(s, keys[0], visited) == Err(r.error);
      }
    }
  }

  lemma {:induction false} SumBudgetsOfChildren(keys: seq<AccountId>, totals: map<AccountId, int>, cs: seq<Node>)
    requires forall k :: k in keys ==> k in totals
    requires |cs| == |keys|
    requires forall i :: 0 <= i < |keys| ==> cs[i].budget == totals[keys[i]]
    ensures SumBudgets(cs) == SumValues(keys, totals)
  {
    if keys != [] {
      SumBudgetsOfChildren(keys[..|keys| - 1], totals, cs[..|cs| - 1]);
    }
  }

  // ---------------------------------------------------------------------------------------
  // Properties of one tree node

  /** Leaf case: an expanded account has no children exactly when it sends nothing, and then
      its node is its name, its balance and no children. */
  lemma LeafCase(s: Store, id: AccountId, visited: set<AccountId>)
    requires id in s.users && id !in visited
    ensures Outgoing(s.transfers, id) == [] ==>
      Build(s, id, visited) == Ok(Node(s.users[id].name, s.users[id].balance, [], false))
    ensures Build(s, id, visited).Ok? && Build(s, id, visited).value.children == [] <==>
      Outgoing(s.transfers, id) == []
  {
    var out := Outgoing(s.transfers, id);
    var g := Group(out);
    if out != [] {
      assert out[0] in s.transfers;
      assert Sends(out, out[0].receiver);
      assert g.keys != [];
      if BuildChildren(s, g.keys, g.totals, visited + {id}).Ok? {
        BuildChildrenOk(s, g.keys, g.totals, visited + {id});
      }
    }
  }

  /** The children of an expanded account: one per distinct receiver of its outgoing transfers,
      in first-occurrence order (see `ReceiversInFirstOccurrenceOrder`). Child `i` is the tree
      built for that receiver one level deeper on the path, unchanged except that its budget is
      exactly the amount the parent sent to it. */
  lemma ChildrenAreSubtrees(s: Store, id: AccountId, visited: set<AccountId>)
    requires id !in visited && Build(s, id, visited).Ok?
    ensures
      var out := Outgoing(s.transfers, id);
      var keys := Receivers(out);
      var n := Build(s, id, visited).value;
      && |n.children| == |keys|
      && forall i :: 0 <= i < |keys| ==>
           && Build(s, keys[i], visited + {id}).Ok?
           && n.children[i] == Build(s, keys[i], visited + {id}).value.(budget := TotalTo(out, keys[i]))
  {
    var g := Group(Outgoing(s.transfers, id));
    if g.keys != [] {
      BuildChildrenOk(s, g.keys, g.totals, visited + {id});
    }
  }

  /** Conservation at the root: an account that sends something has as budget the sum of all
      its outgoing amounts, which is also the sum of its children's budgets. */
  lemma RootBudget(s: Store, id: AccountId, visited: set<AccountId>)
    requires id !in visited && Build(s, id, visited).Ok?
    requires Outgoing(s.transfers, id) != []
    ensures Build(s, id, visited).value.budget == SumAmounts(Outgoing(s.transfers, id))
    ensures Build(s, id, visited).value.budget == SumBudgets(Build(s, id, visited).value.children)
  {
    var out := Outgoing(s.transfers, id);
    var g := Group(out);
    assert Sends(out, out[0].receiver);
    assert g.keys != [];
    var cr := BuildChildren(s, g.keys, g.totals, visited + {id});
    assert cr.Ok? && Build(s, id, visited).value == Node(s.users[id].name, SumValues(g.keys, g.totals), cr.value, false);
    GroupConserves(out);
    BuildChildrenOk(s, g.keys, g.totals, visited + {id});
    SumBudgetsOfChildren(g.keys, g.totals, cr.value);
  }

  /** All-or-nothing: an existing, expanded account's build fails exactly when the build of one
      of its receivers fails, and then with the error of the first such receiver. */
  lemma ChildFailureFailsAll(s: Store, id: AccountId, visited: set<AccountId>)
    requires id in s.users && id !in visited
    ensures
      var keys := Receivers(Outgoing(s.transfers, id));
      && (Build(s, id, visited).Err? <==>
          exists i :: 0 <= i < |keys| && Build(s, keys[i], visited + {id}).Err?)
      && (Build(s, id, visited).Err? ==>
          exists i :: && 0 <= i < |keys|
                      && Build(s, keys[i], visited + {id}) == Build(s, id, visited)
                      && forall j :: 0 <= j < i ==> Build(s, keys[j], visited + {id}).Ok?)
  {
    var g := Group(Outgoing(s.transfers, id));
    BuildChildrenErr(s, g.keys, g.totals, visited + {id});
    if g.keys != [] {
      var cr := BuildChildren(s, g.keys, g.totals, visited + {id});
      assert cr.Err? ==> Build(s, id, visited) == Err(cr.error);
      assert cr.Ok? ==> Build(s, id, visited).Ok?;
    }
  }
}
