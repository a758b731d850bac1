/** `buildHierarchy` of the hierarchy controller, step by step: look the user up, group the
    outgoing transfers in a loop, pick the budget, then build the children one receiver at a
    time, overwrite each child's budget and collect the children in key order. */
module HierarchyController {
  import opened Ledger
  import opened Aggregation
  import opened Hierarchy

  /** `done` followed by the children still to come, or the failure among those. */
  function Prepend(done: seq<Node>, rest: Result<seq<Node>>): (r: Result<seq<Node>>)
    ensures rest.Ok? <==> r.Ok?
    ensures r.Ok? ==> |r.value| == |done| + |rest.value|
    ensures r.Ok? ==> r.value[..|done|] == done && r.value[|done|..] == rest.value
    ensures r.Err? ==> r.error == rest.error
  {
    match rest
    case Err(e) => Err(e)
    case Ok(cs) => Ok(done + cs)
  }

  /** The tree for `id` with the cycle guard of `Hierarchy.Build`; called with `visited == {}`
      at the root. Its result is determined by the stores alone, child order included. */
  method BuildHierarchy(s: Store, id: AccountId, visited: set<AccountId>) returns (r: Result<Node>)
    ensures r == Build(s, id, visited)
    decreases |s.users.Keys - visited|
  {
    if id !in s.users {
      return Err(NotFound(id));
    }
    var user := s.users[id];
    if id in visited {
      return Ok(Node(user.name, user.balance, [], true));
    }
    var g := GroupByReceiver(Outgoing(s.transfers, id));
    var budget := if |g.keys| > 0 then SumValues(g.keys, g.totals) else user.balance;
    if |g.keys| == 0 {
      return Ok(Node(user.name, budget, [], false));
    }
    var path := visited + {id};
    FewerUnvisited(s.users.Keys, visited, id);
    var children: seq<Node> := [];
    var i := 0;
    while i < |g.keys|
      invariant 0 <= i <= |g.keys|
      invariant BuildChildren(s, g.keys, g.totals, path)
                == Prepend(children, BuildChildren(s, g.keys[i..], g.totals, path))
    {
      var child := BuildHierarchy(s, g.keys[i], path);
      ChildStep(s, g.keys, g.totals, path, i);
      if child.Err? {
        return Err(child.error);
      }
      var next := child.value.(budget := g.totals[g.keys[i]]);
      PrependTwice(children, next, BuildChildren(s, g.keys[i + 1..], g.totals, path));
      children := children + [next];
      i := i + 1;
    }
    assert BuildChildren(s, g.keys[i..], g.totals, path) == Ok([]);
    assert children + [] == children;
    r := Ok(Node(user.name, budget, children, false));
  }

  /** One unfolding of the children list at position `i`. */
  lemma ChildStep(s: Store, keys: seq<AccountId>, totals: map<AccountId, int>,
                  path: set<AccountId>, i: nat)
    requires forall k :: k in keys ==> k in totals
    requires i < |keys|
    ensures BuildChildren(s, keys[i..], totals, path) ==
      match Build(s, keys[i], path)
      case Err(e) => Err(e)
      case Ok(c) => Prepend([c.(budget := totals[keys[i]])], BuildChildren(s, keys[i + 1..], totals, path))
  {
    assert keys[i..][0] == keys[i];
    assert keys[i..][1..] == keys[i + 1..];
  }

  lemma PrependTwice(done: seq<Node>, next: Node, rest: Result<seq<Node>>)
    ensures Prepend(done, Prepend([next], rest)) == Prepend(done + [next], rest)
  {
    if rest.Ok? {
      assert done + ([next] + rest.value) == (done + [next]) + rest.value;
    }
  }
}
