// The parent-to-child index against what it replaced: a scan of all tokens for the one
// whose parent is the current token.
module Scan {
  import opened Model
  import opened Ops
  import opened Forest

  ghost predicate IsChild(toks: map<Id, RefreshToken>, cur: Id, t: Id) {
    t in toks && toks[t].parent == cur
  }

  ghost function SlowWalk(toks: map<Id, RefreshToken>, cur: Id, visited: set<Id>): WalkEnd
    decreases toks.Keys - visited
  {
    if t: Id :| IsChild(toks, cur, t) then
      if t in visited then Revisit
      else if !toks[t].revoked then Leaf(toks[t])
      else SlowWalk(toks, t, visited + {t})
    else NoEdge
  }

  ghost function SlowLatestChild(toks: map<Id, RefreshToken>, parent: Id): Option<RefreshToken> {
    var w := SlowWalk(toks, parent, {parent});
    if w.Leaf? then Some(w.rt) else None
  }

  // The only token whose parent is position i of a chain is position i + 1.
  lemma OnlyChild(toks: map<Id, RefreshToken>, p2c: map<Id, Id>, f: Chains, r: Id, i: nat, t: Id)
    requires Refines(toks, p2c, f) && r in f && i < |f[r].links|
    ensures IsChild(toks, f[r].links[i].token, t) <==> i + 1 < |f[r].links| && t == f[r].links[i + 1].token
  {
    var p := f[r].links[i].token;
    assert LinkOk(toks, p2c, f[r], i) && LinkOk(toks, p2c, f[r], i + 1);
    assert Has(f, r, i, p);
    if IsChild(toks, p, t) {
      var q: Id, j: int :| Has(f, q, j, t);
      assert LinkOk(toks, p2c, f[q], j) && LinkOk(toks, p2c, f[q], j - 1);
      assert Has(f, q, j - 1, p);
    }
  }

  lemma {:induction false} SlowWalkFollowsChain(toks: map<Id, RefreshToken>, p2c: map<Id, Id>, f: Chains,
                                                r: Id, i: nat, visited: set<Id>)
    requires Refines(toks, p2c, f) && r in f && i < |f[r].links|
    requires forall j | i < j < |f[r].links| :: f[r].links[j].token !in visited
    ensures var c := f[r];
            SlowWalk(toks, c.links[i].token, visited) ==
              if c.dead || i == |c.links| - 1 then NoEdge else Leaf(TokenAt(c, |c.links| - 1))
    decreases |f[r].links| - i
  {
    var c := f[r];
    forall t ensures IsChild(toks, c.links[i].token, t) <==> i + 1 < |c.links| && t == c.links[i + 1].token {
      OnlyChild(toks, p2c, f, r, i, t);
    }
    if i + 1 < |c.links| {
      var child := c.links[i + 1].token;
      assert IsChild(toks, c.links[i].token, child);
      assert LinkOk(toks, p2c, c, i + 1);
      if toks[child].revoked {
        forall j | i + 1 < j < |c.links| ensures c.links[j].token !in visited + {child} {
          assert Has(f, r, j, c.links[j].token) && Has(f, r, i + 1, child);
        }
        SlowWalkFollowsChain(toks, p2c, f, r, i + 1, visited + {child});
      }
    }
  }

  lemma ParentKnown(toks: map<Id, RefreshToken>, p2c: map<Id, Id>, f: Chains, t: Id)
    requires Refines(toks, p2c, f) && t in toks && toks[t].parent != ""
    ensures toks[t].parent in toks && toks[toks[t].parent].revoked
  {
    var r: Id, i: int :| Has(f, r, i, t);
    assert LinkOk(toks, p2c, f[r], i) && LinkOk(toks, p2c, f[r], i - 1);
  }

  // The index gives the scan's answer, also where logout removed edges but left the parents.
  lemma IndexEqualsScan(toks: map<Id, RefreshToken>, p2c: map<Id, Id>, f: Chains, parent: Id)
    requires Refines(toks, p2c, f) && parent != ""
    ensures FindLatestChild(p2c, toks, parent) == SlowLatestChild(toks, parent)
  {
    if parent in toks {
      var r: Id, i: int :| Has(f, r, i, parent);
      LatestChildOf(toks, p2c, f, r, i);
      forall j | i < j < |f[r].links| ensures f[r].links[j].token !in {parent} {
        assert Has(f, r, j, f[r].links[j].token);
      }
      SlowWalkFollowsChain(toks, p2c, f, r, i, {parent});
    } else {
      forall t ensures !IsChild(toks, parent, t) {
        if t in toks && toks[t].parent != "" {
          ParentKnown(toks, p2c, f, t);
        }
      }
    }
  }

  // The visited guard and the missing-record guard of the walk never fire.
  lemma GuardsNeverFire(toks: map<Id, RefreshToken>, p2c: map<Id, Id>, f: Chains, parent: Id)
    requires Refines(toks, p2c, f)
    ensures !Walk(p2c, toks, parent, {parent}).Revisit?
    ensures !Walk(p2c, toks, parent, {parent}).Dangling?
  {
    if parent in p2c {
      var r: Id, i: int :| Has(f, r, i, parent);
      forall j | i < j < |f[r].links| ensures f[r].links[j].token !in {parent} {
        assert Has(f, r, j, f[r].links[j].token);
      }
      WalkFollowsChain(toks, p2c, f, r, i, {parent});
    }
  }

  // A rank that strictly grows along every edge: the edges have no cycle.
  ghost predicate Ranks(p2c: map<Id, Id>, rank: map<Id, int>) {
    forall a | a in p2c :: a in rank && p2c[a] in rank && rank[a] < rank[p2c[a]]
  }

  // Every edge leads from a revoked token to its one child, within one user and one session.
  ghost predicate EdgeOk(toks: map<Id, RefreshToken>, p2c: map<Id, Id>, a: Id) {
    a in p2c ==>
      && a in toks && p2c[a] in toks
      && toks[a].revoked && toks[p2c[a]].parent == a
      && toks[a].userID == toks[p2c[a]].userID && toks[a].sessionID == toks[p2c[a]].sessionID
  }

  lemma EdgesAcyclic(toks: map<Id, RefreshToken>, p2c: map<Id, Id>, f: Chains) returns (rank: map<Id, int>)
    requires Refines(toks, p2c, f)
    ensures Ranks(p2c, rank)
    ensures forall a :: EdgeOk(toks, p2c, a)
  {
    rank := map t | t in toks :: Position(f, t);
    forall a ensures EdgeOk(toks, p2c, a) {
      if a in p2c {
        var r: Id, i: int :| Has(f, r, i, a);
        assert LinkOk(toks, p2c, f[r], i) && LinkOk(toks, p2c, f[r], i + 1);
      }
    }
    forall a | a in p2c ensures a in rank && p2c[a] in rank && rank[a] < rank[p2c[a]] {
      var r: Id, i: int :| Has(f, r, i, a);
      assert LinkOk(toks, p2c, f[r], i) && LinkOk(toks, p2c, f[r], i + 1);
      assert Has(f, r, i + 1, p2c[a]);
    }
  }

  ghost function Position(f: Chains, t: Id): int {
    if r: Id, i: int :| Has(f, r, i, t) then i else 0
  }
}
