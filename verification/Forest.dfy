// Refresh-token rotation as a forest of plain sequences, and the proof that the token
// map together with the parent-to-child index refines it.
module Forest {
  import opened Model
  import opened Ops

  datatype Link = Link(token: Id, at: int)

  // A root token and its successive rotations. `dead` once its session was logged out.
  datatype Chain = Chain(user: Id, session: Id, links: seq<Link>, dead: bool)

  // Chains by root token.
  type Chains = map<Id, Chain>

  ghost predicate Has(f: Chains, r: Id, i: int, t: Id) {
    r in f && 0 <= i < |f[r].links| && f[r].links[i].token == t
  }

  // ---- the abstract machine ---------------------------------------------------

  function StartChain(f: Chains, user: Id, session: Id, t: Id, now: int): Chains {
    f[t := Chain(user, session, [Link(t, now)], false)]
  }

  function Extend(c: Chain, now: int, next: Id): Chain
    requires |c.links| > 0
  {
    var n := |c.links| - 1;
    c.(links := c.links[n := c.links[n].(at := now)] + [Link(next, now)])
  }

  // Consuming position i of chain r: append at the live end, repeat the end inside the
  // window of an earlier token, refuse everything else.
  function ConsumeAt(f: Chains, r: Id, i: nat, now: int, window: int, next: Id): (Chains, Option<Id>)
    requires r in f && i < |f[r].links|
  {
    var c := f[r];
    if c.dead then (f, None)
    else if i == |c.links| - 1 then (f[r := Extend(c, now, next)], Some(next))
    else if Since(now, c.links[i].at) <= window then (f, Some(c.links[|c.links| - 1].token))
    else (f, None)
  }

  ghost function Consume(f: Chains, t: Id, now: int, window: int, next: Id): (Chains, Option<Id>) {
    if exists r: Id, i: int :: Has(f, r, i, t) then
      var r: Id, i: int :| Has(f, r, i, t);
      ConsumeAt(f, r, i, now, window, next)
    else (f, None)
  }

  function Kill(c: Chain, past: int): Chain {
    c.(dead := true, links := seq(|c.links|, i requires 0 <= i < |c.links| => c.links[i].(at := past)))
  }

  function LogoutChains(f: Chains, session: Id, past: int): Chains {
    map r | r in f :: if f[r].session == session then Kill(f[r], past) else f[r]
  }

  function DropUser(f: Chains, user: Id): Chains {
    map r | r in f && f[r].user != user :: f[r]
  }

  // ---- the refinement relation ------------------------------------------------

  function ParentAt(c: Chain, i: nat): Id
    requires i < |c.links|
  {
    if i == 0 then "" else c.links[i - 1].token
  }

  function TokenAt(c: Chain, i: nat): RefreshToken
    requires i < |c.links|
  {
    RefreshToken(c.links[i].token, c.user, c.session, c.links[i].at,
                 c.dead || i < |c.links| - 1, ParentAt(c, i))
  }

  // One position of one chain, as the maps hold it: the record, and an edge to the next
  // position exactly when the chain is alive and has one.
  ghost predicate LinkOk(toks: map<Id, RefreshToken>, p2c: map<Id, Id>, c: Chain, i: int) {
    0 <= i < |c.links| ==>
      var t := c.links[i].token;
      && t != ""
      && t in toks && toks[t] == TokenAt(c, i)
      && (if !c.dead && i < |c.links| - 1
          then t in p2c && p2c[t] == c.links[i + 1].token
          else t !in p2c)
  }

  ghost predicate RootsOk(f: Chains) {
    forall r | r in f :: |f[r].links| > 0 && f[r].links[0].token == r
  }

  ghost predicate LinksOk(toks: map<Id, RefreshToken>, p2c: map<Id, Id>, f: Chains) {
    forall r, i | r in f :: LinkOk(toks, p2c, f[r], i)
  }

  ghost predicate Covered(toks: map<Id, RefreshToken>, f: Chains) {
    forall t | t in toks :: exists r: Id, i: int :: Has(f, r, i, t)
  }

  ghost predicate Disjoint(f: Chains) {
    forall r, i, r', i', t :: Has(f, r, i, t) && Has(f, r', i', t) ==> r == r' && i == i'
  }

  ghost predicate Refines(toks: map<Id, RefreshToken>, p2c: map<Id, Id>, f: Chains) {
    && RootsOk(f)
    && LinksOk(toks, p2c, f)
    && Covered(toks, f)
    && Disjoint(f)
    && p2c.Keys <= toks.Keys
  }

  // ---- simulation, one lemma per operation ------------------------------------

  lemma StartChainRefines(toks: map<Id, RefreshToken>, p2c: map<Id, Id>, f: Chains,
                          user: Id, session: Id, t: Id, now: int)
    requires Refines(toks, p2c, f) && t !in toks && t != ""
    ensures Refines(toks[t := RefreshToken(t, user, session, now, false, "")], p2c,
                    StartChain(f, user, session, t, now))
  {
    var f' := StartChain(f, user, session, t, now);
    var toks' := toks[t := RefreshToken(t, user, session, now, false, "")];
    assert t in f ==> LinkOk(toks, p2c, f[t], 0);
    forall r, i | r in f' ensures LinkOk(toks', p2c, f'[r], i) {
      if r != t {
        assert LinkOk(toks, p2c, f[r], i);
      }
    }
    forall u | u in toks' ensures exists r: Id, i: int :: Has(f', r, i, u) {
      if u == t {
        assert Has(f', t, 0, t);
      } else {
        var r: Id, i: int :| Has(f, r, i, u);
        assert Has(f', r, i, u);
      }
    }
    forall r, i, r', i', u | Has(f', r, i, u) && Has(f', r', i', u) ensures r == r' && i == i' {
      assert r != t ==> Has(f, r, i, u) && LinkOk(toks, p2c, f[r], i);
      assert r' != t ==> Has(f, r', i', u) && LinkOk(toks, p2c, f[r'], i');
    }
  }

  // Rotating the live end of a chain: the record is revoked and restamped, its successor
  // is inserted, and one edge is added.
  lemma ExtendRefines(toks: map<Id, RefreshToken>, p2c: map<Id, Id>, f: Chains, r: Id, now: int, next: Id)
    requires Refines(toks, p2c, f) && r in f && !f[r].dead
    requires next !in toks && next != ""
    ensures var c := f[r];
            var t := c.links[|c.links| - 1].token;
            Refines(
              toks[t := TokenAt(c, |c.links| - 1).(revoked := true, issuedAt := now)]
                  [next := RefreshToken(next, c.user, c.session, now, false, t)],
              p2c[t := next],
              f[r := Extend(c, now, next)])
  {
    var c := f[r];
    var n := |c.links| - 1;
    var t := c.links[n].token;
    assert Has(f, r, n, t) && LinkOk(toks, p2c, c, n);
    var c' := Extend(c, now, next);
    var f' := f[r := c'];
    var toks' := toks[t := toks[t].(revoked := true, issuedAt := now)]
                     [next := RefreshToken(next, c.user, c.session, now, false, t)];
    var p2c' := p2c[t := next];
    assert forall j | 0 <= j <= n :: c'.links[j].token == c.links[j].token;
    forall r', i | r' in f' ensures LinkOk(toks', p2c', f'[r'], i) {
      if r' != r {
        assert LinkOk(toks, p2c, f[r'], i);
        if 0 <= i < |f[r'].links| {
          assert Has(f, r', i, f[r'].links[i].token);
        }
      } else if 0 <= i < n {
        assert LinkOk(toks, p2c, c, i) && Has(f, r, i, c.links[i].token);
      }
    }
    forall u | u in toks' ensures exists q: Id, i: int :: Has(f', q, i, u) {
      if u == next {
        assert Has(f', r, n + 1, next);
      } else {
        var q: Id, i: int :| Has(f, q, i, u);
        assert Has(f', q, i, u);
      }
    }
    forall q, i, q', i', u | Has(f', q, i, u) && Has(f', q', i', u) ensures q == q' && i == i' {
      assert u != next ==> Has(f, q, i, u) && Has(f, q', i', u);
      assert LinkOk(toks, p2c, f[q], i) && LinkOk(toks, p2c, f[q'], i');
    }
  }

  lemma KillRefines(toks: map<Id, RefreshToken>, p2c: map<Id, Id>, f: Chains, sid: Id, past: int)
    requires Refines(toks, p2c, f)
    ensures Refines(
              map t | t in toks :: if toks[t].sessionID == sid then toks[t].(revoked := true, issuedAt := past)
                  else toks[t],
              p2c - Touched(toks, TokensOfSession(toks, sid)),
              LogoutChains(f, sid, past))
  {
    var toks' := map t | t in toks ::
      if toks[t].sessionID == sid then toks[t].(revoked := true, issuedAt := past) else toks[t];
    var cut := Touched(toks, TokensOfSession(toks, sid));
    var f' := LogoutChains(f, sid, past);
    forall t | t in cut && t in toks ensures toks[t].sessionID == sid {
      TouchedStaysInChain(toks, p2c, f, TokensOfSession(toks, sid), t);
    }
    forall r, i | r in f' ensures LinkOk(toks', p2c - cut, f'[r], i) {
      assert LinkOk(toks, p2c, f[r], i);
    }
    forall t | t in toks' ensures exists r: Id, i: int :: Has(f', r, i, t) {
      var r: Id, i: int :| Has(f, r, i, t);
      assert Has(f', r, i, t);
    }
    forall r, i, r', i', t | Has(f', r, i, t) && Has(f', r', i', t) ensures r == r' && i == i' {
      assert Has(f, r, i, t) && Has(f, r', i', t);
    }
  }

  // A parent is in the same session and of the same user as its child, so cutting both ends
  // of a token's edges never reaches another session or user.
  lemma TouchedStaysInChain(toks: map<Id, RefreshToken>, p2c: map<Id, Id>, f: Chains, gone: set<Id>, t: Id)
    requires Refines(toks, p2c, f) && t in Touched(toks, gone)
    ensures t in toks
    ensures exists u :: u in gone && u in toks
                     && toks[u].sessionID == toks[t].sessionID && toks[u].userID == toks[t].userID
  {
    if !(t in gone && t in toks) {
      var u :| u in gone && u in toks && toks[u].parent != "" && toks[u].parent == t;
      var r: Id, i: int :| Has(f, r, i, u);
      assert LinkOk(toks, p2c, f[r], i) && LinkOk(toks, p2c, f[r], i - 1);
    }
  }

  lemma DropRefines(toks: map<Id, RefreshToken>, p2c: map<Id, Id>, f: Chains, id: Id)
    requires Refines(toks, p2c, f)
    ensures Refines(map t | t in toks && toks[t].userID != id :: toks[t],
                    p2c - Touched(toks, TokensOfUser(toks, id)),
                    DropUser(f, id))
  {
    var toks' := map t | t in toks && toks[t].userID != id :: toks[t];
    var cut := Touched(toks, TokensOfUser(toks, id));
    var f' := DropUser(f, id);
    forall t | t in cut && t in toks ensures toks[t].userID == id {
      TouchedStaysInChain(toks, p2c, f, TokensOfUser(toks, id), t);
    }
    forall r, i | r in f' ensures LinkOk(toks', p2c - cut, f'[r], i) {
      assert LinkOk(toks, p2c, f[r], i);
    }
    forall t | t in toks' ensures exists r: Id, i: int :: Has(f', r, i, t) {
      var r: Id, i: int :| Has(f, r, i, t);
      assert LinkOk(toks, p2c, f[r], i);
      assert Has(f', r, i, t);
    }
    forall r, i, r', i', t | Has(f', r, i, t) && Has(f', r', i', t) ensures r == r' && i == i' {
      assert Has(f, r, i, t) && Has(f, r', i', t);
    }
    forall t | t in p2c - cut ensures t in toks' {
      assert t in TokensOfUser(toks, id) ==> t in cut;
    }
  }

  // ---- the leaf walk on a refined state ---------------------------------------

  // From position i of a chain the walk ends at the chain's live last token, or at once when
  // there is no edge to follow. It never meets a visited token and never leaves the token map.
  lemma {:induction false} WalkFollowsChain(toks: map<Id, RefreshToken>, p2c: map<Id, Id>, f: Chains,
                                            r: Id, i: nat, visited: set<Id>)
    requires Refines(toks, p2c, f) && r in f && i < |f[r].links|
    requires forall j | i < j < |f[r].links| :: f[r].links[j].token !in visited
    ensures var c := f[r];
            var w := Walk(p2c, toks, c.links[i].token, visited);
            if c.dead || i == |c.links| - 1 then w == NoEdge
            else w == Leaf(TokenAt(c, |c.links| - 1)) && !w.rt.revoked
    decreases |f[r].links| - i
  {
    var c := f[r];
    assert LinkOk(toks, p2c, c, i) && LinkOk(toks, p2c, c, i + 1) && LinkOk(toks, p2c, c, |c.links| - 1);
    if !c.dead && i < |c.links| - 1 {
      var child := c.links[i + 1].token;
      if i + 1 < |c.links| - 1 {
        forall j | i + 1 < j < |c.links| ensures c.links[j].token !in visited + {child} {
          assert Has(f, r, j, c.links[j].token) && Has(f, r, i + 1, child);
        }
        WalkFollowsChain(toks, p2c, f, r, i + 1, visited + {child});
        assert child in p2c.Values;
      }
    }
  }

  lemma LatestChildOf(toks: map<Id, RefreshToken>, p2c: map<Id, Id>, f: Chains, r: Id, i: nat)
    requires Refines(toks, p2c, f) && r in f && i < |f[r].links|
    ensures var c := f[r];
            FindLatestChild(p2c, toks, c.links[i].token) ==
              if c.dead || i == |c.links| - 1 then None
              else Some(TokenAt(c, |c.links| - 1))
  {
    var c := f[r];
    forall j | i < j < |c.links| ensures c.links[j].token !in {c.links[i].token} {
      assert Has(f, r, j, c.links[j].token) && Has(f, r, i, c.links[i].token);
    }
    WalkFollowsChain(toks, p2c, f, r, i, {c.links[i].token});
    assert LinkOk(toks, p2c, c, |c.links| - 1);
  }

  // The outcome of a consume on the maps matches its outcome on the forest.
  ghost predicate Matches(s: State, f: Chains, out: Out<(RefreshToken, User)>, abs: (Chains, Option<Id>)) {
    && Refines(out.st.auth.refreshTokens, out.st.auth.parentToChild, abs.0)
    && (out.res.Ok? <==> abs.1.Some?)
    && (out.res.Ok? ==> Live(out.st.auth.refreshTokens, out.res.value.0, abs.1.value))
    && (abs.0 == f ==> out.st == s)
  }

  ghost predicate Live(toks: map<Id, RefreshToken>, rt: RefreshToken, t: Id) {
    t in toks && toks[t] == rt && rt.token == t && !rt.revoked
  }

  lemma RotateMatches(s: State, f: Chains, r: Id, now: int, next: Id)
    requires Refines(s.auth.refreshTokens, s.auth.parentToChild, f) && r in f && !f[r].dead
    requires forall u | u in s.auth.refreshTokens :: s.auth.refreshTokens[u].userID in s.accounts.users
    requires next !in s.auth.refreshTokens && next != ""
    ensures var i := |f[r].links| - 1;
            var t := f[r].links[i].token;
            && Matches(s, f, ConsumeRefreshToken(s, t, now, next), ConsumeAt(f, r, i, now, s.reuseInterval, next))
            && ConsumeRefreshToken(s, t, now, next).res.Ok?
  {
    var c := f[r];
    var t := c.links[|c.links| - 1].token;
    assert LinkOk(s.auth.refreshTokens, s.auth.parentToChild, c, |c.links| - 1);
    ExtendRefines(s.auth.refreshTokens, s.auth.parentToChild, f, r, now, next);
    assert |f[r := Extend(c, now, next)][r].links| == |c.links| + 1;
    assert t != next;
  }

  lemma ReplayMatches(s: State, f: Chains, r: Id, i: nat, now: int, next: Id)
    requires Refines(s.auth.refreshTokens, s.auth.parentToChild, f) && r in f && i < |f[r].links|
    requires f[r].dead || i < |f[r].links| - 1
    requires forall u | u in s.auth.refreshTokens :: s.auth.refreshTokens[u].userID in s.accounts.users
    ensures var t := f[r].links[i].token;
            && Matches(s, f, ConsumeRefreshToken(s, t, now, next), ConsumeAt(f, r, i, now, s.reuseInterval, next))
            && ConsumeRefreshToken(s, t, now, next).st == s
  {
    var c := f[r];
    assert LinkOk(s.auth.refreshTokens, s.auth.parentToChild, c, i);
    assert LinkOk(s.auth.refreshTokens, s.auth.parentToChild, c, |c.links| - 1);
    LatestChildOf(s.auth.refreshTokens, s.auth.parentToChild, f, r, i);
  }

  lemma ConsumeLocates(f: Chains, r: Id, i: int, t: Id, now: int, window: int, next: Id)
    requires Disjoint(f) && Has(f, r, i, t)
    ensures Consume(f, t, now, window, next) == ConsumeAt(f, r, i, now, window, next)
  {
  }

  // Consuming a token, on the maps and on the forest: same answer, and the resulting
  // maps refine the resulting forest. Every token the forest does not hold is refused.
  lemma ConsumeRefines(s: State, f: Chains, t: Id, now: int, next: Id)
    requires Refines(s.auth.refreshTokens, s.auth.parentToChild, f)
    requires forall u | u in s.auth.refreshTokens :: s.auth.refreshTokens[u].userID in s.accounts.users
    requires next !in s.auth.refreshTokens && next != ""
    ensures Matches(s, f, ConsumeRefreshToken(s, t, now, next), Consume(f, t, now, s.reuseInterval, next))
  {
    if t in s.auth.refreshTokens {
      var r: Id, i: int :| Has(f, r, i, t);
      ConsumeLocates(f, r, i, t, now, s.reuseInterval, next);
      if !f[r].dead && i == |f[r].links| - 1 {
        RotateMatches(s, f, r, now, next);
      } else {
        ReplayMatches(s, f, r, i, now, next);
      }
    } else {
      forall r: Id, i: int ensures !Has(f, r, i, t) {
        assert r in f ==> LinkOk(s.auth.refreshTokens, s.auth.parentToChild, f[r], i);
      }
    }
  }

  // ---- the abstraction is a function ------------------------------------------

  // A state refines at most one forest, so the forest loses nothing and invents nothing.
  lemma {:induction false} SamePrefix(toks: map<Id, RefreshToken>, p2c: map<Id, Id>, f: Chains, g: Chains, r: Id,
      i: nat)
    requires Refines(toks, p2c, f) && Refines(toks, p2c, g) && r in f && i < |f[r].links|
    ensures r in g && i < |g[r].links| && g[r].links[i] == f[r].links[i]
  {
    var t := f[r].links[i].token;
    assert LinkOk(toks, p2c, f[r], i);
    var q: Id, j: int :| Has(g, q, j, t);
    assert LinkOk(toks, p2c, g[q], j);
    if i > 0 {
      SamePrefix(toks, p2c, f, g, r, i - 1);
      assert LinkOk(toks, p2c, f[r], i - 1);
      var p := f[r].links[i - 1].token;
      assert j > 0;
      assert Has(g, q, j - 1, p) && Has(g, r, i - 1, p);
    } else {
      assert j > 0 ==> LinkOk(toks, p2c, g[q], j - 1);
    }
  }

  lemma ForestUnique(toks: map<Id, RefreshToken>, p2c: map<Id, Id>, f: Chains, g: Chains)
    requires Refines(toks, p2c, f) && Refines(toks, p2c, g)
    ensures f == g
  {
    forall r | r in f ensures r in g && f[r] == g[r] {
      SameChain(toks, p2c, f, g, r);
    }
    forall r | r in g ensures r in f {
      SameChain(toks, p2c, g, f, r);
    }
  }

  lemma SameChain(toks: map<Id, RefreshToken>, p2c: map<Id, Id>, f: Chains, g: Chains, r: Id)
    requires Refines(toks, p2c, f) && Refines(toks, p2c, g) && r in f
    ensures r in g && f[r] == g[r]
  {
    var n := |f[r].links| - 1;
    SamePrefix(toks, p2c, f, g, r, n);
    var m := |g[r].links| - 1;
    SamePrefix(toks, p2c, g, f, r, m);
    forall i | 0 <= i <= n ensures f[r].links[i] == g[r].links[i] {
      SamePrefix(toks, p2c, f, g, r, i);
    }
    assert f[r].links == g[r].links;
    assert LinkOk(toks, p2c, f[r], n) && LinkOk(toks, p2c, g[r], n);
  }
}
