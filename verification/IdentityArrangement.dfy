/** For which batches the order of the rows decides, exactly. */
module IdentityArrangement {
  import opened Sets
  import opened IdentityPlan
  import opened IdentityClaims
  import opened IdentityComponents
  import opened IdentityOrder

  /******* Orders *******/

  // Different row numbers of a batch of n rows
  predicate IsSelection(p: seq<nat>, n: nat) {
    && (forall x :: 0 <= x < |p| ==> p[x] < n)
    && (forall x, y :: 0 <= x < y < |p| ==> p[x] != p[y])
  }

  predicate IsOrder(p: seq<nat>, n: nat) { IsSelection(p, n) && |p| == n }

  function Arranged(ss: seq<Sighting>, p: seq<nat>): (tt: seq<Sighting>)
    requires IsSelection(p, |ss|)
    ensures |tt| == |p| && forall x :: 0 <= x < |p| ==> tt[x] == ss[p[x]]
  {
    seq(|p|, x requires 0 <= x < |p| => ss[p[x]])
  }

  function Numbers(n: nat): (r: set<nat>)
    ensures |r| == n && forall i: nat :: i in r <==> i < n
  {
    if n == 0 then {} else Numbers(n - 1) + {n - 1}
  }

  function Members(p: seq<nat>): (r: set<nat>)
    ensures forall i :: i in r <==> i in p
  {
    if p == [] then {} else Members(p[..|p| - 1]) + {p[|p| - 1]}
  }

  lemma {:induction false} SelectionSet(p: seq<nat>, n: nat)
    requires IsSelection(p, n)
    ensures |Members(p)| == |p|
  {
    if p != [] {
      var m := |p| - 1;
      SelectionSet(p[..m], n);
      assert p[m] !in p[..m];
      hide IsSelection;
      assert p[m] !in Members(p[..m]) && Members(p) == Members(p[..m]) + {p[m]};
    }
  }

  // A selection has at most n rows, and one of n rows has them all.
  lemma {:induction false} SelectionSize(p: seq<nat>, n: nat)
    requires IsSelection(p, n)
    ensures |p| <= n && (|p| == n ==> forall i: nat :: i < n ==> i in p)
  {
    SelectionSet(p, n);
    assert forall i :: i in p ==> i in Numbers(n);
    SubsetCard(Members(p), Numbers(n));
  }

  lemma {:induction false} Unselected(p: seq<nat>, n: nat) returns (i: nat)
    requires IsSelection(p, n) && |p| < n
    ensures i < n && i !in p
  {
    SelectionSet(p, n);
    if Numbers(n) <= Members(p) { SubsetCard(Numbers(n), Members(p)); }
    var j: nat :| j in Numbers(n) && j !in Members(p);
    i := j;
  }

  lemma {:induction false} Selected(p: seq<nat>, n: nat, i: nat)
    requires IsSelection(p, n) && i < n && i !in p
    ensures IsSelection(p + [i], n)
  {
    var q := p + [i];
    forall x, y | 0 <= x < y < |q| ensures q[x] != q[y] { assert q[x] in p; }
  }

  // Every selection starts some order.
  lemma {:induction false} Completed(p: seq<nat>, n: nat) returns (q: seq<nat>)
    requires IsSelection(p, n)
    ensures IsOrder(q, n) && |p| <= n && q[..|p|] == p
    decreases n - |p|
  {
    SelectionSize(p, n);
    q := p;
    if |p| < n {
      var i := Unselected(p, n);
      Selected(p, n, i);
      q := Completed(p + [i], n);
      assert q[..|p|] == q[..|p| + 1][..|p|];
    }
  }

  ghost function Whereabout(p: seq<nat>, n: nat, i: nat): (x: nat)
    requires IsOrder(p, n) && i < n
    ensures x < |p| && p[x] == i
  {
    SelectionSize(p, n);
    assert i in p;
    var x: nat :| x < |p| && p[x] == i; x
  }

  // Where each row went
  lemma {:induction false} Whereabouts(ss: seq<Sighting>, p: seq<nat>) returns (f: seq<nat>)
    requires IsOrder(p, |ss|)
    ensures Places(ss, Arranged(ss, p), f) && forall i :: 0 <= i < |ss| ==> p[f[i]] == i
  {
    SelectionSize(p, |ss|);
    f := seq(|ss|, i requires 0 <= i < |ss| => Whereabout(p, |ss|, i));
  }

  /******* Batches that are clean in every order *******/

  // The row has an identifier or carries a known company.
  predicate Grounded(c: Context, s: Sighting) { !(s.ids == [] && s.Seed(c) == "") }

  predicate AllGrounded(c: Context, ss: seq<Sighting>) {
    forall i :: 0 <= i < |ss| ==> Grounded(c, ss[i])
  }

  // Rows that share something with one row share something with each other.
  ghost predicate LinksClose(c: Context, ss: seq<Sighting>) {
    forall i, j, k ::
      0 <= i < |ss| && 0 <= j < |ss| && 0 <= k < |ss| && Linked(c, ss[i], ss[j]) && Linked(c, ss[i], ss[k]) ==>
        Linked(c, ss[j], ss[k])
  }

  // Rows that share something refer to the same known companies.
  ghost predicate CompaniesShared(c: Context, ss: seq<Sighting>) {
    forall i, j, x :: 0 <= i < |ss| && 0 <= j < |ss| && Linked(c, ss[i], ss[j]) && Tagged(c, ss[i], ByCompany(x)) ==>
      Tagged(c, ss[j], ByCompany(x))
  }

  ghost predicate OneCompanyARow(c: Context, ss: seq<Sighting>) {
    forall i, x, y :: 0 <= i < |ss| && Tagged(c, ss[i], ByCompany(x)) && Tagged(c, ss[i], ByCompany(y)) ==> x == y
  }

  ghost predicate CleanIn(c: Context, ss: seq<Sighting>, p: seq<nat>) {
    IsOrder(p, |ss|) && PlanFor(c, Arranged(ss, p)).Clean()
  }

  ghost predicate CleanInEveryOrder(c: Context, ss: seq<Sighting>) {
    forall p :: IsOrder(p, |ss|) ==> CleanIn(c, ss, p)
  }

  ghost predicate CleanInSomeOrder(c: Context, ss: seq<Sighting>) {
    exists p :: CleanIn(c, ss, p)
  }

  ghost predicate Orderless(c: Context, ss: seq<Sighting>) {
    AllGrounded(c, ss) && LinksClose(c, ss) && CompaniesShared(c, ss) && OneCompanyARow(c, ss)
  }

  // Two tags a row holds are joined by the earlier rows that hold them.
  lemma {:induction false} OrderlessJoined(c: Context, ss: seq<Sighting>, p: seq<nat>, x: nat, t: Tag, u: Tag)
    requires Orderless(c, ss) && IsOrder(p, |ss|) && x < |p|
    requires Held(c, Arranged(ss, p), x, t) && Held(c, Arranged(ss, p), x, u)
    ensures Joined(c, Arranged(ss, p), x, t, u)
  {
    hide Tagged;
    var tt := Arranged(ss, p);
    if t != u && (t.ById? || u.ById?) {
      var j: nat, k: nat;
      if t.ById? && u.ById? {
        j :| j < x && Tagged(c, tt[j], t);
        k :| k < x && Tagged(c, tt[k], u);
        assert Linked(c, ss[p[x]], ss[p[j]]) && Linked(c, ss[p[x]], ss[p[k]]);
      } else if t.ById? {
        j :| j < x && Tagged(c, tt[j], t);
        k := j;
        assert Linked(c, ss[p[x]], ss[p[j]]);
      } else {
        k :| k < x && Tagged(c, tt[k], u);
        j := k;
        assert Linked(c, ss[p[x]], ss[p[k]]);
      }
      assert Tagged(c, tt[j], t) && Tagged(c, tt[k], u);
      assert Connected(c, tt[..x], j, k) by {
        if j == k { ConnectedSelf(c, tt[..x], j); } else { LinkConnects(c, tt[..x], j, k); }
      }
    }
  }

  lemma {:induction false} LinkConnects(c: Context, ss: seq<Sighting>, i: nat, j: nat)
    requires i < |ss| && j < |ss| && Linked(c, ss[i], ss[j])
    ensures Connected(c, ss, i, j)
  {
    assert Joins(c, ss, [i, j], i, j);
  }

  lemma {:induction false} OrderlessIsClean(c: Context, ss: seq<Sighting>, p: seq<nat>)
    requires Valid(c) && Orderless(c, ss) && IsOrder(p, |ss|)
    ensures CleanIn(c, ss, p)
  {
    var tt := Arranged(ss, p);
    forall x: nat | x < |tt| ensures Passes(c, tt, x) {
      assert Grounded(c, ss[p[x]]);
      forall t, u | Held(c, tt, x, t) && Held(c, tt, x, u) ensures Joined(c, tt, x, t, u) {
        OrderlessJoined(c, ss, p, x, t, u);
      }
    }
    CleanIffNoBridge(c, tt);
  }

  // In a clean order that starts with rows i, j, ..., the n-th row bridges nothing.
  lemma {:induction false} StartsClean(c: Context, ss: seq<Sighting>, start: seq<nat>, n: nat)
      returns (tt: seq<Sighting>)
    requires Valid(c) && CleanInEveryOrder(c, ss) && IsSelection(start, |ss|) && n < |start|
    ensures |start| <= |tt| && (forall x :: 0 <= x < |start| ==> tt[x] == ss[start[x]]) && Passes(c, tt, n)
  {
    var p := Completed(start, |ss|);
    tt := Arranged(ss, p);
    assert CleanIn(c, ss, p);
    forall x | 0 <= x < |start| ensures tt[x] == ss[start[x]] { assert p[..|start|][x] == p[x]; }
    CleanIffNoBridge(c, tt);
  }

  lemma {:induction false} CleanGrounded(c: Context, ss: seq<Sighting>, i: nat)
    requires Valid(c) && CleanInEveryOrder(c, ss) && i < |ss|
    ensures Grounded(c, ss[i])
  {
    var tt := StartsClean(c, ss, [i], 0);
  }

  // Put first, a row of two companies bridges them.
  lemma {:induction false} CleanOneCompany(c: Context, ss: seq<Sighting>, i: nat, x: Key, y: Key)
    requires Valid(c) && CleanInEveryOrder(c, ss) && i < |ss|
    requires Tagged(c, ss[i], ByCompany(x)) && Tagged(c, ss[i], ByCompany(y))
    ensures x == y
  {
    hide Tagged;
    var tt := StartsClean(c, ss, [i], 0);
    assert tt[0] == ss[[i][0]];
    assert Held(c, tt, 0, ByCompany(x)) && Held(c, tt, 0, ByCompany(y));
  }

  // Put second, after a row it shares something with, a row bridges a company the first does not refer to.
  lemma {:induction false} CleanShared(c: Context, ss: seq<Sighting>, i: nat, j: nat, x: Key)
    requires Valid(c) && CleanInEveryOrder(c, ss) && i < |ss| && j < |ss|
    requires Linked(c, ss[i], ss[j]) && Tagged(c, ss[i], ByCompany(x))
    ensures Tagged(c, ss[j], ByCompany(x))
  {
    hide Tagged;
    if i != j {
      var t :| Tagged(c, ss[i], t) && Tagged(c, ss[j], t);
      var start := [j, i];
      var tt := StartsClean(c, ss, start, 1);
      assert tt[0] == ss[start[0]] && tt[1] == ss[start[1]];
      assert Held(c, tt, 1, t) && Held(c, tt, 1, ByCompany(x));
      assert Joined(c, tt, 1, t, ByCompany(x));
    }
  }

  // Rows of a batch of two are connected only if they share something.
  lemma {:induction false} TwoConnected(c: Context, ss: seq<Sighting>, p: seq<nat>)
    requires |ss| == 2 && IsPath(c, ss, p) && p[0] != p[|p| - 1]
    ensures Linked(c, ss[0], ss[1])
  {
    hide Tagged;
    var m := |p| - 1;
    assert p[0] < 2 && p[m] < 2;
    if p[m - 1] == p[m] {
      assert IsPath(c, ss, p[..m]);
      TwoConnected(c, ss, p[..m]);
    } else {
      assert Linked(c, ss[p[m - 1]], ss[p[m]]) && p[m - 1] < 2;
    }
  }

  // Put third, a row bridges two rows that share nothing.
  lemma {:induction false} CleanClose(c: Context, ss: seq<Sighting>, i: nat, j: nat, k: nat)
    requires Valid(c) && CleanInEveryOrder(c, ss) && i < |ss| && j < |ss| && k < |ss|
    requires Linked(c, ss[i], ss[j]) && Linked(c, ss[i], ss[k])
    ensures Linked(c, ss[j], ss[k])
  {
    hide Tagged;
    var t :| Tagged(c, ss[i], t) && Tagged(c, ss[j], t);
    var u :| Tagged(c, ss[i], u) && Tagged(c, ss[k], u);
    if i != j && i != k && j != k && t != u {
      var start := [j, k, i];
      var tt := StartsClean(c, ss, start, 2);
      assert tt[0] == ss[start[0]] && tt[1] == ss[start[1]] && tt[2] == ss[start[2]];
      assert Held(c, tt, 2, t) && Held(c, tt, 2, u);
      assert Joined(c, tt, 2, t, u);
      var x: nat, y: nat :| x < 2 && y < 2 && Tagged(c, tt[x], t) && Tagged(c, tt[y], u) && Connected(c, tt[..2], x, y);
      if x != y {
        var p :| Joins(c, tt[..2], p, x, y);
        TwoConnected(c, tt[..2], p);
      }
    }
  }

  // Main result: a batch is resolved in every order exactly when every row has ground, rows that share
  // something with one row share something with each other and refer to the same known companies, and
  // no row refers to two.
  lemma {:induction false} CleanInEveryOrderIff(c: Context, ss: seq<Sighting>)
    requires Valid(c)
    ensures CleanInEveryOrder(c, ss) <==> Orderless(c, ss)
  {
    if Orderless(c, ss) {
      forall p | IsOrder(p, |ss|) ensures CleanIn(c, ss, p) { OrderlessIsClean(c, ss, p); }
    }
    if CleanInEveryOrder(c, ss) {
      hide Tagged, Linked, Grounded, CleanInEveryOrder;
      forall i | 0 <= i < |ss| ensures Grounded(c, ss[i]) { CleanGrounded(c, ss, i); }
      forall i, x, y | 0 <= i < |ss| && Tagged(c, ss[i], ByCompany(x)) && Tagged(c, ss[i], ByCompany(y))
        ensures x == y
      {
        CleanOneCompany(c, ss, i, x, y);
      }
      forall i, j, x | 0 <= i < |ss| && 0 <= j < |ss| && Linked(c, ss[i], ss[j]) && Tagged(c, ss[i], ByCompany(x))
        ensures Tagged(c, ss[j], ByCompany(x))
      {
        CleanShared(c, ss, i, j, x);
      }
      forall i, j, k | 0 <= i < |ss| && 0 <= j < |ss| && 0 <= k < |ss| && Linked(c, ss[i], ss[j])
          && Linked(c, ss[i], ss[k])
        ensures Linked(c, ss[j], ss[k])
      {
        CleanClose(c, ss, i, j, k);
      }
    }
  }

  /******* Batches that are clean in some order *******/

  // No component of the batch refers to two known companies.
  ghost predicate OneAnchorEach(c: Context, ss: seq<Sighting>) {
    forall i: nat, x, y :: AnchoredBy(c, ss, i, x) && AnchoredBy(c, ss, i, y) ==> x == y
  }

  // A clean order gives both companies of a component to the same rows.
  lemma {:induction false} CleanHasOneAnchor(c: Context, ss: seq<Sighting>, p: seq<nat>, i: nat, x: Key, y: Key)
    requires Valid(c) && CleanIn(c, ss, p) && i < |ss| && AnchoredBy(c, ss, i, x) && AnchoredBy(c, ss, i, y)
    ensures x == y
  {
    var tt := Arranged(ss, p);
    var f := Whereabouts(ss, p);
    AnchorMoves(c, c, ss, tt, f, i, x);
    AnchorMoves(c, c, ss, tt, f, i, y);
    CleanKeys(c, tt);
    AnchorKey(c, tt, f[i], x);
    AnchorKey(c, tt, f[i], y);
  }

  lemma {:induction false} CleanHasGround(c: Context, ss: seq<Sighting>, p: seq<nat>, i: nat)
    requires Valid(c) && CleanIn(c, ss, p) && i < |ss|
    ensures Grounded(c, ss[i])
  {
    var f := Whereabouts(ss, p);
    CleanIffNoBridge(c, Arranged(ss, p));
    assert Passes(c, Arranged(ss, p), f[i]);
  }

  // Row x comes after a row it shares something with, or starts its component, and then with a row that
  // refers to a company if the component has one.
  ghost predicate Grows(c: Context, ss: seq<Sighting>, p: seq<nat>, x: nat)
    requires IsSelection(p, |ss|) && x < |p|
  {
    || (exists y: nat :: y < x && Linked(c, ss[p[y]], ss[p[x]]))
    || ((forall y: nat :: y < x ==> !Connected(c, ss, p[y], p[x]))
        && (Anchored(c, ss, p[x]) ==> exists k :: Tagged(c, ss[p[x]], ByCompany(k))))
  }

  ghost predicate Grown(c: Context, ss: seq<Sighting>, p: seq<nat>) {
    IsSelection(p, |ss|) && forall x: nat :: x < |p| ==> Grows(c, ss, p, x)
  }

  lemma {:induction false} GrowsLonger(c: Context, ss: seq<Sighting>, p: seq<nat>, q: seq<nat>, x: nat)
    requires IsSelection(p, |ss|) && IsSelection(q, |ss|) && x < |p| <= |q| && q[..|p|] == p && Grows(c, ss, p, x)
    ensures Grows(c, ss, q, x)
  {
    hide Linked, Connected, Anchored, Tagged;
    assert forall y :: 0 <= y < |p| ==> q[y] == q[..|p|][y];
  }

  // A path from a selected row to another leaves the selection over a link.
  lemma {:induction false} Crossing(c: Context, ss: seq<Sighting>, p: seq<nat>, path: seq<nat>) returns (i: nat, j: nat)
    requires IsPath(c, ss, path) && path[0] in p && path[|path| - 1] !in p
    ensures i in p && i < |ss| && j !in p && j < |ss| && Linked(c, ss[i], ss[j])
  {
    hide Linked;
    var m := |path| - 1;
    if path[m - 1] in p {
      i, j := path[m - 1], path[m];
    } else {
      assert IsPath(c, ss, path[..m]);
      i, j := Crossing(c, ss, p, path[..m]);
    }
  }

  // The row to take next
  lemma {:induction false} NextRow(c: Context, ss: seq<Sighting>, p: seq<nat>) returns (i: nat)
    requires Grown(c, ss, p) && |p| < |ss|
    ensures i < |ss| && i !in p && Grown(c, ss, p + [i])
  {
    hide Linked, Connected, Anchored, Tagged, AnchoredBy;
    if j: nat, y: nat :| j < |ss| && j !in p && y < |p| && Linked(c, ss[p[y]], ss[j]) {
      i := j;
      Selected(p, |ss|, i);
      assert Grows(c, ss, p + [i], |p|) by { assert (p + [i])[|p|] == i && (p + [i])[y] == p[y]; }
    } else {
      var j := Unselected(p, |ss|);
      i := Starter(c, ss, j);
      forall y: nat | y < |p| ensures !Connected(c, ss, p[y], i) && p[y] != i {
        if Connected(c, ss, p[y], i) || p[y] == i { var z, k := Leaving(c, ss, p, y, j, i); }
      }
      Selected(p, |ss|, i);
      assert Grows(c, ss, p + [i], |p|) by { assert forall y :: 0 <= y < |p| ==> (p + [i])[y] == p[y]; }
    }
    var q := p + [i];
    forall x: nat | x < |q| ensures Grows(c, ss, q, x) {
      if x < |p| { GrowsLonger(c, ss, p, q, x); }
    }
  }

  // A row of j's component that refers to a company if any of them does
  lemma {:induction false} Starter(c: Context, ss: seq<Sighting>, j: nat) returns (i: nat)
    requires j < |ss|
    ensures i < |ss| && Connected(c, ss, j, i)
    ensures Anchored(c, ss, i) ==> exists k :: Tagged(c, ss[i], ByCompany(k))
  {
    hide Connected, Tagged;
    if Anchored(c, ss, j) {
      var k :| AnchoredBy(c, ss, j, k);
      i :| i < |ss| && Connected(c, ss, j, i) && Tagged(c, ss[i], ByCompany(k));
    } else {
      i := j;
      ConnectedSelf(c, ss, j);
    }
  }

  // A component with a row inside the selection and one outside has a link that leaves it.
  lemma {:induction false} Leaving(c: Context, ss: seq<Sighting>, p: seq<nat>, y: nat, j: nat, i: nat)
      returns (z: nat, k: nat)
    requires IsSelection(p, |ss|) && y < |p| && j < |ss| && i < |ss| && j !in p && Connected(c, ss, j, i)
    requires Connected(c, ss, p[y], i) || p[y] == i
    ensures k < |ss| && k !in p && z < |p| && Linked(c, ss[p[z]], ss[k])
  {
    hide Linked;
    if p[y] == i { ConnectedSelf(c, ss, i); }
    ConnectedSym(c, ss, j, i);
    ConnectedTrans(c, ss, p[y], i, j);
    var path :| Joins(c, ss, path, p[y], j);
    var a, b := Crossing(c, ss, p, path);
    z :| z < |p| && p[z] == a;
    k := b;
  }

  lemma {:induction false} GrownOrder(c: Context, ss: seq<Sighting>, p: seq<nat>) returns (q: seq<nat>)
    requires Grown(c, ss, p)
    ensures Grown(c, ss, q) && IsOrder(q, |ss|)
    decreases |ss| - |p|
  {
    hide Grows;
    SelectionSize(p, |ss|);
    q := p;
    if |p| < |ss| {
      var i := NextRow(c, ss, p);
      q := GrownOrder(c, ss, p + [i]);
    }
  }

  // The rows a grown order has taken from one component are connected among themselves.
  lemma {:induction false} GrownConnected(c: Context, ss: seq<Sighting>, p: seq<nat>, n: nat, x: nat, y: nat)
    requires Grown(c, ss, p) && x <= y < n <= |p| && Connected(c, ss, p[x], p[y])
    ensures Connected(c, Arranged(ss, p)[..n], x, y) && Connected(c, Arranged(ss, p)[..n], y, x)
    decreases y
  {
    hide Linked, Connected, Tagged, Anchored;
    var tt := Arranged(ss, p);
    if x == y {
      ConnectedSelf(c, tt[..n], x);
    } else {
      assert Grows(c, ss, p, y);
      var z: nat :| z < y && Linked(c, ss[p[z]], ss[p[y]]);
      LinkConnects(c, ss, p[z], p[y]);
      LinkConnects(c, tt[..n], z, y);
      ConnectedSym(c, ss, p[z], p[y]);
      ConnectedTrans(c, ss, p[x], p[y], p[z]);
      ConnectedSym(c, ss, p[x], p[z]);
      if x <= z { GrownConnected(c, ss, p, n, x, z); } else { GrownConnected(c, ss, p, n, z, x); }
      ConnectedTrans(c, tt[..n], x, z, y);
      ConnectedSym(c, tt[..n], x, y);
    }
  }

  // The component of an anchored row was started by a row that refers to a company.
  lemma {:induction false} AnchorTaken(c: Context, ss: seq<Sighting>, p: seq<nat>, x: nat, k: Key) returns (s: nat)
    requires Grown(c, ss, p) && x < |p| && OneAnchorEach(c, ss) && AnchoredBy(c, ss, p[x], k)
    ensures s <= x && Connected(c, ss, p[s], p[x]) && Tagged(c, ss[p[s]], ByCompany(k))
    decreases x
  {
    hide Linked, Connected, Tagged;
    assert Grows(c, ss, p, x);
    if y: nat :| y < x && Linked(c, ss[p[y]], ss[p[x]]) {
      LinkConnects(c, ss, p[y], p[x]);
      AnchorAlong(c, ss, p[y], p[x], k);
      s := AnchorTaken(c, ss, p, y, k);
      ConnectedTrans(c, ss, p[s], p[y], p[x]);
    } else {
      s := x;
      ConnectedSelf(c, ss, p[x]);
      assert Anchored(c, ss, p[x]);
      var l :| Tagged(c, ss[p[x]], ByCompany(l));
      assert AnchoredBy(c, ss, p[x], l);
    }
  }

  // An earlier row that holds the tag, connected to row x
  lemma {:induction false} HolderBefore(c: Context, ss: seq<Sighting>, p: seq<nat>, x: nat, t: Tag, j: nat)
      returns (h: nat)
    requires Grown(c, ss, p) && x < |p| && OneAnchorEach(c, ss) && Held(c, Arranged(ss, p), x, t)
    requires j < x && Connected(c, ss, p[x], p[j])
    ensures h < x && Tagged(c, ss[p[h]], t) && Connected(c, ss, p[x], p[h])
  {
    hide Linked, Tagged, Connected;
    if t.ById? {
      h :| h < x && Tagged(c, Arranged(ss, p)[h], t);
      ConnectedLink(c, ss, p[x], p[h], t);
    } else {
      ConnectedSelf(c, ss, p[x]);
      assert AnchoredBy(c, ss, p[x], t.key);
      ConnectedSym(c, ss, p[x], p[j]);
      AnchorAlong(c, ss, p[j], p[x], t.key);
      h := AnchorTaken(c, ss, p, j, t.key);
      ConnectedSym(c, ss, p[h], p[j]);
      ConnectedTrans(c, ss, p[x], p[j], p[h]);
    }
  }

  lemma {:induction false} GrownJoined(c: Context, ss: seq<Sighting>, p: seq<nat>, x: nat, t: Tag, u: Tag)
    requires Grown(c, ss, p) && x < |p| && OneAnchorEach(c, ss)
    requires Held(c, Arranged(ss, p), x, t) && Held(c, Arranged(ss, p), x, u)
    ensures Joined(c, Arranged(ss, p), x, t, u)
  {
    hide Linked, Tagged, Connected;
    var tt := Arranged(ss, p);
    if t.ByCompany? && u.ByCompany? {
      ConnectedSelf(c, ss, p[x]);
      assert AnchoredBy(c, ss, p[x], t.key) && AnchoredBy(c, ss, p[x], u.key);
    } else if t != u {
      var v := if t.ById? then t else u;
      var h: nat :| h < x && Tagged(c, tt[h], v);
      ConnectedLink(c, ss, p[x], p[h], v);
      var j := HolderBefore(c, ss, p, x, t, h);
      var k := HolderBefore(c, ss, p, x, u, h);
      ConnectedSym(c, ss, p[x], p[j]);
      ConnectedTrans(c, ss, p[j], p[x], p[k]);
      ConnectedSym(c, ss, p[j], p[k]);
      if j <= k { GrownConnected(c, ss, p, x, j, k); } else { GrownConnected(c, ss, p, x, k, j); }
    }
  }

  lemma {:induction false} GrownIsClean(c: Context, ss: seq<Sighting>, p: seq<nat>)
    requires Valid(c) && AllGrounded(c, ss) && OneAnchorEach(c, ss) && Grown(c, ss, p) && IsOrder(p, |ss|)
    ensures CleanIn(c, ss, p)
  {
    hide Grown, OneAnchorEach;
    var tt := Arranged(ss, p);
    forall x: nat | x < |tt| ensures Passes(c, tt, x) {
      assert Grounded(c, ss[p[x]]);
      forall t, u | Held(c, tt, x, t) && Held(c, tt, x, u) ensures Joined(c, tt, x, t, u) {
        GrownJoined(c, ss, p, x, t, u);
      }
    }
    CleanIffNoBridge(c, tt);
  }

  // Main result: a batch is resolved in some order exactly when every row has ground and no component
  // refers to two known companies.
  lemma {:induction false} CleanInSomeOrderIff(c: Context, ss: seq<Sighting>)
    requires Valid(c)
    ensures CleanInSomeOrder(c, ss) <==> AllGrounded(c, ss) && OneAnchorEach(c, ss)
  {
    hide CleanIn, Grounded, Grown;
    if p :| CleanIn(c, ss, p) {
      forall i | 0 <= i < |ss| ensures Grounded(c, ss[i]) { CleanHasGround(c, ss, p, i); }
      forall i: nat, x, y | AnchoredBy(c, ss, i, x) && AnchoredBy(c, ss, i, y) ensures x == y {
        ConnectedInRange(c, ss, i, x);
        CleanHasOneAnchor(c, ss, p, i, x, y);
      }
    }
    if AllGrounded(c, ss) && OneAnchorEach(c, ss) {
      NothingTaken(c, ss);
      var p := GrownOrder(c, ss, []);
      GrownIsClean(c, ss, p);
    }
  }

  lemma {:induction false} NothingTaken(c: Context, ss: seq<Sighting>)
    ensures Grown(c, ss, [])
  {
  }

  lemma {:induction false} ConnectedInRange(c: Context, ss: seq<Sighting>, i: nat, x: Key)
    requires AnchoredBy(c, ss, i, x)
    ensures i < |ss|
  {
    var a: nat :| a < |ss| && Connected(c, ss, i, a);
    var p :| Joins(c, ss, p, i, a);
  }

  // Main result: two orders of a batch disagree, one resolved and one not, exactly when every row has
  // ground and no component refers to two companies, but some rows that share something with one row
  // share nothing with each other or not the same company.
  lemma {:induction false} OrderMattersIff(c: Context, ss: seq<Sighting>)
    requires Valid(c)
    ensures CleanInSomeOrder(c, ss) && !CleanInEveryOrder(c, ss)
            <==> AllGrounded(c, ss) && OneAnchorEach(c, ss) && !(LinksClose(c, ss) && CompaniesShared(c, ss))
  {
    CleanInEveryOrderIff(c, ss);
    CleanInSomeOrderIff(c, ss);
    if OneAnchorEach(c, ss) {
      forall i: nat, x, y | i < |ss| && Tagged(c, ss[i], ByCompany(x)) && Tagged(c, ss[i], ByCompany(y))
        ensures x == y
      {
        ConnectedSelf(c, ss, i);
        assert AnchoredBy(c, ss, i, x) && AnchoredBy(c, ss, i, y);
      }
    }
  }
}
