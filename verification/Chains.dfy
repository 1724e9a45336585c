/**
 Supersession chains. Jobs and batches both record, in each row, the row they supersede; the
 foreign key is a one-to-one field, so no row is named twice. `Links` is that column.
 */
module Chains {
  import opened Common

  type Links = map<Id, Option<Id>>

  /** The row reached from `i` by following `k` links. */
  function Back(l: Links, i: Id, k: nat): (r: Option<Id>)
    decreases k
  {
    if k == 0 then Some(i)
    else if i in l && l[i].Some? then Back(l, l[i].value, k - 1)
    else None
  }

  ghost predicate Descends(l: Links, i: Id, j: Id) {
    exists k: nat :: Back(l, i, k) == Some(j)
  }

  ghost predicate HasSuccessor(l: Links, i: Id) {
    exists j :: j in l && l[j] == Some(i)
  }

  /** At most one row names a given row: the one-to-one constraint. */
  ghost predicate OneToOne(l: Links) {
    forall i, j :: i in l && j in l && l[i].Some? && l[i] == l[j] ==> i == j
  }

  /** What every creation keeps: links lead to rows, and each row's links end at its root. */
  ghost predicate WellFormed(l: Links, root: map<Id, Id>) {
    && root.Keys == l.Keys
    && OneToOne(l)
    && (forall i :: i in l && l[i].Some? ==> l[i].value in l)
    && (forall i :: i in l ==> EndsAtRoot(l, root, i))
  }

  ghost predicate EndsAtRoot(l: Links, root: map<Id, Id>, i: Id) {
    i in root && root[i] in l && l[root[i]] == None && Descends(l, i, root[i])
  }

  lemma {:induction false} BackAdd(l: Links, i: Id, k: nat, j: Id, m: nat)
    requires Back(l, i, k) == Some(j)
    ensures Back(l, i, k + m) == Back(l, j, m)
    decreases k
  {
    if k > 0 { BackAdd(l, l[i].value, k - 1, j, m); }
  }

  /** The last link of a walk, read from its far end. */
  lemma {:induction false} BackLast(l: Links, i: Id, k: nat, j: Id) returns (x: Id)
    requires k > 0 && Back(l, i, k) == Some(j)
    ensures Back(l, i, k - 1) == Some(x) && x in l && l[x] == Some(j)
    decreases k
  {
    if k == 1 { x := i; } else { x := BackLast(l, l[i].value, k - 1, j); }
  }

  /** A walk that ends at a row with no link ends nowhere else. */
  lemma {:induction false} EndUnique(l: Links, i: Id, k: nat, r: Id, m: nat, s: Id)
    requires Back(l, i, k) == Some(r) && Back(l, i, m) == Some(s)
    requires r in l && l[r] == None && s in l && l[s] == None
    ensures r == s
    decreases k
  {
    if k > 0 && m > 0 { EndUnique(l, l[i].value, k - 1, r, m - 1, s); }
  }

  /** With one-to-one links, the longer of two walks to one row passes through the start of the shorter. */
  lemma {:induction false} Merge(l: Links, i: Id, a: nat, j: Id, b: nat, r: Id)
    requires OneToOne(l) && a <= b
    requires Back(l, i, a) == Some(r) && Back(l, j, b) == Some(r)
    ensures Back(l, j, b - a) == Some(i)
    decreases a
  {
    if a > 0 {
      var x := BackLast(l, i, a, r);
      var y := BackLast(l, j, b, r);
      assert x == y;
      Merge(l, i, a - 1, j, b - 1, x);
    }
  }

  /** Rows with one root form a single line: of any two, one leads back to the other. */
  lemma Linear(l: Links, root: map<Id, Id>, i: Id, j: Id)
    requires WellFormed(l, root) && i in l && j in l && root[i] == root[j]
    ensures Descends(l, i, j) || Descends(l, j, i)
  {
    var a: nat :| Back(l, i, a) == Some(root[i]);
    var b: nat :| Back(l, j, b) == Some(root[i]);
    if a <= b { Merge(l, i, a, j, b, root[i]); } else { Merge(l, j, b, i, a, root[i]); }
  }

  /** Rows on one line have one root, so the lines of different roots share no row. */
  lemma SameRoot(l: Links, root: map<Id, Id>, i: Id, j: Id)
    requires WellFormed(l, root) && i in l && j in l && Descends(l, i, j)
    ensures root[i] == root[j]
  {
    var k: nat :| Back(l, i, k) == Some(j);
    var m: nat :| Back(l, j, m) == Some(root[j]);
    BackAdd(l, i, k, j, m);
    var a: nat :| Back(l, i, a) == Some(root[i]);
    EndUnique(l, i, a, root[i], k + m, root[j]);
  }

  /** A line has at most one end that nothing supersedes. */
  lemma TailUnique(l: Links, root: map<Id, Id>, i: Id, j: Id)
    requires WellFormed(l, root) && i in l && j in l && root[i] == root[j]
    requires !HasSuccessor(l, i) && !HasSuccessor(l, j)
    ensures i == j
  {
    Linear(l, root, i, j);
    if Descends(l, i, j) {
      var k: nat :| Back(l, i, k) == Some(j);
      if k > 0 { var x := BackLast(l, i, k, j); }
    } else {
      var k: nat :| Back(l, j, k) == Some(i);
      if k > 0 { var x := BackLast(l, j, k, i); }
    }
  }

  lemma {:induction false} BackFrame(l: Links, l': Links, i: Id, k: nat)
    requires forall x :: x in l ==> x in l' && l'[x] == l[x]
    requires forall x :: x in l && l[x].Some? ==> l[x].value in l
    requires i in l
    ensures Back(l', i, k) == Back(l, i, k)
    decreases k
  {
    if k > 0 && l[i].Some? { BackFrame(l, l', l[i].value, k - 1); }
  }

  lemma ExtendSuccessor(l: Links, n: Id, p: Option<Id>, i: Id)
    requires n !in l
    ensures HasSuccessor(l[n := p], i) <==> HasSuccessor(l, i) || p == Some(i)
  {
    if HasSuccessor(l, i) {
      var j :| j in l && l[j] == Some(i);
      assert l[n := p][j] == Some(i);
    }
    if p == Some(i) { assert l[n := p][n] == Some(i); }
  }

  lemma ExtendOneToOne(l: Links, n: Id, p: Option<Id>)
    requires OneToOne(l) && n !in l
    requires p.Some? ==> !HasSuccessor(l, p.value)
    ensures OneToOne(l[n := p])
  {
  }

  lemma ExtendOld(l: Links, root: map<Id, Id>, n: Id, p: Option<Id>, i: Id)
    requires WellFormed(l, root) && n !in l && i in l
    ensures Descends(l[n := p], i, root[i])
  {
    assert EndsAtRoot(l, root, i);
    var k: nat :| Back(l, i, k) == Some(root[i]);
    BackFrame(l, l[n := p], i, k);
  }

  lemma ExtendNew(l: Links, n: Id, p: Option<Id>, r: Id)
    requires p.Some? && Descends(l[n := p], p.value, r)
    ensures Descends(l[n := p], n, r)
  {
    var k: nat :| Back(l[n := p], p.value, k) == Some(r);
    assert Back(l[n := p], n, k + 1) == Some(r);
  }

  lemma ExtendEnd(l: Links, root: map<Id, Id>, n: Id, p: Option<Id>, i: Id)
    requires WellFormed(l, root) && n !in l && (p.Some? ==> p.value in l)
    requires i in l || i == n
    ensures Descends(l[n := p], i, if i in l then root[i] else if p.Some? then root[p.value] else n)
  {
    if i in l {
      ExtendOld(l, root, n, p, i);
    } else if p.None? {
      assert Back(l[n := p], n, 0) == Some(n);
    } else {
      ExtendOld(l, root, n, p, p.value);
      ExtendNew(l, n, p, root[p.value]);
    }
  }

  /** Creating a row that starts a line, or that supersedes a row not superseded before, keeps `WellFormed`. */
  lemma Extend(l: Links, root: map<Id, Id>, n: Id, p: Option<Id>)
    requires WellFormed(l, root) && n !in l
    requires p.Some? ==> p.value in l && !HasSuccessor(l, p.value)
    ensures WellFormed(l[n := p], root[n := if p.Some? then root[p.value] else n])
  {
    var l' := l[n := p];
    var root' := root[n := if p.Some? then root[p.value] else n];
    ExtendOneToOne(l, n, p);
    forall i | i in l'
      ensures EndsAtRoot(l', root', i)
    {
      ExtendEnd(l, root, n, p, i);
    }
    assert root'.Keys == l'.Keys;
  }
}
