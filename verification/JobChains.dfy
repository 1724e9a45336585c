/** The chain fields that `create_job_v6` and `create_job_old` give a job (scale/job/models.py). */
module JobChains {
  import opened Common
  import opened Chains

  /** The job directly superseded, and the first job of the chain; both are null for a chain's first job. */
  datatype Row = Row(superseded: Option<Id>, root: Option<Id>)

  type Table = map<Id, Row>

  function RootOf(t: Table, id: Id): (r: Id)
    requires id in t
  {
    if t[id].root.Some? then t[id].root.value else id
  }

  function NewRow(t: Table, superseded: Option<Id>): (r: Row)
    requires superseded.Some? ==> superseded.value in t
  {
    if superseded.None? then Row(None, None) else Row(superseded, Some(RootOf(t, superseded.value)))
  }

  datatype Creation = Creation(id: Id, superseded: Option<Id>)

  /** The database accepts a new key, a superseded job that exists, and one that no other job supersedes. */
  predicate Accepted(t: Table, c: Creation) {
    && c.id !in t
    && (c.superseded.Some? ==>
          && c.superseded.value in t
          && forall i :: i in t ==> t[i].superseded != c.superseded)
  }

  function Apply(t: Table, c: Creation): (t': Table) {
    if Accepted(t, c) then t[c.id := NewRow(t, c.superseded)] else t
  }

  function Run(t: Table, cs: seq<Creation>): (t': Table)
    decreases |cs|
  {
    if cs == [] then t else Run(Apply(t, cs[0]), cs[1..])
  }

  function LinksOf(t: Table): (l: Links) { map i | i in t :: t[i].superseded }

  function RootsOf(t: Table): (r: map<Id, Id>) { map i | i in t :: RootOf(t, i) }

  ghost predicate Inv(t: Table) {
    WellFormed(LinksOf(t), RootsOf(t)) && forall i :: i in t ==> (t[i].root.None? <==> t[i].superseded.None?)
  }

  lemma CreateMaps(t: Table, c: Creation)
    requires Accepted(t, c)
    ensures LinksOf(Apply(t, c)) == LinksOf(t)[c.id := c.superseded]
    ensures RootsOf(Apply(t, c)) ==
            RootsOf(t)[c.id := if c.superseded.Some? then RootsOf(t)[c.superseded.value] else c.id]
  {
  }

  /** A job whose key is new and that supersedes nothing, or an existing job that no other supersedes, gets its row. */
  lemma CreateAdds(t: Table, c: Creation, other: Id)
    requires c.id !in t
    requires c.superseded.Some? ==> c.superseded.value in t && forall i :: i in t ==> t[i].superseded != c.superseded
    ensures var t' := Apply(t, c);
            && t'.Keys == t.Keys + {c.id} && (other in t ==> t'[other] == t[other])
            && (c.superseded.None? ==> t'[c.id] == Row(None, None))
            && (c.superseded.Some? ==>
                  var first := c.superseded.value;
                  t'[c.id] == Row(Some(first), Some(if t[first].root.Some? then t[first].root.value else first)))
  {
  }

  lemma FreeForSuccessor(t: Table, c: Creation)
    requires Accepted(t, c) && c.superseded.Some?
    ensures !HasSuccessor(LinksOf(t), c.superseded.value)
  {
  }

  lemma CreateLinks(t: Table, c: Creation)
    requires WellFormed(LinksOf(t), RootsOf(t)) && Accepted(t, c)
    ensures WellFormed(LinksOf(Apply(t, c)), RootsOf(Apply(t, c)))
  {
    CreateMaps(t, c);
    if c.superseded.Some? { FreeForSuccessor(t, c); }
    Extend(LinksOf(t), RootsOf(t), c.id, c.superseded);
  }

  lemma CreateKeeps(t: Table, c: Creation)
    requires Inv(t)
    ensures Inv(Apply(t, c))
  {
    if Accepted(t, c) { CreateLinks(t, c); }
  }

  lemma {:induction false} RunKeeps(t: Table, cs: seq<Creation>)
    requires Inv(t)
    ensures Inv(Run(t, cs))
    decreases |cs|
  {
    if cs != [] {
      CreateKeeps(t, cs[0]);
      RunKeeps(Apply(t, cs[0]), cs[1..]);
    }
  }

  /** After any run of creations, following `superseded_job` from any job ends, at the job its row names as root. */
  lemma WalkEndsAtRoot(cs: seq<Creation>, i: Id)
    requires i in Run(map[], cs)
    ensures var t := Run(map[], cs); var r := RootOf(t, i);
            && r in t && t[r] == Row(None, None)
            && exists k: nat :: Back(LinksOf(t), i, k) == Some(r)
  {
    RunKeeps(map[], cs);
    var t := Run(map[], cs);
    assert RootsOf(t)[i] == RootOf(t, i);
    assert Descends(LinksOf(t), i, RootsOf(t)[i]) && LinksOf(t)[RootsOf(t)[i]] == None;
  }

  /** Two jobs name one root exactly when they are on one line: chains are linear and different roots' chains are disjoint. */
  lemma OneLinePerRoot(cs: seq<Creation>, i: Id, j: Id)
    requires i in Run(map[], cs) && j in Run(map[], cs)
    ensures var t := Run(map[], cs); var l := LinksOf(t);
            RootOf(t, i) == RootOf(t, j) <==> Descends(l, i, j) || Descends(l, j, i)
  {
    RunKeeps(map[], cs);
    var t := Run(map[], cs);
    var l, root := LinksOf(t), RootsOf(t);
    if root[i] == root[j] { Linear(l, root, i, j); }
    if Descends(l, i, j) { SameRoot(l, root, i, j); }
    if Descends(l, j, i) { SameRoot(l, root, j, i); }
  }
}
