/** What the gateway shows of everything that is shared: the first publications by identifier. */
module Catalogs {
  import opened Wire
  import opened GatewayState
  import opened GatewayLaws

  /** Nothing is shared twice. */
  predicate Distinct(list: seq<Publication>) {
    forall i, j :: 0 <= i < j < |list| ==> list[i].id != list[j].id
  }

  predicate Ascending(list: seq<Publication>) {
    forall i, j :: 0 <= i < j < |list| ==> Precedes(list[i].id, list[j].id)
  }

  function Insert(p: Publication, list: seq<Publication>): seq<Publication> {
    if list == [] || Precedes(p.id, list[0].id) then [p] + list else [list[0]] + Insert(p, list[1..])
  }

  function Sorted(catalog: seq<Publication>): seq<Publication> {
    if catalog == [] then [] else Insert(catalog[0], Sorted(catalog[1..]))
  }

  /** As many publications as there may be sources. */
  function Visible(catalog: seq<Publication>): seq<Publication> {
    var list := Sorted(catalog);
    if |list| <= MAX_SOURCES then list else list[..MAX_SOURCES]
  }

  lemma {:induction false} InsertPermutes(p: Publication, list: seq<Publication>)
    ensures multiset(Insert(p, list)) == multiset(list) + multiset{p}
  {
    if list != [] {
      assert list == [list[0]] + list[1..];
      if !Precedes(p.id, list[0].id) {
        InsertPermutes(p, list[1..]);
      }
    }
  }

  lemma {:induction false} SortedPermutes(catalog: seq<Publication>)
    ensures multiset(Sorted(catalog)) == multiset(catalog)
  {
    if catalog != [] {
      assert catalog == [catalog[0]] + catalog[1..];
      SortedPermutes(catalog[1..]);
      InsertPermutes(catalog[0], Sorted(catalog[1..]));
    }
  }

  lemma {:induction false} InsertAscends(p: Publication, list: seq<Publication>)
    requires Ascending(list)
    ensures Ascending(Insert(p, list))
  {
    if list == [] {
    } else if Precedes(p.id, list[0].id) {
      forall j | 0 <= j < |list| ensures Precedes(p.id, list[j].id) {
        if j > 0 {
          PrecedesTransitive(p.id, list[0].id, list[j].id);
        }
      }
    } else {
      PrecedesTotal(p.id, list[0].id);
      InsertAscends(p, list[1..]);
      var rest := Insert(p, list[1..]);
      InsertPermutes(p, list[1..]);
      forall j | 0 <= j < |rest| ensures Precedes(list[0].id, rest[j].id) {
        assert rest[j] in multiset(rest);
        assert rest[j] == p || rest[j] in list[1..];
      }
    }
  }

  lemma {:induction false} SortedAscends(catalog: seq<Publication>)
    ensures Ascending(Sorted(catalog))
  {
    if catalog != [] {
      SortedAscends(catalog[1..]);
      InsertAscends(catalog[0], Sorted(catalog[1..]));
    }
  }

  /** Sharing nothing twice does not depend on the order. */
  lemma {:induction false} DistinctInsert(p: Publication, list: seq<Publication>)
    requires Distinct(list) && forall q :: q in list ==> q.id != p.id
    ensures Distinct(Insert(p, list))
  {
    if list != [] && !Precedes(p.id, list[0].id) {
      DistinctInsert(p, list[1..]);
      var rest := Insert(p, list[1..]);
      InsertPermutes(p, list[1..]);
      forall j | 0 <= j < |rest| ensures list[0].id != rest[j].id {
        assert rest[j] in multiset(rest);
        assert rest[j] == p || rest[j] in list[1..];
      }
    }
  }

  lemma {:induction false} SortedDistinct(catalog: seq<Publication>)
    requires Distinct(catalog)
    ensures Distinct(Sorted(catalog))
  {
    if catalog != [] {
      SortedDistinct(catalog[1..]);
      SortedPermutes(catalog[1..]);
      forall q | q in Sorted(catalog[1..]) ensures q.id != catalog[0].id {
        assert q in multiset(catalog[1..]);
      }
      DistinctInsert(catalog[0], Sorted(catalog[1..]));
    }
  }

  /** In a list without doubles, everything is found under its identifier. */
  lemma {:induction false} FindsAll(list: seq<Publication>, i: nat)
    requires Distinct(list) && i < |list|
    ensures Find(list, list[i].id) == Some(list[i])
  {
    if list[|list| - 1].id != list[i].id {
      FindsAll(list[..|list| - 1], i);
    }
  }

  /** What is shown fits the gateway. */
  lemma VisibleFits(catalog: seq<Publication>)
    requires Distinct(catalog)
    ensures |Visible(catalog)| <= MAX_SOURCES && Distinct(Visible(catalog)) && Ascending(Visible(catalog))
    ensures forall i :: 0 <= i < |Visible(catalog)| ==>
                          Find(Visible(catalog), Visible(catalog)[i].id) == Some(Visible(catalog)[i])
  {
    SortedDistinct(catalog);
    SortedAscends(catalog);
    var list := Visible(catalog);
    forall i | 0 <= i < |list| ensures Find(list, list[i].id) == Some(list[i]) {
      FindsAll(list, i);
    }
  }

  /** The identifiers that come before one. */
  function Before(catalog: seq<Publication>, id: string): set<string> {
    set i | 0 <= i < |catalog| && catalog[i].id != id && Precedes(catalog[i].id, id) :: catalog[i].id
  }

  lemma {:induction false} PrecedesBoth(a: string, b: string)
    requires Precedes(a, b) && Precedes(b, a)
    ensures a == b
  {
    if a != "" {
      PrecedesBoth(a[1..], b[1..]);
      assert a == [a[0]] + a[1..] && b == [b[0]] + b[1..];
    }
  }

  lemma {:induction false} IdsCount(list: seq<Publication>)
    requires Distinct(list)
    ensures |IdsOf(list)| == |list|
  {
    if list != [] {
      var n := |list| - 1;
      IdsCount(list[..n]);
      assert IdsOf(list) == IdsOf(list[..n]) + {list[n].id};
      assert list[n].id !in IdsOf(list[..n]);
    } else {
      assert IdsOf(list) == {};
    }
  }

  /** In order, as many come before a publication as its place says. */
  lemma RankIs(list: seq<Publication>, k: nat)
    requires Distinct(list) && Ascending(list) && k < |list|
    ensures |Before(list, list[k].id)| == k
  {
    forall i | 0 <= i < |list| ensures list[i].id != list[k].id && Precedes(list[i].id, list[k].id) <==> i < k {
      if i > k && Precedes(list[i].id, list[k].id) {
        PrecedesBoth(list[i].id, list[k].id);
      }
    }
    assert Before(list, list[k].id) == IdsOf(list[..k]);
    IdsCount(list[..k]);
  }

  lemma BeforePermutes(a: seq<Publication>, b: seq<Publication>, id: string)
    requires multiset(a) == multiset(b)
    ensures Before(a, id) == Before(b, id)
  {
    forall x ensures x in Before(a, id) <==> x in Before(b, id) {
      BeforeHas(a, id, x);
      BeforeHas(b, id, x);
      assert forall p :: p in a <==> p in multiset(a);
      assert forall p :: p in b <==> p in multiset(b);
    }
  }

  lemma BeforeHas(a: seq<Publication>, id: string, x: string)
    ensures x in Before(a, id) <==> x != id && Precedes(x, id) && exists p :: p in a && p.id == x
  {
    if exists p :: p in a && p.id == x {
      var p :| p in a && p.id == x;
      var i :| 0 <= i < |a| && a[i] == p;
      assert a[i].id == x;
    }
  }

  /** A publication is shown if and only if fewer than eight others come before it. */
  lemma ShownIff(catalog: seq<Publication>, p: Publication)
    requires Distinct(catalog)
    ensures p in Visible(catalog) <==> p in catalog && |Before(catalog, p.id)| < MAX_SOURCES
  {
    var list := Sorted(catalog);
    SortedPermutes(catalog);
    SortedDistinct(catalog);
    SortedAscends(catalog);
    BeforePermutes(list, catalog, p.id);
    assert p in catalog <==> p in multiset(catalog);
    assert p in list <==> p in multiset(list);
    if p in list {
      var k :| 0 <= k < |list| && list[k] == p;
      RankIs(list, k);
      if p in Visible(catalog) {
        var i :| 0 <= i < |Visible(catalog)| && Visible(catalog)[i] == p;
        assert list[i].id == list[k].id;
      }
      if k < MAX_SOURCES {
        assert Visible(catalog)[k] == p;
      }
    }
  }

  /** An incarnation is missing from what is shown if and only if it is not shared, or eight others come
      before it. */
  lemma MissingIff(catalog: seq<Publication>, id: string, generation: string)
    requires Distinct(catalog)
    ensures Missing(Visible(catalog), id, generation) <==>
              forall p :: p in catalog && p.id == id && p.generation == generation ==>
                            |Before(catalog, id)| >= MAX_SOURCES
  {
    VisibleFits(catalog);
    var found := Find(Visible(catalog), id);
    if found.Some? {
      ShownIff(catalog, found.value);
    }
    forall p | p in catalog && p.id == id && p.generation == generation && |Before(catalog, id)| < MAX_SOURCES
      ensures !Missing(Visible(catalog), id, generation)
    {
      ShownIff(catalog, p);
      var i :| 0 <= i < |Visible(catalog)| && Visible(catalog)[i] == p;
    }
  }

  /** Nine publications, of one incarnation each. */
  function Nine(): seq<Publication> {
    seq(9, i requires 0 <= i < 9 => Publication([('a' as int + i) as char], "one", "shared"))
  }

  lemma NineAre()
    ensures Distinct(Nine()) && Ascending(Nine()) && Nine()[8] == Publication("i", "one", "shared")
  {
    forall i, j | 0 <= i < j < 9 ensures Precedes(Nine()[i].id, Nine()[j].id) {
      assert Nine()[i].id[0] < Nine()[j].id[0];
    }
  }

  /** Without the others, the last of nine is shown. With them, it is shared as before, and missing from what
      is shown, and whatever was on record of its failures is dropped. */
  lemma NinthIsForgotten(before: map<string, Record>, after: map<string, Record>)
    requires "i" in before && before["i"].generation == "one"
    ensures Nine()[8] == Publication("i", "one", "shared") && !Missing(Visible(Nine()[8..]), "i", "one")
    ensures Missing(Visible(Nine()), "i", "one")
    ensures Pruned(after, before, Visible(Nine()), {}) ==> "i" !in after
  {
    NineAre();
    RankIs(Nine(), 8);
    MissingIff(Nine(), "i", "one");
    var alone := Nine()[8..];
    assert alone == [Nine()[8]];
    RankIs(alone, 0);
    MissingIff(alone, "i", "one");
    assert alone[0] in alone;
    if Pruned(after, before, Visible(Nine()), {}) {
      assert PrunedAt(after, before, Visible(Nine()), {}, "i");
    }
  }
}
