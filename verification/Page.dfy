/** The page of pending rows a catch-up query returns: order=id.asc&limit=200 in `internal/supabase/commands.go`. */
module Page {
  import opened Common

  lemma HasElement(ids: set<int>)
    ensures ids == {} || exists x :: x in ids
  {
    if forall x :: x !in ids { assert ids == {}; }
  }

  lemma {:induction false} LeastExists(ids: set<int>)
    requires ids != {}
    ensures exists m :: m in ids && forall x :: x in ids ==> m <= x
  {
    HasElement(ids);
    var m: int :| m in ids;
    var rest := ids - {m};
    if rest != {} {
      LeastExists(rest);
      var r :| r in rest && forall x :: x in rest ==> r <= x;
      var least := if m < r then m else r;
      forall x | x in ids ensures least <= x {
        assert x == m || x in rest;
      }
      assert least in ids;
    } else {
      assert ids == {m};
    }
  }

  ghost function Least(ids: set<int>): (m: int)
    requires ids != {}
    ensures m in ids && forall x :: x in ids ==> m <= x
  {
    LeastExists(ids);
    var m :| m in ids && forall x :: x in ids ==> m <= x;
    m
  }

  function ToSet(s: seq<int>): set<int> { set x | x in s }

  predicate Ascending(s: seq<int>) { forall i, j :: 0 <= i < j < |s| ==> s[i] < s[j] }

  /** `page` is the `limit` lowest of `ids`, in ascending order. */
  predicate IsPage(ids: set<int>, limit: nat, page: seq<int>) {
    && |page| == Min(|ids|, limit)
    && Ascending(page)
    && (forall i :: 0 <= i < |page| ==> page[i] in ids)
    && (forall i, y :: 0 <= i < |page| && y in ids && y !in page ==> page[i] < y)
  }

  /** The rows the server returns: the `limit` lowest ids, ascending. */
  ghost function Lowest(ids: set<int>, limit: nat): (page: seq<int>)
    decreases limit
  {
    if ids == {} || limit == 0 then []
    else [Least(ids)] + Lowest(ids - {Least(ids)}, limit - 1)
  }

  lemma {:induction false} LowestIsPage(ids: set<int>, limit: nat)
    ensures IsPage(ids, limit, Lowest(ids, limit))
    ensures var page := Lowest(ids, limit);
            && |page| == Min(|ids|, limit)
            && (forall i, j :: 0 <= i < j < |page| ==> page[i] < page[j])
            && (forall x :: x in page ==> x in ids)
            && (forall x, y :: x in page && y in ids && y !in page ==> x < y)
    decreases limit
  {
    if ids != {} && limit > 0 {
      var m := Least(ids);
      var rest := Lowest(ids - {m}, limit - 1);
      LowestIsPage(ids - {m}, limit - 1);
      var page := [m] + rest;
      forall i, y | 0 <= i < |page| && y in ids && y !in page ensures page[i] < y {
        assert y != m by { assert page[0] == m; }
        assert page[1..] == rest && y !in page[1..];
      }
    }
  }

  lemma {:induction false} AscendingSize(s: seq<int>)
    requires Ascending(s)
    ensures |ToSet(s)| == |s|
  {
    if s != [] {
      var n := |s| - 1;
      AscendingSize(s[..n]);
      assert s[n] !in ToSet(s[..n]);
      assert ToSet(s) == ToSet(s[..n]) + {s[n]} by { assert s == s[..n] + [s[n]]; }
    }
  }

  /** A page that is not full holds every id. */
  lemma ShortPageIsAll(ids: set<int>, limit: nat)
    ensures |Lowest(ids, limit)| < limit ==> ToSet(Lowest(ids, limit)) == ids
    ensures ToSet(Lowest(ids, limit)) <= ids
  {
    var page := Lowest(ids, limit);
    LowestIsPage(ids, limit);
    AscendingSize(page);
    assert ToSet(page) <= ids;
    if |page| < limit { SubsetOfEqualSize(ToSet(page), ids); }
  }

  lemma SubsetOfEqualSize(a: set<int>, b: set<int>)
    requires a <= b && |a| == |b|
    ensures a == b
  {
    assert |b - a| == |b| - |a| by { assert b == a + (b - a); }
    assert b - a == {};
  }
}
