/** Values shared by every component: optional columns and the ORDER BY of a query. */
module Common {

  datatype Option<+T> = None | Some(value: T)

  /** A sort key of up to three columns, compared lexicographically. The last
      column is always a row id, so two rows never share a rank. */
  datatype Rank = Rank(first: int, second: int, third: int)

  predicate Before(x: Rank, y: Rank) {
    || x.first < y.first
    || (x.first == y.first && x.second < y.second)
    || (x.first == y.first && x.second == y.second && x.third < y.third)
  }

  ghost predicate DistinctRanks(ids: set<nat>, rank: map<nat, Rank>) {
    && ids <= rank.Keys
    && forall x, y :: x in ids && y in ids && x != y ==> rank[x] != rank[y]
  }

  predicate Leads(m: nat, ids: set<nat>, rank: map<nat, Rank>)
    requires ids <= rank.Keys
  {
    m in ids && forall x :: x in ids && x != m ==> Before(rank[m], rank[x])
  }

  lemma {:induction false} SomeoneLeads(ids: set<nat>, rank: map<nat, Rank>)
    requires DistinctRanks(ids, rank) && ids != {}
    ensures exists m :: m in ids && Leads(m, ids, rank)
    decreases ids
  {
    var y :| y in ids;
    var rest := ids - {y};
    assert ids == rest + {y};
    if rest == {} {
      assert Leads(y, ids, rank);
    } else {
      SomeoneLeads(rest, rank);
      var m :| m in rest && Leads(m, rest, rank);
      assert m in ids && y in ids;
      if Before(rank[y], rank[m]) {
        assert Leads(y, ids, rank);
      } else {
        assert Leads(m, ids, rank);
      }
    }
  }

  lemma LeaderIsUnique(m: nat, n: nat, ids: set<nat>, rank: map<nat, Rank>)
    requires ids <= rank.Keys && Leads(m, ids, rank) && Leads(n, ids, rank)
    ensures m == n
  {}

  predicate Sorted(s: seq<nat>, rank: map<nat, Rank>)
    requires forall x :: x in s ==> x in rank
  {
    forall i, j :: 0 <= i < j < |s| ==> Before(rank[s[i]], rank[s[j]])
  }

  /** `SELECT ... ORDER BY rank`: every id exactly once, in rank order. */
  function Ordered(ids: set<nat>, rank: map<nat, Rank>): (s: seq<nat>)
    requires DistinctRanks(ids, rank)
    ensures forall x :: x in s <==> x in ids
    ensures |s| == |ids|
    ensures Sorted(s, rank)
    decreases ids
  {
    if ids == {} then []
    else
      SomeoneLeads(ids, rank);
      var m :| m in ids && Leads(m, ids, rank);
      [m] + Ordered(ids - {m}, rank)
  }

  /** Rank order admits only one listing, so `Sorted` determines the query result. */
  lemma {:induction false} OrderedIsUnique(ids: set<nat>, rank: map<nat, Rank>, s: seq<nat>)
    requires DistinctRanks(ids, rank)
    requires forall x :: x in s <==> x in ids
    requires Sorted(s, rank)
    ensures s == Ordered(ids, rank)
    decreases ids
  {
    assert s != [] ==> s[0] in s;
    if ids == {} {
    } else {
      var t := Ordered(ids, rank);
      assert s != [] by { var x :| x in ids; assert x in s; }
      assert s[0] in ids && t[0] in ids;
      assert s[0] == t[0] by {
        var i :| 0 <= i < |s| && s[i] == t[0];
        var j :| 0 <= j < |t| && t[j] == s[0];
      }
      forall x ensures x in s[1..] <==> x in ids - {s[0]} {
        if x in ids - {s[0]} {
          var i :| 0 <= i < |s| && s[i] == x;
          assert s[1..][i - 1] == x;
        }
      }
      OrderedIsUnique(ids - {s[0]}, rank, s[1..]);
      assert Leads(s[0], ids, rank) by {
        forall x | x in ids && x != s[0] ensures Before(rank[s[0]], rank[x]) {
          var i :| 0 <= i < |s| && s[i] == x;
        }
      }
      assert s == [s[0]] + s[1..];
    }
  }

  /** `ORDER BY rank LIMIT 1`. */
  function Top(ids: set<nat>, rank: map<nat, Rank>): (m: Option<nat>)
    requires DistinctRanks(ids, rank)
    ensures m.None? <==> ids == {}
    ensures m.Some? ==> Leads(m.value, ids, rank)
  {
    if ids == {} then None
    else
      SomeoneLeads(ids, rank);
      var m :| m in ids && Leads(m, ids, rank);
      Some(m)
  }

  /** `LIMIT n` over an ordered listing. */
  function Limit(s: seq<nat>, n: nat): (r: seq<nat>)
    ensures r <= s && forall x :: x in r ==> x in s
  {
    if |s| <= n then s else s[..n]
  }

  /** A limited listing is the best prefix: it holds `n` ids when there are that
      many, and everything it leaves out ranks after everything it keeps. */
  lemma LimitKeepsTheBest(ids: set<nat>, rank: map<nat, Rank>, n: nat)
    requires DistinctRanks(ids, rank)
    ensures var r := Limit(Ordered(ids, rank), n);
      && |r| == (if |ids| <= n then |ids| else n)
      && (forall x :: x in r ==> x in ids)
      && (forall i, j :: 0 <= i < j < |r| ==> r[i] != r[j])
      && (forall x, y :: x in r && y in ids && y !in r ==> Before(rank[x], rank[y]))
  {
    var s := Ordered(ids, rank);
    var r := Limit(s, n);
    forall x, y | x in r && y in ids && y !in r ensures Before(rank[x], rank[y]) {
      var i :| 0 <= i < |r| && r[i] == x;
      var j :| 0 <= j < |s| && s[j] == y;
    }
  }
}
