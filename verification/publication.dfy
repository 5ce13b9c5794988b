/** The published list: which hosts it shows, in what order, and its serialised form. */
module Publication {
  import opened Text
  import opened Payload

  datatype StatsResp = StatsResp(updated: nat, servers: seq<HostStat>)

  /** The text served to visitors: the initial `{}`, or some response serialised. */
  datatype PublicJson = EmptyObject | Serialised(resp: StatsResp)

  predicate ShouldPublish(stat: HostStat, deleted: set<string>) {
    !Blank(stat.name) && stat.name !in deleted
  }

  function Names(servers: seq<HostStat>): set<string> {
    set i | 0 <= i < |servers| :: servers[i].name
  }

  predicate DistinctNames(servers: seq<HostStat>) {
    forall i, j :: 0 <= i < j < |servers| ==> servers[i].name != servers[j].name
  }

  // ---------- the order of the list ----------

  /** Online before offline, then higher weight, then lower position, then alias. */
  predicate Leq(a: HostStat, b: HostStat) {
    if a.Online() != b.Online() then a.Online()
    else if a.weight != b.weight then a.weight > b.weight
    else if a.pos != b.pos then a.pos < b.pos
    else TextLeq(a.alias, b.alias)
  }

  /** The comparator is a total preorder, as `sort_by` requires. */
  lemma OrderIsTotalPreorder(a: HostStat, b: HostStat, c: HostStat)
    ensures Leq(a, b) || Leq(b, a)
    ensures Leq(a, b) && Leq(b, c) ==> Leq(a, c)
  {
    TextLeqTotal(a.alias, b.alias);
    if Leq(a, b) && Leq(b, c) && TextLeq(a.alias, b.alias) && TextLeq(b.alias, c.alias) {
      TextLeqTransitive(a.alias, b.alias, c.alias);
    }
  }

  predicate Sorted(servers: seq<HostStat>) {
    forall i, j :: 0 <= i < j < |servers| ==> Leq(servers[i], servers[j])
  }

  /** What a visitor sees of the order. */
  lemma SortedReadsAs(servers: seq<HostStat>, i: nat, j: nat)
    requires Sorted(servers) && i < j < |servers|
    ensures servers[j].Online() ==> servers[i].Online()
    ensures servers[i].Online() == servers[j].Online() ==> servers[i].weight >= servers[j].weight
    ensures servers[i].Online() == servers[j].Online() && servers[i].weight == servers[j].weight ==>
              servers[i].pos < servers[j].pos || (servers[i].pos == servers[j].pos && TextLeq(servers[i].alias, servers[j].alias))
  {
    assert Leq(servers[i], servers[j]);
  }

  function InsertSorted(x: HostStat, servers: seq<HostStat>): seq<HostStat> {
    if servers == [] || Leq(x, servers[0]) then [x] + servers
    else [servers[0]] + InsertSorted(x, servers[1..])
  }

  /** The stable sort. */
  function SortServers(servers: seq<HostStat>): seq<HostStat> {
    if servers == [] then [] else InsertSorted(servers[0], SortServers(servers[1..]))
  }

  lemma {:induction false} InsertKeepsSorted(x: HostStat, servers: seq<HostStat>)
    requires Sorted(servers)
    ensures Sorted(InsertSorted(x, servers))
    ensures multiset(InsertSorted(x, servers)) == multiset{x} + multiset(servers)
  {
    if servers == [] {
    } else if Leq(x, servers[0]) {
      forall j | 0 <= j < |servers|
        ensures Leq(x, servers[j])
      {
        OrderIsTotalPreorder(x, servers[0], servers[j]);
      }
    } else {
      InsertKeepsSorted(x, servers[1..]);
      OrderIsTotalPreorder(x, servers[0], x);
      assert servers == [servers[0]] + servers[1..];
      var tail := InsertSorted(x, servers[1..]);
      forall j | 0 <= j < |tail|
        ensures Leq(servers[0], tail[j])
      {
        assert tail[j] in multiset(tail);
        assert tail[j] == x || tail[j] in servers[1..];
      }
    }
  }

  lemma {:induction false} SortIsSorted(servers: seq<HostStat>)
    ensures Sorted(SortServers(servers)) && multiset(SortServers(servers)) == multiset(servers)
  {
    if servers != [] {
      SortIsSorted(servers[1..]);
      InsertKeepsSorted(servers[0], SortServers(servers[1..]));
      assert servers == [servers[0]] + servers[1..];
    }
  }

  /** The comparator tells them apart in neither direction. */
  predicate RanksSame(a: HostStat, b: HostStat) {
    Leq(a, b) && Leq(b, a)
  }

  /** The hosts of one rank, in the order in which they stand. */
  function Ranked(x: HostStat, servers: seq<HostStat>): seq<HostStat> {
    if servers == [] then []
    else (if RanksSame(x, servers[0]) then [servers[0]] else []) + Ranked(x, servers[1..])
  }

  lemma {:induction false} InsertKeepsRanked(x: HostStat, y: HostStat, servers: seq<HostStat>)
    ensures Ranked(x, InsertSorted(y, servers)) == Ranked(x, [y]) + Ranked(x, servers)
  {
    hide Leq;
    if servers == [] || Leq(y, servers[0]) {
      assert ([y] + servers)[1..] == servers;
    } else {
      var rest := InsertSorted(y, servers[1..]);
      InsertKeepsRanked(x, y, servers[1..]);
      assert ([servers[0]] + rest)[1..] == rest;
      if RanksSame(x, servers[0]) {
        OrderIsTotalPreorder(y, x, servers[0]);
      }
    }
  }

  /** Stability: hosts that the comparator does not tell apart keep the order in which they came. */
  lemma {:induction false} SortIsStable(x: HostStat, servers: seq<HostStat>)
    ensures Ranked(x, SortServers(servers)) == Ranked(x, servers)
  {
    hide Leq, RanksSame, InsertSorted;
    if servers != [] {
      SortIsStable(x, servers[1..]);
      InsertKeepsRanked(x, servers[0], SortServers(servers[1..]));
      assert [servers[0]][1..] == [];
    }
  }

  lemma SameElementsSameNames(a: seq<HostStat>, b: seq<HostStat>)
    requires multiset(a) == multiset(b)
    ensures Names(a) == Names(b) && |a| == |b|
  {
    forall n
      ensures n in Names(a) <==> n in Names(b)
    {
      if n in Names(a) {
        var i :| 0 <= i < |a| && a[i].name == n;
        assert a[i] in multiset(b);
      }
      if n in Names(b) {
        var i :| 0 <= i < |b| && b[i].name == n;
        assert b[i] in multiset(a);
      }
    }
    assert |multiset(a)| == |a| && |multiset(b)| == |b|;
  }

  /** Names are distinct exactly when there are as many as entries. */
  lemma {:induction false} DistinctByCount(servers: seq<HostStat>)
    ensures |Names(servers)| <= |servers|
    ensures DistinctNames(servers) <==> |Names(servers)| == |servers|
  {
    if servers != [] {
      var n := |servers| - 1;
      DistinctByCount(servers[..n]);
      NamesSnoc(servers[..n], servers[n]);
      assert servers == servers[..n] + [servers[n]];
      if servers[n].name in Names(servers[..n]) {
        assert Names(servers) == Names(servers[..n]);
        var i :| 0 <= i < n && servers[..n][i].name == servers[n].name;
        assert servers[i].name == servers[n].name;
      } else {
        assert |Names(servers)| == |Names(servers[..n])| + 1;
        if DistinctNames(servers[..n]) {
          forall i | 0 <= i < n
            ensures servers[i].name != servers[n].name
          {
            assert servers[..n][i].name in Names(servers[..n]);
          }
          assert forall i, j :: 0 <= i < j < n ==> servers[..n][i].name != servers[..n][j].name;
        }
      }
      if DistinctNames(servers) {
        assert forall i, j :: 0 <= i < j < n ==> servers[i].name != servers[j].name;
      }
    }
  }

  // ---------- listing a live map ----------

  /** An iteration order of the map: each key once. */
  predicate Iterates(order: seq<string>, m: map<string, HostStat>) {
    && (forall i, j :: 0 <= i < j < |order| ==> order[i] != order[j])
    && (forall k :: k in order ==> k in m) && (forall k :: k in m ==> k in order)
  }

  function Listing(m: map<string, HostStat>, order: seq<string>, deleted: set<string>): seq<HostStat>
    requires forall k :: k in order ==> k in m
  {
    if order == [] then []
    else
      var rest := Listing(m, order[..|order| - 1], deleted);
      var stat := m[order[|order| - 1]];
      if ShouldPublish(stat, deleted) then rest + [stat] else rest
  }

  predicate WellNamed(m: map<string, HostStat>) {
    forall k :: k in m ==> m[k].name == k && !Blank(k)
  }

  lemma NamesSnoc(servers: seq<HostStat>, x: HostStat)
    ensures Names(servers + [x]) == Names(servers) + {x.name}
    ensures DistinctNames(servers) && x.name !in Names(servers) ==> DistinctNames(servers + [x])
  {
    var all := servers + [x];
    assert all[|servers|] == x;
    assert forall i :: 0 <= i < |servers| ==> all[i] == servers[i] && servers[i].name in Names(servers);
  }

  lemma NamesOfNothing()
    ensures Names([]) == {} && DistinctNames([])
  {
  }

  lemma {:induction false} ListingNames(m: map<string, HostStat>, order: seq<string>, deleted: set<string>)
    requires WellNamed(m) && forall k :: k in order ==> k in m
    requires forall i, j :: 0 <= i < j < |order| ==> order[i] != order[j]
    ensures DistinctNames(Listing(m, order, deleted))
    ensures Names(Listing(m, order, deleted)) == (set k | k in order) - deleted
  {
    hide Names, DistinctNames, Blank;
    if order != [] {
      var n := |order| - 1;
      var rest, stat := Listing(m, order[..n], deleted), m[order[n]];
      ListingNames(m, order[..n], deleted);
      NamesSnoc(rest, stat);
      assert order == order[..n] + [order[n]] && order[n] !in order[..n];
      assert (set k | k in order) == (set k | k in order[..n]) + {order[n]};
      assert Listing(m, order, deleted) == if ShouldPublish(stat, deleted) then rest + [stat] else rest;
    } else {
      NamesOfNothing();
    }
  }

  /** A list of distinct names, in order. */
  predicate WellOrdered(servers: seq<HostStat>) {
    Sorted(servers) && DistinctNames(servers)
  }

  /** What a rebuild publishes: exactly the live hosts that are not deleted, each once, in order. */
  lemma PublishedListing(m: map<string, HostStat>, order: seq<string>, deleted: set<string>)
    requires WellNamed(m) && Iterates(order, m)
    ensures var servers := SortServers(Listing(m, order, deleted));
            WellOrdered(servers) && Names(servers) == m.Keys - deleted
            && multiset(servers) == multiset(Listing(m, order, deleted))
  {
    var listing := Listing(m, order, deleted);
    ListingNames(m, order, deleted);
    SortIsSorted(listing);
    SameElementsSameNames(SortServers(listing), listing);
    DistinctByCount(listing);
    DistinctByCount(SortServers(listing));
  }

  // ---------- purge's in-place retain ----------

  function Without(servers: seq<HostStat>, hosts: set<string>): seq<HostStat> {
    if servers == [] then []
    else
      var rest := Without(servers[..|servers| - 1], hosts);
      if servers[|servers| - 1].name in hosts then rest else rest + [servers[|servers| - 1]]
  }

  lemma {:induction false} WithoutNames(servers: seq<HostStat>, hosts: set<string>)
    ensures Names(Without(servers, hosts)) == Names(servers) - hosts
    ensures forall x :: x in Without(servers, hosts) ==> x in servers
  {
    if servers != [] {
      var n := |servers| - 1;
      var rest := Without(servers[..n], hosts);
      WithoutNames(servers[..n], hosts);
      NamesSnoc(servers[..n], servers[n]);
      assert servers == servers[..n] + [servers[n]];
      NamesSnoc(rest, servers[n]);
    }
  }

  /** Removing entries keeps the order and the distinctness. */
  lemma {:induction false} WithoutKeepsOrder(servers: seq<HostStat>, hosts: set<string>)
    requires WellOrdered(servers)
    ensures WellOrdered(Without(servers, hosts))
  {
    if servers != [] {
      var n := |servers| - 1;
      var rest := Without(servers[..n], hosts);
      WithoutKeepsOrder(servers[..n], hosts);
      WithoutNames(servers[..n], hosts);
      forall i | 0 <= i < |rest|
        ensures Leq(rest[i], servers[n]) && rest[i].name != servers[n].name
      {
        assert rest[i] in servers[..n];
        var j :| 0 <= j < n && servers[..n][j] == rest[i];
        assert servers[j] == rest[i];
      }
    }
  }
}
