/** The "recent communications" panel of each company: the five latest entries, newest first. */
module Panels {
  import opened Domain

  const PanelSize := 5

  /** One entry of the panel. `id` is None for an entry the client added locally without a server id. */
  datatype Recent = Recent(id: Option<Id>, communicationDate: int, channel: string, notes: string)

  function ToRecent(c: Comm): Recent
  {
    Recent(Some(c.id), c.communicationDate, c.communicationType, c.notes)
  }

  function Recents(comms: seq<Comm>): (r: seq<Recent>)
    ensures |r| == |comms| && forall i :: 0 <= i < |comms| ==> r[i] == ToRecent(comms[i])
  {
    seq(|comms|, i requires 0 <= i < |comms| => ToRecent(comms[i]))
  }

  ghost predicate SortedDesc(s: seq<Recent>)
  {
    forall i, j :: 0 <= i < j < |s| ==> s[i].communicationDate >= s[j].communicationDate
  }

  /** Places `x` before the first entry that is not newer than it (so ties keep `x` first). */
  function Insert(x: Recent, s: seq<Recent>): (r: seq<Recent>)
    requires SortedDesc(s)
    ensures SortedDesc(r)
    ensures multiset(r) == multiset(s) + multiset{x}
    ensures |r| == |s| + 1
  {
    if s == [] || x.communicationDate >= s[0].communicationDate then [x] + s
    else
      var rest := Insert(x, s[1..]);
      NoNewerThan(rest, s[1..], x, s[0].communicationDate);
      assert s == [s[0]] + s[1..];
      [s[0]] + rest
  }

  /** Entries drawn from a list and one more entry, all no newer than `bound`, are no newer than it. */
  lemma NoNewerThan(r: seq<Recent>, from: seq<Recent>, x: Recent, bound: int)
    requires multiset(r) == multiset(from) + multiset{x}
    requires forall j :: 0 <= j < |from| ==> from[j].communicationDate <= bound
    requires x.communicationDate <= bound
    ensures forall j :: 0 <= j < |r| ==> r[j].communicationDate <= bound
  {
    forall j | 0 <= j < |r| ensures r[j].communicationDate <= bound {
      assert r[j] in multiset(r);
      if r[j] != x {
        assert r[j] in multiset(from);
        var k :| 0 <= k < |from| && from[k] == r[j];
      }
    }
  }

  /** A sort on communicationDate, newest first (the comparator `b - a` of the source). */
  function SortDesc(s: seq<Recent>): (r: seq<Recent>)
    ensures SortedDesc(r)
    ensures multiset(r) == multiset(s)
    ensures |r| == |s|
  {
    if s == [] then []
    else
      assert s == [s[0]] + s[1..];
      Insert(s[0], SortDesc(s[1..]))
  }

  /** `.sort(newest first).slice(0, 5)`. */
  function TopFive(s: seq<Recent>): (r: seq<Recent>)
    ensures |r| <= PanelSize && |r| <= |s|
  {
    var sorted := SortDesc(s);
    if |sorted| <= PanelSize then sorted else sorted[..PanelSize]
  }

  /** The panel built from a company's populated log at load time. */
  function LastFive(comms: seq<Comm>): seq<Recent>
  {
    TopFive(Recents(comms))
  }

  /** A prefix of a newest-first list is newest first, and no entry after it is newer than one in it. */
  lemma SortedPrefix(sorted: seq<Recent>, k: nat)
    requires SortedDesc(sorted) && k <= |sorted|
    ensures SortedDesc(sorted[..k])
    ensures multiset(sorted) - multiset(sorted[..k]) == multiset(sorted[k..])
    ensures forall x, y :: x in sorted[..k] && y in multiset(sorted[k..]) ==> y.communicationDate <= x.communicationDate
  {
    assert sorted == sorted[..k] + sorted[k..];
    assert multiset(sorted) == multiset(sorted[..k]) + multiset(sorted[k..]);
    forall x, y | x in sorted[..k] && y in multiset(sorted[k..])
      ensures y.communicationDate <= x.communicationDate
    {
      var i :| 0 <= i < k && sorted[i] == x;
      var j :| 0 <= j < |sorted[k..]| && sorted[k..][j] == y;
      assert sorted[k + j] == y;
    }
  }

  /** The panel holds min(5, n) of the given entries, newest first, and every entry left out is
      no newer than any entry shown. */
  lemma TopFiveSpec(s: seq<Recent>)
    ensures |TopFive(s)| == if |s| <= PanelSize then |s| else PanelSize
    ensures SortedDesc(TopFive(s))
    ensures multiset(TopFive(s)) <= multiset(s)
    ensures forall x, y :: x in TopFive(s) && y in multiset(s) - multiset(TopFive(s)) ==>
      y.communicationDate <= x.communicationDate
  {
    var sorted := SortDesc(s);
    var k := if |sorted| <= PanelSize then |sorted| else PanelSize;
    assert TopFive(s) == sorted[..k];
    SortedPrefix(sorted, k);
  }

  /** The panel of a company's log has at most five entries, newest first, all from the log. */
  lemma LastFiveSpec(comms: seq<Comm>)
    ensures |LastFive(comms)| <= PanelSize
    ensures SortedDesc(LastFive(comms))
    ensures forall r :: r in LastFive(comms) ==> exists c :: c in comms && r == ToRecent(c)
  {
    TopFiveSpec(Recents(comms));
    forall r | r in LastFive(comms) ensures exists c :: c in comms && r == ToRecent(c) {
      assert r in multiset(Recents(comms));
      var i :| 0 <= i < |comms| && Recents(comms)[i] == r;
      assert comms[i] in comms;
    }
  }
}
