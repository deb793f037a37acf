/** The public information portal: the five most congested junctions (a
    stable sort of a copy of the catalog, highest level first, then a
    prefix), the alerts fit for the public, and the badges beside them. */
module PublicView {
  import opened Wrappers
  import opened Sequences
  import opened Text
  import opened Styles
  import opened MockData
  import AlertsPanel
  import AqiWidget

  // ---------------------------------------------------------------------
  // topCongested

  /** `s` lists junctions from the most to the least congested. */
  predicate SortedDesc(s: seq<Junction>)
  {
    forall i, k :: 0 <= i < k < |s| ==> s[i].congestionLevel >= s[k].congestionLevel
  }

  /** Selects the junctions at congestion level `k`. */
  function AtLevel(k: int): Junction -> bool
  {
    (j: Junction) => j.congestionLevel == k
  }

  /** Places `x` before the first junction that is not more congested than
      it. Every junction already placed came later in the catalog than `x`,
      so `x` goes before its ties, as a stable sort keeps them. */
  function InsertByCongestion(x: Junction, s: seq<Junction>): (r: seq<Junction>)
    ensures |r| == |s| + 1
  {
    if s == [] || x.congestionLevel >= s[0].congestionLevel then [x] + s
    else [s[0]] + InsertByCongestion(x, s[1..])
  }

  /** `[...js].sort((a, b) => b.congestionLevel - a.congestionLevel)`: the
      comparator is negative when `a` is more congested, and
      `Array.prototype.sort` is stable, so ties keep catalog order. The
      sort works on a copy; the catalog itself is a value here and is never
      changed. */
  function SortByCongestion(s: seq<Junction>): (r: seq<Junction>)
    ensures |r| == |s|
  {
    if s == [] then [] else InsertByCongestion(s[0], SortByCongestion(s[1..]))
  }


  /** `topCongested`: the first five of the sorted copy (`slice(0, 5)`). */
  function TopCongested(js: seq<Junction>): seq<Junction>
  {
    SortByCongestion(js)[..Min(5, |js|)]
  }

  /** Inserting adds exactly `x`. */
  lemma {:induction false} InsertPermutes(x: Junction, s: seq<Junction>)
    ensures multiset(InsertByCongestion(x, s)) == multiset{x} + multiset(s)
  {
    if s != [] && x.congestionLevel < s[0].congestionLevel {
      InsertPermutes(x, s[1..]);
      assert s == [s[0]] + s[1..];
    }
  }

  /** Sorting neither loses nor duplicates a junction. */
  lemma {:induction false} SortPermutes(s: seq<Junction>)
    ensures multiset(SortByCongestion(s)) == multiset(s)
  {
    if s != [] {
      SortPermutes(s[1..]);
      InsertPermutes(s[0], SortByCongestion(s[1..]));
      assert s == [s[0]] + s[1..];
    }
  }

  /** Inserting into a sorted list keeps it sorted; the new head is `x` or
      the old head. */
  lemma {:induction false} InsertSorted(x: Junction, s: seq<Junction>)
    requires SortedDesc(s)
    ensures SortedDesc(InsertByCongestion(x, s))
    ensures InsertByCongestion(x, s)[0] == x || (s != [] && InsertByCongestion(x, s)[0] == s[0])
  {
    if s != [] && x.congestionLevel < s[0].congestionLevel {
      var t := InsertByCongestion(x, s[1..]);
      InsertSorted(x, s[1..]);
      assert t[0].congestionLevel <= s[0].congestionLevel;
      forall i, k | 0 <= i < k < |[s[0]] + t|
        ensures ([s[0]] + t)[i].congestionLevel >= ([s[0]] + t)[k].congestionLevel
      {
        if i == 0 {
          assert t[0].congestionLevel >= t[k - 1].congestionLevel || k == 1;
        }
      }
    }
  }

  /** The sorted copy lists the junctions from most to least congested. */
  lemma {:induction false} SortSorted(s: seq<Junction>)
    ensures SortedDesc(SortByCongestion(s))
  {
    if s != [] {
      SortSorted(s[1..]);
      InsertSorted(s[0], SortByCongestion(s[1..]));
    }
  }

  /** Inserting `x` keeps the relative order of the junctions at any one
      level, with `x` first among its ties. */
  lemma {:induction false} InsertStable(x: Junction, s: seq<Junction>, k: int)
    ensures Filter(AtLevel(k), InsertByCongestion(x, s)) == Filter(AtLevel(k), [x] + s)
  {
    if s != [] && x.congestionLevel < s[0].congestionLevel {
      var p := AtLevel(k);
      InsertStable(x, s[1..], k);
      FilterConcat(p, [s[0]], InsertByCongestion(x, s[1..]));
      FilterConcat(p, [x], s[1..]);
      FilterConcat(p, [x], s);
      FilterConcat(p, [s[0]], s[1..]);
      assert [s[0]] + s[1..] == s;
    }
  }

  /** The sort is stable: at every congestion level, the junctions appear
      in the sorted copy in catalog order. */
  lemma {:induction false} SortStable(s: seq<Junction>, k: int)
    ensures Filter(AtLevel(k), SortByCongestion(s)) == Filter(AtLevel(k), s)
  {
    if s != [] {
      SortStable(s[1..], k);
      InsertStable(s[0], SortByCongestion(s[1..]), k);
      FilterConcat(AtLevel(k), [s[0]], SortByCongestion(s[1..]));
      FilterConcat(AtLevel(k), [s[0]], s[1..]);
      assert [s[0]] + s[1..] == s;
    }
  }

  /** A junction put in front keeps the ids distinct exactly when its id is
      new. */
  lemma DistinctCons(y: Junction, t: seq<Junction>)
    ensures DistinctIds([y] + t) <==> DistinctIds(t) && forall i :: 0 <= i < |t| ==> t[i].id != y.id
  {
    if DistinctIds([y] + t) {
      forall i, k | 0 <= i < k < |t| ensures t[i].id != t[k].id {
        assert ([y] + t)[i + 1] == t[i] && ([y] + t)[k + 1] == t[k];
      }
      forall i | 0 <= i < |t| ensures t[i].id != y.id {
        assert ([y] + t)[0] == y && ([y] + t)[i + 1] == t[i];
      }
    }
  }

  /** Inserting and sorting neither add nor drop a junction value. */
  lemma SortMembers(x: Junction, s: seq<Junction>)
    ensures forall y :: y in InsertByCongestion(x, s) <==> y == x || y in s
    ensures forall y :: y in SortByCongestion(s) <==> y in s
  {
    InsertPermutes(x, s);
    SortPermutes(s);
    forall y ensures y in InsertByCongestion(x, s) <==> y == x || y in s {
      assert y in InsertByCongestion(x, s) <==> y in multiset(InsertByCongestion(x, s));
      assert y in s <==> y in multiset(s);
    }
    forall y ensures y in SortByCongestion(s) <==> y in s {
      assert y in SortByCongestion(s) <==> y in multiset(SortByCongestion(s));
      assert y in s <==> y in multiset(s);
    }
  }

  /** Inserting into a list with distinct ids a junction whose id is new
      keeps the ids distinct. */
  lemma {:induction false} InsertDistinct(x: Junction, s: seq<Junction>)
    requires DistinctIds([x] + s)
    ensures DistinctIds(InsertByCongestion(x, s))
  {
    if s != [] && x.congestionLevel < s[0].congestionLevel {
      DistinctCons(x, s);
      DistinctCons(s[0], s[1..]);
      assert [s[0]] + s[1..] == s;
      forall i | 0 <= i < |s[1..]| ensures s[1..][i].id != x.id {
        assert s[1..][i] == s[i + 1];
      }
      DistinctCons(x, s[1..]);
      InsertDistinct(x, s[1..]);
      var t := InsertByCongestion(x, s[1..]);
      SortMembers(x, s[1..]);
      forall i | 0 <= i < |t| ensures t[i].id != s[0].id {
        assert t[i] in t;
      }
      DistinctCons(s[0], t);
    }
  }

  /** Sorting a catalog with distinct ids keeps them distinct. */
  lemma {:induction false} SortDistinct(s: seq<Junction>)
    requires DistinctIds(s)
    ensures DistinctIds(SortByCongestion(s))
  {
    if s != [] {
      DistinctCons(s[0], s[1..]);
      assert [s[0]] + s[1..] == s;
      SortDistinct(s[1..]);
      var t := SortByCongestion(s[1..]);
      SortMembers(s[0], s[1..]);
      forall i | 0 <= i < |t| ensures t[i].id != s[0].id {
        assert t[i] in t;
      }
      DistinctCons(s[0], t);
      InsertDistinct(s[0], t);
    }
  }

  /** `topCongested` holds min(5, n) junctions, most congested first, each
      taken from the catalog and none twice as often as it occurs there. */
  lemma TopCongestedShape(js: seq<Junction>)
    ensures |TopCongested(js)| == Min(5, |js|)
    ensures SortedDesc(TopCongested(js))
    ensures multiset(TopCongested(js)) <= multiset(js)
  {
    var sorted := SortByCongestion(js);
    var r := TopCongested(js);
    assert sorted == r + sorted[|r|..];
    SortPermutes(js);
    SortSorted(js);
  }

  /** Every junction left out of `topCongested` is no more congested than
      the last one kept. */
  lemma TopCongestedLeftOut(js: seq<Junction>)
    ensures var r := TopCongested(js);
      |r| > 0 ==> forall x :: x in multiset(js) - multiset(r) ==>
        x.congestionLevel <= r[|r| - 1].congestionLevel
  {
    var sorted := SortByCongestion(js);
    var r := TopCongested(js);
    var rest := sorted[|r|..];
    assert sorted == r + rest;
    SortPermutes(js);
    SortSorted(js);
    assert multiset(js) == multiset(r) + multiset(rest);
    if |r| > 0 {
      forall x | x in multiset(js) - multiset(r)
        ensures x.congestionLevel <= r[|r| - 1].congestionLevel
      {
        assert x in multiset(rest);
        var m :| 0 <= m < |rest| && rest[m] == x;
        assert sorted[|r| + m] == x && sorted[|r| - 1] == r[|r| - 1];
      }
    }
  }

  /** Ties keep catalog order: at every level the junctions kept are the
      first ones of that level in the catalog, in order; and distinct
      catalog ids stay distinct. */
  lemma TopCongestedStable(js: seq<Junction>)
    ensures forall k :: Filter(AtLevel(k), TopCongested(js)) <= Filter(AtLevel(k), js)
    ensures DistinctIds(js) ==> DistinctIds(TopCongested(js))
  {
    var sorted := SortByCongestion(js);
    var r := TopCongested(js);
    var rest := sorted[|r|..];
    assert sorted == r + rest;
    forall k ensures Filter(AtLevel(k), r) <= Filter(AtLevel(k), js) {
      SortStable(js, k);
      FilterConcat(AtLevel(k), r, rest);
    }
    if DistinctIds(js) {
      SortDistinct(js);
    }
  }

  // The catalog evaluated one insertion at a time, from the last junction
  // to the first, keeping only the first five of each partial result.

  lemma SortStep(s: seq<Junction>, i: nat)
    requires i < |s|
    ensures SortByCongestion(s[i..]) == InsertByCongestion(s[i], SortByCongestion(s[i + 1..]))
  {
    assert s[i..][1..] == s[i + 1..];
  }

  /** `x` lands at position `n` when the first `n` junctions are strictly
      more congested and the next one is not. */
  lemma {:induction false} InsertAfter(x: Junction, s: seq<Junction>, n: nat)
    requires n <= |s|
    requires forall i :: 0 <= i < n ==> x.congestionLevel < s[i].congestionLevel
    requires n == |s| || x.congestionLevel >= s[n].congestionLevel
    ensures InsertByCongestion(x, s) == s[..n] + [x] + s[n..]
  {
    if n == 0 {
      assert s[..0] + [x] + s[0..] == [x] + s;
    } else {
      InsertAfter(x, s[1..], n - 1);
      assert s[1..][..n - 1] == s[1..n];
      assert s[1..][n - 1..] == s[n..];
      assert [s[0]] + s[1..n] == s[..n];
    }
  }

  /** The first `n` places after an insertion depend only on the first `n`
      junctions of the list. */
  lemma {:induction false} InsertPrefix(x: Junction, s: seq<Junction>, n: nat)
    requires n <= |s|
    ensures InsertByCongestion(x, s)[..n] == InsertByCongestion(x, s[..n])[..n]
  {
    if s == [] || x.congestionLevel >= s[0].congestionLevel {
    } else if n == 0 {
    } else {
      InsertPrefix(x, s[1..], n - 1);
      assert s[..n][1..] == s[1..][..n - 1];
    }
  }

  /** The congestion levels of the junction catalog, in catalog order. */
  predicate CatalogLevels(js: seq<Junction>)
  {
    && |js| == 18
    && js[0].congestionLevel == 92 && js[1].congestionLevel == 88 && js[2].congestionLevel == 65
    && js[3].congestionLevel == 72 && js[4].congestionLevel == 85 && js[5].congestionLevel == 58
    && js[6].congestionLevel == 62 && js[7].congestionLevel == 78 && js[8].congestionLevel == 55
    && js[9].congestionLevel == 68 && js[10].congestionLevel == 35 && js[11].congestionLevel == 42
    && js[12].congestionLevel == 52 && js[13].congestionLevel == 82 && js[14].congestionLevel == 60
    && js[15].congestionLevel == 58 && js[16].congestionLevel == 38 && js[17].congestionLevel == 32
  }

  lemma CatalogTop0(js: seq<Junction>)
    requires CatalogLevels(js)
    ensures |SortByCongestion(js[0..])| == 18
    ensures SortByCongestion(js[0..])[..5] == [js[0], js[1], js[4], js[13], js[7]]
  {
    CatalogTop1(js);
    SortStep(js, 0);
    InsertPrefix(js[0], SortByCongestion(js[1..]), 5);
    InsertAfter(js[0], SortByCongestion(js[1..])[..5], 0);
  }

  lemma CatalogTop1(js: seq<Junction>)
    requires CatalogLevels(js)
    ensures |SortByCongestion(js[1..])| == 17
    ensures SortByCongestion(js[1..])[..5] == [js[1], js[4], js[13], js[7], js[3]]
  {
    CatalogTop2(js);
    SortStep(js, 1);
    InsertPrefix(js[1], SortByCongestion(js[2..]), 5);
    InsertAfter(js[1], SortByCongestion(js[2..])[..5], 0);
  }

  lemma CatalogTop2(js: seq<Junction>)
    requires CatalogLevels(js)
    ensures |SortByCongestion(js[2..])| == 16
    ensures SortByCongestion(js[2..])[..5] == [js[4], js[13], js[7], js[3], js[9]]
  {
    CatalogTop3(js);
    SortStep(js, 2);
    InsertPrefix(js[2], SortByCongestion(js[3..]), 5);
    InsertAfter(js[2], SortByCongestion(js[3..])[..5], 5);
  }

  lemma CatalogTop3(js: seq<Junction>)
    requires CatalogLevels(js)
    ensures |SortByCongestion(js[3..])| == 15
    ensures SortByCongestion(js[3..])[..5] == [js[4], js[13], js[7], js[3], js[9]]
  {
    CatalogTop4(js);
    SortStep(js, 3);
    InsertPrefix(js[3], SortByCongestion(js[4..]), 5);
    InsertAfter(js[3], SortByCongestion(js[4..])[..5], 3);
  }

  lemma CatalogTop4(js: seq<Junction>)
    requires CatalogLevels(js)
    ensures |SortByCongestion(js[4..])| == 14
    ensures SortByCongestion(js[4..])[..5] == [js[4], js[13], js[7], js[9], js[6]]
  {
    CatalogTop5(js);
    SortStep(js, 4);
    InsertPrefix(js[4], SortByCongestion(js[5..]), 5);
    InsertAfter(js[4], SortByCongestion(js[5..])[..5], 0);
  }

  lemma CatalogTop5(js: seq<Junction>)
    requires CatalogLevels(js)
    ensures |SortByCongestion(js[5..])| == 13
    ensures SortByCongestion(js[5..])[..5] == [js[13], js[7], js[9], js[6], js[14]]
  {
    CatalogTop6(js);
    SortStep(js, 5);
    InsertPrefix(js[5], SortByCongestion(js[6..]), 5);
    InsertAfter(js[5], SortByCongestion(js[6..])[..5], 5);
  }

  lemma CatalogTop6(js: seq<Junction>)
    requires CatalogLevels(js)
    ensures |SortByCongestion(js[6..])| == 12
    ensures SortByCongestion(js[6..])[..5] == [js[13], js[7], js[9], js[6], js[14]]
  {
    CatalogTop7(js);
    SortStep(js, 6);
    InsertPrefix(js[6], SortByCongestion(js[7..]), 5);
    InsertAfter(js[6], SortByCongestion(js[7..])[..5], 3);
  }

  lemma CatalogTop7(js: seq<Junction>)
    requires CatalogLevels(js)
    ensures |SortByCongestion(js[7..])| == 11
    ensures SortByCongestion(js[7..])[..5] == [js[13], js[7], js[9], js[14], js[15]]
  {
    CatalogTop8(js);
    SortStep(js, 7);
    InsertPrefix(js[7], SortByCongestion(js[8..]), 5);
    InsertAfter(js[7], SortByCongestion(js[8..])[..5], 1);
  }

  lemma CatalogTop8(js: seq<Junction>)
    requires CatalogLevels(js)
    ensures |SortByCongestion(js[8..])| == 10
    ensures SortByCongestion(js[8..])[..5] == [js[13], js[9], js[14], js[15], js[8]]
  {
    CatalogTop9(js);
    SortStep(js, 8);
    InsertPrefix(js[8], SortByCongestion(js[9..]), 5);
    InsertAfter(js[8], SortByCongestion(js[9..])[..5], 4);
  }

  lemma CatalogTop9(js: seq<Junction>)
    requires CatalogLevels(js)
    ensures |SortByCongestion(js[9..])| == 9
    ensures SortByCongestion(js[9..])[..5] == [js[13], js[9], js[14], js[15], js[12]]
  {
    CatalogTop10(js);
    SortStep(js, 9);
    InsertPrefix(js[9], SortByCongestion(js[10..]), 5);
    InsertAfter(js[9], SortByCongestion(js[10..])[..5], 1);
  }

  lemma CatalogTop10(js: seq<Junction>)
    requires CatalogLevels(js)
    ensures |SortByCongestion(js[10..])| == 8
    ensures SortByCongestion(js[10..])[..5] == [js[13], js[14], js[15], js[12], js[11]]
  {
    CatalogTop11(js);
    SortStep(js, 10);
    InsertPrefix(js[10], SortByCongestion(js[11..]), 5);
    InsertAfter(js[10], SortByCongestion(js[11..])[..5], 5);
  }

  lemma CatalogTop11(js: seq<Junction>)
    requires CatalogLevels(js)
    ensures |SortByCongestion(js[11..])| == 7
    ensures SortByCongestion(js[11..])[..5] == [js[13], js[14], js[15], js[12], js[11]]
  {
    CatalogTop12(js);
    SortStep(js, 11);
    InsertPrefix(js[11], SortByCongestion(js[12..]), 5);
    InsertAfter(js[11], SortByCongestion(js[12..])[..5], 4);
  }

  lemma CatalogTop12(js: seq<Junction>)
    requires CatalogLevels(js)
    ensures |SortByCongestion(js[12..])| == 6
    ensures SortByCongestion(js[12..])[..5] == [js[13], js[14], js[15], js[12], js[16]]
  {
    CatalogTop13(js);
    SortStep(js, 12);
    InsertPrefix(js[12], SortByCongestion(js[13..]), 5);
    InsertAfter(js[12], SortByCongestion(js[13..])[..5], 3);
  }

  lemma CatalogTop13(js: seq<Junction>)
    requires CatalogLevels(js)
    ensures |SortByCongestion(js[13..])| == 5
    ensures SortByCongestion(js[13..])[..5] == [js[13], js[14], js[15], js[16], js[17]]
  {
    CatalogTop14(js);
    SortStep(js, 13);
    InsertPrefix(js[13], SortByCongestion(js[14..]), 4);
    InsertAfter(js[13], SortByCongestion(js[14..])[..4], 0);
  }

  lemma CatalogTop14(js: seq<Junction>)
    requires CatalogLevels(js)
    ensures |SortByCongestion(js[14..])| == 4
    ensures SortByCongestion(js[14..])[..4] == [js[14], js[15], js[16], js[17]]
  {
    CatalogTop15(js);
    SortStep(js, 14);
    InsertPrefix(js[14], SortByCongestion(js[15..]), 3);
    InsertAfter(js[14], SortByCongestion(js[15..])[..3], 0);
  }

  lemma CatalogTop15(js: seq<Junction>)
    requires CatalogLevels(js)
    ensures |SortByCongestion(js[15..])| == 3
    ensures SortByCongestion(js[15..])[..3] == [js[15], js[16], js[17]]
  {
    CatalogTop16(js);
    SortStep(js, 15);
    InsertPrefix(js[15], SortByCongestion(js[16..]), 2);
    InsertAfter(js[15], SortByCongestion(js[16..])[..2], 0);
  }

  lemma CatalogTop16(js: seq<Junction>)
    requires CatalogLevels(js)
    ensures |SortByCongestion(js[16..])| == 2
    ensures SortByCongestion(js[16..])[..2] == [js[16], js[17]]
  {
    CatalogTop17(js);
    SortStep(js, 16);
    InsertPrefix(js[16], SortByCongestion(js[17..]), 1);
    InsertAfter(js[16], SortByCongestion(js[17..])[..1], 0);
  }

  lemma CatalogTop17(js: seq<Junction>)
    requires CatalogLevels(js)
    ensures |SortByCongestion(js[17..])| == 1
    ensures SortByCongestion(js[17..])[..1] == [js[17]]
  {
    assert js[17..] == [js[17]];
  }

  lemma CatalogTopCongestedAt(js: seq<Junction>)
    requires CatalogLevels(js)
    ensures TopCongested(js) == [js[0], js[1], js[4], js[13], js[7]]
  {
    CatalogTop0(js);
    assert js[0..] == js;
  }

  lemma CatalogHasLevels()
    ensures CatalogLevels(Junctions)
  {
  }

  /** The catalog entries that head the hotspot list: Swargate Bus Stand
      (92), Hinjewadi IT Park (88), Katraj Chowk (85), Neelayam Chowk (82)
      and Sinhagad Road Chowk (78). */
  lemma HotspotEntries()
    ensures Junctions[0].id == "j1" && Junctions[0].congestionLevel == 92
    ensures Junctions[1].id == "j2" && Junctions[1].congestionLevel == 88
    ensures Junctions[4].id == "j5" && Junctions[4].congestionLevel == 85
    ensures Junctions[13].id == "j14" && Junctions[13].congestionLevel == 82
    ensures Junctions[7].id == "j8" && Junctions[7].congestionLevel == 78
  {
  }

  /** On the catalog the hotspots are junctions j1, j2, j5, j14 and j8, in
      that order. */
  lemma CatalogTopCongested()
    ensures TopCongested(Junctions) == [Junctions[0], Junctions[1], Junctions[4], Junctions[13], Junctions[7]]
  {
    CatalogHasLevels();
    CatalogTopCongestedAt(Junctions);
  }

  // ---------------------------------------------------------------------
  // publicAlerts

  /** An alert type the public portal shows. */
  predicate IsPublicKind(a: Alert)
  {
    a.kind == Accident || a.kind == Congestion || a.kind == Event
  }

  predicate IsPublicAlert(a: Alert)
  {
    a.isActive && IsPublicKind(a)
  }

  /** `publicAlerts`. */
  function PublicAlerts(alerts: seq<Alert>): seq<Alert>
  {
    Filter(IsPublicAlert, alerts)
  }

  /** The public alerts are the active accident, congestion and event
      alerts in catalog order: the active list (as the dashboard panel
      computes it) narrowed to those three types. Air quality, emergency,
      rash-driving and stolen-vehicle alerts never appear. */
  lemma PublicAlertsExact(alerts: seq<Alert>)
    ensures forall x :: x in PublicAlerts(alerts) <==> x in alerts && x.isActive && IsPublicKind(x)
    ensures forall x :: x in PublicAlerts(alerts) ==> x.kind !in {Aqi, Emergency, RashDriving, StolenVehicle}
    ensures IsSubsequence(PublicAlerts(alerts), alerts)
    ensures PublicAlerts(alerts) == Filter(IsPublicKind, AlertsPanel.ActiveAlerts(alerts))
  {
    forall x ensures x in PublicAlerts(alerts) <==> x in alerts && x.isActive && IsPublicKind(x) {
      FilterMembership(IsPublicAlert, alerts, x);
    }
    FilterIsSubsequence(IsPublicAlert, alerts);
    FilterOfFilter(AlertsPanel.IsActive, IsPublicKind, IsPublicAlert, alerts);
  }

  /** On the catalog the public alerts are a1, a2, a5 and a8, and the
      count tile shows 4. */
  lemma CatalogPublicAlerts(loadMs: int)
    ensures var a := Alerts(loadMs);
      PublicAlerts(a) == [a[0], a[1], a[4], a[7]]
    ensures |PublicAlerts(Alerts(loadMs))| == 4
  {
    AlertKinds(loadMs);
    CatalogPublic(Alerts(loadMs));
  }

  /** Among active alerts typed accident, congestion, aqi, emergency, event,
      rash driving, stolen vehicle and congestion, the public ones are the
      first, second, fifth and eighth. */
  lemma CatalogPublic(a: seq<Alert>)
    requires |a| == 8 && forall i :: 0 <= i < 8 ==> a[i].isActive
    requires a[0].kind == Accident && a[1].kind == Congestion && a[2].kind == Aqi
    requires a[3].kind == Emergency && a[4].kind == Event && a[5].kind == RashDriving
    requires a[6].kind == StolenVehicle && a[7].kind == Congestion
    ensures PublicAlerts(a) == [a[0], a[1], a[4], a[7]]
  {
    var p := IsPublicAlert;
    assert a[7..][1..] == [];
    assert Filter(p, a[7..]) == [a[7]];
    assert a[6..][1..] == a[7..];
    assert Filter(p, a[6..]) == Filter(p, a[7..]);
    assert a[5..][1..] == a[6..];
    assert Filter(p, a[5..]) == Filter(p, a[6..]);
    assert a[4..][1..] == a[5..];
    assert Filter(p, a[4..]) == [a[4]] + Filter(p, a[5..]);
    assert a[3..][1..] == a[4..];
    assert Filter(p, a[3..]) == Filter(p, a[4..]);
    assert a[2..][1..] == a[3..];
    assert Filter(p, a[2..]) == Filter(p, a[3..]);
    assert a[1..][1..] == a[2..];
    assert Filter(p, a[1..]) == [a[1]] + Filter(p, a[2..]);
    assert Filter(p, a) == [a[0]] + Filter(p, a[1..]);
  }

  /** A public alert card is red for high and critical alerts and amber
      otherwise. */
  function AlertCardTone(a: Alert): Tone
  {
    if a.severity == High || a.severity == Critical then Destructive else Warning
  }

  /** The portal's card is red exactly when the dashboard panel draws the
      alert's icon in the destructive colour. */
  lemma AlertCardToneAgrees(a: Alert)
    ensures AlertCardTone(a) == Destructive <==> AlertsPanel.IconSwatch(a.severity).tone == Destructive
    ensures AlertCardTone(a) == Warning <==> AlertsPanel.SeverityRank(a.severity) <= 1
  {
  }

  // ---------------------------------------------------------------------
  // Hotspot badges

  /** The congestion badge: above 80 destructive, above 60 warning, else
      success. */
  function HotspotTone(level: int): Tone
  {
    if level > 80 then Destructive else if level > 60 then Warning else Success
  }

  /** The badge splits the levels at 61 and 81: at most 60 is success,
      61..80 warning, above 80 destructive, and a busier junction never
      gets a calmer badge. */
  lemma HotspotTonePartition(level: int, other: int)
    ensures HotspotTone(level) == LevelTone(level, 61, 81)
    ensures HotspotTone(level) == Success <==> level <= 60
    ensures HotspotTone(level) == Warning <==> 61 <= level <= 80
    ensures HotspotTone(level) == Destructive <==> level > 80
    ensures level <= other ==> Heat(HotspotTone(level)) <= Heat(HotspotTone(other))
  {
    if level <= other {
      LevelToneMonotone(level, other, 61, 81);
    }
  }

  /** The classes of the rank circle at position `index`: `cn` keeps each
      class whose condition holds. */
  function RankTones(index: nat): seq<Swatch>
  {
    (if index == 0 then [Swatch(Destructive, true)] else [])
    + (if index == 1 then [Swatch(Warning, true)] else [])
    + (if index >= 2 then [Swatch(Muted, true)] else [])
  }

  /** The number in the rank circle. */
  function RankText(index: nat): string
  {
    ShowNat(index + 1)
  }

  /** Exactly one class applies at every position: red for the first,
      amber for the second, muted for the rest; the circle reads back as
      the 1-based rank. */
  lemma RankBadge(index: nat)
    ensures |RankTones(index)| == 1
    ensures RankTones(index)[0].tone == Destructive <==> index == 0
    ensures RankTones(index)[0].tone == Warning <==> index == 1
    ensures RankTones(index)[0].tone == Muted <==> index >= 2
    ensures AllDigits(RankText(index)) && DigitsValue(RankText(index)) == index + 1
  {
    ShowNatRoundTrip(index + 1);
  }

  // ---------------------------------------------------------------------
  // The AQI tile

  /** The tile's colour (`aqiColor`), a chain on the stored status. */
  function PortalAqiTone(status: AqiStatus): Tone
  {
    if status == Good then Success
    else if status == Moderate then Warning
    else if status == Unhealthy then Orange
    else Destructive
  }

  /** The tile's caption: `getAQILabel` of the stored status. */
  function PortalAqiCaption(d: AqiData): string
  {
    GetAqiLabel(AqiStatusKey(d.status))
  }

  /** The portal colours and labels the index exactly as the dashboard
      card does; on the catalog it shows "Moderate" in amber. */
  lemma PortalAqiTile(d: AqiData, loadMs: int)
    ensures PortalAqiTone(d.status) == AqiWidget.AqiTextTone(d.status)
    ensures PortalAqiCaption(d) == AqiWidget.AqiCaption(d)
    ensures PortalAqiCaption(AqiReading(loadMs)) == "Moderate"
    ensures PortalAqiTone(AqiReading(loadMs).status) == Warning
  {
  }
}
