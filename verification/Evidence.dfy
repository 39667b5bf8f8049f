/** Observations and the admission test on their provenance (`EvidenceAdmission.provenance_valid`
    in `gym/core.py`). */
module Evidence {
  import opened Json

  datatype Observation = Observation(
    observationId: string,
    sourceLineageRoot: string,
    checkId: string,
    probeId: string,
    attemptId: int,
    sequenceIndex: int,
    logicalTick: int,
    observationType: string,
    status: string,
    value: Json,
    cost: real,
    rawPayloadRef: Option<string>)

  function ToDict(o: Observation): Json {
    Obj(map[
      Key.ObservationId := Str(o.observationId), Key.SourceLineageRoot := Str(o.sourceLineageRoot),
      Key.CheckId := Str(o.checkId), Key.ProbeId := Str(o.probeId), Key.AttemptId := Int(o.attemptId),
      Key.SequenceIndex := Int(o.sequenceIndex), Key.LogicalTick := Int(o.logicalTick),
      Key.ObservationType := Str(o.observationType), Key.Status := Str(o.status), Key.Value := o.value,
      Key.Cost := Real(o.cost), Key.RawPayloadRef := OptionalStr(o.rawPayloadRef)])
  }

  function ToDicts(items: seq<Observation>): seq<Json> {
    seq(|items|, i requires 0 <= i < |items| => ToDict(items[i]))
  }

  lemma ToDictsAppend(a: seq<Observation>, b: seq<Observation>)
    ensures ToDicts(a + b) == ToDicts(a) + ToDicts(b)
  {
  }

  // ----- What admissible provenance is -----

  /** Two observations of one check come from one source and probe, in attempt order. */
  predicate Consistent(earlier: Observation, later: Observation) {
    earlier.checkId == later.checkId ==>
      && earlier.sourceLineageRoot == later.sourceLineageRoot
      && earlier.probeId == later.probeId
      && earlier.attemptId < later.attemptId
  }

  predicate Identified(o: Observation) {
    o.sourceLineageRoot != "" && o.checkId != "" && o.probeId != "" && o.cost >= 0.0
  }

  ghost predicate Admissible(items: seq<Observation>) {
    && (forall i :: 0 <= i < |items| ==> items[i].sequenceIndex == i && Identified(items[i]))
    && (forall i, j :: 0 <= i < j < |items| ==>
          && items[i].observationId != items[j].observationId
          && items[i].logicalTick < items[j].logicalTick
          && Consistent(items[i], items[j]))
  }

  // ----- The test -----

  ghost predicate Distinct<T>(s: seq<T>) {
    forall i, j :: 0 <= i < j < |s| ==> s[i] != s[j]
  }

  lemma {:induction false} DistinctByCount<T>(s: seq<T>)
    ensures |set x | x in s| <= |s|
    ensures |set x | x in s| == |s| <==> Distinct(s)
  {
    if s != [] {
      var n := |s| - 1;
      var init, last := s[..n], s[n];
      DistinctByCount(init);
      assert (set x | x in s) == (set x | x in init) + {last};
      if last in init {
        var k :| 0 <= k < n && init[k] == last;
        assert s[k] == s[n];
        assert (set x | x in s) == (set x | x in init);
      } else if Distinct(init) {
        assert Distinct(s);
      } else {
        var i, j :| 0 <= i < j < n && init[i] == init[j];
        assert s[i] == s[j];
      }
    }
  }

  /** `s == sorted(s)` */
  predicate IsSorted(s: seq<int>) {
    forall i :: 0 < i < |s| ==> s[i - 1] <= s[i]
  }

  ghost predicate Increasing(s: seq<int>) {
    forall i, j :: 0 <= i < j < |s| ==> s[i] < s[j]
  }

  lemma {:induction false} SortedPairs(s: seq<int>, i: nat, j: nat)
    requires IsSorted(s) && i <= j < |s|
    ensures s[i] <= s[j]
    decreases j - i
  {
    if i < j { SortedPairs(s, i, j - 1); }
  }

  /** The two comparisons the code makes, `s == sorted(s)` and `len(s) == len(set(s))`,
      together say strictly increasing. */
  predicate SortedWithoutRepeats(s: seq<int>)
    ensures SortedWithoutRepeats(s) <==> Increasing(s)
  {
    DistinctByCount(s);
    assert IsSorted(s) && Distinct(s) ==> Increasing(s) by {
      if IsSorted(s) && Distinct(s) {
        forall i, j | 0 <= i < j < |s| ensures s[i] < s[j] { SortedPairs(s, i, j); }
      }
    }
    IsSorted(s) && |set x | x in s| == |s|
  }

  type Identity = (string, string, string)

  function IdentityOf(o: Observation): Identity {
    (o.sourceLineageRoot, o.checkId, o.probeId)
  }

  /** The attempts recorded under identity `k` among the first `n` observations. */
  function Attempts(items: seq<Observation>, k: Identity, n: nat): seq<int>
    requires n <= |items|
  {
    if n == 0 then []
    else if IdentityOf(items[n - 1]) == k then Attempts(items, k, n - 1) + [items[n - 1].attemptId]
    else Attempts(items, k, n - 1)
  }

  lemma {:induction false} AttemptsAreThose(items: seq<Observation>, k: Identity, n: nat)
    requires n <= |items|
    ensures forall a :: (a in Attempts(items, k, n)
      <==> exists i :: 0 <= i < n && IdentityOf(items[i]) == k && items[i].attemptId == a)
  {
    if n > 0 {
      AttemptsAreThose(items, k, n - 1);
      forall i | 0 <= i < n && IdentityOf(items[i]) == k
        ensures items[i].attemptId in Attempts(items, k, n)
      {
        if i < n - 1 { assert items[i].attemptId in Attempts(items, k, n - 1); }
      }
    }
  }

  ghost predicate AttemptsAdvance(items: seq<Observation>, k: Identity, n: nat)
    requires n <= |items|
  {
    forall i, j :: 0 <= i < j < n && IdentityOf(items[i]) == k && IdentityOf(items[j]) == k ==>
      items[i].attemptId < items[j].attemptId
  }

  lemma {:induction false} AttemptsIncreasing(items: seq<Observation>, k: Identity, n: nat)
    requires n <= |items|
    ensures Increasing(Attempts(items, k, n)) <==> AttemptsAdvance(items, k, n)
  {
    if n > 0 {
      AttemptsIncreasing(items, k, n - 1);
      if IdentityOf(items[n - 1]) == k {
        AttemptsAreThose(items, k, n - 1);
        var before, all, last := Attempts(items, k, n - 1), Attempts(items, k, n), items[n - 1].attemptId;
        if Increasing(all) {
          assert Increasing(before) by {
            assert forall i :: 0 <= i < |before| ==> all[i] == before[i];
          }
          forall i | 0 <= i < n - 1 && IdentityOf(items[i]) == k ensures items[i].attemptId < last {
            assert items[i].attemptId in before;
            var m :| 0 <= m < |before| && before[m] == items[i].attemptId;
            assert all[m] < all[|before|];
          }
        }
        if AttemptsAdvance(items, k, n) {
          forall m | 0 <= m < |before| ensures before[m] < last {
            assert before[m] in before;
            var i :| 0 <= i < n - 1 && IdentityOf(items[i]) == k && items[i].attemptId == before[m];
          }
        }
      }
    }
  }

  function Ids(items: seq<Observation>): seq<string> {
    seq(|items|, i requires 0 <= i < |items| => items[i].observationId)
  }

  function Ticks(items: seq<Observation>): seq<int> {
    seq(|items|, i requires 0 <= i < |items| => items[i].logicalTick)
  }

  ghost predicate AllConsistent(items: seq<Observation>) {
    forall i, j :: 0 <= i < j < |items| ==> Consistent(items[i], items[j])
  }

  lemma AdmissibleParts(items: seq<Observation>)
    ensures Admissible(items) <==>
      && (forall i :: 0 <= i < |items| ==> items[i].sequenceIndex == i)
      && (forall i :: 0 <= i < |items| ==> Identified(items[i]))
      && Distinct(Ids(items)) && Increasing(Ticks(items)) && AllConsistent(items)
  {
    var ids, ticks := Ids(items), Ticks(items);
    assert forall i :: 0 <= i < |items| ==> ids[i] == items[i].observationId && ticks[i] == items[i].logicalTick;
    if Admissible(items) {
      assert forall i, j :: 0 <= i < j < |items| ==>
        items[i].observationId != items[j].observationId && items[i].logicalTick < items[j].logicalTick
        && Consistent(items[i], items[j]);
      assert Distinct(ids) && Increasing(ticks) && AllConsistent(items);
    } else if Distinct(ids) && Increasing(ticks) && AllConsistent(items) {
      assert forall i, j :: 0 <= i < j < |items| ==> ids[i] != ids[j] && ticks[i] < ticks[j];
    }
  }

  /** `EvidenceAdmission.provenance_valid` */
  method CheckProvenance(items: seq<Observation>) returns (ok: bool)
    ensures ok <==> Admissible(items)
  {
    hide Admissible, Increasing, Distinct;
    AdmissibleParts(items);
    var ids := Ids(items);
    DistinctByCount(ids);
    if |ids| != |set x | x in ids| { return false; }
    if exists i :: 0 <= i < |items| && items[i].sequenceIndex != i { return false; }
    if !SortedWithoutRepeats(Ticks(items)) { return false; }
    if exists i :: 0 <= i < |items| && !Identified(items[i]) { return false; }
    var consistent, byIdentity := GroupByIdentity(items);
    if !consistent { return false; }
    ok := AttemptsSorted(items, byIdentity);
  }

  /** Each check keeps one source and probe; its attempts are collected per identity. */
  method GroupByIdentity(items: seq<Observation>) returns (ok: bool, byIdentity: map<Identity, seq<int>>)
    ensures !ok ==> !AllConsistent(items)
    ensures ok ==> forall i, j :: 0 <= i < j < |items| && items[i].checkId == items[j].checkId ==>
      IdentityOf(items[i]) == IdentityOf(items[j])
    ensures ok ==> forall i :: 0 <= i < |items| ==> IdentityOf(items[i]) in byIdentity
    ensures ok ==> forall k :: k in byIdentity ==> byIdentity[k] == Attempts(items, k, |items|)
  {
    hide Known, Collected, Attempts;
    var checkIdentity: map<string, (string, string)> := map[];
    byIdentity := map[];
    NothingCollected(items);
    var n := 0;
    while n < |items|
      invariant n <= |items|
      invariant Known(items, checkIdentity, n) && Collected(items, byIdentity, n)
    {
      var item := items[n];
      var identity := (item.sourceLineageRoot, item.probeId);
      if item.checkId in checkIdentity && checkIdentity[item.checkId] != identity {
        NotConsistent(items, checkIdentity, n);
        return false, byIdentity;
      }
      NextKnown(items, checkIdentity, n);
      NextCollected(items, byIdentity, n);
      checkIdentity := checkIdentity[item.checkId := identity];
      var k := IdentityOf(item);
      byIdentity := byIdentity[k := (if k in byIdentity then byIdentity[k] else []) + [item.attemptId]];
      n := n + 1;
    }
    AllKnown(items, checkIdentity, byIdentity);
    return true, byIdentity;
  }

  /** The source and probe of every check among the first `n` observations. */
  ghost predicate Known(items: seq<Observation>, checkIdentity: map<string, (string, string)>, n: nat)
    requires n <= |items|
  {
    && (forall i :: 0 <= i < n ==>
          items[i].checkId in checkIdentity
          && checkIdentity[items[i].checkId] == (items[i].sourceLineageRoot, items[i].probeId))
    && (forall c :: c in checkIdentity ==> exists i :: 0 <= i < n && items[i].checkId == c)
  }

  /** The attempts of every identity among the first `n` observations. */
  ghost predicate Collected(items: seq<Observation>, byIdentity: map<Identity, seq<int>>, n: nat)
    requires n <= |items|
  {
    && (forall i :: 0 <= i < n ==> IdentityOf(items[i]) in byIdentity)
    && (forall k :: k in byIdentity ==> byIdentity[k] == Attempts(items, k, n))
    && (forall k :: k !in byIdentity ==> Attempts(items, k, n) == [])
  }

  lemma NothingCollected(items: seq<Observation>)
    ensures Known(items, map[], 0) && Collected(items, map[], 0)
  {
  }

  lemma NextKnown(items: seq<Observation>, checkIdentity: map<string, (string, string)>, n: nat)
    requires n < |items| && Known(items, checkIdentity, n)
    requires var identity := (items[n].sourceLineageRoot, items[n].probeId);
      items[n].checkId in checkIdentity ==> checkIdentity[items[n].checkId] == identity
    ensures Known(items, checkIdentity[items[n].checkId := (items[n].sourceLineageRoot, items[n].probeId)], n + 1)
  {
    var next := checkIdentity[items[n].checkId := (items[n].sourceLineageRoot, items[n].probeId)];
    forall c | c in next ensures exists i :: 0 <= i < n + 1 && items[i].checkId == c {
      if c in checkIdentity {
        var i :| 0 <= i < n && items[i].checkId == c;
      } else {
        assert items[n].checkId == c;
      }
    }
  }

  lemma NextCollected(items: seq<Observation>, byIdentity: map<Identity, seq<int>>, n: nat)
    requires n < |items| && Collected(items, byIdentity, n)
    ensures var k := IdentityOf(items[n]);
      Collected(items, byIdentity[k := (if k in byIdentity then byIdentity[k] else []) + [items[n].attemptId]], n + 1)
  {
  }

  lemma NotConsistent(items: seq<Observation>, checkIdentity: map<string, (string, string)>, n: nat)
    requires n < |items| && Known(items, checkIdentity, n)
    requires items[n].checkId in checkIdentity
    requires checkIdentity[items[n].checkId] != (items[n].sourceLineageRoot, items[n].probeId)
    ensures !AllConsistent(items)
  {
    var i :| 0 <= i < n && items[i].checkId == items[n].checkId;
    assert !Consistent(items[i], items[n]);
  }

  lemma AllKnown(items: seq<Observation>, checkIdentity: map<string, (string, string)>, 
                 byIdentity: map<Identity, seq<int>>)
    requires Known(items, checkIdentity, |items|) && Collected(items, byIdentity, |items|)
    ensures forall i, j :: 0 <= i < j < |items| && items[i].checkId == items[j].checkId ==>
      IdentityOf(items[i]) == IdentityOf(items[j])
    ensures forall i :: 0 <= i < |items| ==> IdentityOf(items[i]) in byIdentity
    ensures forall k :: k in byIdentity ==> byIdentity[k] == Attempts(items, k, |items|)
  {
  }

  /** No identity's attempts move backwards or repeat. */
  method AttemptsSorted(items: seq<Observation>, byIdentity: map<Identity, seq<int>>) returns (ok: bool)
    requires forall i, j :: 0 <= i < j < |items| && items[i].checkId == items[j].checkId ==>
      IdentityOf(items[i]) == IdentityOf(items[j])
    requires forall i :: 0 <= i < |items| ==> IdentityOf(items[i]) in byIdentity
    requires forall k :: k in byIdentity ==> byIdentity[k] == Attempts(items, k, |items|)
    ensures ok <==> AllConsistent(items)
  {
    var remaining := byIdentity.Keys;
    while remaining != {}
      invariant remaining <= byIdentity.Keys
      invariant forall k :: k in byIdentity && k !in remaining ==> AttemptsAdvance(items, k, |items|)
    {
      var k :| k in remaining;
      AttemptsIncreasing(items, k, |items|);
      if !SortedWithoutRepeats(byIdentity[k]) {
        var i, j :| 0 <= i < j < |items| && IdentityOf(items[i]) == k && IdentityOf(items[j]) == k
                    && items[i].attemptId >= items[j].attemptId;
        assert !Consistent(items[i], items[j]);
        return false;
      }
      remaining := remaining - {k};
    }
    forall i, j | 0 <= i < j < |items| ensures Consistent(items[i], items[j]) {
      if items[i].checkId == items[j].checkId {
        assert AttemptsAdvance(items, IdentityOf(items[i]), |items|);
      }
    }
    return true;
  }

  // ----- The test in numbers -----

  /** The sources and probes that a check was made with. */
  function OriginsOf(items: seq<Observation>, check: string): set<(string, string)> {
    set o | o in items && o.checkId == check :: (o.sourceLineageRoot, o.probeId)
  }

  /** Evidence passes if and only if there are as many ids as observations, the sequence counts from zero
      without a gap, ticks rise, every observation says where it comes from at no negative cost, no check
      has more than one origin, and its attempts rise. */
  lemma AdmissibleInNumbers(items: seq<Observation>)
    ensures Admissible(items) <==>
      && |set o | o in items :: o.observationId| == |items|
      && (forall i :: 0 <= i < |items| ==> items[i].sequenceIndex == i)
      && (forall i, j :: 0 <= i < j < |items| ==> items[i].logicalTick < items[j].logicalTick)
      && (forall o :: o in items ==>
            o.sourceLineageRoot != "" && o.checkId != "" && o.probeId != "" && o.cost >= 0.0)
      && (forall check :: |OriginsOf(items, check)| <= 1)
      && (forall i, j :: 0 <= i < j < |items| && items[i].checkId == items[j].checkId ==>
            items[i].attemptId < items[j].attemptId)
  {
    hide OriginsOf;
    IdsCounted(items);
    OneOrigin(items);
  }

  lemma IdsCounted(items: seq<Observation>)
    ensures |set o | o in items :: o.observationId| == |items| <==>
      forall i, j :: 0 <= i < j < |items| ==> items[i].observationId != items[j].observationId
  {
    var ids := seq(|items|, i requires 0 <= i < |items| => items[i].observationId);
    DistinctByCount(ids);
    forall o | o in items ensures o.observationId in ids {
      var i :| 0 <= i < |items| && items[i] == o;
      assert ids[i] == o.observationId;
    }
    forall x | x in ids ensures exists o :: o in items && o.observationId == x {
      var i :| 0 <= i < |ids| && ids[i] == x;
      assert items[i] in items;
    }
    assert (set o | o in items :: o.observationId) == set x | x in ids;
    if Distinct(ids) {
      forall i, j | 0 <= i < j < |items| ensures items[i].observationId != items[j].observationId {
        assert ids[i] != ids[j];
      }
    }
  }

  lemma OneOrigin(items: seq<Observation>)
    ensures (forall check :: |OriginsOf(items, check)| <= 1) <==>
      forall i, j :: 0 <= i < j < |items| && items[i].checkId == items[j].checkId ==>
        items[i].sourceLineageRoot == items[j].sourceLineageRoot && items[i].probeId == items[j].probeId
  {
    if forall check :: |OriginsOf(items, check)| <= 1 {
      forall i, j | 0 <= i < j < |items| && items[i].checkId == items[j].checkId
        ensures items[i].sourceLineageRoot == items[j].sourceLineageRoot && items[i].probeId == items[j].probeId
      {
        var origins := OriginsOf(items, items[i].checkId);
        AtMostOne(origins, (items[i].sourceLineageRoot, items[i].probeId),
                  (items[j].sourceLineageRoot, items[j].probeId));
      }
    }
    if forall i, j :: 0 <= i < j < |items| && items[i].checkId == items[j].checkId ==>
         items[i].sourceLineageRoot == items[j].sourceLineageRoot && items[i].probeId == items[j].probeId {
      forall check ensures |OriginsOf(items, check)| <= 1 {
        var origins := OriginsOf(items, check);
        if a :| a in origins {
          forall b | b in origins ensures b == a { SameOrigin(items, check, a, b); }
          assert origins == {a};
        }
      }
    }
  }

  lemma SameOrigin(items: seq<Observation>, check: string, a: (string, string), b: (string, string))
    requires forall i, j :: 0 <= i < j < |items| && items[i].checkId == items[j].checkId ==>
      items[i].sourceLineageRoot == items[j].sourceLineageRoot && items[i].probeId == items[j].probeId
    requires a in OriginsOf(items, check) && b in OriginsOf(items, check)
    ensures a == b
  {
    var i :| 0 <= i < |items| && items[i].checkId == check && a == (items[i].sourceLineageRoot, items[i].probeId);
    var j :| 0 <= j < |items| && items[j].checkId == check && b == (items[j].sourceLineageRoot, items[j].probeId);
    if i < j {
      assert items[i].sourceLineageRoot == items[j].sourceLineageRoot;
    } else if j < i {
      assert items[j].sourceLineageRoot == items[i].sourceLineageRoot;
    }
  }

  lemma AtMostOne<T>(s: set<T>, a: T, b: T)
    requires |s| <= 1 && a in s && b in s
    ensures a == b
  {
    assert |s - {a}| == 0;
    assert s == {a} + (s - {a});
  }
}
