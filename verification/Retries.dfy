/** The retry penalty (`_count_useless_retries` in `gym/core.py`): repeating a probe and learning
    nothing new from it. */
module Retries {
  import opened Json
  import opened Evidence

  /** `later` repeats `earlier` with a newer attempt and the same outcome. */
  predicate Useless(earlier: Observation, later: Observation) {
    later.attemptId > earlier.attemptId && later.value == earlier.value && later.status == earlier.status
  }

  /** The observations of one identity, in order. */
  function Of(items: seq<Observation>, k: Identity): seq<Observation> {
    if items == [] then []
    else
      var before, last := Of(items[..|items| - 1], k), items[|items| - 1];
      if IdentityOf(last) == k then before + [last] else before
  }

  /** The previous observation of the same identity, if any. */
  function PreviousOf(items: seq<Observation>, k: Identity): Option<Observation> {
    var same := Of(items, k);
    if same == [] then None else Some(same[|same| - 1])
  }

  /** The penalty as one pass sees it: an observation counts when it repeats its predecessor. */
  function UselessRetries(items: seq<Observation>): nat {
    if items == [] then 0
    else
      var before, last := items[..|items| - 1], items[|items| - 1];
      var previous := PreviousOf(before, IdentityOf(last));
      UselessRetries(before) + (if previous.Some? && Useless(previous.value, last) then 1 else 0)
  }

  function UselessPairs(items: seq<Observation>): nat {
    if |items| < 2 then 0
    else UselessPairs(items[..|items| - 1]) + (if Useless(items[|items| - 2], items[|items| - 1]) then 1 else 0)
  }

  /** The sum over groups, taken in any order. */
  ghost function GroupSum(groups: map<Identity, seq<Observation>>, keys: set<Identity>): nat
    requires keys <= groups.Keys
  {
    if keys == {} then 0 else var k :| k in keys; UselessPairs(groups[k]) + GroupSum(groups, keys - {k})
  }

  lemma {:induction false} GroupSumSplits(groups: map<Identity, seq<Observation>>, keys: set<Identity>, k: Identity)
    requires keys <= groups.Keys && k in keys
    ensures GroupSum(groups, keys) == UselessPairs(groups[k]) + GroupSum(groups, keys - {k})
    decreases keys
  {
    hide UselessPairs;
    var c :| c in keys && GroupSum(groups, keys) == UselessPairs(groups[c]) + GroupSum(groups, keys - {c});
    if c != k {
      GroupSumSplits(groups, keys - {c}, k);
      GroupSumSplits(groups, keys - {k}, c);
      assert keys - {c} - {k} == keys - {k} - {c};
    }
  }

  lemma {:induction false} GroupSumSame(a: map<Identity, seq<Observation>>, b: map<Identity, seq<Observation>>,
                                        keys: set<Identity>)
    requires keys <= a.Keys && keys <= b.Keys && forall k :: k in keys ==> a[k] == b[k]
    ensures GroupSum(a, keys) == GroupSum(b, keys)
    decreases keys
  {
    hide UselessPairs;
    if keys != {} {
      var k :| k in keys;
      GroupSumSplits(a, keys, k);
      GroupSumSplits(b, keys, k);
      GroupSumSame(a, b, keys - {k});
    }
  }

  ghost predicate Grouped(items: seq<Observation>, groups: map<Identity, seq<Observation>>) {
    && (forall k :: k in groups ==> groups[k] == Of(items, k) && groups[k] != [])
    && (forall k :: k !in groups ==> Of(items, k) == [])
  }

  /** `setdefault(identity, []).append(item)` */
  function Added(groups: map<Identity, seq<Observation>>, item: Observation): map<Identity, seq<Observation>> {
    var k := IdentityOf(item);
    groups[k := (if k in groups then groups[k] else []) + [item]]
  }

  lemma PairsNext(items: seq<Observation>, item: Observation)
    ensures UselessPairs(items + [item])
      == UselessPairs(items) + (if items != [] && Useless(items[|items| - 1], item) then 1 else 0)
  {
    assert (items + [item])[..|items|] == items;
  }

  lemma GroupedNext(items: seq<Observation>, groups: map<Identity, seq<Observation>>, item: Observation)
    requires Grouped(items, groups)
    ensures Grouped(items + [item], Added(groups, item))
  {
    assert (items + [item])[..|items|] == items;
  }

  lemma SumNext(items: seq<Observation>, groups: map<Identity, seq<Observation>>, item: Observation)
    requires Grouped(items, groups) && GroupSum(groups, groups.Keys) == UselessRetries(items)
    ensures GroupSum(Added(groups, item), Added(groups, item).Keys) == UselessRetries(items + [item])
  {
    hide UselessPairs, Useless, Of;
    var k, next := IdentityOf(item), Added(groups, item);
    var others := groups.Keys - {k};
    assert (items + [item])[..|items|] == items;
    assert next.Keys - {k} == others;
    GroupSumSplits(next, next.Keys, k);
    GroupSumSame(groups, next, others);
    if k in groups {
      GroupSumSplits(groups, groups.Keys, k);
      PairsNext(groups[k], item);
    } else {
      assert others == groups.Keys;
      PairsNext([], item);
      NoPairs();
      assert next[k] == [] + [item];
    }
  }

  lemma NoPairs()
    ensures UselessPairs([]) == 0
  {
  }

  /** `_count_useless_retries`: grouping first and comparing neighbours within each group counts
      exactly the observations that repeat their predecessor. */
  method CountUselessRetries(items: seq<Observation>) returns (useless: nat)
    ensures useless == UselessRetries(items)
  {
    hide GroupSum, Of, UselessRetries, UselessPairs, Added, Grouped;
    var byIdentity: map<Identity, seq<Observation>> := map[];
    NothingGrouped();
    assert byIdentity.Keys == {} && items[..0] == [];
    for i := 0 to |items|
      invariant Grouped(items[..i], byIdentity)
      invariant GroupSum(byIdentity, byIdentity.Keys) == UselessRetries(items[..i])
    {
      assert items[..i + 1] == items[..i] + [items[i]];
      GroupedNext(items[..i], byIdentity, items[i]);
      SumNext(items[..i], byIdentity, items[i]);
      byIdentity := Added(byIdentity, items[i]);
    }
    assert items[..|items|] == items;
    useless := 0;
    var remaining := byIdentity.Keys;
    while remaining != {}
      invariant remaining <= byIdentity.Keys
      invariant useless + GroupSum(byIdentity, remaining) == UselessRetries(items)
    {
      var k :| k in remaining;
      GroupSumSplits(byIdentity, remaining, k);
      var here := CountPairs(byIdentity[k]);
      useless, remaining := useless + here, remaining - {k};
    }
    NothingGrouped();
  }

  lemma NothingGrouped()
    ensures Grouped([], map[]) && UselessRetries([]) == 0
    ensures forall groups: map<Identity, seq<Observation>> :: GroupSum(groups, {}) == 0
  {
  }

  method CountPairs(items: seq<Observation>) returns (n: nat)
    ensures n == UselessPairs(items)
  {
    n := 0;
    if |items| < 2 { return; }
    for i := 1 to |items|
      invariant n == UselessPairs(items[..i])
    {
      assert items[..i + 1][..i] == items[..i];
      if Useless(items[i - 1], items[i]) { n := n + 1; }
    }
    assert items[..|items|] == items;
  }

  // ----- The penalty, pair by pair -----

  /** Observation `j` follows `i` as the next one of its identity, and tells nothing new. */
  predicate TellsNothingNew(items: seq<Observation>, i: nat, j: nat)
    requires i < j < |items|
  {
    && IdentityOf(items[i]) == IdentityOf(items[j])
    && (forall k :: i < k < j ==> IdentityOf(items[k]) != IdentityOf(items[j]))
    && items[j].attemptId > items[i].attemptId
    && items[j].value == items[i].value && items[j].status == items[i].status
  }

  ghost predicate RepeatsAt(items: seq<Observation>, j: nat)
    requires j < |items|
  {
    exists i: nat :: i < j && TellsNothingNew(items, i, j)
  }

  ghost function RepeatsIn(items: seq<Observation>): set<nat> {
    set j: nat | j < |items| && RepeatsAt(items, j)
  }

  lemma {:induction false} LastOfIdentity(items: seq<Observation>, k: Identity)
    ensures Of(items, k) == [] ==> forall i :: 0 <= i < |items| ==> IdentityOf(items[i]) != k
    ensures Of(items, k) != [] ==> exists i: nat ::
      && i < |items| && IdentityOf(items[i]) == k && items[i] == Of(items, k)[|Of(items, k)| - 1]
      && forall j :: i < j < |items| ==> IdentityOf(items[j]) != k
  {
    hide IdentityOf;
    if items != [] {
      var n := |items| - 1;
      LastOfIdentity(items[..n], k);
      if IdentityOf(items[n]) == k {
        assert items[n] == Of(items, k)[|Of(items, k)| - 1];
      }
    }
  }

  lemma LastRepeats(items: seq<Observation>)
    requires items != []
    ensures var n := |items| - 1;
      var previous := PreviousOf(items[..n], IdentityOf(items[n]));
      RepeatsAt(items, n) <==> previous.Some? && Useless(previous.value, items[n])
  {
    hide IdentityOf, Of;
    var n := |items| - 1;
    var k := IdentityOf(items[n]);
    LastOfIdentity(items[..n], k);
    if Of(items[..n], k) != [] {
      var i: nat :| i < n && IdentityOf(items[..n][i]) == k
        && items[..n][i] == Of(items[..n], k)[|Of(items[..n], k)| - 1]
        && forall j :: i < j < n ==> IdentityOf(items[..n][j]) != k;
      forall j | i < j < n ensures IdentityOf(items[j]) != k { assert items[..n][j] == items[j]; }
      assert items[i] == items[..n][i];
      assert IdentityOf(items[i]) == k;
      forall before: nat | before < n && TellsNothingNew(items, before, n) ensures before == i {}
      assert Useless(items[i], items[n]) <==> TellsNothingNew(items, i, n);
    } else {
      forall i | 0 <= i < n ensures IdentityOf(items[i]) != k { assert items[..n][i] == items[i]; }
    }
  }

  lemma EarlierRepeats(items: seq<Observation>, j: nat)
    requires items != [] && j < |items| - 1
    ensures RepeatsAt(items[..|items| - 1], j) <==> RepeatsAt(items, j)
  {
    var before := items[..|items| - 1];
    assert forall i :: 0 <= i < |before| ==> before[i] == items[i];
    forall i: nat | i < j ensures TellsNothingNew(before, i, j) <==> TellsNothingNew(items, i, j) {
    }
  }

  /** The penalty is the number of observations that tell nothing new after the one before them. */
  lemma {:induction false} UselessRetriesAre(items: seq<Observation>)
    ensures UselessRetries(items) == |RepeatsIn(items)|
  {
    hide Of, Useless, PreviousOf, RepeatsAt;
    if items == [] {
      assert RepeatsIn(items) == {};
    } else {
      var n := |items| - 1;
      UselessRetriesAre(items[..n]);
      LastRepeats(items);
      forall j: nat | j < n ensures RepeatsAt(items[..n], j) <==> RepeatsAt(items, j) { EarlierRepeats(items, j); }
      assert RepeatsIn(items) == RepeatsIn(items[..n]) + (if RepeatsAt(items, n) then {n} else {});
    }
  }
}
