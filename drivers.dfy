/** The cost-driver explanation: per-column importances labelled by the
    trained columns, summed into display groups by substring match on the
    column name, and ordered for a horizontal bar chart. */
module Drivers {
  import opened Common

  // ---------------------------------------------------------------------
  // Substring match (`like` in `Series.filter(like=...)`)
  // ---------------------------------------------------------------------

  /** `sub in text`: some position of `text` starts with `sub`. */
  function Contains(text: string, sub: string): bool {
    if StartsWith(text, sub) then true
    else if text == [] then false
    else Contains(text[1..], sub)
  }

  /** Contains agrees with the definition of an occurrence: a position `i`
      at which `text` continues with `sub`. */
  lemma {:induction false} ContainsIffOccurs(text: string, sub: string)
    ensures Contains(text, sub) <==> exists i :: 0 <= i <= |text| && StartsWith(text[i..], sub)
  {
    if StartsWith(text, sub) {
      assert text[0..] == text;
    } else if text == [] {
      forall i | 0 <= i <= |text|
        ensures !StartsWith(text[i..], sub)
      {
        assert text[i..] == text;
      }
    } else {
      ContainsIffOccurs(text[1..], sub);
      if Contains(text[1..], sub) {
        var j :| 0 <= j <= |text[1..]| && StartsWith(text[1..][j..], sub);
        assert text[1..][j..] == text[j + 1..];
      } else {
        forall i | 0 <= i <= |text|
          ensures !StartsWith(text[i..], sub)
        {
          if i > 0 {
            assert text[i..] == text[1..][i - 1..];
          } else {
            assert text[i..] == text;
          }
        }
      }
    }
  }

  // ---------------------------------------------------------------------
  // Labelled scores (a pandas Series of floats) and their sums
  // ---------------------------------------------------------------------

  /** One label of a Series with its score. */
  datatype Entry = Entry(key: string, score: real)

  function Sum(s: seq<Entry>): real {
    if s == [] then 0.0 else s[0].score + Sum(s[1..])
  }

  /** `series.filter(like=like)`: the entries whose label contains `like`,
      each as often as in `series`, and no other, kept in series order. The
      handler only ever passes one of the ten non-empty group substrings of
      `DriverGroups`; the library's refusal of an empty `like` is not part of
      this definition. */
  function Filter(series: seq<Entry>, like: string): (r: seq<Entry>)
    ensures forall e :: multiset(r)[e] == if Contains(e.key, like) then multiset(series)[e] else 0
  {
    if series == [] then []
    else
      var rest := Filter(series[1..], like);
      assert series == [series[0]] + series[1..];
      if Contains(series[0].key, like) then [series[0]] + rest else rest
  }

  /** The sum of the scores of the entries whose label contains `like`,
      written entry by entry. */
  function MatchingSum(series: seq<Entry>, like: string): real {
    if series == [] then 0.0
    else (if Contains(series[0].key, like) then series[0].score else 0.0) + MatchingSum(series[1..], like)
  }

  /** `series.filter(like=like).sum()`. */
  function GroupScore(series: seq<Entry>, like: string): real {
    Sum(Filter(series, like))
  }

  lemma {:induction false} SumConcat(a: seq<Entry>, b: seq<Entry>)
    ensures Sum(a + b) == Sum(a) + Sum(b)
  {
    if a != [] {
      assert (a + b)[1..] == a[1..] + b;
      SumConcat(a[1..], b);
    } else {
      assert a + b == b;
    }
  }

  /** A sum does not depend on the order of its entries. */
  lemma {:induction false} SumOfPermutation(s: seq<Entry>, t: seq<Entry>)
    requires multiset(s) == multiset(t)
    ensures Sum(s) == Sum(t)
  {
    if s != [] {
      assert s[0] in multiset(t);
      var j :| 0 <= j < |t| && t[j] == s[0];
      var rest := t[..j] + t[j + 1..];
      MultisetWithout(t, j);
      SumWithout(t, j);
      assert s == [s[0]] + s[1..];
      var x := multiset{s[0]};
      assert multiset(s[1..]) + x == multiset(rest) + x;
      assert multiset(s[1..]) == (multiset(s[1..]) + x) - x;
      assert multiset(rest) == (multiset(rest) + x) - x;
      SumOfPermutation(s[1..], rest);
    }
  }

  lemma MultisetWithout(t: seq<Entry>, j: nat)
    requires j < |t|
    ensures multiset(t) == multiset(t[..j] + t[j + 1..]) + multiset{t[j]}
  {
    assert t == t[..j] + [t[j]] + t[j + 1..];
  }

  /** Taking out the entry at `j` takes its score out of the sum. */
  lemma SumWithout(t: seq<Entry>, j: nat)
    requires j < |t|
    ensures Sum(t) == t[j].score + Sum(t[..j] + t[j + 1..])
  {
    var pre, post := t[..j], t[j + 1..];
    assert t == (pre + [t[j]]) + post;
    SumConcat(pre + [t[j]], post);
    SumConcat(pre, [t[j]]);
    SumConcat(pre, post);
    assert Sum([t[j]]) == t[j].score;
  }

  /** The filtered sum is exactly the sum over the entries whose label
      contains the substring; an entry whose label does not contributes
      nothing. */
  lemma {:induction false} GroupScoreIsMatchingSum(series: seq<Entry>, like: string)
    ensures GroupScore(series, like) == MatchingSum(series, like)
  {
    if series != [] {
      GroupScoreIsMatchingSum(series[1..], like);
    }
  }

  /** Reordering the series (as the descending sort does) leaves every group
      score unchanged. */
  lemma GroupScoreOfPermutation(s: seq<Entry>, t: seq<Entry>, like: string)
    requires multiset(s) == multiset(t)
    ensures GroupScore(s, like) == GroupScore(t, like)
  {
    assert multiset(Filter(s, like)) == multiset(Filter(t, like)) by {
      forall e ensures multiset(Filter(s, like))[e] == multiset(Filter(t, like))[e] { }
    }
    SumOfPermutation(Filter(s, like), Filter(t, like));
  }

  lemma {:induction false} SumNonNegative(s: seq<Entry>)
    requires forall e :: e in s ==> e.score >= 0.0
    ensures Sum(s) >= 0.0
  {
    if s != [] {
      assert s[0] in s;
      SumNonNegative(s[1..]);
    }
  }

  // ---------------------------------------------------------------------
  // Display groups
  // ---------------------------------------------------------------------

  /** A display label and the substring that selects its columns. */
  datatype Group = Group(title: string, like: string)

  const DriverGroups: seq<Group> := [
    Group("Floor Area", "floor_area"),
    Group("Rooms", "rooms"),
    Group("Lighting Points", "lighting_points"),
    Group("Socket Points", "socket_points"),
    Group("Switch Points", "switch_points"),
    Group("Cable Length", "cable_length"),
    Group("Conduit Length", "conduit_length"),
    Group("Building Type", "building_type"),
    Group("Labour Skill", "labour_type"),
    Group("State Factor", "state")
  ]

  /** One entry per group, in the groups' order: its label and its score. */
  function GroupScores(series: seq<Entry>, groups: seq<Group>): seq<Entry> {
    if groups == [] then []
    else [Entry(groups[0].title, GroupScore(series, groups[0].like))] + GroupScores(series, groups[1..])
  }

  /** The group entries, one per group, each with that group's sum. */
  lemma {:induction false} GroupScoresAt(series: seq<Entry>, groups: seq<Group>, k: nat)
    requires k < |groups|
    ensures |GroupScores(series, groups)| == |groups|
    ensures GroupScores(series, groups)[k] == Entry(groups[k].title, MatchingSum(series, groups[k].like))
  {
    GroupScoreIsMatchingSum(series, groups[k].like);
    if k > 0 {
      GroupScoresAt(series, groups[1..], k - 1);
    } else {
      GroupScoresLength(series, groups);
    }
  }

  lemma {:induction false} GroupScoresLength(series: seq<Entry>, groups: seq<Group>)
    ensures |GroupScores(series, groups)| == |groups|
  {
    if groups != [] {
      GroupScoresLength(series, groups[1..]);
    }
  }

  lemma {:induction false} GroupScoresOfPermutation(s: seq<Entry>, t: seq<Entry>, groups: seq<Group>)
    requires multiset(s) == multiset(t)
    ensures GroupScores(s, groups) == GroupScores(t, groups)
  {
    if groups != [] {
      GroupScoreOfPermutation(s, t, groups[0].like);
      GroupScoresOfPermutation(s, t, groups[1..]);
    }
  }

  /** With non-negative importances every group score is non-negative. */
  lemma {:induction false} GroupScoresNonNegative(series: seq<Entry>, groups: seq<Group>)
    requires forall e :: e in series ==> e.score >= 0.0
    ensures forall e :: e in GroupScores(series, groups) ==> e.score >= 0.0
  {
    if groups != [] {
      var f := Filter(series, groups[0].like);
      forall e | e in f ensures e.score >= 0.0 {
        assert multiset(f)[e] > 0;
      }
      SumNonNegative(f);
      GroupScoresNonNegative(series, groups[1..]);
    }
  }

  /** How many groups select a column label. */
  function MatchCount(key: string, groups: seq<Group>): nat {
    if groups == [] then 0
    else (if Contains(key, groups[0].like) then 1 else 0) + MatchCount(key, groups[1..])
  }

  /** Each entry's score, counted once per group that selects it. */
  function CountedTotal(series: seq<Entry>, groups: seq<Group>): real {
    if series == [] then 0.0
    else series[0].score * (MatchCount(series[0].key, groups) as real) + CountedTotal(series[1..], groups)
  }

  lemma {:induction false} CountedTotalSplit(series: seq<Entry>, groups: seq<Group>)
    requires groups != []
    ensures CountedTotal(series, groups) == MatchingSum(series, groups[0].like) + CountedTotal(series, groups[1..])
  {
    if series != [] {
      CountedTotalSplit(series[1..], groups);
      var e := series[0];
      var m := MatchCount(e.key, groups[1..]) as real;
      var first := if Contains(e.key, groups[0].like) then 1.0 else 0.0;
      assert MatchCount(e.key, groups) as real == first + m;
      assert e.score * (first + m) == e.score * first + e.score * m;
    }
  }

  /** Summing all group scores counts each importance once for every group
      whose substring its column name contains. */
  lemma {:induction false} GroupTotalCountsMatches(series: seq<Entry>, groups: seq<Group>)
    ensures Sum(GroupScores(series, groups)) == CountedTotal(series, groups)
  {
    if groups == [] {
      CountedTotalOfNoGroups(series);
    } else {
      GroupTotalCountsMatches(series, groups[1..]);
      GroupScoreIsMatchingSum(series, groups[0].like);
      CountedTotalSplit(series, groups);
    }
  }

  lemma {:induction false} CountedTotalOfNoGroups(series: seq<Entry>)
    ensures CountedTotal(series, []) == 0.0
  {
    if series != [] {
      CountedTotalOfNoGroups(series[1..]);
    }
  }

  /** When the groups partition the columns (each column selected by exactly
      one group), the group scores add up to the total importance. */
  lemma {:induction false} PartitionKeepsTotal(series: seq<Entry>, groups: seq<Group>)
    requires forall e :: e in series ==> MatchCount(e.key, groups) == 1
    ensures Sum(GroupScores(series, groups)) == Sum(series)
  {
    GroupTotalCountsMatches(series, groups);
    CountedTotalOfSingleMatches(series, groups);
  }

  lemma {:induction false} CountedTotalOfSingleMatches(series: seq<Entry>, groups: seq<Group>)
    requires forall e :: e in series ==> MatchCount(e.key, groups) == 1
    ensures CountedTotal(series, groups) == Sum(series)
  {
    if series != [] {
      assert series[0] in series;
      CountedTotalOfSingleMatches(series[1..], groups);
    }
  }

  // ---------------------------------------------------------------------
  // sort_values
  // ---------------------------------------------------------------------

  datatype Direction = Ascending | Descending

  predicate InOrder(a: Entry, b: Entry, d: Direction) {
    match d
    case Ascending => a.score <= b.score
    case Descending => a.score >= b.score
  }

  predicate SortedBy(s: seq<Entry>, d: Direction) {
    forall i, j :: 0 <= i < j < |s| ==> InOrder(s[i], s[j], d)
  }

  function Insert(e: Entry, s: seq<Entry>, d: Direction): (r: seq<Entry>)
    requires SortedBy(s, d)
    ensures SortedBy(r, d)
    ensures multiset(r) == multiset(s) + multiset{e}
  {
    if s == [] || InOrder(e, s[0], d) then [e] + s
    else
      var rest := Insert(e, s[1..], d);
      InsertAfterHead(e, s, d, rest);
      assert s == [s[0]] + s[1..];
      [s[0]] + rest
  }

  /** When `e` goes after the head of `s`, the head precedes everything of
      the insertion into the tail. */
  lemma InsertAfterHead(e: Entry, s: seq<Entry>, d: Direction, rest: seq<Entry>)
    requires s != [] && SortedBy(s, d) && !InOrder(e, s[0], d)
    requires SortedBy(rest, d) && multiset(rest) == multiset(s[1..]) + multiset{e}
    ensures SortedBy([s[0]] + rest, d)
  {
    forall x | x in rest ensures InOrder(s[0], x, d) {
      assert x in multiset(rest);
      if x != e {
        assert x in multiset(s[1..]);
        var k :| 0 <= k < |s[1..]| && s[1..][k] == x;
        assert s[k + 1] == x;
      }
    }
    var r := [s[0]] + rest;
    forall i, j | 0 <= i < j < |r| ensures InOrder(r[i], r[j], d) {
      assert r[j] == rest[j - 1];
      if i > 0 {
        assert r[i] == rest[i - 1];
      } else {
        assert rest[j - 1] in rest;
      }
    }
  }

  /** `series.sort_values(ascending=...)`: the same entries, ordered by
      score. The order among equal scores is not part of the contract. */
  function SortValues(s: seq<Entry>, d: Direction): (r: seq<Entry>)
    ensures SortedBy(r, d)
    ensures multiset(r) == multiset(s)
  {
    if s == [] then []
    else
      assert s == [s[0]] + s[1..];
      Insert(s[0], SortValues(s[1..], d), d)
  }

  // ---------------------------------------------------------------------
  // The explanation
  // ---------------------------------------------------------------------

  /** `pd.Series(importances, index=feature_columns)`: a ValueError when the
      lengths differ. */
  function ImportanceSeries(importances: seq<real>, featureColumns: seq<string>): Result<seq<Entry>> {
    if |importances| != |featureColumns| then
      Failure(LengthMismatch(|importances|, |featureColumns|))
    else
      Ok(seq(|featureColumns|, i requires 0 <= i < |featureColumns| => Entry(featureColumns[i], importances[i])))
  }

  /** The chart data: the importances labelled by the trained columns,
      sorted descending, grouped, and the ten group scores sorted ascending.
      The result holds each group once with the sum of the importances of
      the columns whose name contains its substring, smallest first. */
  function CostDrivers(importances: seq<real>, featureColumns: seq<string>): (r: Result<seq<Entry>>)
    ensures r.Ok? <==> |importances| == |featureColumns|
    ensures r.Failure? ==> r.error == LengthMismatch(|importances|, |featureColumns|)
    ensures r.Ok? ==> SortedBy(r.value, Ascending)
    ensures r.Ok? ==> multiset(r.value) == multiset(GroupScores(ImportanceSeries(importances, featureColumns).value, DriverGroups))
  {
    match ImportanceSeries(importances, featureColumns)
    case Failure(err) => Failure(err)
    case Ok(series) =>
      var importance := SortValues(series, Descending);
      GroupScoresOfPermutation(importance, series, DriverGroups);
      Ok(SortValues(GroupScores(importance, DriverGroups), Ascending))
  }

  /** Each display group's score is the sum of the importances of exactly
      the trained columns whose name contains the group's substring. */
  lemma DriverScore(importances: seq<real>, featureColumns: seq<string>, k: nat)
    requires |importances| == |featureColumns| && k < |DriverGroups|
    ensures Entry(DriverGroups[k].title, MatchingSum(ImportanceSeries(importances, featureColumns).value, DriverGroups[k].like))
      in CostDrivers(importances, featureColumns).value
  {
    var series := ImportanceSeries(importances, featureColumns).value;
    GroupScoresAt(series, DriverGroups, k);
    assert GroupScores(series, DriverGroups)[k] in multiset(GroupScores(series, DriverGroups));
  }

  /** With non-negative importances every displayed score is non-negative. */
  lemma DriverScoresNonNegative(importances: seq<real>, featureColumns: seq<string>)
    requires |importances| == |featureColumns|
    requires forall i :: 0 <= i < |importances| ==> importances[i] >= 0.0
    ensures forall e :: e in CostDrivers(importances, featureColumns).value ==> e.score >= 0.0
  {
    var series := ImportanceSeries(importances, featureColumns).value;
    assert forall e :: e in series ==> e.score >= 0.0;
    GroupScoresNonNegative(series, DriverGroups);
    forall e | e in CostDrivers(importances, featureColumns).value ensures e.score >= 0.0 {
      assert e in multiset(GroupScores(series, DriverGroups));
    }
  }
}
