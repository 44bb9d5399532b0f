/** The ranking on the analysis page: the tally's entries sorted by
    descending count (`Object.entries(columnUsage).sort((a, b) => b[1] - a[1])`),
    the five most used (`slice(0, 5)`) and the last five of the same list
    (`slice(-5)`). `Array.prototype.sort` is stable, so entries with equal
    counts keep the tally's insertion order. */
module Ranking {
  import opened ColumnUsage

  /** An entry shown in a chart: `{ col, count }`. */
  datatype ColumnCount = ColumnCount(col: string, count: nat)

  datatype Ranks = Ranks(mostUsed: seq<ColumnCount>, leastUsed: seq<ColumnCount>)

  /*** Stable sort by descending count ***/

  /** Places `e` before the first entry whose count does not exceed its own,
      so that it stays ahead of the entries with its count. */
  function Insert(e: (string, nat), s: Tally): (r: Tally)
    ensures |r| == |s| + 1
  {
    if |s| == 0 || s[0].1 <= e.1 then [e] + s else [s[0]] + Insert(e, s[1..])
  }

  /** The sorted entries. */
  function SortByCount(t: Tally): (r: Tally)
    ensures |r| == |t|
  {
    if |t| == 0 then [] else Insert(t[0], SortByCount(t[1..]))
  }

  predicate NonIncreasing(t: Tally) {
    forall i, j :: 0 <= i < j < |t| ==> t[i].1 >= t[j].1
  }

  /** The entries with count `c`, in their order in `t`. */
  function WithCount(t: Tally, c: nat): Tally {
    if |t| == 0 then []
    else if t[0].1 == c then [t[0]] + WithCount(t[1..], c)
    else WithCount(t[1..], c)
  }

  lemma {:induction false} InsertPermutes(e: (string, nat), s: Tally)
    ensures multiset(Insert(e, s)) == multiset(s) + multiset{e}
    decreases |s|
  {
    if |s| > 0 && s[0].1 > e.1 {
      InsertPermutes(e, s[1..]);
      assert s == [s[0]] + s[1..];
    }
  }

  lemma {:induction false} InsertOrders(e: (string, nat), s: Tally)
    requires NonIncreasing(s)
    ensures NonIncreasing(Insert(e, s))
    decreases |s|
  {
    if |s| > 0 && s[0].1 > e.1 {
      var rest := Insert(e, s[1..]);
      InsertOrders(e, s[1..]);
      InsertPermutes(e, s[1..]);
      forall j | 0 <= j < |rest| ensures s[0].1 >= rest[j].1 {
        assert rest[j] in multiset(s[1..]) + multiset{e};
        if rest[j] != e {
          assert rest[j] in s[1..];
        }
      }
      assert Insert(e, s) == [s[0]] + rest;
    }
  }

  lemma {:induction false} InsertKeepsTies(e: (string, nat), s: Tally, c: nat)
    ensures WithCount(Insert(e, s), c) == if e.1 == c then [e] + WithCount(s, c) else WithCount(s, c)
    decreases |s|
  {
    if |s| > 0 && s[0].1 > e.1 {
      var rest := Insert(e, s[1..]);
      InsertKeepsTies(e, s[1..], c);
      assert Insert(e, s)[0] == s[0] && Insert(e, s)[1..] == rest;
    } else {
      assert ([e] + s)[0] == e && ([e] + s)[1..] == s;
    }
  }

  /** The sort's promise: the same entries, counts non-increasing, and the
      entries of any one count in the order they had in the tally. */
  lemma {:induction false} SortFacts(t: Tally)
    ensures multiset(SortByCount(t)) == multiset(t)
    ensures |SortByCount(t)| == |t|
    ensures NonIncreasing(SortByCount(t))
    ensures forall c :: WithCount(SortByCount(t), c) == WithCount(t, c)
    decreases |t|
  {
    if |t| > 0 {
      SortFacts(t[1..]);
      InsertPermutes(t[0], SortByCount(t[1..]));
      assert t == [t[0]] + t[1..];
      InsertOrders(t[0], SortByCount(t[1..]));
      forall c ensures WithCount(SortByCount(t), c) == WithCount(t, c) {
        InsertKeepsTies(t[0], SortByCount(t[1..]), c);
      }
    }
  }

  /*** The two lists ***/

  /** `.map(([col, count]) => ({ col, count }))` */
  function Entries(t: Tally): (r: seq<ColumnCount>)
    ensures |r| == |t|
    ensures forall i :: 0 <= i < |t| ==> r[i] == ColumnCount(t[i].0, t[i].1)
  {
    seq(|t|, i requires 0 <= i < |t| => ColumnCount(t[i].0, t[i].1))
  }

  /** `slice(0, 5)` */
  function MostUsed(sorted: Tally): (r: seq<ColumnCount>)
    ensures |r| == if |sorted| < 5 then |sorted| else 5
  {
    Entries(sorted[..if |sorted| < 5 then |sorted| else 5])
  }

  /** `slice(-5)`: a negative start counts from the end, and is taken as 0
      when the list is shorter than 5. */
  function LeastUsed(sorted: Tally): (r: seq<ColumnCount>)
    ensures |r| == if |sorted| < 5 then |sorted| else 5
  {
    var start := |sorted| - 5;
    Entries(sorted[if start < 0 then 0 else start..])
  }

  function Rank(usage: Tally): (r: Ranks)
    ensures |r.mostUsed| == |r.leastUsed| == if |usage| < 5 then |usage| else 5
    ensures |usage| <= 5 ==> r.mostUsed == r.leastUsed
  {
    var sorted := SortByCount(usage);
    Ranks(MostUsed(sorted), LeastUsed(sorted))
  }

  predicate Descending(r: seq<ColumnCount>) {
    forall i, j :: 0 <= i < j < |r| ==> r[i].count >= r[j].count
  }

  /** `mostUsed` is the head of the sorted list, `min(5, n)` entries long and
      non-increasing; no entry left out of it has a larger count. */
  lemma MostUsedShape(usage: Tally)
    ensures var most, sorted := Rank(usage).mostUsed, SortByCount(usage);
      && |most| == (if |usage| < 5 then |usage| else 5)
      && (forall i :: 0 <= i < |most| ==> most[i] == ColumnCount(sorted[i].0, sorted[i].1))
      && Descending(most)
      && (forall i, j :: 0 <= i < |most| <= j < |sorted| ==> most[i].count >= sorted[j].1)
  {
    SortFacts(usage);
  }

  /** `leastUsed` is the tail of the same sorted list, `min(5, n)` entries
      long and likewise non-increasing; no entry left out of it has a smaller
      count. */
  lemma LeastUsedShape(usage: Tally)
    ensures var least, sorted := Rank(usage).leastUsed, SortByCount(usage);
      && |sorted| == |usage|
      && |least| == (if |usage| < 5 then |usage| else 5)
      && (forall i :: 0 <= i < |least| ==>
            least[i] == ColumnCount(sorted[|sorted| - |least| + i].0, sorted[|sorted| - |least| + i].1))
      && Descending(least)
      && (forall i, j :: 0 <= i < |least| && 0 <= j < |sorted| - |least| ==> least[i].count <= sorted[j].1)
  {
    SortFacts(usage);
  }

  /** With at most five fields the two lists are the same; with none both
      are empty. */
  lemma FewFields(usage: Tally)
    ensures |usage| <= 5 ==> Rank(usage).mostUsed == Rank(usage).leastUsed
    ensures |usage| == 0 ==> Rank(usage).mostUsed == [] && Rank(usage).leastUsed == []
  {
    SortFacts(usage);
  }

  /** A sorted entry is a tally entry, so with distinct keys its count is the
      tally's count of its field. */
  lemma SortedEntry(usage: Tally, i: nat)
    requires DistinctKeys(usage) && i < |SortByCount(usage)|
    ensures SortByCount(usage)[i] in usage
    ensures SortByCount(usage)[i].1 == CountOf(usage, SortByCount(usage)[i].0)
  {
    SortFacts(usage);
    var e := SortByCount(usage)[i];
    assert e in multiset(usage);
    var j :| 0 <= j < |usage| && usage[j] == e;
    CountOfEntry(usage, j);
  }

  /** Every entry shown in either list is a tally entry: its count is the
      tally's count of its field. */
  lemma RankedCounts(usage: Tally)
    requires DistinctKeys(usage)
    ensures forall e :: e in Rank(usage).mostUsed + Rank(usage).leastUsed ==>
      (e.col, e.count) in usage && e.count == CountOf(usage, e.col)
  {
    MostUsedShape(usage);
    LeastUsedShape(usage);
    var sorted := SortByCount(usage);
    forall i | 0 <= i < |sorted| ensures sorted[i] in usage && sorted[i].1 == CountOf(usage, sorted[i].0) {
      SortedEntry(usage, i);
    }
  }

  /** For the report's own tally: every field shown is referenced by some
      visual, and its count is the number of references to it. */
  lemma ReportRanks(pages: seq<Page>)
    ensures forall e :: e in Rank(TallyOf(pages)).mostUsed + Rank(TallyOf(pages)).leastUsed ==>
      e.col in Refs(pages) && e.count == multiset(Refs(pages))[e.col] >= 1
  {
    var usage := TallyOf(pages);
    TallyFacts(pages);
    RankedCounts(usage);
    var shown := Rank(usage).mostUsed + Rank(usage).leastUsed;
    forall e | e in shown
      ensures e.col in Refs(pages) && e.count == multiset(Refs(pages))[e.col] >= 1
    {
      var j :| 0 <= j < |usage| && usage[j] == (e.col, e.count);
      assert Keys(usage)[j] == e.col;
    }
  }
}
