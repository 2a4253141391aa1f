/** Tallying labels and ranking them: how the results screen turns the
    strengths (or improvements) of every answer into its top-three list. The
    tally keeps labels in the order they were first seen, like the keys of a
    JavaScript object built by counting; the ranking is a stable sort by
    decreasing count, like `Array.prototype.sort`, cut to three. */
module Ranking {

  /** A label and how many times it occurs. */
  datatype Entry = Entry(name: string, count: nat)

  /** How many labels the results screen lists in each top list. */
  const TopCount: nat := 3

  function Min(a: nat, b: nat): nat {
    if a <= b then a else b
  }

  /** The labels of `es`, in order. */
  function Labels(es: seq<Entry>): (ls: seq<string>)
    ensures |ls| == |es|
    ensures forall i :: 0 <= i < |es| ==> ls[i] == es[i].name
  {
    seq(|es|, i requires 0 <= i < |es| => es[i].name)
  }

  /** No label occurs twice. */
  predicate DistinctLabels(es: seq<Entry>) {
    forall i, j :: 0 <= i < j < |es| ==> es[i].name != es[j].name
  }

  /** The distinct labels of `ls`. */
  function LabelSet(ls: seq<string>): set<string> {
    set l | l in ls
  }

  /** How often `l` occurs in `ls`. */
  function Occurrences(ls: seq<string>, l: string): nat {
    multiset(ls)[l]
  }

  /** The position where `l` first occurs in `ls`, or `|ls|` if it does not. */
  function FirstIndex(ls: seq<string>, l: string): (i: nat)
    ensures i <= |ls|
    ensures i < |ls| ==> ls[i] == l
    ensures forall k :: 0 <= k < i ==> ls[k] != l
    ensures i == |ls| <==> l !in ls
  {
    if ls == [] then 0 else if ls[0] == l then 0 else 1 + FirstIndex(ls[1..], l)
  }

  lemma {:induction false} FirstIndexOfExtension(ls: seq<string>, x: string, l: string)
    requires l in ls + [x]
    ensures l in ls ==> FirstIndex(ls + [x], l) == FirstIndex(ls, l)
    ensures l !in ls ==> FirstIndex(ls + [x], l) == |ls|
  {
    var i := FirstIndex(ls + [x], l);
    if l in ls {
      var j := FirstIndex(ls, l);
      assert (ls + [x])[j] == l;
    } else {
      assert (ls + [x])[|ls|] == l;
    }
  }

  /** Label `a` ranks above label `b` in `ls`: it occurs more often, or as
      often and is seen first. */
  predicate OutRanks(ls: seq<string>, a: string, b: string) {
    || Occurrences(ls, a) > Occurrences(ls, b)
    || (Occurrences(ls, a) == Occurrences(ls, b) && FirstIndex(ls, a) < FirstIndex(ls, b))
  }

  /** The sum of all counts. */
  function TotalCount(es: seq<Entry>): nat {
    if es == [] then 0 else es[0].count + TotalCount(es[1..])
  }

  /** Counts one more occurrence of `l`: its entry's count goes up by one, or,
      when `l` has not been seen yet, an entry with count 1 is appended. */
  function Bump(es: seq<Entry>, l: string): (r: seq<Entry>)
    requires DistinctLabels(es)
    ensures DistinctLabels(r)
    ensures TotalCount(r) == TotalCount(es) + 1
    ensures l in Labels(es) ==>
      && |r| == |es|
      && forall i :: 0 <= i < |es| ==>
           r[i].name == es[i].name && r[i].count == es[i].count + (if es[i].name == l then 1 else 0)
    ensures l !in Labels(es) ==> r == es + [Entry(l, 1)]
  {
    if es == [] then [Entry(l, 1)]
    else if es[0].name == l then [Entry(l, es[0].count + 1)] + es[1..]
    else
      assert Labels(es)[1..] == Labels(es[1..]);
      var rest := Bump(es[1..], l);
      assert ([es[0]] + rest)[1..] == rest;
      [es[0]] + rest
  }

  /** The occurrence count of every label, as `reduce` builds it into an
      object: one entry per distinct label, whose counts add up to the number
      of labels counted. */
  function Tally(ls: seq<string>): (t: seq<Entry>)
    ensures DistinctLabels(t)
    ensures TotalCount(t) == |ls|
    decreases |ls|
  {
    if ls == [] then [] else Bump(Tally(ls[..|ls| - 1]), ls[|ls| - 1])
  }

  /** The tally lists exactly the labels that occur. */
  lemma {:induction false} TallyLabels(ls: seq<string>)
    ensures forall l :: l in ls <==> l in Labels(Tally(ls))
    decreases |ls|
  {
    if ls != [] {
      var init, x := ls[..|ls| - 1], ls[|ls| - 1];
      assert ls == init + [x];
      TallyLabels(init);
      var before := Tally(init);
      if x in Labels(before) {
        assert forall l :: l in Labels(Tally(ls)) <==> l in Labels(before);
      } else {
        assert Labels(Tally(ls)) == Labels(before) + [x];
      }
    }
  }

  /** Each entry's count is the number of occurrences of its label. */
  lemma {:induction false} TallyCounts(ls: seq<string>)
    ensures forall i :: 0 <= i < |Tally(ls)| ==> Tally(ls)[i].count == Occurrences(ls, Tally(ls)[i].name)
    decreases |ls|
  {
    if ls != [] {
      var init, x := ls[..|ls| - 1], ls[|ls| - 1];
      assert ls == init + [x];
      TallyCounts(init);
      TallyLabels(init);
      assert multiset(ls) == multiset(init) + multiset{x};
      var before := Tally(init);
      if x !in Labels(before) {
        assert x !in init;
      }
    }
  }

  /** The tally lists labels in the order they were first seen. */
  lemma {:induction false} TallyFirstSeenOrder(ls: seq<string>)
    ensures forall i, j :: 0 <= i < j < |Tally(ls)| ==>
      FirstIndex(ls, Tally(ls)[i].name) < FirstIndex(ls, Tally(ls)[j].name)
    decreases |ls|
  {
    if ls != [] {
      var init, x := ls[..|ls| - 1], ls[|ls| - 1];
      assert ls == init + [x];
      TallyFirstSeenOrder(init);
      TallyLabels(init);
      var before := Tally(init);
      var t := Tally(ls);
      assert t == Bump(before, x);
      forall i | 0 <= i < |before|
        ensures FirstIndex(ls, before[i].name) == FirstIndex(init, before[i].name) < |init|
      {
        assert before[i].name in Labels(before);
        FirstIndexOfExtension(init, x, before[i].name);
      }
      if x !in Labels(before) {
        FirstIndexOfExtension(init, x, x);
      }
      forall i, j | 0 <= i < j < |t|
        ensures FirstIndex(ls, t[i].name) < FirstIndex(ls, t[j].name)
      {
        assert t[i].name == before[i].name;
        if j < |before| {
          assert t[j].name == before[j].name;
        } else {
          assert t[j].name == x;
        }
      }
    }
  }

  /** Places `x` before the first entry whose count does not exceed its own. */
  function Insert(x: Entry, s: seq<Entry>): (r: seq<Entry>)
    ensures multiset(r) == multiset(s) + multiset{x}
    ensures |r| == |s| + 1
  {
    if s == [] then [x]
    else if x.count >= s[0].count then [x] + s
    else
      assert s == [s[0]] + s[1..];
      [s[0]] + Insert(x, s[1..])
  }

  /** Sorts by decreasing count, keeping entries of equal count in their
      original order. */
  function SortByCount(s: seq<Entry>): (r: seq<Entry>)
    ensures multiset(r) == multiset(s)
    ensures |r| == |s|
  {
    if s == [] then []
    else
      assert s == [s[0]] + s[1..];
      Insert(s[0], SortByCount(s[1..]))
  }

  /** `a` comes before `b`: a higher count, or an equal count and a lower
      rank. */
  ghost predicate Precedes(a: Entry, b: Entry, rank: string -> nat) {
    a.count > b.count || (a.count == b.count && rank(a.name) < rank(b.name))
  }

  /** `r` lists its entries by decreasing count and, among equal counts, by
      increasing rank of their labels. */
  ghost predicate CountThenRank(r: seq<Entry>, rank: string -> nat) {
    forall i, j :: 0 <= i < j < |r| ==> Precedes(r[i], r[j], rank)
  }

  /** The labels of `s` have strictly increasing rank. */
  ghost predicate RankIncreasing(s: seq<Entry>, rank: string -> nat) {
    forall i, j :: 0 <= i < j < |s| ==> rank(s[i].name) < rank(s[j].name)
  }

  /** Inserting adds `x` and nothing else. */
  lemma {:induction false} InsertMembers(x: Entry, s: seq<Entry>)
    ensures forall y :: y in Insert(x, s) ==> y == x || y in s
  {
    if s != [] && x.count < s[0].count {
      InsertMembers(x, s[1..]);
      assert forall y :: y in s[1..] ==> y in s;
    }
  }

  /** In an ordered list the first entry precedes every later one. */
  lemma HeadPrecedes(t: seq<Entry>, rank: string -> nat)
    requires t != [] && CountThenRank(t, rank)
    ensures forall y :: y in t[1..] ==> Precedes(t[0], y, rank)
  {
    forall y | y in t[1..] ensures Precedes(t[0], y, rank) {
      var k :| 0 <= k < |t[1..]| && t[1..][k] == y;
      assert t[k + 1] == y;
    }
  }

  /** Inserting an entry that ranks before every entry of an ordered list
      keeps the list ordered. */
  lemma {:induction false} InsertKeepsOrder(x: Entry, t: seq<Entry>, rank: string -> nat)
    requires CountThenRank(t, rank)
    requires forall y :: y in t ==> rank(x.name) < rank(y.name)
    ensures CountThenRank(Insert(x, t), rank)
  {
    if t != [] && x.count < t[0].count {
      var rest := Insert(x, t[1..]);
      assert forall y :: y in t[1..] ==> y in t;
      assert CountThenRank(t[1..], rank) by {
        forall i, j | 0 <= i < j < |t[1..]| ensures Precedes(t[1..][i], t[1..][j], rank) {
          assert t[1..][i] == t[i + 1] && t[1..][j] == t[j + 1];
        }
      }
      InsertKeepsOrder(x, t[1..], rank);
      InsertMembers(x, t[1..]);
      HeadPrecedes(t, rank);
      var r := [t[0]] + rest;
      forall i, j | 0 <= i < j < |r| ensures Precedes(r[i], r[j], rank) {
        assert r[j] == rest[j - 1];
        if i > 0 {
          assert r[i] == rest[i - 1];
        } else {
          assert r[j] in rest;
        }
      }
    }
  }

  /** Stability: when the input's labels have increasing rank (first-seen
      order, say), the sorted output is ordered by decreasing count and, among
      equal counts, by that rank. */
  lemma {:induction false} SortByCountIsStable(s: seq<Entry>, rank: string -> nat)
    requires RankIncreasing(s, rank)
    ensures CountThenRank(SortByCount(s), rank)
  {
    if s != [] {
      SortByCountIsStable(s[1..], rank);
      var sorted := SortByCount(s[1..]);
      forall y | y in sorted
        ensures rank(s[0].name) < rank(y.name)
      {
        assert y in multiset(s[1..]);
        var k :| 0 <= k < |s[1..]| && s[1..][k] == y;
        assert s[k + 1] == y;
      }
      InsertKeepsOrder(s[0], sorted, rank);
    }
  }

  /** The labels `TopCount` most frequent in `ls`: the tally, sorted by
      decreasing count with ties in first-seen order, cut to three. */
  function Top(ls: seq<string>): (top: seq<string>)
    ensures |top| <= TopCount
  {
    var ranked := SortByCount(Tally(ls));
    Labels(ranked[..Min(TopCount, |ranked|)])
  }

  /** A sequence without repetitions has as many distinct elements as it has
      elements. */
  lemma {:induction false} DistinctCardinality(xs: seq<string>)
    requires forall i, j :: 0 <= i < j < |xs| ==> xs[i] != xs[j]
    ensures |LabelSet(xs)| == |xs|
  {
    if xs != [] {
      DistinctCardinality(xs[1..]);
      assert LabelSet(xs) == {xs[0]} + LabelSet(xs[1..]);
      assert xs[0] !in LabelSet(xs[1..]);
    }
  }

  /** Every entry of the sorted tally counts the occurrences of a label that
      occurs. */
  lemma RankedCounts(ls: seq<string>)
    ensures var ranked := SortByCount(Tally(ls));
      forall i :: 0 <= i < |ranked| ==>
        ranked[i].count == Occurrences(ls, ranked[i].name) && ranked[i].name in ls
  {
    var t := Tally(ls);
    var ranked := SortByCount(t);
    TallyLabels(ls);
    TallyCounts(ls);
    forall i | 0 <= i < |ranked|
      ensures ranked[i].count == Occurrences(ls, ranked[i].name) && ranked[i].name in ls
    {
      assert ranked[i] in multiset(t);
      var k :| 0 <= k < |t| && t[k] == ranked[i];
      assert Labels(t)[k] == t[k].name;
    }
  }

  /** Sorting keeps every entry. */
  lemma InSorted(s: seq<Entry>, e: Entry)
    requires e in s
    ensures e in SortByCount(s)
  {
    assert e in multiset(s);
  }

  /** The label of every listed entry is listed. */
  lemma NameListed(es: seq<Entry>, k: nat)
    requires k < |es|
    ensures es[k].name in Labels(es)
  {
    assert Labels(es)[k] == es[k].name;
  }

  /** Every label that occurs has an entry in the sorted tally. */
  lemma RankedCovers(ls: seq<string>)
    ensures forall l :: l in ls ==> l in Labels(SortByCount(Tally(ls)))
  {
    var t := Tally(ls);
    var ranked := SortByCount(t);
    TallyLabels(ls);
    forall l | l in ls
      ensures l in Labels(ranked)
    {
      var k :| 0 <= k < |t| && Labels(t)[k] == l;
      InSorted(t, t[k]);
      var q :| 0 <= q < |ranked| && ranked[q] == t[k];
      NameListed(ranked, q);
    }
  }

  /** The tally, sorted or not, has one entry per distinct label. */
  lemma RankedSize(ls: seq<string>)
    ensures |SortByCount(Tally(ls))| == |Tally(ls)| == |LabelSet(ls)|
  {
    var t := Tally(ls);
    TallyLabels(ls);
    DistinctCardinality(Labels(t));
    var occurring := LabelSet(ls);
    var listed := LabelSet(Labels(t));
    assert occurring == listed by {
      assert forall l :: l in occurring <==> l in listed;
    }
  }

  /** The sorted tally is ordered by decreasing count, ties in first-seen
      order. This speaks of the entries' own counts, which RankedCounts ties
      to the occurrences; TopOrdered states the same order through OutRanks. */
  lemma RankedOrder(ls: seq<string>)
    ensures var ranked := SortByCount(Tally(ls));
      forall i, j :: 0 <= i < j < |ranked| ==>
        || ranked[i].count > ranked[j].count
        || (ranked[i].count == ranked[j].count
            && FirstIndex(ls, ranked[i].name) < FirstIndex(ls, ranked[j].name))
  {
    TallyFirstSeenOrder(ls);
    var rank := l => FirstIndex(ls, l);
    SortByCountIsStable(Tally(ls), rank);
  }

  /** The top list is the labels of the first (at most three) entries of the
      sorted tally. */
  lemma TopIsPrefix(ls: seq<string>)
    ensures |Top(ls)| == Min(TopCount, |SortByCount(Tally(ls))|)
    ensures forall i :: 0 <= i < |Top(ls)| ==> Top(ls)[i] == SortByCount(Tally(ls))[i].name
  {
  }

  /** The top list holds three labels, or all of them when fewer than three
      distinct labels occur. */
  lemma TopLength(ls: seq<string>)
    ensures |Top(ls)| == Min(TopCount, |LabelSet(ls)|)
  {
    RankedSize(ls);
  }

  /** The top list holds distinct labels, each occurring in the input, listed
      by decreasing number of occurrences with ties in first-seen order. */
  lemma TopOrdered(ls: seq<string>)
    ensures forall i, j :: 0 <= i < j < |Top(ls)| ==> Top(ls)[i] != Top(ls)[j]
    ensures forall i :: 0 <= i < |Top(ls)| ==> Top(ls)[i] in ls
    ensures forall i, j :: 0 <= i < j < |Top(ls)| ==> OutRanks(ls, Top(ls)[i], Top(ls)[j])
  {
    TopIsPrefix(ls);
    RankedCounts(ls);
    RankedOrder(ls);
  }

  /** Every label left out of the top list is outranked by each one that was
      kept: it occurs less often, or as often but is first seen later. */
  lemma TopOmitsNothingMoreFrequent(ls: seq<string>)
    ensures forall l, i :: l in ls && l !in Top(ls) && 0 <= i < |Top(ls)| ==>
      OutRanks(ls, Top(ls)[i], l)
  {
    var ranked := SortByCount(Tally(ls));
    var top := Top(ls);
    TopIsPrefix(ls);
    RankedCovers(ls);
    forall l, i | l in ls && l !in top && 0 <= i < |top|
      ensures OutRanks(ls, top[i], l)
    {
      var q :| 0 <= q < |ranked| && Labels(ranked)[q] == l;
      assert ranked[q].name == l;
      assert q >= |top|;
      RankedPairOutRanks(ls, i, q);
    }
  }

  /** Of two entries of the sorted tally, the earlier one's label outranks
      the later one's. */
  lemma RankedPairOutRanks(ls: seq<string>, i: nat, j: nat)
    requires i < j < |SortByCount(Tally(ls))|
    ensures OutRanks(ls, SortByCount(Tally(ls))[i].name, SortByCount(Tally(ls))[j].name)
  {
    RankedCounts(ls);
    RankedOrder(ls);
  }
}
