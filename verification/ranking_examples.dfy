/** The ranking on a concrete tally: two labels tied at two occurrences and a
    third given once. */
module RankingExamples {
  import opened Ranking

  /** Tallying one more label is a single `Bump` of the earlier tally. */
  lemma TallySnoc(ls: seq<string>, x: string, full: seq<string>)
    requires full == ls + [x]
    ensures Tally(full) == Bump(Tally(ls), x)
  {
    assert full[..|ls|] == ls;
  }

  /** Counting the label of entry `k` raises that entry's count by one. */
  lemma BumpAt(es: seq<Entry>, k: nat, l: string)
    requires DistinctLabels(es) && k < |es| && es[k].name == l
    ensures Bump(es, l) == es[k := Entry(l, es[k].count + 1)]
  {
    NameListed(es, k);
    var r := Bump(es, l);
    forall i | 0 <= i < |es| ensures r[i] == es[k := Entry(l, es[k].count + 1)][i] {
      if i != k {
        assert Labels(es)[i] != Labels(es)[k];
      }
    }
  }

  lemma TallyOne(a: string)
    ensures Tally([a]) == [Entry(a, 1)]
  {
    TallySnoc([], a, [a]);
    assert Labels([]) == [];
  }

  lemma TallyTwo(a: string, b: string)
    requires a != b
    ensures Tally([a, b]) == [Entry(a, 1), Entry(b, 1)]
  {
    TallyOne(a);
    TallySnoc([a], b, [a, b]);
    assert Labels([Entry(a, 1)]) == [a];
  }

  lemma TallyThree(a: string, b: string)
    requires a != b
    ensures Tally([a, b, a]) == [Entry(a, 2), Entry(b, 1)]
  {
    TallyTwo(a, b);
    TallySnoc([a, b], a, [a, b, a]);
    BumpAt([Entry(a, 1), Entry(b, 1)], 0, a);
  }

  lemma TallyFour(a: string, b: string)
    requires a != b
    ensures Tally([a, b, a, b]) == [Entry(a, 2), Entry(b, 2)]
  {
    TallyThree(a, b);
    TallySnoc([a, b, a], b, [a, b, a, b]);
    BumpAt([Entry(a, 2), Entry(b, 1)], 1, b);
  }

  lemma TallyFive(a: string, b: string, c: string)
    requires a != b && b != c && a != c
    ensures Tally([a, b, a, b, c]) == [Entry(a, 2), Entry(b, 2), Entry(c, 1)]
  {
    var es := [Entry(a, 2), Entry(b, 2)];
    TallyFour(a, b);
    TallySnoc([a, b, a, b], c, [a, b, a, b, c]);
    assert Labels(es) == [a, b];
    assert Bump(es, c) == es + [Entry(c, 1)];
  }

  lemma SortKeepsTiedOrder(a: string, b: string, c: string)
    ensures SortByCount([Entry(a, 2), Entry(b, 2), Entry(c, 1)])
         == [Entry(a, 2), Entry(b, 2), Entry(c, 1)]
  {
    var t := [Entry(a, 2), Entry(b, 2), Entry(c, 1)];
    assert SortByCount(t[2..]) == [Entry(c, 1)];
    assert SortByCount(t[1..]) == t[1..];
  }

  lemma RankedTie(a: string, b: string, c: string)
    requires a != b && b != c && a != c
    ensures SortByCount(Tally([a, b, a, b, c])) == [Entry(a, 2), Entry(b, 2), Entry(c, 1)]
  {
    TallyFive(a, b, c);
    SortKeepsTiedOrder(a, b, c);
  }

  /** The top list is the labels of the first three ranked entries. */
  lemma TopOfRanked(ls: seq<string>, ranked: seq<Entry>)
    requires SortByCount(Tally(ls)) == ranked && |ranked| == TopCount
    ensures Top(ls) == Labels(ranked)
  {
    assert ranked[..Min(TopCount, |ranked|)] == ranked;
  }

  lemma LabelsOfThree(x: Entry, y: Entry, z: Entry)
    ensures Labels([x, y, z]) == [x.name, y.name, z.name]
  {
    var ls := Labels([x, y, z]);
    assert ls[0] == x.name && ls[1] == y.name && ls[2] == z.name;
  }

  lemma TopOfTie(a: string, b: string, c: string)
    requires a != b && b != c && a != c
    ensures Top([a, b, a, b, c]) == [a, b, c]
  {
    var t := [Entry(a, 2), Entry(b, 2), Entry(c, 1)];
    RankedTie(a, b, c);
    TopOfRanked([a, b, a, b, c], t);
    LabelsOfThree(Entry(a, 2), Entry(b, 2), Entry(c, 1));
  }

  /** Two labels given twice each and one given once: the tied pair keeps the
      order in which the labels were first given, whichever that is. */
  lemma TopBreaksTiesByFirstSeen(a: string, b: string, c: string)
    requires a != b && b != c && a != c
    ensures Top([a, b, a, b, c]) == [a, b, c]
    ensures Top([b, a, b, a, c]) == [b, a, c]
  {
    TopOfTie(a, b, c);
    TopOfTie(b, a, c);
  }
}
