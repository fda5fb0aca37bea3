/**
  `rank_matches` (backend/app/model/ranking.py): orders match records by their
  `confidence`, highest first, with a missing confidence counting as 0.
 */
module Ranking {
  import opened Wrappers
  import opened Sorting

  /** A match record: an identifier and an optional numeric confidence. */
  datatype MatchRecord = MatchRecord(id: string, confidence: Option<real>)

  /** The sort key, `x.get("confidence", 0)`. */
  function ConfidenceOf(m: MatchRecord): (c: real)
    ensures m.confidence.None? ==> c == 0.0
    ensures m.confidence.Some? ==> c == m.confidence.value
  {
    m.confidence.GetOr(0.0)
  }

  /** `sorted(matches, key=..., reverse=True)`: a new list; the argument is a value and is not changed. */
  function RankMatches(matches: seq<MatchRecord>): (r: seq<MatchRecord>)
    ensures multiset(r) == multiset(matches)
    ensures forall i, j :: 0 <= i < j < |r| ==> ConfidenceOf(r[i]) >= ConfidenceOf(r[j])
  {
    SortDesc(matches, ConfidenceOf)
  }

  /** Records with equal confidence keep their input order. */
  lemma RankMatchesStable(matches: seq<MatchRecord>, c: real)
    ensures KeyClass(RankMatches(matches), ConfidenceOf, c) == KeyClass(matches, ConfidenceOf, c)
  {
    SortDescStable(matches, ConfidenceOf, c);
  }

  /**
    A record without a confidence is placed exactly as a record with confidence 0:
    every record before it has confidence at least 0 and every record after it at most 0,
    and it keeps its input order relative to every other record whose key is 0.
   */
  lemma MissingConfidenceRanksAsZero(matches: seq<MatchRecord>, k: nat)
    requires k < |RankMatches(matches)| && RankMatches(matches)[k].confidence.None?
    ensures forall i :: 0 <= i < k ==> ConfidenceOf(RankMatches(matches)[i]) >= 0.0
    ensures forall j :: k < j < |matches| ==> ConfidenceOf(RankMatches(matches)[j]) <= 0.0
    ensures KeyClass(RankMatches(matches), ConfidenceOf, 0.0) == KeyClass(matches, ConfidenceOf, 0.0)
  {
    var r := RankMatches(matches);
    assert ConfidenceOf(r[k]) == 0.0;
    RankMatchesStable(matches, 0.0);
  }

  /** Ranking an already ranked list changes nothing. */
  lemma RankMatchesIdempotent(matches: seq<MatchRecord>)
    ensures RankMatches(RankMatches(matches)) == RankMatches(matches)
  {
    SortDescIdempotent(matches, ConfidenceOf);
  }

  /** A list already in descending confidence order is returned unchanged. */
  lemma RankMatchesOfRanked(matches: seq<MatchRecord>)
    requires forall i, j :: 0 <= i < j < |matches| ==> ConfidenceOf(matches[i]) >= ConfidenceOf(matches[j])
    ensures RankMatches(matches) == matches
  {
    SortDescOfDescending(matches, ConfidenceOf);
  }

  /** `[{a, 0.2}, {b}, {c, 0.9}]` ranks as `[c, a, b]`. */
  lemma RankMatchesExample()
    ensures RankMatches([MatchRecord("a", Some(0.2)), MatchRecord("b", None), MatchRecord("c", Some(0.9))])
         == [MatchRecord("c", Some(0.9)), MatchRecord("a", Some(0.2)), MatchRecord("b", None)]
  {
    RankThree(MatchRecord("a", Some(0.2)), MatchRecord("b", None), MatchRecord("c", Some(0.9)));
  }

  lemma RankThree(a: MatchRecord, b: MatchRecord, c: MatchRecord)
    requires ConfidenceOf(b) <= ConfidenceOf(a) < ConfidenceOf(c)
    ensures RankMatches([a, b, c]) == [c, a, b]
  {
    ThreeSplit(a, b, c);
    RankThreeSplit(a, b, c);
  }

  lemma ThreeSplit(a: MatchRecord, b: MatchRecord, c: MatchRecord)
    ensures [a, b, c] == [a] + [b, c]
  {}

  lemma RankThreeSplit(a: MatchRecord, b: MatchRecord, c: MatchRecord)
    requires ConfidenceOf(b) <= ConfidenceOf(a) < ConfidenceOf(c)
    ensures SortDesc([a] + [b, c], ConfidenceOf) == [c, a, b]
  {
    SortTwo(b, c);
    InsertBelow(a, c, b);
    SortCons(a, [b, c]);
  }

  lemma SortCons(x: MatchRecord, s: seq<MatchRecord>)
    ensures SortDesc([x] + s, ConfidenceOf) == InsertDesc(x, SortDesc(s, ConfidenceOf), ConfidenceOf)
  {
    assert ([x] + s)[1..] == s;
  }

  lemma SortTwo(b: MatchRecord, c: MatchRecord)
    requires ConfidenceOf(b) < ConfidenceOf(c)
    ensures SortDesc([b, c], ConfidenceOf) == [c, b]
  {
    assert [b, c] == [b] + [c];
    SortTwoSplit(b, c);
  }

  lemma SortTwoSplit(b: MatchRecord, c: MatchRecord)
    requires ConfidenceOf(b) < ConfidenceOf(c)
    ensures SortDesc([b] + [c], ConfidenceOf) == [c, b]
  {
    SortCons(b, [c]);
    SortOne(c);
    assert [c][1..] == [];
  }

  lemma SortOne(c: MatchRecord)
    ensures SortDesc([c], ConfidenceOf) == [c]
  {
    assert [c] == [c] + [];
    SortCons(c, []);
  }

  lemma InsertBelow(a: MatchRecord, c: MatchRecord, b: MatchRecord)
    requires ConfidenceOf(b) <= ConfidenceOf(a) < ConfidenceOf(c)
    ensures InsertDesc(a, [c, b], ConfidenceOf) == [c, a, b]
  {
    assert [c, b][1..] == [b];
  }
}
