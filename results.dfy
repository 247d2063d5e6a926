/**
 * The election results page: for each position, the tally ranked by votes
 * (highest first, ties in input order), the total, the leader banner shown
 * only when some vote was cast, and each candidate's percentage share.
 * Everything here is a function of the fetched results; nothing mutates
 * them.
 */
module Results {

  import opened Api

  /** One candidate's line in `GET /results`. */
  datatype TallyEntry = TallyEntry(name: string, imageUrl: string, votes: nat)

  predicate NonIncreasing(s: seq<TallyEntry>)
  {
    forall i, j :: 0 <= i < j < |s| ==> s[i].votes >= s[j].votes
  }

  /** The entries with exactly `v` votes, in their order in `s`. */
  function WithVotes(s: seq<TallyEntry>, v: nat): seq<TallyEntry>
  {
    if s == [] then []
    else WithVotes(s[..|s| - 1], v) + (if s[|s| - 1].votes == v then [s[|s| - 1]] else [])
  }

  lemma {:induction false} WithVotesNone(s: seq<TallyEntry>, v: nat)
    requires forall i :: 0 <= i < |s| ==> s[i].votes < v
    ensures WithVotes(s, v) == []
  {
    if s != [] {
      WithVotesNone(s[..|s| - 1], v);
    }
  }

  lemma {:induction false} WithVotesCons(x: TallyEntry, s: seq<TallyEntry>, v: nat)
    ensures WithVotes([x] + s, v) == (if x.votes == v then [x] else []) + WithVotes(s, v)
  {
    if s != [] {
      assert ([x] + s)[..|s|] == [x] + s[..|s| - 1];
      WithVotesCons(x, s[..|s| - 1], v);
    } else {
      assert ([x] + s)[..0] == [];
    }
  }

  /** Places `x` after every entry with at least as many votes. */
  function Insert(x: TallyEntry, r: seq<TallyEntry>): seq<TallyEntry>
  {
    if r == [] then [x]
    else if r[0].votes >= x.votes then [r[0]] + Insert(x, r[1..])
    else [x] + r
  }

  lemma {:induction false} InsertSorted(x: TallyEntry, r: seq<TallyEntry>)
    requires NonIncreasing(r)
    ensures NonIncreasing(Insert(x, r))
    ensures |Insert(x, r)| == |r| + 1
    ensures forall i :: 0 <= i < |Insert(x, r)| ==> Insert(x, r)[i] == x || Insert(x, r)[i] in r
  {
    if r != [] && r[0].votes >= x.votes {
      InsertSorted(x, r[1..]);
    }
  }

  lemma {:induction false} InsertPermutes(x: TallyEntry, r: seq<TallyEntry>)
    ensures multiset(Insert(x, r)) == multiset(r) + multiset{x}
  {
    if r != [] && r[0].votes >= x.votes {
      InsertPermutes(x, r[1..]);
      assert r == [r[0]] + r[1..];
    }
  }

  lemma {:induction false} InsertStable(x: TallyEntry, r: seq<TallyEntry>, v: nat)
    requires NonIncreasing(r)
    ensures WithVotes(Insert(x, r), v) == WithVotes(r, v) + (if x.votes == v then [x] else [])
  {
    if r == [] {
      assert [x][..0] == [];
    } else if r[0].votes >= x.votes {
      InsertStable(x, r[1..], v);
      assert r == [r[0]] + r[1..];
      WithVotesCons(r[0], Insert(x, r[1..]), v);
      WithVotesCons(r[0], r[1..], v);
    } else {
      WithVotesCons(x, r, v);
      if x.votes == v {
        WithVotesNone(r, v);
      }
    }
  }

  /**
   * `[...candidates].sort((a, b) => b.votes - a.votes)`: a copy ranked by
   * votes, highest first. The sort of ECMAScript is stable (section
   * 22.1.3.27 of ECMAScript 2019), so entries with equal votes keep their
   * input order: for every vote count the entries having it appear in the
   * same order before and after.
   */
  function SortByVotes(s: seq<TallyEntry>): (r: seq<TallyEntry>)
    ensures NonIncreasing(r)
    ensures multiset(r) == multiset(s)
    ensures forall v: nat {:trigger WithVotes(r, v)} :: WithVotes(r, v) == WithVotes(s, v)
  {
    if s == [] then []
    else
      var init := s[..|s| - 1];
      var x := s[|s| - 1];
      var ranked := SortByVotes(init);
      assert s == init + [x];
      InsertSorted(x, ranked);
      InsertPermutes(x, ranked);
      forall v: nat ensures WithVotes(Insert(x, ranked), v) == WithVotes(s, v) {
        InsertStable(x, ranked, v);
      }
      Insert(x, ranked)
  }

  /** `reduce((sum, c) => sum + c.votes, 0)`. */
  function Total(s: seq<TallyEntry>): nat
  {
    if s == [] then 0 else s[0].votes + Total(s[1..])
  }

  lemma {:induction false} TotalSnoc(s: seq<TallyEntry>, x: TallyEntry)
    ensures Total(s + [x]) == Total(s) + x.votes
  {
    if s != [] {
      assert (s + [x])[1..] == s[1..] + [x];
      TotalSnoc(s[1..], x);
    }
  }

  lemma {:induction false} TotalInsert(x: TallyEntry, r: seq<TallyEntry>)
    requires NonIncreasing(r)
    ensures Total(Insert(x, r)) == Total(r) + x.votes
  {
    if r != [] && r[0].votes >= x.votes {
      TotalInsert(x, r[1..]);
    }
  }

  /** The total computed over the ranked copy is the sum of every
      candidate's votes in the fetched tally. */
  lemma {:induction false} TotalOfRanking(s: seq<TallyEntry>)
    ensures Total(SortByVotes(s)) == Total(s)
  {
    if s != [] {
      var init := s[..|s| - 1];
      TotalOfRanking(init);
      assert SortByVotes(s) == Insert(s[|s| - 1], SortByVotes(init));
      TotalInsert(s[|s| - 1], SortByVotes(init));
      assert s == init + [s[|s| - 1]];
      TotalSnoc(init, s[|s| - 1]);
    }
  }

  lemma {:induction false} TotalBoundsEach(s: seq<TallyEntry>, i: nat)
    requires i < |s|
    ensures s[i].votes <= Total(s)
  {
    if i > 0 {
      TotalBoundsEach(s[1..], i - 1);
    }
  }

  /** The width of a bar, `(votes / total) * 100` with a zero-total guard,
      as an exact rational. */
  function Share(votes: nat, total: nat): real
  {
    if total > 0 then (votes as real) * 100.0 / (total as real) else 0.0
  }

  /**
   * The leader's printed figure, `Math.round((votes / total) * 100)`, and
   * 0 when the total is 0. It is modelled as the exact ratio 100 * votes /
   * total rounded half up, which is the integer quotient (200 * votes +
   * total) / (2 * total). The browser computes the product in binary
   * floating point, and it can land just below a .5 that is exact here:
   * 23 votes of 40 give 57.49999999999999, which the browser rounds to 57,
   * where this function gives 58.
   */
  function RoundedPercent(votes: nat, total: nat): (r: nat)
    ensures total == 0 ==> r == 0
    ensures total > 0 ==> 2 * total * r <= 200 * votes + total < 2 * total * (r + 1)
    ensures votes <= total ==> r <= 100
  {
    if total > 0 then
      var q := (200 * votes + total) / (2 * total);
      RoundingBounds(votes, total, q);
      q
    else 0
  }

  lemma RoundingBounds(votes: nat, total: nat, q: nat)
    requires total > 0 && q == (200 * votes + total) / (2 * total)
    ensures 2 * total * q <= 200 * votes + total < 2 * total * (q + 1)
    ensures votes <= total ==> q <= 100
  {
    var m := (200 * votes + total) % (2 * total);
    assert 200 * votes + total == 2 * total * q + m;
    MulAtLeast(2 * total, q - 100);
  }

  lemma MulAtLeast(k: nat, a: int)
    ensures a >= 1 ==> k * a >= k
  {
    if a >= 1 {
      assert k * a == k + k * (a - 1);
    }
  }

  /** A share is a percentage: between 0 and 100 for a candidate whose
      votes are part of the total. */
  lemma ShareBounds(votes: nat, total: nat)
    requires votes <= total
    ensures 0.0 <= Share(votes, total) <= 100.0
  {
    if total > 0 {
      var t := total as real;
      assert (votes as real) * 100.0 <= t * 100.0;
    }
  }

  /** The bar widths of one position, summed. */
  function SumShares(s: seq<TallyEntry>, total: nat): real
  {
    if s == [] then 0.0 else Share(s[0].votes, total) + SumShares(s[1..], total)
  }

  lemma {:induction false} SumSharesScaled(s: seq<TallyEntry>, total: nat)
    requires total > 0
    ensures SumShares(s, total) * (total as real) == (Total(s) as real) * 100.0
  {
    if s != [] {
      SumSharesScaled(s[1..], total);
      var t := total as real;
      var a := (s[0].votes as real) * 100.0;
      assert (a / t) * t == a;
      assert SumShares(s, total) * t == (a / t) * t + SumShares(s[1..], total) * t;
    }
  }

  /** With a non-zero total the bars of a position add up to exactly 100;
      with a zero total every bar is 0. */
  lemma SharesSumTo100(s: seq<TallyEntry>)
    ensures Total(s) > 0 ==> SumShares(s, Total(s)) == 100.0
    ensures Total(s) == 0 ==> forall i :: 0 <= i < |s| ==> Share(s[i].votes, Total(s)) == 0.0
  {
    if Total(s) > 0 {
      SumSharesScaled(s, Total(s));
      var t := Total(s) as real;
      CancelFactor(SumShares(s, Total(s)), 100.0, t);
    }
  }

  lemma CancelFactor(x: real, y: real, t: real)
    requires t > 0.0 && x * t == y * t
    ensures x == y
  {
    assert (x - y) * t == 0.0;
  }

  /** The banner above a position's list: the leader, its bar and its
      rounded figure. */
  datatype LeaderBanner = LeaderBanner(leader: TallyEntry, barWidth: real, percent: nat)

  /** One ranked line: the candidate and its bar width. */
  datatype Line = Line(entry: TallyEntry, barWidth: real)

  /** What a position's card shows. */
  datatype Card =
    | NoCandidates
    | Standings(lines: seq<Line>, total: nat, banner: Option<LeaderBanner>)

  function Entries(lines: seq<Line>): (r: seq<TallyEntry>)
    ensures |r| == |lines| && forall i :: 0 <= i < |lines| ==> r[i] == lines[i].entry
  {
    if lines == [] then [] else [lines[0].entry] + Entries(lines[1..])
  }

  /** Every ranked entry with its bar width. */
  function Lines(ranked: seq<TallyEntry>, total: nat): (ls: seq<Line>)
    ensures |ls| == |ranked|
    ensures forall i :: 0 <= i < |ranked| ==> ls[i] == Line(ranked[i], Share(ranked[i].votes, total))
  {
    if ranked == [] then [] else [Line(ranked[0], Share(ranked[0].votes, total))] + Lines(ranked[1..], total)
  }

  /** The first ranked entry has at least as many votes as any candidate of
      the tally, and at most the total. */
  lemma LeaderBeatsAll(tally: seq<TallyEntry>)
    requires tally != []
    ensures SortByVotes(tally) != []
    ensures forall e :: e in tally ==> e.votes <= SortByVotes(tally)[0].votes
    ensures SortByVotes(tally)[0].votes <= Total(tally)
  {
    var ranked := SortByVotes(tally);
    assert tally[0] in multiset(ranked);
    forall e | e in tally ensures e.votes <= ranked[0].votes {
      assert e in multiset(ranked);
      var k :| 0 <= k < |ranked| && ranked[k] == e;
    }
    TotalBoundsEach(ranked, 0);
    TotalOfRanking(tally);
  }

  /**
   * One position's card. An empty tally takes the "no candidates" branch.
   * Otherwise the lines are the ranked copy with each candidate's share,
   * the total is the sum of all votes, and the leader banner shows the
   * first ranked entry, which no candidate beats, exactly when the total
   * is positive, with its share rounded half up.
   */
  function PositionCard(tally: seq<TallyEntry>): (c: Card)
    ensures c.NoCandidates? <==> tally == []
    ensures c.Standings? ==> Entries(c.lines) == SortByVotes(tally) && c.total == Total(tally)
    ensures c.Standings? ==> forall i :: 0 <= i < |c.lines| ==> c.lines[i].barWidth == Share(c.lines[i].entry.votes, c.total)
    ensures c.Standings? ==> (c.banner.Some? <==> c.total > 0)
    ensures c.Standings? && c.banner.Some? ==>
              c.banner.value.leader == c.lines[0].entry
              && (forall e :: e in tally ==> e.votes <= c.banner.value.leader.votes)
              && c.banner.value.barWidth == Share(c.banner.value.leader.votes, c.total)
              && c.banner.value.percent == RoundedPercent(c.banner.value.leader.votes, c.total)
              && c.banner.value.percent <= 100
  {
    if tally == [] then NoCandidates
    else
      var ranked := SortByVotes(tally);
      var total := Total(ranked);
      TotalOfRanking(tally);
      LeaderBeatsAll(tally);
      var lines := Lines(ranked, total);
      assert Entries(lines) == ranked;
      var banner :=
        if total > 0 then Some(LeaderBanner(ranked[0], Share(ranked[0].votes, total), RoundedPercent(ranked[0].votes, total)))
        else None;
      Standings(lines, total, banner)
  }

  /** What the page shows once loading has finished. */
  datatype Page = NoResults | Cards(cards: seq<(string, Card)>)

  /**
   * The results page for the fetched object, whose entries are given in
   * its key order: "no results" exactly when the object has no keys,
   * otherwise one card per key, in key order.
   */
  function ResultsPage(results: seq<(string, seq<TallyEntry>)>): (p: Page)
    ensures p.NoResults? <==> |results| == 0
    ensures p.Cards? ==> |p.cards| == |results|
    ensures p.Cards? ==> forall i :: 0 <= i < |results| ==> p.cards[i] == (results[i].0, PositionCard(results[i].1))
  {
    if |results| == 0 then NoResults
    else Cards(seq(|results|, i requires 0 <= i < |results| => (results[i].0, PositionCard(results[i].1))))
  }

  /** A tally of 7 and 3 votes: the first candidate leads with 70 per cent,
      the second has a 30 per cent bar, and the total is 10. */
  lemma SevenThree()
    ensures var c := PositionCard([TallyEntry("A", "", 7), TallyEntry("B", "", 3)]);
      && c.Standings? && c.total == 10 && |c.lines| == 2
      && c.banner == Some(LeaderBanner(TallyEntry("A", "", 7), 70.0, 70))
      && c.lines[1] == Line(TallyEntry("B", "", 3), 30.0)
  {
    var a, b := TallyEntry("A", "", 7), TallyEntry("B", "", 3);
    var tally := [a, b];
    assert tally[..1] == [a];
    assert [a][..0] == [];
    assert SortByVotes(tally) == [a, b];
  }
}
