/** The challenge leaderboard: percentile tiers, their colours and the search filter. */
module Leaderboard {
  import opened Numbers
  import opened Text

  datatype Trend = Up | Down | Neutral

  datatype LeaderboardEntry = LeaderboardEntry(rank: int, pseudonym: string, score: int, trend: Trend, isCurrentUser: bool)

  function RawPercent(rank: int, total: nat): real
    requires total > 0
  {
    ((total - rank + 1) as real / total as real) * 100.0
  }

  lemma RawPercentBounds(rank: int, total: nat)
    requires total > 0
    ensures rank == 1 ==> Round(RawPercent(rank, total)) == 100
    ensures 1 <= rank <= total ==> 0 <= Round(RawPercent(rank, total)) <= 100
  {
    RoundOfInt(0);
    RoundOfInt(100);
    if 1 <= rank <= total {
      RoundMonotone(0.0, RawPercent(rank, total));
      RoundMonotone(RawPercent(rank, total), 100.0);
    }
  }

  /**
   * The share of the board at or below a rank, rounded to a whole percent; `total` is the
   * number of entries on the whole board, not only those shown, so at least the entry being rated.
   */
  function Percentile(rank: int, total: nat): (p: int)
    requires total > 0
    ensures p as real - 0.5 <= ((total - rank + 1) as real / total as real) * 100.0 < p as real + 0.5
    ensures rank == 1 ==> p == 100
    ensures 1 <= rank <= total ==> 0 <= p <= 100
  {
    RawPercentBounds(rank, total);
    Round(RawPercent(rank, total))
  }

  /** A lower place never has a higher percentile. */
  lemma PercentileNonIncreasing(r1: int, r2: int, total: nat)
    requires total > 0 && 1 <= r1 <= r2 <= total
    ensures Percentile(r2, total) <= Percentile(r1, total)
  {
    var x1 := RawPercent(r1, total);
    var x2 := RawPercent(r2, total);
    assert (total - r2 + 1) as real <= (total - r1 + 1) as real;
    assert x2 <= x1;
    RoundMonotone(x2, x1);
  }

  /**
   * Third of ten holds 8 of the 10 places at or below it: 80; second of three rounds 66.7 up
   * to 67; the last of ten is at 10, the bottom tier.
   */
  lemma PercentileExamples()
    ensures Percentile(3, 10) == 80
    ensures Percentile(2, 3) == 67
    ensures Percentile(10, 10) == 10 && GetPercentile(10, 10) == Foundational
  {
    assert RawPercent(3, 10) == 80.0;
    RoundOfInt(80);
    RoundNear(RawPercent(2, 3), 67);
    assert RawPercent(10, 10) == 10.0;
    RoundOfInt(10);
  }

  datatype Tier = Elite | Advanced | Intermediate | Developing | Foundational

  /** getPercentile: the tier of the percentile, 90 / 75 / 50 / 25 being the lower bounds. */
  function GetPercentile(rank: int, total: nat): (t: Tier)
    requires total > 0
    ensures t == Elite <==> Percentile(rank, total) >= 90
    ensures t == Advanced <==> 75 <= Percentile(rank, total) < 90
    ensures t == Intermediate <==> 50 <= Percentile(rank, total) < 75
    ensures t == Developing <==> 25 <= Percentile(rank, total) < 50
    ensures t == Foundational <==> Percentile(rank, total) < 25
  {
    var p := Percentile(rank, total);
    if p >= 90 then Elite
    else if p >= 75 then Advanced
    else if p >= 50 then Intermediate
    else if p >= 25 then Developing
    else Foundational
  }

  datatype TierColor = SignalSuccess | BrandElectric | SignalCaution | SignalCritical

  /** getPercentileColor: the first three tiers' bands, everything below 50 critical. */
  function GetPercentileColor(rank: int, total: nat): (c: TierColor)
    requires total > 0
    ensures c == SignalSuccess <==> GetPercentile(rank, total) == Elite
    ensures c == BrandElectric <==> GetPercentile(rank, total) == Advanced
    ensures c == SignalCaution <==> GetPercentile(rank, total) == Intermediate
    ensures c == SignalCritical <==> GetPercentile(rank, total) in {Developing, Foundational}
  {
    var p := Percentile(rank, total);
    if p >= 90 then SignalSuccess
    else if p >= 75 then BrandElectric
    else if p >= 50 then SignalCaution
    else SignalCritical
  }

  /** The top of any board is Elite. */
  lemma LeaderIsElite(total: nat)
    requires total > 0
    ensures GetPercentile(1, total) == Elite && GetPercentileColor(1, total) == SignalSuccess
  {
  }

  /** The search: the lower-cased pseudonym contains the lower-cased query, or the rank's digits contain it. */
  predicate Matches(entry: LeaderboardEntry, searchQuery: string) {
    Contains(Lower(entry.pseudonym), Lower(searchQuery)) || Contains(IntToString(entry.rank), searchQuery)
  }

  /** filteredEntries: the matching entries in board order. */
  function FilteredEntries(entries: seq<LeaderboardEntry>, searchQuery: string): (r: seq<LeaderboardEntry>)
    ensures |r| <= |entries|
    ensures forall e :: e in r <==> e in entries && Matches(e, searchQuery)
  {
    if entries == [] then []
    else
      var rest := FilteredEntries(entries[1..], searchQuery);
      if Matches(entries[0], searchQuery) then [entries[0]] + rest else rest
  }

  /** Filtering distributes over concatenation, so the kept entries stay in board order. */
  lemma {:induction false} FilteredEntriesAppend(a: seq<LeaderboardEntry>, b: seq<LeaderboardEntry>, searchQuery: string)
    ensures FilteredEntries(a + b, searchQuery) == FilteredEntries(a, searchQuery) + FilteredEntries(b, searchQuery)
  {
    if a == [] {
      assert a + b == b;
    } else {
      assert (a + b)[0] == a[0];
      assert (a + b)[1..] == a[1..] + b;
      FilteredEntriesAppend(a[1..], b, searchQuery);
    }
  }

  /** An empty search keeps the whole board. */
  lemma {:induction false} EmptySearchKeepsAll(entries: seq<LeaderboardEntry>)
    ensures FilteredEntries(entries, "") == entries
  {
    if entries != [] {
      ContainsEmpty(Lower(entries[0].pseudonym));
      assert Lower("") == "";
      EmptySearchKeepsAll(entries[1..]);
    }
  }

  /** The search ignores ASCII case: "phoenix" finds "PhoenixX". */
  lemma SearchIgnoresCase()
    ensures Matches(LeaderboardEntry(1, "PhoenixX", 2850, Up, false), "phoenix")
  {
    var l := Lower("PhoenixX");
    assert l[..7] == "phoenix";
    assert Lower("phoenix") == "phoenix";
    ContainsAt(l, "phoenix", 0);
  }
}
