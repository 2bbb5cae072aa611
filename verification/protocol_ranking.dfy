/**
 * recommendProtocols: the safety filter, scoring, a stable descending sort of the scored
 * candidates in place, the top `limit` of them, and the explanation attached to each pick.
 */
module ProtocolRanking {
  import opened Numbers
  import opened Text
  import opened AdaptiveCoach

  datatype Scored = Scored(protocol: AdaptiveProtocol, score: real)

  datatype AdaptiveRecommendation = AdaptiveRecommendation(
    protocol: AdaptiveProtocol,
    confidence: real,
    reasoning: seq<Piece>,
    riskFactors: seq<string>,
    expectedBenefits: seq<string>,
    alternativeProtocols: seq<AdaptiveProtocol>)

  const BelowMinimumRisk := "VFC below recommended minimum - proceed with caution"
  const HighFatigueRisk := "High fatigue detected - consider lighter option"
  const LimitedRecoveryRisk := "Limited recovery - avoid high intensity"
  const StressBenefit := "Good for stress management"
  const RecoveryWindowBenefit := "Excellent recovery window"

  // ===== Safety filter =====

  /** Kept when the reading meets the protocol's minimum, or the level is not critical. */
  predicate IsSafe(state: RecoveryState, p: AdaptiveProtocol) {
    state.vfc.vfcValue >= p.vfcMinimum || state.vfc.level != Critical
  }

  /** The candidates that pass the safety check, in catalogue order. */
  function SafeProtocols(state: RecoveryState, ps: seq<AdaptiveProtocol>): (safe: seq<AdaptiveProtocol>)
    ensures |safe| <= |ps|
    ensures forall p :: p in safe <==> p in ps && IsSafe(state, p)
    ensures state.vfc.level != Critical ==> safe == ps
  {
    if ps == [] then []
    else if IsSafe(state, ps[0]) then [ps[0]] + SafeProtocols(state, ps[1..])
    else SafeProtocols(state, ps[1..])
  }

  /** The filter distributes over concatenation, so the kept candidates stay in catalogue order, each as often as it occurs. */
  lemma {:induction false} SafeProtocolsAppend(state: RecoveryState, a: seq<AdaptiveProtocol>, b: seq<AdaptiveProtocol>)
    ensures SafeProtocols(state, a + b) == SafeProtocols(state, a) + SafeProtocols(state, b)
  {
    if a == [] {
      assert a + b == b;
    } else {
      assert (a + b)[0] == a[0];
      assert (a + b)[1..] == a[1..] + b;
      SafeProtocolsAppend(state, a[1..], b);
    }
  }

  /** A candidate is kept exactly as many times as the catalogue lists it when safe, and never when unsafe. */
  lemma {:induction false} SafeProtocolsCount(state: RecoveryState, ps: seq<AdaptiveProtocol>, p: AdaptiveProtocol)
    ensures multiset(SafeProtocols(state, ps))[p] == if IsSafe(state, p) then multiset(ps)[p] else 0
  {
    if ps != [] {
      assert ps == [ps[0]] + ps[1..];
      SafeProtocolsCount(state, ps[1..], p);
    }
  }

  /** A protocol is dropped only when the level is critical and the reading is below its minimum. */
  lemma ExcludedOnlyWhenCriticalAndBelowMinimum(state: RecoveryState, ps: seq<AdaptiveProtocol>, p: AdaptiveProtocol)
    requires p in ps
    ensures p !in SafeProtocols(state, ps) <==> state.vfc.level == Critical && state.vfc.vfcValue < p.vfcMinimum
  {
  }

  /** Every surviving candidate paired with its compatibility score, in order. */
  function ScoreAll(state: RecoveryState, ps: seq<AdaptiveProtocol>): (scored: seq<Scored>)
    ensures |scored| == |ps|
    ensures forall i :: 0 <= i < |ps| ==> scored[i] == Scored(ps[i], ProtocolScore(ps[i], state))
  {
    seq(|ps|, i requires 0 <= i < |ps| => Scored(ps[i], ProtocolScore(ps[i], state)))
  }

  // ===== Stable descending sort =====

  predicate SortedDesc(s: seq<Scored>) {
    forall i, j :: 0 <= i < j < |s| ==> s[i].score >= s[j].score
  }

  /** Places x after every entry scoring at least as much as x (so after its equals). */
  function InsertDesc(t: seq<Scored>, x: Scored): seq<Scored> {
    if t == [] || t[0].score < x.score then [x] + t else [t[0]] + InsertDesc(t[1..], x)
  }

  /**
   * The reference definition of the descending sort by score: a stable insertion
   * sort (Array.prototype.sort is stable), inserting each entry after the sorted prefix.
   */
  function SortByScore(s: seq<Scored>): seq<Scored> {
    if s == [] then [] else InsertDesc(SortByScore(s[..|s| - 1]), s[|s| - 1])
  }

  /** The entries of s scoring exactly v, in their order in s. */
  function WithScore(s: seq<Scored>, v: real): seq<Scored> {
    if s == [] then []
    else if s[0].score == v then [s[0]] + WithScore(s[1..], v)
    else WithScore(s[1..], v)
  }

  lemma {:induction false} InsertDescPermutes(t: seq<Scored>, x: Scored)
    ensures multiset(InsertDesc(t, x)) == multiset(t) + multiset{x}
    ensures |InsertDesc(t, x)| == |t| + 1
    decreases |t|
  {
    if t != [] && t[0].score >= x.score {
      InsertDescPermutes(t[1..], x);
      assert t == [t[0]] + t[1..];
    }
  }

  /** Inserting keeps every entry at or below a common bound. */
  lemma {:induction false} InsertDescBounded(t: seq<Scored>, x: Scored, b: real)
    requires forall k :: 0 <= k < |t| ==> t[k].score <= b
    requires x.score <= b
    ensures forall k :: 0 <= k < |InsertDesc(t, x)| ==> InsertDesc(t, x)[k].score <= b
    decreases |t|
  {
    if t != [] && t[0].score >= x.score {
      InsertDescBounded(t[1..], x, b);
    }
  }

  lemma {:induction false} InsertDescSorted(t: seq<Scored>, x: Scored)
    requires SortedDesc(t)
    ensures SortedDesc(InsertDesc(t, x))
    decreases |t|
  {
    if t == [] {
    } else if t[0].score < x.score {
      var r := [x] + t;
      forall i, j | 0 <= i < j < |r| ensures r[i].score >= r[j].score {
        if i == 0 && j > 1 {
          assert t[0].score >= t[j - 1].score;
        }
      }
    } else {
      var rest := InsertDesc(t[1..], x);
      InsertDescSorted(t[1..], x);
      InsertDescBounded(t[1..], x, t[0].score);
      var r := [t[0]] + rest;
      forall i, j | 0 <= i < j < |r| ensures r[i].score >= r[j].score {
        if i > 0 {
          assert r[i] == rest[i - 1] && r[j] == rest[j - 1];
        }
      }
    }
  }

  lemma {:induction false} InsertDescWithScore(t: seq<Scored>, x: Scored, v: real)
    requires SortedDesc(t)
    ensures WithScore(InsertDesc(t, x), v) == WithScore(t, v) + (if x.score == v then [x] else [])
    decreases |t|
  {
    if t == [] {
    } else if t[0].score < x.score {
      if x.score == v {
        NoneScoring(t, v);
      }
      assert InsertDesc(t, x)[1..] == t;
    } else {
      InsertDescWithScore(t[1..], x, v);
      assert InsertDesc(t, x)[1..] == InsertDesc(t[1..], x);
    }
  }

  /** In a descending sequence whose head is below v, nothing scores v. */
  lemma NoneScoring(t: seq<Scored>, v: real)
    requires SortedDesc(t) && (t == [] || t[0].score < v)
    ensures WithScore(t, v) == []
    decreases |t|
  {
    if t != [] {
      NoneScoring(t[1..], v);
    }
  }

  lemma WithScoreAppend(s: seq<Scored>, x: Scored, v: real)
    ensures WithScore(s + [x], v) == WithScore(s, v) + (if x.score == v then [x] else [])
    decreases |s|
  {
    if s != [] {
      assert (s + [x])[1..] == s[1..] + [x];
      WithScoreAppend(s[1..], x, v);
    }
  }

  /** SortByScore orders by non-increasing score, is a permutation, and keeps equal scores in input order. */
  lemma {:induction false} SortByScoreCorrect(s: seq<Scored>)
    ensures SortedDesc(SortByScore(s))
    ensures multiset(SortByScore(s)) == multiset(s)
    ensures |SortByScore(s)| == |s|
    ensures forall v :: WithScore(SortByScore(s), v) == WithScore(s, v)
  {
    if s != [] {
      var init, last := s[..|s| - 1], s[|s| - 1];
      assert s == init + [last];
      SortByScoreCorrect(init);
      InsertDescPermutes(SortByScore(init), last);
      InsertDescSorted(SortByScore(init), last);
      forall v ensures WithScore(SortByScore(s), v) == WithScore(s, v) {
        InsertDescWithScore(SortByScore(init), last, v);
        WithScoreAppend(init, last, v);
      }
    }
  }

  lemma {:induction false} SortByScoreSorted(s: seq<Scored>)
    ensures SortedDesc(SortByScore(s))
  {
    if s != [] {
      SortByScoreSorted(s[..|s| - 1]);
      InsertDescSorted(SortByScore(s[..|s| - 1]), s[|s| - 1]);
    }
  }

  /** Sorting one more element of s inserts it into the sorted shorter prefix. */
  lemma SortByScoreStep(s: seq<Scored>, i: nat)
    requires i < |s|
    ensures SortByScore(s[..i + 1]) == InsertDesc(SortByScore(s[..i]), s[i])
  {
    assert s[..i + 1][..i] == s[..i];
  }

  /** With x after a descending prefix t[..j] of entries scoring at least x and before entries scoring less. */
  lemma {:induction false} InsertDescAt(t: seq<Scored>, x: Scored, j: nat)
    requires j <= |t|
    requires forall m :: 0 <= m < j ==> t[m].score >= x.score
    requires j < |t| ==> t[j].score < x.score
    ensures InsertDesc(t, x) == t[..j] + [x] + t[j..]
    decreases j
  {
    if j > 0 {
      InsertDescAt(t[1..], x, j - 1);
      assert t[1..][..j - 1] == t[1..j];
      assert t[1..][j - 1..] == t[j..];
      assert t[..j] == [t[0]] + t[1..j];
    }
  }

  /** One pass of the insertion sort: moves a[i] left past every strictly lower score in the sorted a[..i]. */
  method InsertInto(a: array<Scored>, i: nat)
    requires i < a.Length
    requires SortedDesc(a[..i])
    modifies a
    ensures a[..i + 1] == InsertDesc(old(a[..i]), old(a[i]))
    ensures a[i + 1..] == old(a[i + 1..])
  {
    var key := a[i];
    ghost var t := a[..i];
    var j := ShiftLower(a, i, key.score);
    a[j] := key;
    ShiftedIsInsert(t, key, j, a[..i + 1]);
  }

  /** Shifts the entries of a[..i] scoring below `score` one place right; returns the gap left. */
  method ShiftLower(a: array<Scored>, i: nat, score: real) returns (j: nat)
    requires i < a.Length
    modifies a
    ensures j <= i
    ensures forall m :: 0 <= m < j ==> a[m] == old(a[m])
    ensures forall m :: j < m <= i ==> a[m] == old(a[m - 1])
    ensures forall m :: j <= m < i ==> old(a[m]).score < score
    ensures j > 0 ==> old(a[j - 1]).score >= score
    ensures forall m :: i < m < a.Length ==> a[m] == old(a[m])
  {
    j := i;
    while j > 0 && a[j - 1].score < score
      invariant 0 <= j <= i
      invariant forall m :: 0 <= m < j ==> a[m] == old(a[m])
      invariant forall m :: j < m <= i ==> a[m] == old(a[m - 1])
      invariant forall m :: j <= m < i ==> old(a[m]).score < score
      invariant forall m :: i < m < a.Length ==> a[m] == old(a[m])
    {
      a[j] := a[j - 1];
      j := j - 1;
    }
  }

  /** The array prefix left by one insertion pass is InsertDesc of the sorted prefix. */
  lemma ShiftedIsInsert(t: seq<Scored>, key: Scored, j: nat, s: seq<Scored>)
    requires SortedDesc(t) && j <= |t| && |s| == |t| + 1
    requires forall m :: 0 <= m < j ==> s[m] == t[m]
    requires s[j] == key
    requires forall m :: j < m < |s| ==> s[m] == t[m - 1]
    requires forall m :: j <= m < |t| ==> t[m].score < key.score
    requires j > 0 ==> t[j - 1].score >= key.score
    ensures s == InsertDesc(t, key)
  {
    assert forall m :: 0 <= m < j ==> t[m].score >= key.score by {
      if j > 0 {
        assert forall m :: 0 <= m < j ==> t[m].score >= t[j - 1].score;
      }
    }
    InsertDescAt(t, key, j);
    assert s == t[..j] + [key] + t[j..];
  }

  /** The descending sort by score, in place on the array. */
  method SortInPlace(a: array<Scored>)
    modifies a
    ensures a[..] == SortByScore(old(a[..]))
  {
    ghost var orig := a[..];
    var i := 0;
    while i < a.Length
      invariant 0 <= i <= a.Length
      invariant a[..i] == SortByScore(orig[..i])
      invariant a[i..] == orig[i..]
    {
      SortByScoreSorted(orig[..i]);
      SortByScoreStep(orig, i);
      assert a[i] == orig[i] && a[i + 1..] == orig[i + 1..];
      InsertInto(a, i);
      i := i + 1;
    }
    assert orig[..a.Length] == orig;
  }

  // ===== Explanation of one pick =====

  function RiskRank(r: string): nat {
    if r == BelowMinimumRisk then 0 else if r == HighFatigueRisk then 1 else 2
  }

  /** The risk factors of a pick, in the fixed order of the checks. */
  function RiskFactors(state: RecoveryState, p: AdaptiveProtocol): seq<string> {
    (if state.vfc.vfcValue < p.vfcMinimum then [BelowMinimumRisk] else [])
      + (if state.fatigueLevel > 70.0 then [HighFatigueRisk] else [])
      + (if state.recoveryPercentage < 50.0 then [LimitedRecoveryRisk] else [])
  }

  /** Each risk factor is present iff its condition holds; no other text; the fixed order. */
  lemma RiskFactorsListed(state: RecoveryState, p: AdaptiveProtocol)
    ensures var risks := RiskFactors(state, p);
      && (BelowMinimumRisk in risks <==> state.vfc.vfcValue < p.vfcMinimum)
      && (HighFatigueRisk in risks <==> state.fatigueLevel > 70.0)
      && (LimitedRecoveryRisk in risks <==> state.recoveryPercentage < 50.0)
      && (forall r :: r in risks ==> r in [BelowMinimumRisk, HighFatigueRisk, LimitedRecoveryRisk])
      && (forall i, j :: 0 <= i < j < |risks| ==> RiskRank(risks[i]) < RiskRank(risks[j]))
  {
  }

  /** The expected benefits, stress first. */
  function Benefits(state: RecoveryState): seq<string> {
    (if state.stressLevel > 70.0 then [StressBenefit] else [])
      + (if state.recoveryPercentage < 50.0 then []
         else if state.recoveryPercentage > 80.0 then [RecoveryWindowBenefit] else [])
  }

  /** Each benefit is present iff its condition holds; no other text; stress first when both. */
  lemma BenefitsListed(state: RecoveryState)
    ensures var benefits := Benefits(state);
      && (StressBenefit in benefits <==> state.stressLevel > 70.0)
      && (RecoveryWindowBenefit in benefits <==> state.recoveryPercentage > 80.0)
      && (forall b :: b in benefits ==> b in [StressBenefit, RecoveryWindowBenefit])
      && (|benefits| == 2 ==> benefits == [StressBenefit, RecoveryWindowBenefit])
  {
  }

  /** A limited-recovery warning and an excellent-recovery benefit never come together. */
  lemma LimitedAndExcellentExclusive(state: RecoveryState, p: AdaptiveProtocol)
    ensures !(LimitedRecoveryRisk in RiskFactors(state, p) && RecoveryWindowBenefit in Benefits(state))
  {
    RiskFactorsListed(state, p);
    BenefitsListed(state);
  }

  /** The protocols of the first two ranked candidates whose id differs from `id`. */
  function Alternatives(ranked: seq<Scored>, id: string): seq<AdaptiveProtocol>
    decreases |ranked|
  {
    if ranked == [] then []
    else if ranked[0].protocol.id == id then Alternatives(ranked[1..], id)
    else [ranked[0].protocol] + (if |ranked| == 1 then [] else Take1(ranked[1..], id))
  }

  /** The first protocol in `ranked` whose id differs from `id`, if any. */
  function Take1(ranked: seq<Scored>, id: string): seq<AdaptiveProtocol>
    decreases |ranked|
  {
    if ranked == [] then []
    else if ranked[0].protocol.id == id then Take1(ranked[1..], id)
    else [ranked[0].protocol]
  }

  /** At most two alternatives, each a ranked candidate with another id. */
  lemma {:induction false} AlternativesFromRanking(ranked: seq<Scored>, id: string)
    ensures |Alternatives(ranked, id)| <= 2
    ensures forall q :: q in Alternatives(ranked, id) ==> q.id != id && exists s :: s in ranked && s.protocol == q
    decreases |ranked|
  {
    if ranked != [] {
      if ranked[0].protocol.id == id {
        AlternativesFromRanking(ranked[1..], id);
      } else if |ranked| > 1 {
        Take1FromRanking(ranked[1..], id);
      }
    }
  }

  lemma {:induction false} Take1FromRanking(ranked: seq<Scored>, id: string)
    ensures |Take1(ranked, id)| <= 1
    ensures forall q :: q in Take1(ranked, id) ==> q.id != id && exists s :: s in ranked && s.protocol == q
    decreases |ranked|
  {
    if ranked != [] && ranked[0].protocol.id == id {
      Take1FromRanking(ranked[1..], id);
    }
  }

  function LevelName(level: VFCLevel): string {
    match level
    case Elite => "elite"
    case Good => "good"
    case Adequate => "adequate"
    case Compromised => "compromised"
    case Critical => "critical"
  }

  /** The reasoning text, with the rounded score, the level, the recovery and the fatigue embedded. */
  function Reasoning(state: RecoveryState, score: real): seq<Piece> {
    [Lit("Compatibility score: "), Num(Round(score) as real), Lit("% based on VFC level ("),
     Lit(LevelName(state.vfc.level)), Lit("), recovery state ("), Num(state.recoveryPercentage),
     Lit("%), and fatigue ("), Num(state.fatigueLevel), Lit("%)")]
  }

  function Explain(state: RecoveryState, pick: Scored, ranked: seq<Scored>): AdaptiveRecommendation {
    AdaptiveRecommendation(pick.protocol, pick.score, Reasoning(state, pick.score),
      RiskFactors(state, pick.protocol), Benefits(state), Alternatives(ranked, pick.protocol.id))
  }

  /** The end index of slice(0, limit) on an array of length n (negative limits count from the end). */
  function SliceEnd(n: nat, limit: int): (k: nat)
    ensures k <= n
    ensures limit >= 0 ==> k == if limit < n then limit else n
  {
    if limit >= 0 then (if limit < n then limit else n)
    else if n + limit > 0 then n + limit else 0
  }

  /** The surviving candidates, scored and ranked. */
  function Ranked(state: RecoveryState, ps: seq<AdaptiveProtocol>): seq<Scored> {
    SortByScore(ScoreAll(state, SafeProtocols(state, ps)))
  }

  /** The reference result of recommendProtocols(state, ps, limit). */
  function Recommendations(state: RecoveryState, ps: seq<AdaptiveProtocol>, limit: int): seq<AdaptiveRecommendation> {
    var ranked := Ranked(state, ps);
    ExplainFirst(state, ranked, SliceEnd(|ranked|, limit))
  }

  /** The explanations of the first `count` ranked candidates. */
  function ExplainFirst(state: RecoveryState, ranked: seq<Scored>, count: nat): seq<AdaptiveRecommendation>
    requires count <= |ranked|
  {
    seq(count, i requires 0 <= i < count => Explain(state, ranked[i], ranked))
  }

  /** Builds one recommendation, pushing risk factors and benefits as the conditions are checked. */
  method Explanation(state: RecoveryState, pick: Scored, ranked: seq<Scored>) returns (rec: AdaptiveRecommendation)
    ensures rec == Explain(state, pick, ranked)
  {
    var riskFactors: seq<string> := [];
    var benefits: seq<string> := [];
    if state.vfc.vfcValue < pick.protocol.vfcMinimum {
      riskFactors := riskFactors + [BelowMinimumRisk];
    }
    if state.fatigueLevel > 70.0 {
      riskFactors := riskFactors + [HighFatigueRisk];
    }
    if state.stressLevel > 70.0 {
      benefits := benefits + [StressBenefit];
    }
    if state.recoveryPercentage < 50.0 {
      riskFactors := riskFactors + [LimitedRecoveryRisk];
    } else if state.recoveryPercentage > 80.0 {
      benefits := benefits + [RecoveryWindowBenefit];
    }
    assert riskFactors == RiskFactors(state, pick.protocol);
    assert benefits == Benefits(state);
    rec := AdaptiveRecommendation(pick.protocol, pick.score, Reasoning(state, pick.score),
      riskFactors, benefits, Alternatives(ranked, pick.protocol.id));
  }

  /** Scores every surviving candidate into a fresh array. */
  method ScoreCandidates(state: RecoveryState, safe: seq<AdaptiveProtocol>) returns (scored: array<Scored>)
    ensures fresh(scored)
    ensures scored[..] == ScoreAll(state, safe)
  {
    scored := new Scored[|safe|](i requires 0 <= i < |safe| => Scored(safe[i], 0.0));
    var i := 0;
    while i < |safe|
      invariant 0 <= i <= |safe|
      invariant forall m :: 0 <= m < i ==> scored[m] == Scored(safe[m], ProtocolScore(safe[m], state))
    {
      var score := ScoreProtocolForState(safe[i], state);
      scored[i] := Scored(safe[i], score);
      i := i + 1;
    }
  }

  /** recommendProtocols: filter, score into an array, sort it in place, explain the first `limit`. */
  method RecommendProtocols(state: RecoveryState, availableProtocols: seq<AdaptiveProtocol>, limit: int)
    returns (recommendations: seq<AdaptiveRecommendation>)
    ensures recommendations == Recommendations(state, availableProtocols, limit)
  {
    var safe := SafeProtocols(state, availableProtocols);
    var scored := ScoreCandidates(state, safe);
    SortInPlace(scored);
    var ranked := scored[..];
    assert ranked == Ranked(state, availableProtocols);
    var count := SliceEnd(scored.Length, limit);
    recommendations := ExplainTop(state, ranked, count);
  }

  /** Explains the first `count` ranked candidates one by one. */
  method ExplainTop(state: RecoveryState, ranked: seq<Scored>, count: nat) returns (recommendations: seq<AdaptiveRecommendation>)
    requires count <= |ranked|
    ensures recommendations == ExplainFirst(state, ranked, count)
  {
    recommendations := [];
    var k := 0;
    while k < count
      invariant 0 <= k <= count
      invariant |recommendations| == k
      invariant forall m :: 0 <= m < k ==> recommendations[m] == Explain(state, ranked[m], ranked)
    {
      var rec := Explanation(state, ranked[k], ranked);
      recommendations := recommendations + [rec];
      k := k + 1;
    }
  }

  // ===== Properties of the recommendation list =====

  /** Every ranked entry is a surviving candidate carrying its own score. */
  lemma {:induction false} RankedEntries(state: RecoveryState, ps: seq<AdaptiveProtocol>)
    ensures |Ranked(state, ps)| == |SafeProtocols(state, ps)|
    ensures SortedDesc(Ranked(state, ps))
    ensures forall i :: 0 <= i < |Ranked(state, ps)| ==>
      Ranked(state, ps)[i].protocol in SafeProtocols(state, ps) &&
      Ranked(state, ps)[i].score == ProtocolScore(Ranked(state, ps)[i].protocol, state)
  {
    var safe := SafeProtocols(state, ps);
    var all := ScoreAll(state, safe);
    var ranked := Ranked(state, ps);
    SortByScoreCorrect(all);
    forall i | 0 <= i < |ranked|
      ensures ranked[i].protocol in safe && ranked[i].score == ProtocolScore(ranked[i].protocol, state)
    {
      assert ranked[i] in multiset(all);
      var k :| 0 <= k < |all| && all[k] == ranked[i];
    }
  }

  /** Ties keep catalogue order: the entries with any given score appear as in the filtered catalogue. */
  lemma RankedIsStable(state: RecoveryState, ps: seq<AdaptiveProtocol>, v: real)
    ensures WithScore(Ranked(state, ps), v) == WithScore(ScoreAll(state, SafeProtocols(state, ps)), v)
  {
    SortByScoreCorrect(ScoreAll(state, SafeProtocols(state, ps)));
  }

  /**
   * The list has min(limit, survivors) entries (for a non-negative limit), the picks are the
   * top-ranked survivors in order of non-increasing confidence, and each confidence is the
   * protocol's compatibility score.
   */
  lemma {:induction false} RecommendationsRanked(state: RecoveryState, ps: seq<AdaptiveProtocol>, limit: int)
    ensures var recs := Recommendations(state, ps, limit);
      && |recs| == SliceEnd(|SafeProtocols(state, ps)|, limit)
      && (limit >= 0 ==> |recs| == if limit < |SafeProtocols(state, ps)| then limit else |SafeProtocols(state, ps)|)
      && (forall i :: 0 <= i < |recs| ==> recs[i].protocol == Ranked(state, ps)[i].protocol)
      && (forall i :: 0 <= i < |recs| ==>
            recs[i].protocol in ps && IsSafe(state, recs[i].protocol) &&
            recs[i].confidence == ProtocolScore(recs[i].protocol, state))
      && (forall i, j :: 0 <= i < j < |recs| ==> recs[i].confidence >= recs[j].confidence)
  {
    RankedEntries(state, ps);
    var recs, ranked := Recommendations(state, ps, limit), Ranked(state, ps);
    forall i | 0 <= i < |recs|
      ensures recs[i].protocol == ranked[i].protocol && recs[i].confidence == ranked[i].score
    {
      PickAt(state, ps, limit, i);
    }
  }

  /** The i-th recommendation carries the i-th ranked protocol and its score. */
  lemma PickAt(state: RecoveryState, ps: seq<AdaptiveProtocol>, limit: int, i: nat)
    requires i < |Recommendations(state, ps, limit)|
    ensures Recommendations(state, ps, limit)[i].protocol == Ranked(state, ps)[i].protocol
    ensures Recommendations(state, ps, limit)[i].confidence == Ranked(state, ps)[i].score
  {
  }

  /** An empty catalogue gives no recommendations. */
  lemma EmptyCatalogue(state: RecoveryState, limit: int)
    ensures Recommendations(state, [], limit) == []
  {
    RecommendationsRanked(state, [], limit);
  }

  /** The ranked candidates whose id differs from `id`, in order. */
  function OtherCandidates(ranked: seq<Scored>, id: string): (others: seq<Scored>)
    ensures |others| <= |ranked|
    ensures (exists k :: 0 <= k < |ranked| && ranked[k].protocol.id == id) ==> |others| < |ranked|
  {
    if ranked == [] then []
    else if ranked[0].protocol.id == id then OtherCandidates(ranked[1..], id)
    else [ranked[0]] + OtherCandidates(ranked[1..], id)
  }

  /**
   * The alternatives are the protocols of the first two ranked candidates with another id,
   * taken from the whole ranking (not only the top `limit`), so never more than the
   * candidates other than the pick.
   */
  lemma {:induction false} AlternativesAreFirstOthers(ranked: seq<Scored>, id: string)
    ensures var others := OtherCandidates(ranked, id);
      var n := if |others| < 2 then |others| else 2;
      Alternatives(ranked, id) == seq(n, i requires 0 <= i < n => others[i].protocol)
    decreases |ranked|
  {
    if ranked != [] {
      AlternativesAreFirstOthers(ranked[1..], id);
      if ranked[0].protocol.id != id && |ranked| > 1 {
        Take1IsFirstOther(ranked[1..], id);
      }
    }
  }

  lemma {:induction false} Take1IsFirstOther(ranked: seq<Scored>, id: string)
    ensures var others := OtherCandidates(ranked, id);
      Take1(ranked, id) == if others == [] then [] else [others[0].protocol]
    decreases |ranked|
  {
    if ranked != [] {
      Take1IsFirstOther(ranked[1..], id);
    }
  }

  /** Each pick's alternatives are at most two surviving candidates, none sharing the pick's id. */
  lemma AlternativesOfPicks(state: RecoveryState, ps: seq<AdaptiveProtocol>, limit: int, i: nat)
    requires i < |Recommendations(state, ps, limit)|
    ensures var rec := Recommendations(state, ps, limit)[i];
      && |rec.alternativeProtocols| <= 2
      && |rec.alternativeProtocols| < |SafeProtocols(state, ps)|
      && forall q :: q in rec.alternativeProtocols ==> q.id != rec.protocol.id && q in SafeProtocols(state, ps)
  {
    RankedEntries(state, ps);
    RecommendationsRanked(state, ps, limit);
    var ranked := Ranked(state, ps);
    var rec := Recommendations(state, ps, limit)[i];
    assert rec.alternativeProtocols == Alternatives(ranked, rec.protocol.id);
    AlternativesAreFirstOthers(ranked, rec.protocol.id);
    AlternativesFromRanking(ranked, rec.protocol.id);
    assert ranked[i].protocol.id == rec.protocol.id;
    forall q | q in rec.alternativeProtocols ensures q in SafeProtocols(state, ps) {
      var s :| s in ranked && s.protocol == q;
      var k :| 0 <= k < |ranked| && ranked[k] == s;
    }
  }
}
