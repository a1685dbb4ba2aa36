/** The analysis recomputed whenever the stakeholder list changes: threshold
    counts, score totals and the rule-based recommendations. */
module Analyzer {
  import opened Records
  import opened Decimal

  /** The threshold tests the analysis counts records by. */
  datatype Criterion =
    | HighInfluence        // influence >= 7
    | Supporter            // support >= 6
    | HighInfluenceSkeptic // influence >= 7 and support <= 4
    | InfluentialChampion  // relationship 'champion' and influence >= 7
    | UnderEngaged         // engagement <= 2 and influence >= 5
    | Executive            // department 'Executive'

  predicate Meets(r: Stakeholder, c: Criterion) {
    match c
    case HighInfluence => r.influence >= 7
    case Supporter => r.support >= 6
    case HighInfluenceSkeptic => r.influence >= 7 && r.support <= 4
    case InfluentialChampion => r.relationship == "champion" && r.influence >= 7
    case UnderEngaged => r.engagement <= 2 && r.influence >= 5
    case Executive => r.department == "Executive"
  }

  /** `s.filter(x => test(x)).length`. */
  function Count(s: seq<Stakeholder>, c: Criterion): (n: nat)
    ensures n <= |s|
    ensures n == 0 <==> forall i :: 0 <= i < |s| ==> !Meets(s[i], c)
  {
    if s == [] then 0
    else
      var rest := Count(s[1..], c);
      assert forall i :: 1 <= i < |s| ==> s[i] == s[1..][i - 1];
      (if Meets(s[0], c) then 1 else 0) + rest
  }

  /** A test that implies another never counts more records. */
  lemma {:induction false} CountMonotone(s: seq<Stakeholder>, c: Criterion, d: Criterion)
    requires forall r :: Meets(r, c) ==> Meets(r, d)
    ensures Count(s, c) <= Count(s, d)
  {
    if s != [] {
      CountMonotone(s[1..], c, d);
    }
  }

  /** Counting over a concatenation adds the counts. */
  lemma {:induction false} CountAppend(a: seq<Stakeholder>, b: seq<Stakeholder>, c: Criterion)
    ensures Count(a + b, c) == Count(a, c) + Count(b, c)
  {
    if a == [] {
      assert a + b == b;
    } else {
      assert (a + b)[0] == a[0];
      assert (a + b)[1..] == a[1..] + b;
      CountAppend(a[1..], b, c);
    }
  }

  /** The two scores that are averaged. */
  datatype Score = InfluenceScore | SupportScore

  function ScoreOf(r: Stakeholder, m: Score): int {
    match m
    case InfluenceScore => r.influence
    case SupportScore => r.support
  }

  /** `s.reduce((sum, x) => sum + x.score, 0)`. */
  function Total(s: seq<Stakeholder>, m: Score): int {
    if s == [] then 0 else ScoreOf(s[0], m) + Total(s[1..], m)
  }

  /** When every score lies in lo..hi, so does the average: the total lies
      between lo and hi times the count. */
  lemma {:induction false} TotalBounds(s: seq<Stakeholder>, m: Score, lo: int, hi: int)
    requires forall i :: 0 <= i < |s| ==> lo <= ScoreOf(s[i], m) <= hi
    ensures lo * |s| <= Total(s, m) <= hi * |s|
  {
    if s != [] {
      assert forall i :: 0 <= i < |s| - 1 ==> s[1..][i] == s[i + 1];
      TotalBounds(s[1..], m, lo, hi);
      assert lo * |s| == lo * (|s| - 1) + lo;
      assert hi * |s| == hi * (|s| - 1) + hi;
    }
  }

  /** The four recommendations; the two that carry a count say how many
      records triggered them. */
  datatype Recommendation =
    | CultivateChampions
    | AddressSkeptics(skeptics: nat)
    | IncreaseEngagement(underEngaged: nat)
    | AddExecutives

  /** The position of a recommendation in the fixed emission order. */
  function Rank(k: Recommendation): nat {
    match k
    case CultivateChampions => 0
    case AddressSkeptics(_) => 1
    case IncreaseEngagement(_) => 2
    case AddExecutives => 3
  }

  // Each text opens with a severity label; the labels differ in their first
  // two characters. Every text is written as label + rest because the
  // verifier reads the characters of a short literal but not those of a
  // long one, and MessageTag needs the first two.
  const ChampionsMessage := "Priority: " + "Identify and cultivate champions among high-influence stakeholders"
  const SkepticsPrefix := "Critical: " + "Address concerns of "
  const SkepticsSuffix := " high-influence skeptic(s)"
  const EngagementPrefix := "Action: " + "Increase engagement with "
  const EngagementSuffix := " influential but under-engaged stakeholder(s)"
  const ExecutivesMessage := "Consider: " + "Add executive-level stakeholders to your mapping"

  /** The text shown for a recommendation. */
  function Message(k: Recommendation): string {
    match k
    case CultivateChampions => ChampionsMessage
    case AddressSkeptics(n) => SkepticsPrefix + NatToString(n) + SkepticsSuffix
    case IncreaseEngagement(n) => EngagementPrefix + NatToString(n) + EngagementSuffix
    case AddExecutives => ExecutivesMessage
  }

  /** prefix + digits + suffix determines the digits. */
  lemma SplitDigits(prefix: string, m: nat, n: nat, suffix: string)
    requires prefix + NatToString(m) + suffix == prefix + NatToString(n) + suffix
    ensures m == n
  {
    var a, b := NatToString(m), NatToString(n);
    var x, y := prefix + a + suffix, prefix + b + suffix;
    assert |a| == |b|;
    assert a == x[|prefix|..|prefix| + |a|];
    assert b == y[|prefix|..|prefix| + |b|];
    NatToStringInjective(m, n);
  }

  /** The first two characters of each text, distinct per rule. */
  function Tag(k: Recommendation): string {
    match k
    case CultivateChampions => "Pr"
    case AddressSkeptics(_) => "Cr"
    case IncreaseEngagement(_) => "Ac"
    case AddExecutives => "Co"
  }

  lemma MessageTag(k: Recommendation)
    ensures |Message(k)| >= 2 && Message(k)[..2] == Tag(k)
  {
  }

  /** Different recommendations have different texts, so a text tells which
      rule fired and with what count. */
  lemma MessageInjective(j: Recommendation, k: Recommendation)
    requires Message(j) == Message(k)
    ensures j == k
  {
    var x, y := Message(j), Message(k);
    if Rank(j) != Rank(k) {
      MessageTag(j);
      MessageTag(k);
    } else if j.AddressSkeptics? {
      SplitDigits(SkepticsPrefix, j.skeptics, k.skeptics, SkepticsSuffix);
    } else if j.IncreaseEngagement? {
      SplitDigits(EngagementPrefix, j.underEngaged, k.underEngaged, EngagementSuffix);
    }
  }

  function Messages(ks: seq<Recommendation>): (ms: seq<string>)
    ensures |ms| == |ks| && forall i :: 0 <= i < |ks| ==> ms[i] == Message(ks[i])
  {
    seq(|ks|, i requires 0 <= i < |ks| => Message(ks[i]))
  }

  /** A text appears among the messages exactly when its recommendation
      appears among the recommendations. */
  lemma MessageIn(ks: seq<Recommendation>, k: Recommendation)
    ensures Message(k) in Messages(ks) <==> k in ks
  {
    var ms := Messages(ks);
    if Message(k) in ms {
      var i :| 0 <= i < |ms| && ms[i] == Message(k);
      MessageInjective(ks[i], k);
    }
  }

  /** The four rules, each evaluated on its own, in their fixed order. */
  function Rules(s: seq<Stakeholder>): seq<Recommendation> {
    var skeptics := Count(s, HighInfluenceSkeptic);
    var underEngaged := Count(s, UnderEngaged);
    (if Count(s, InfluentialChampion) == 0 then [CultivateChampions] else [])
    + (if skeptics > 0 then [AddressSkeptics(skeptics)] else [])
    + (if underEngaged > 0 then [IncreaseEngagement(underEngaged)] else [])
    + (if Count(s, Executive) == 0 then [AddExecutives] else [])
  }

  /** At most four recommendations, strictly in the order champions,
      skeptics, engagement, executives, so none twice. */
  lemma RulesOrdered(s: seq<Stakeholder>)
    ensures |Rules(s)| <= 4
    ensures forall i, j :: 0 <= i < j < |Rules(s)| ==> Rank(Rules(s)[i]) < Rank(Rules(s)[j])
  {
  }

  /** The recommendation texts of a list, in order. */
  function Recommendations(s: seq<Stakeholder>): seq<string> {
    Messages(Rules(s))
  }

  /** The champions message appears iff no record is a champion with
      influence of at least 7. */
  lemma ChampionsAdvice(s: seq<Stakeholder>)
    ensures ChampionsMessage in Recommendations(s) <==>
      forall i :: 0 <= i < |s| ==> !(s[i].relationship == "champion" && s[i].influence >= 7)
  {
    MessageIn(Rules(s), CultivateChampions);
  }

  /** The skeptics message with count n appears iff n records have
      influence of at least 7 and support of at most 4, and n > 0. */
  lemma SkepticsAdvice(s: seq<Stakeholder>, n: nat)
    ensures SkepticsPrefix + NatToString(n) + SkepticsSuffix in Recommendations(s) <==>
      n > 0 && n == Count(s, HighInfluenceSkeptic)
  {
    MessageIn(Rules(s), AddressSkeptics(n));
  }

  /** Some skeptics message appears iff some record has influence of at
      least 7 and support of at most 4. */
  lemma SkepticsAdviceExists(s: seq<Stakeholder>)
    ensures (exists n: nat :: Message(AddressSkeptics(n)) in Recommendations(s)) <==>
      exists i :: 0 <= i < |s| && s[i].influence >= 7 && s[i].support <= 4
  {
    var n := Count(s, HighInfluenceSkeptic);
    SkepticsAdvice(s, n);
    forall m: nat | Message(AddressSkeptics(m)) in Recommendations(s) ensures m == n && m > 0 {
      SkepticsAdvice(s, m);
    }
    if n > 0 {
      assert Message(AddressSkeptics(n)) in Recommendations(s);
    }
  }

  /** The engagement message with count n appears iff n records have
      engagement of at most 2 and influence of at least 5, and n > 0. */
  lemma EngagementAdvice(s: seq<Stakeholder>, n: nat)
    ensures EngagementPrefix + NatToString(n) + EngagementSuffix in Recommendations(s) <==>
      n > 0 && n == Count(s, UnderEngaged)
  {
    MessageIn(Rules(s), IncreaseEngagement(n));
  }

  /** The executives message appears iff no record is in the 'Executive'
      department. */
  lemma ExecutivesAdvice(s: seq<Stakeholder>)
    ensures ExecutivesMessage in Recommendations(s) <==>
      forall i :: 0 <= i < |s| ==> s[i].department != "Executive"
  {
    MessageIn(Rules(s), AddExecutives);
  }

  /** `generateRecommendations`: pushes the message of every rule that fires
      onto an initially empty list. */
  method GenerateRecommendations(s: seq<Stakeholder>) returns (recs: seq<string>)
    ensures recs == Recommendations(s)
  {
    recs := [];
    var champions := Count(s, InfluentialChampion);
    var skeptics := Count(s, HighInfluenceSkeptic);
    var underEngaged := Count(s, UnderEngaged);
    if champions == 0 {
      recs := recs + [ChampionsMessage];
    }
    if skeptics > 0 {
      recs := recs + [SkepticsPrefix + NatToString(skeptics) + SkepticsSuffix];
    }
    if underEngaged > 0 {
      recs := recs + [EngagementPrefix + NatToString(underEngaged) + EngagementSuffix];
    }
    if Count(s, Executive) == 0 {
      recs := recs + [ExecutivesMessage];
    }
  }

  /** The analysis object. The averages are kept as the integer totals and
      the count they are divided by. */
  datatype Analysis = Analysis(
    count: nat,
    influenceTotal: int,
    supportTotal: int,
    highInfluence: nat,
    supporters: nat,
    risks: nat,
    recommendations: seq<string>)

  /** The effect body: no analysis for an empty list, otherwise the counts
      and the recommendations of the list. */
  function Analyze(s: seq<Stakeholder>): (a: Option<Analysis>)
    ensures a == None <==> s == []
    ensures a.Some? ==> a.value.count == |s| && a.value.risks <= a.value.highInfluence <= |s|
    ensures a.Some? ==> a.value.supporters <= |s|
  {
    if |s| > 0 then
      CountMonotone(s, HighInfluenceSkeptic, HighInfluence);
      Some(Analysis(
        |s|,
        Total(s, InfluenceScore),
        Total(s, SupportScore),
        Count(s, HighInfluence),
        Count(s, Supporter),
        Count(s, HighInfluenceSkeptic),
        Recommendations(s)))
    else
      None
  }

  /** The risk and support counts of a non-empty list, in terms of the
      records themselves. */
  lemma AnalysisCounts(s: seq<Stakeholder>)
    requires s != []
    ensures var a := Analyze(s).value;
      (a.risks == 0 <==> forall i :: 0 <= i < |s| ==> !(s[i].influence >= 7 && s[i].support <= 4)) &&
      (a.highInfluence == 0 <==> forall i :: 0 <= i < |s| ==> s[i].influence < 7) &&
      (a.supporters == 0 <==> forall i :: 0 <= i < |s| ==> s[i].support < 6)
  {
  }

  /** An example: influence/support 8/3, 9/2 and 5/9 give totals 22
      and 14 over 3 records, 2 high-influence records, 1 supporter and 2
      risks. */
  lemma WorkedExample(a: Stakeholder, b: Stakeholder, c: Stakeholder)
    requires a.influence == 8 && a.support == 3
    requires b.influence == 9 && b.support == 2
    requires c.influence == 5 && c.support == 9
    ensures var r := Analyze([a, b, c]).value;
      r.count == 3 && r.influenceTotal == 22 && r.supportTotal == 14 &&
      r.highInfluence == 2 && r.supporters == 1 && r.risks == 2
  {
    var s := [a, b, c];
    assert s[1..] == [b, c] && [b, c][1..] == [c] && [c][1..] == [];
    assert Total([c], InfluenceScore) == 5;
    assert Total([c], SupportScore) == 9;
    assert Total([b, c], InfluenceScore) == 14 && Total([b, c], SupportScore) == 11;
    assert Count([c], HighInfluence) == 0 && Count([c], Supporter) == 1 && Count([c], HighInfluenceSkeptic) == 0;
    assert Count([b, c], HighInfluence) == 1 && Count([b, c], Supporter) == 1 && Count([b, c], HighInfluenceSkeptic) == 1;
  }
}
