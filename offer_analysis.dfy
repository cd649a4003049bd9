/**
 * The offer scorer: four fixed rules (salary against the market median,
 * deductions ratio, notice period, essential benefits) each add to a score
 * and to the pros, cons and recommendations, in that order; the final score
 * alone decides Accept, Negotiate or Decline.
 *
 * The rules are specified one by one as functions returning a `Verdict`
 * (the rule's points and the entries it appends); `AnalyzeOffer` is the
 * step-by-step procedure, proved to produce the composition of the rules.
 */
module OfferAnalysis {
  import opened Wrappers
  import opened MarketData

  datatype Decision = Accept | Negotiate | Decline

  /** Positive findings, each carrying the figures its message prints. */
  datatype Pro =
    | AboveMarket(ctc: real, median: real)
    | DeductionsAcceptable(percent: real)
    | NoticeStandard
    | IncludesBenefits(names: seq<string>)

  /** Negative findings, each carrying the figures its message prints. */
  datatype Con =
    | BelowMarket(ctc: real, median: real)
    | DeductionsHigh(deductions: real, percent: real)
    | NoticeTooLong(days: int)
    | MissingBenefits(names: seq<string>)

  /** Recommendations; only the salary one carries figures (the market range). */
  datatype Advice =
    | NegotiateSalary(min: real, max: real)
    | RequestDeductionBreakdown
    | NegotiateShorterNotice
    | DiscussAdditionalBenefits

  /** What `analyze_offer` returns. */
  datatype Analysis = Analysis(
    decision: Decision,
    explanation: string,
    pros: seq<Pro>,
    cons: seq<Con>,
    recommendations: seq<Advice>,
    score: int,
    marketData: Option<MarketSalary>)

  /** The recommendation that each kind of con is appended together with. */
  predicate Answers(c: Con, a: Advice) {
    match c
    case BelowMarket(_, _) => a.NegotiateSalary?
    case DeductionsHigh(_, _) => a == RequestDeductionBreakdown
    case NoticeTooLong(_) => a == NegotiateShorterNotice
    case MissingBenefits(_) => a == DiscussAdditionalBenefits
  }

  // ---------------------------------------------------------------------
  // Rule outcomes and how they compose

  /** What one rule (or a run of rules) adds to the score and to the lists. */
  datatype Verdict = Verdict(points: int, pros: seq<Pro>, cons: seq<Con>, recommendations: seq<Advice>)

  const NoChange: Verdict := Verdict(0, [], [], [])

  /** Cons and recommendations were appended in lock-step. */
  predicate Paired(v: Verdict) {
    && |v.cons| == |v.recommendations|
    && forall i :: 0 <= i < |v.cons| ==> Answers(v.cons[i], v.recommendations[i])
  }

  /** Score weight of a pro: only an above-market salary earns points. */
  function Gain(p: Pro): int {
    if p.AboveMarket? then 2 else 0
  }

  /** Score weight of a con: the penalty its rule applies. */
  function Penalty(c: Con): int {
    match c
    case BelowMarket(_, _) => -2
    case DeductionsHigh(_, _) => -1
    case NoticeTooLong(_) => -1
    case MissingBenefits(names) => -|names|
  }

  /** Points earned by a run of pros. */
  function Gains(ps: seq<Pro>): int {
    if ps == [] then 0 else Gain(ps[0]) + Gains(ps[1..])
  }

  /** Points lost by a run of cons. */
  function Penalties(cs: seq<Con>): int {
    if cs == [] then 0 else Penalty(cs[0]) + Penalties(cs[1..])
  }

  lemma {:induction false} GainsConcat(xs: seq<Pro>, ys: seq<Pro>)
    ensures Gains(xs + ys) == Gains(xs) + Gains(ys)
  {
    if xs == [] {
      assert xs + ys == ys;
    } else {
      assert (xs + ys)[1..] == xs[1..] + ys;
      GainsConcat(xs[1..], ys);
    }
  }

  lemma {:induction false} PenaltiesConcat(xs: seq<Con>, ys: seq<Con>)
    ensures Penalties(xs + ys) == Penalties(xs) + Penalties(ys)
  {
    if xs == [] {
      assert xs + ys == ys;
    } else {
      assert (xs + ys)[1..] == xs[1..] + ys;
      PenaltiesConcat(xs[1..], ys);
    }
  }

  /** The score re-computed from the pros and cons alone. */
  function Tally(v: Verdict): int {
    Gains(v.pros) + Penalties(v.cons)
  }

  /** The points of a verdict are exactly what its pros and cons account for. */
  predicate Accounted(v: Verdict) {
    v.points == Tally(v)
  }

  lemma TallyOne(p: Pro, c: Con)
    ensures Gains([p]) == Gain(p) && Penalties([c]) == Penalty(c)
  {
    assert [p][1..] == [] && [c][1..] == [];
  }

  /** Applying rule `b` after the rules summed up in `a`. */
  function Then(a: Verdict, b: Verdict): (c: Verdict)
    ensures Paired(a) && Paired(b) ==> Paired(c)
  {
    var c := Verdict(a.points + b.points, a.pros + b.pros, a.cons + b.cons, a.recommendations + b.recommendations);
    assert Paired(a) && Paired(b) ==> Paired(c) by {
      if Paired(a) && Paired(b) {
        forall i | 0 <= i < |c.cons| ensures Answers(c.cons[i], c.recommendations[i]) {
          if i < |a.cons| {
            assert c.cons[i] == a.cons[i] && c.recommendations[i] == a.recommendations[i];
          } else {
            assert c.cons[i] == b.cons[i - |a.cons|] && c.recommendations[i] == b.recommendations[i - |a.cons|];
          }
        }
      }
    }
    c
  }

  /** Applying rules one after another keeps the score accounted for. */
  lemma ThenAccounted(a: Verdict, b: Verdict)
    requires Accounted(a) && Accounted(b)
    ensures Accounted(Then(a, b))
  {
    GainsConcat(a.pros, b.pros);
    PenaltiesConcat(a.cons, b.cons);
  }

  // ---------------------------------------------------------------------
  // Rule 1: salary against the market median

  /**
   * Only with market data: more than 10% above the median earns 2 points and
   * a pro; more than 15% below costs 2 points, a con and the advice to
   * negotiate toward the market range; inside the band nothing happens.
   */
  function SalaryRule(ctc: real, market: Option<MarketSalary>): (v: Verdict)
    requires ctc > 0.0
    ensures v.points == 2 <==> market.Some? && ctc > market.value.median * 1.1
    ensures v.points == -2 <==> market.Some? && ctc < market.value.median * 0.85
    ensures v.points == 0 <==>
      market.None? || market.value.median * 0.85 <= ctc <= market.value.median * 1.1
    ensures v.points == 0 ==> v == NoChange
    ensures v.points == 2 ==> v.pros == [AboveMarket(ctc, market.value.median)] && v.cons == []
    ensures v.points == -2 ==>
      && v.pros == []
      && v.cons == [BelowMarket(ctc, market.value.median)]
      && v.recommendations == [NegotiateSalary(market.value.min, market.value.max)]
    ensures Paired(v)
  {
    match market
    case None => NoChange
    case Some(m) =>
      if ctc > m.median * 1.1 then
        Verdict(2, [AboveMarket(ctc, m.median)], [], [])
      else if ctc < m.median * 0.85 then
        Verdict(-2, [], [BelowMarket(ctc, m.median)], [NegotiateSalary(m.min, m.max)])
      else NoChange
  }

  // ---------------------------------------------------------------------
  // Rule 2: deductions ratio

  /** `part` as a percentage of `whole`. */
  function Percent(part: real, whole: real): real
    requires whole > 0.0
  {
    part / whole * 100.0
  }

  lemma PercentAboveThirty(part: real, whole: real)
    requires whole > 0.0
    ensures Percent(part, whole) > 30.0 <==> part > 0.3 * whole
  {
    var q := part / whole;
    assert q * whole == part;
    if q * 100.0 > 30.0 {
      assert q > 0.3;
      assert q * whole > 0.3 * whole;
    } else {
      assert q <= 0.3;
      assert q * whole <= 0.3 * whole;
    }
  }

  /**
   * Exactly one entry: a con (with the advice to ask for a breakdown, one
   * point off) when deductions exceed 30% of the CTC, a pro otherwise; the
   * percentage it reports lies on the matching side of 30.
   */
  function DeductionRule(ctc: real, deductions: real): (v: Verdict)
    requires ctc > 0.0
    ensures |v.pros| + |v.cons| == 1
    ensures v.cons != [] <==> deductions > 0.3 * ctc
    ensures v.cons != [] ==>
      v.cons == [DeductionsHigh(deductions, Percent(deductions, ctc))] && Percent(deductions, ctc) > 30.0
    ensures v.pros != [] ==>
      v.pros == [DeductionsAcceptable(Percent(deductions, ctc))] && Percent(deductions, ctc) <= 30.0
    ensures v.points == -|v.cons|
    ensures Paired(v)
  {
    PercentAboveThirty(deductions, ctc);
    if deductions > 0.3 * ctc then
      Verdict(-1, [], [DeductionsHigh(deductions, Percent(deductions, ctc))], [RequestDeductionBreakdown])
    else
      Verdict(0, [DeductionsAcceptable(Percent(deductions, ctc))], [], [])
  }

  // ---------------------------------------------------------------------
  // Rule 3: notice period

  /** Exactly one entry: a con (one point off) above 90 days, a pro otherwise. */
  function NoticeRule(noticePeriod: int): (v: Verdict)
    ensures |v.pros| + |v.cons| == 1
    ensures v.cons != [] <==> noticePeriod > 90
    ensures v.cons != [] ==> v.cons == [NoticeTooLong(noticePeriod)] && v.recommendations == [NegotiateShorterNotice]
    ensures v.pros != [] ==> v.pros == [NoticeStandard]
    ensures v.points == -|v.cons|
    ensures Paired(v)
  {
    if noticePeriod > 90 then Verdict(-1, [], [NoticeTooLong(noticePeriod)], [NegotiateShorterNotice])
    else Verdict(0, [NoticeStandard], [], [])
  }

  // ---------------------------------------------------------------------
  // Rule 4: essential benefits

  datatype Essential = Essential(code: string, name: string)

  /** The essential benefits, in the order they are reported. */
  const Essentials: seq<Essential> := [
    Essential("health_insurance", "Health Insurance"),
    Essential("retirement_plan", "Retirement Plan"),
    Essential("paid_time_off", "Paid Time Off")]

  /** The essentials (in their order) whose code the offer lists. */
  function Present(es: seq<Essential>, benefits: seq<string>): (r: seq<Essential>)
    ensures |r| <= |es|
    ensures forall e :: e in r <==> e in es && e.code in benefits
  {
    if es == [] then []
    else if es[0].code in benefits then [es[0]] + Present(es[1..], benefits)
    else Present(es[1..], benefits)
  }

  /** The essentials (in their order) whose code the offer does not list. */
  function Missing(es: seq<Essential>, benefits: seq<string>): (r: seq<Essential>)
    ensures |r| <= |es|
    ensures forall e :: e in r <==> e in es && e.code !in benefits
  {
    if es == [] then []
    else if es[0].code !in benefits then [es[0]] + Missing(es[1..], benefits)
    else Missing(es[1..], benefits)
  }

  function Labels(es: seq<Essential>): (r: seq<string>)
    ensures |r| == |es|
    ensures forall i :: 0 <= i < |r| ==> r[i] == es[i].name
  {
    if es == [] then [] else [es[0].name] + Labels(es[1..])
  }

  /** Present and missing essentials split the essentials between them. */
  lemma {:induction false} PartitionCounts(es: seq<Essential>, benefits: seq<string>)
    ensures |Present(es, benefits)| + |Missing(es, benefits)| == |es|
    ensures multiset(Present(es, benefits)) + multiset(Missing(es, benefits)) == multiset(es)
  {
    if es != [] {
      PartitionCounts(es[1..], benefits);
      assert es == [es[0]] + es[1..];
    }
  }

  /** Only whether each essential code is listed matters, not what else is listed. */
  lemma {:induction false} OnlyEssentialCodesMatter(es: seq<Essential>, b1: seq<string>, b2: seq<string>)
    requires forall e :: e in es ==> (e.code in b1 <==> e.code in b2)
    ensures Present(es, b1) == Present(es, b2)
    ensures Missing(es, b1) == Missing(es, b2)
  {
    if es != [] {
      assert es[0] in es;
      OnlyEssentialCodesMatter(es[1..], b1, b2);
    }
  }

  /** Some essential is listed exactly when the present part is non-empty. */
  lemma PresentNonEmpty(es: seq<Essential>, benefits: seq<string>)
    ensures Present(es, benefits) != [] <==> exists e :: e in es && e.code in benefits
  {
    var r := Present(es, benefits);
    if r != [] {
      assert r[0] in r;
    }
  }

  /** Some essential is unlisted exactly when the missing part is non-empty. */
  lemma MissingNonEmpty(es: seq<Essential>, benefits: seq<string>)
    ensures Missing(es, benefits) != [] <==> exists e :: e in es && e.code !in benefits
  {
    var r := Missing(es, benefits);
    if r != [] {
      assert r[0] in r;
    }
  }

  /** The listed essentials, in their fixed order. */
  lemma PresentInOrder(benefits: seq<string>)
    ensures Present(Essentials, benefits) ==
      (if Essentials[0].code in benefits then [Essentials[0]] else []) +
      (if Essentials[1].code in benefits then [Essentials[1]] else []) +
      (if Essentials[2].code in benefits then [Essentials[2]] else [])
  {
    var es := Essentials;
    var tail1, tail2 := es[1..], es[2..];
    assert tail1 == [es[1], es[2]] && tail1[1..] == tail2;
    assert tail2 == [es[2]] && tail2[1..] == [];
    assert Present(tail2, benefits) == if es[2].code in benefits then [es[2]] else [];
    assert Present(tail1, benefits) ==
      (if es[1].code in benefits then [es[1]] else []) + Present(tail2, benefits);
  }

  /** The unlisted essentials, in their fixed order. */
  lemma MissingInOrder(benefits: seq<string>)
    ensures Missing(Essentials, benefits) ==
      (if Essentials[0].code !in benefits then [Essentials[0]] else []) +
      (if Essentials[1].code !in benefits then [Essentials[1]] else []) +
      (if Essentials[2].code !in benefits then [Essentials[2]] else [])
  {
    var es := Essentials;
    var tail1, tail2 := es[1..], es[2..];
    assert tail1 == [es[1], es[2]] && tail1[1..] == tail2;
    assert tail2 == [es[2]] && tail2[1..] == [];
    assert Missing(tail2, benefits) == if es[2].code !in benefits then [es[2]] else [];
    assert Missing(tail1, benefits) ==
      (if es[1].code !in benefits then [es[1]] else []) + Missing(tail2, benefits);
  }

  /**
   * One point off per missing essential; at most one "includes" pro and at
   * most one "missing" con, the latter with the advice to discuss benefits.
   */
  function BenefitRule(benefits: seq<string>): (v: Verdict)
    ensures v.points == -|Missing(Essentials, benefits)|
    ensures -3 <= v.points <= 0
    ensures |v.pros| <= 1 && |v.cons| <= 1
    ensures v.pros != [] <==> exists e :: e in Essentials && e.code in benefits
    ensures v.cons != [] <==> exists e :: e in Essentials && e.code !in benefits
    ensures v.pros != [] ==> v.pros == [IncludesBenefits(Labels(Present(Essentials, benefits)))]
    ensures v.cons != [] ==>
      v.cons == [MissingBenefits(Labels(Missing(Essentials, benefits)))] && v.recommendations == [DiscussAdditionalBenefits]
    ensures Paired(v)
  {
    var present := Present(Essentials, benefits);
    var missing := Missing(Essentials, benefits);
    PresentNonEmpty(Essentials, benefits);
    MissingNonEmpty(Essentials, benefits);
    Verdict(
      -|missing|,
      if present != [] then [IncludesBenefits(Labels(present))] else [],
      if missing != [] then [MissingBenefits(Labels(missing))] else [],
      if missing != [] then [DiscussAdditionalBenefits] else [])
  }

  // ---------------------------------------------------------------------
  // The decision

  /** The decision is a step function of the score alone. */
  function DecisionFor(score: int): (d: Decision)
    ensures d == Accept <==> score >= 2
    ensures d == Negotiate <==> -1 <= score < 2
    ensures d == Decline <==> score < -1
  {
    if score >= 2 then Accept
    else if score >= -1 then Negotiate
    else Decline
  }

  /** Orders the decisions from worst to best. */
  function Rank(d: Decision): nat {
    match d
    case Decline => 0
    case Negotiate => 1
    case Accept => 2
  }

  /** A higher score never gives a worse decision. */
  lemma DecisionMonotone(s1: int, s2: int)
    requires s1 <= s2
    ensures Rank(DecisionFor(s1)) <= Rank(DecisionFor(s2))
  {
  }

  /** The fixed explanation that goes with each decision. */
  function Explanation(d: Decision): string {
    match d
    case Accept =>
      "This appears to be a strong offer that exceeds market standards in several areas. "
      + "The combination of competitive salary and benefits makes it an attractive package."
    case Negotiate =>
      "While this offer has potential, there are some areas that could be improved through negotiation. "
      + "Consider discussing the points mentioned in the recommendations."
    case Decline =>
      "This offer falls significantly below market standards and may not align with your career goals. "
      + "Unless there are other compelling factors, you may want to explore other opportunities."
  }

  /** The closing step of the scorer: the threshold chain on the final score. */
  method Decide(score: int) returns (decision: Decision, explanation: string)
    ensures decision == DecisionFor(score)
    ensures explanation == Explanation(decision)
  {
    if score >= 2 {
      decision := Accept;
    } else if score >= -1 {
      decision := Negotiate;
    } else {
      decision := Decline;
    }
    explanation := Explanation(decision);
  }

  // ---------------------------------------------------------------------
  // The whole analysis

  /**
   * The final score: the sum of the four rule contributions, each bounded,
   * so that it always lies in [-7, 2].
   */
  function Score(ctc: real, deductions: real, noticePeriod: int, benefits: seq<string>,
                 market: Option<MarketSalary>): (score: int)
    requires ctc > 0.0
    ensures -7 <= score <= 2
  {
    SalaryRule(ctc, market).points + DeductionRule(ctc, deductions).points
    + NoticeRule(noticePeriod).points + BenefitRule(benefits).points
  }

  /**
   * The four rules in their fixed order. The score is the sum of the four
   * contributions, lies in [-7, 2], and is what the pros and cons account
   * for; cons and recommendations stay in lock-step.
   */
  function Evaluate(ctc: real, deductions: real, noticePeriod: int, benefits: seq<string>,
                    market: Option<MarketSalary>): (v: Verdict)
    requires ctc > 0.0
    ensures v.points == Score(ctc, deductions, noticePeriod, benefits, market)
    ensures Paired(v)
  {
    var afterSalary := Then(NoChange, SalaryRule(ctc, market));
    var afterDeductions := Then(afterSalary, DeductionRule(ctc, deductions));
    var afterNotice := Then(afterDeductions, NoticeRule(noticePeriod));
    Then(afterNotice, BenefitRule(benefits))
  }

  /**
   * Rule 1 as the scorer runs it: the running score and the three lists in
   * `acc` are updated in place.
   */
  method ApplySalaryRule(ctc: real, market: Option<MarketSalary>, acc: Verdict) returns (next: Verdict)
    requires ctc > 0.0
    ensures next == Then(acc, SalaryRule(ctc, market))
  {
    var score, pros, cons, recommendations := acc.points, acc.pros, acc.cons, acc.recommendations;
    if market.Some? {
      var median := market.value.median;
      if ctc > median * 1.1 {
        score := score + 2;
        pros := pros + [AboveMarket(ctc, median)];
      } else if ctc < median * 0.85 {
        score := score - 2;
        cons := cons + [BelowMarket(ctc, median)];
        recommendations := recommendations + [NegotiateSalary(market.value.min, market.value.max)];
      }
    }
    next := Verdict(score, pros, cons, recommendations);
  }

  /** Rule 2 as the scorer runs it. */
  method ApplyDeductionRule(ctc: real, deductions: real, acc: Verdict) returns (next: Verdict)
    requires ctc > 0.0
    ensures next == Then(acc, DeductionRule(ctc, deductions))
  {
    var score, pros, cons, recommendations := acc.points, acc.pros, acc.cons, acc.recommendations;
    if deductions > 0.3 * ctc {
      score := score - 1;
      cons := cons + [DeductionsHigh(deductions, Percent(deductions, ctc))];
      recommendations := recommendations + [RequestDeductionBreakdown];
    } else {
      pros := pros + [DeductionsAcceptable(Percent(deductions, ctc))];
    }
    next := Verdict(score, pros, cons, recommendations);
  }

  /** Rule 3 as the scorer runs it. */
  method ApplyNoticeRule(noticePeriod: int, acc: Verdict) returns (next: Verdict)
    ensures next == Then(acc, NoticeRule(noticePeriod))
  {
    var score, pros, cons, recommendations := acc.points, acc.pros, acc.cons, acc.recommendations;
    if noticePeriod > 90 {
      score := score - 1;
      cons := cons + [NoticeTooLong(noticePeriod)];
      recommendations := recommendations + [NegotiateShorterNotice];
    } else {
      pros := pros + [NoticeStandard];
    }
    next := Verdict(score, pros, cons, recommendations);
  }

  /** Rule 4 as the scorer runs it. */
  method ApplyBenefitRule(benefits: seq<string>, acc: Verdict) returns (next: Verdict)
    ensures next == Then(acc, BenefitRule(benefits))
  {
    var score, pros, cons, recommendations := acc.points, acc.pros, acc.cons, acc.recommendations;
    var present := Present(Essentials, benefits);
    var missing := Missing(Essentials, benefits);
    if present != [] {
      pros := pros + [IncludesBenefits(Labels(present))];
    }
    if missing != [] {
      score := score - |missing|;
      cons := cons + [MissingBenefits(Labels(missing))];
      recommendations := recommendations + [DiscussAdditionalBenefits];
    }
    next := Verdict(score, pros, cons, recommendations);
  }

  /**
   * The scorer: a running score and three lists, starting empty, updated by
   * the four rules in order, then the decision on the final score. Market
   * data is an input (the fetch happens before the call).
   */
  method AnalyzeOffer(ctc: real, deductions: real, noticePeriod: int, benefits: seq<string>,
                      market: Option<MarketSalary>) returns (r: Analysis)
    requires ctc > 0.0
    ensures var v := Evaluate(ctc, deductions, noticePeriod, benefits, market);
      && r.score == v.points
      && r.pros == v.pros
      && r.cons == v.cons
      && r.recommendations == v.recommendations
    ensures r.decision == DecisionFor(r.score) && r.explanation == Explanation(r.decision)
    ensures r.marketData == market
    ensures -7 <= r.score <= 2
    ensures |r.cons| == |r.recommendations|
    ensures forall i :: 0 <= i < |r.cons| ==> Answers(r.cons[i], r.recommendations[i])
  {
    var report := NoChange;
    report := ApplySalaryRule(ctc, market, report);
    report := ApplyDeductionRule(ctc, deductions, report);
    report := ApplyNoticeRule(noticePeriod, report);
    report := ApplyBenefitRule(benefits, report);
    var decision, explanation := Decide(report.points);
    r := Analysis(decision, explanation, report.pros, report.cons, report.recommendations,
                  report.points, market);
  }

  // ---------------------------------------------------------------------
  // Properties of the whole analysis

  lemma SalaryAccounted(ctc: real, market: Option<MarketSalary>)
    requires ctc > 0.0
    ensures Accounted(SalaryRule(ctc, market))
  {
    if market.Some? {
      TallyOne(AboveMarket(ctc, market.value.median), BelowMarket(ctc, market.value.median));
    }
  }

  lemma DeductionAccounted(ctc: real, deductions: real)
    requires ctc > 0.0
    ensures Accounted(DeductionRule(ctc, deductions))
  {
    TallyOne(DeductionsAcceptable(Percent(deductions, ctc)), DeductionsHigh(deductions, Percent(deductions, ctc)));
  }

  lemma NoticeAccounted(noticePeriod: int)
    ensures Accounted(NoticeRule(noticePeriod))
  {
    TallyOne(NoticeStandard, NoticeTooLong(noticePeriod));
  }

  lemma BenefitAccounted(benefits: seq<string>)
    ensures Accounted(BenefitRule(benefits))
  {
    var present := Present(Essentials, benefits);
    var missing := Missing(Essentials, benefits);
    TallyOne(IncludesBenefits(Labels(present)), MissingBenefits(Labels(missing)));
  }

  /**
   * Re-summing the findings reproduces the score: 2 for an above-market
   * salary, minus the penalty of every con.
   */
  lemma ScoreMatchesFindings(ctc: real, deductions: real, noticePeriod: int, benefits: seq<string>,
                             market: Option<MarketSalary>)
    requires ctc > 0.0
    ensures Accounted(Evaluate(ctc, deductions, noticePeriod, benefits, market))
  {
    var salary := SalaryRule(ctc, market);
    var deducted := DeductionRule(ctc, deductions);
    var notice := NoticeRule(noticePeriod);
    SalaryAccounted(ctc, market);
    DeductionAccounted(ctc, deductions);
    NoticeAccounted(noticePeriod);
    BenefitAccounted(benefits);
    var afterSalary := Then(NoChange, salary);
    ThenAccounted(NoChange, salary);
    var afterDeductions := Then(afterSalary, deducted);
    ThenAccounted(afterSalary, deducted);
    var afterNotice := Then(afterDeductions, notice);
    ThenAccounted(afterDeductions, notice);
    ThenAccounted(afterNotice, BenefitRule(benefits));
  }

  /**
   * Accept is reached exactly when every rule is at its best: market data
   * shows the CTC more than 10% above the median, deductions are within 30%,
   * notice is at most 90 days and every essential benefit is listed.
   */
  lemma AcceptIffBestOnEveryRule(ctc: real, deductions: real, noticePeriod: int, benefits: seq<string>,
                                 market: Option<MarketSalary>)
    requires ctc > 0.0
    ensures DecisionFor(Score(ctc, deductions, noticePeriod, benefits, market)) == Accept
      <==> && market.Some? && ctc > market.value.median * 1.1
           && deductions <= 0.3 * ctc
           && noticePeriod <= 90
           && forall e :: e in Essentials ==> e.code in benefits
  {
    var salary := SalaryRule(ctc, market);
    var deducted := DeductionRule(ctc, deductions);
    var notice := NoticeRule(noticePeriod);
    var perks := BenefitRule(benefits);
    assert deducted.points == 0 <==> deductions <= 0.3 * ctc;
    assert notice.points == 0 <==> noticePeriod <= 90;
    MissingNonEmpty(Essentials, benefits);
    assert perks.points == 0 <==> forall e :: e in Essentials ==> e.code in benefits;
  }

  /** Without market data an offer is never accepted. */
  lemma NoMarketNeverAccept(ctc: real, deductions: real, noticePeriod: int, benefits: seq<string>)
    requires ctc > 0.0
    ensures Score(ctc, deductions, noticePeriod, benefits, None) <= 0
    ensures DecisionFor(Score(ctc, deductions, noticePeriod, benefits, None)) != Accept
  {
    assert SalaryRule(ctc, None).points == 0;
  }

  /** Deductions of 40% of the CTC cost one point and add a con. */
  lemma HighDeductionsExample()
    ensures DeductionRule(100000.0, 40000.0).points == -1
    ensures DeductionRule(100000.0, 40000.0).cons == [DeductionsHigh(40000.0, 40.0)]
  {
    PercentAboveThirty(40000.0, 100000.0);
  }

  /** Only health insurance listed: the other two are missing, two points off. */
  lemma HealthOnlyExample()
    ensures BenefitRule(["health_insurance"]).points == -2
    ensures BenefitRule(["health_insurance"]).cons == [MissingBenefits(["Retirement Plan", "Paid Time Off"])]
    ensures BenefitRule(["health_insurance"]).pros == [IncludesBenefits(["Health Insurance"])]
  {
    PresentInOrder(["health_insurance"]);
    MissingInOrder(["health_insurance"]);
    var v := BenefitRule(["health_insurance"]);
    assert Labels([Essentials[1], Essentials[2]]) == ["Retirement Plan", "Paid Time Off"];
    assert Labels([Essentials[0]]) == ["Health Insurance"];
  }

  /** A benefit code outside the essentials changes nothing. */
  lemma OtherBenefitIgnored(benefits: seq<string>, code: string)
    requires forall e :: e in Essentials ==> e.code != code
    ensures BenefitRule(benefits + [code]) == BenefitRule(benefits)
  {
    OnlyEssentialCodesMatter(Essentials, benefits + [code], benefits);
  }
}
