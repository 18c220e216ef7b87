/** From the model's raw audit numbers and the rules to the score a lead is stored and sorted with. */
module LeadScore {
  import opened Jobs
  import opened Scoring

  /** The three axes of an audit. */
  datatype Audit = Audit(quality: int, seo: int, mobile: int)

  function Clamp(v: int, lo: int, hi: int): int {
    if v < lo then lo else if v > hi then hi else v
  }

  /** The audit as ParseAuditJSON lets it through, whatever integers the model returned. */
  function Clamped(raw: Audit): Audit {
    Audit(Clamp(raw.quality, 0, 10), Clamp(raw.seo, 0, 10), Clamp(raw.mobile, 0, 10))
  }

  /** A worse site is a better lead. */
  function AIScore(a: Audit): int {
    (10 - Quotient(a.quality + a.seo + a.mobile, 3)) * 10
  }

  function Folded(ranked: int, ai: int): int {
    Quotient(ranked * 7 + ai * 3, 10)
  }

  /** The total_score ruleScoring stores. */
  function StoredTotal(ranked: int, audit: Option<Audit>): int {
    if audit.Some? then Folded(ranked, AIScore(Clamped(audit.value))) else ranked
  }

  lemma RankedIsBounded(rules: seq<RuleDef>, ctx: EvalContext)
    requires NonNegative(rules)
    ensures 0 <= RankedScore(rules, ctx) <= 100
    ensures ctx.siteOpaque && ctx.hasWebsite ==> RankedScore(rules, ctx) <= 50
  {
    ScoresAreBounded(rules, ctx);
    PercentIsBounded(TotalScore(rules, ctx), MaxScore(rules, ctx));
  }

  /**
   For any integers the model returns and any non-negative rules, the stored score is within 0..100, and
   with an audit it lies between the ranked rule score and the inverted audit score.
   */
  lemma StoredScoreIsBounded(rules: seq<RuleDef>, ctx: EvalContext, audit: Option<Audit>)
    requires NonNegative(rules)
    ensures var ranked := RankedScore(rules, ctx);
            var total := StoredTotal(ranked, audit);
            && 0 <= total <= 100
            && (audit.Some? ==>
                  var ai := AIScore(Clamped(audit.value));
                  0 <= ai <= 100 && (ranked <= total <= ai || ai <= total <= ranked))
  {
    RankedIsBounded(rules, ctx);
  }

  /** What the parser lets through of an axis: itself within 0..10, the nearer end outside. */
  lemma ClampedAxes(raw: Audit)
    ensures forall v: int, c: int ::
              (v, c) in {(raw.quality, Clamped(raw).quality), (raw.seo, Clamped(raw).seo), (raw.mobile, Clamped(raw).mobile)} ==>
                0 <= c <= 10 && (v < 0 ==> c == 0) && (v > 10 ==> c == 10) && (0 <= v <= 10 ==> c == v)
  {
  }

  /**
   The stored total in plain arithmetic: seven parts ranked score, three parts audit, in tenths rounded down;
   the audit's part is 100 less ten for each whole point of the axes' average.
   */
  lemma StoredTotalIsSevenToThree(ranked: int, raw: Audit)
    requires 0 <= ranked
    ensures var a, total := Clamped(raw), StoredTotal(ranked, Some(raw));
            var audit := 100 - 10 * ((a.quality + a.seo + a.mobile) / 3);
            AIScore(a) == audit && 10 * total <= 7 * ranked + 3 * audit < 10 * total + 10
    ensures StoredTotal(ranked, None) == ranked
  {
  }

  lemma WholeQuotientIsMonotone(x: int, y: int, d: int)
    requires 0 <= x <= y && d > 0
    ensures 0 <= x / d <= y / d
  {
    QuotientBounds(x, d);
    QuotientAtLeast(x, d, 0);
    QuotientAtLeast(y, d, x / d);
  }

  lemma QuotientIsMonotone(x: int, y: int, d: int)
    requires x <= y && d > 0
    ensures Quotient(x, d) <= Quotient(y, d)
  {
    if x >= 0 {
      WholeQuotientIsMonotone(x, y, d);
    } else if y >= 0 {
      WholeQuotientIsMonotone(0, y, d);
      WholeQuotientIsMonotone(0, -x, d);
    } else {
      WholeQuotientIsMonotone(-y, -x, d);
    }
  }

  lemma AIScoreFalls(audit: Audit, better: Audit)
    requires audit.quality <= better.quality && audit.seo <= better.seo && audit.mobile <= better.mobile
    ensures AIScore(Clamped(better)) <= AIScore(Clamped(audit))
  {
    var c, d := Clamped(audit), Clamped(better);
    QuotientIsMonotone(c.quality + c.seo + c.mobile, d.quality + d.seo + d.mobile, 3);
  }

  /** The stored score never falls when the rules rank a lead higher, nor rises when any audit axis does. */
  lemma StoredScoreIsMonotone(ranked: int, higher: int, audit: Audit, better: Audit)
    requires ranked <= higher
    requires audit.quality <= better.quality && audit.seo <= better.seo && audit.mobile <= better.mobile
    ensures StoredTotal(ranked, None) <= StoredTotal(higher, None)
    ensures StoredTotal(ranked, Some(better)) <= StoredTotal(higher, Some(audit))
  {
    AIScoreFalls(audit, better);
    hide AIScore, Clamped, Quotient;
    QuotientIsMonotone(ranked * 7 + AIScore(Clamped(better)) * 3, higher * 7 + AIScore(Clamped(audit)) * 3, 10);
  }

  /******* Priority and pitch *******/

  datatype Priority = Low | Medium | High

  function PriorityOf(rules: seq<RuleDef>, ctx: EvalContext): Priority {
    var p := PercentOf(rules, ctx);
    if ctx.siteOpaque && ctx.hasWebsite then
      if p >= 60 then Medium else Low
    else if p >= 60 then High
    else if p >= 30 then Medium
    else Low
  }

  /**
   The bands never contradict the ranking: although the priority is decided from the undamped percentage,
   it depends on the ranked score alone, so of two leads the one ranked lower is never in a higher band.
   */
  lemma PriorityFollowsRank(rules: seq<RuleDef>, ctx: EvalContext)
    requires NonNegative(rules)
    ensures PriorityOf(rules, ctx) == High <==> RankedScore(rules, ctx) >= 60
    ensures PriorityOf(rules, ctx) == Low <==> RankedScore(rules, ctx) < 30
  {
    ScoresAreBounded(rules, ctx);
    PercentIsBounded(TotalScore(rules, ctx), MaxScore(rules, ctx));
  }

  /** The sentence that follows the business's name; short stand-ins for the wording, whose order of cases is the code's. */
  function Pitch(rules: seq<RuleDef>, ctx: EvalContext): (s: string)
    ensures s != ""
  {
    var reasons := Result(rules, ctx).reasons;
    if reasons == [] then ": solid"
    else if ctx.socialOnly then ": top, " + (if ctx.socialPlatform == "" then "social media" else ctx.socialPlatform)
    else if ctx.siteOpaque && ctx.hasWebsite then ": unseen"
    else match PriorityOf(rules, ctx)
      case High => ": strong, " + reasons[0]
      case Medium => ": worth a call, " + reasons[0]
      case Low => ": soft, " + reasons[0]
  }

  /** The one-line opener for a lead. */
  function SalesSuggestion(name: string, rules: seq<RuleDef>, ctx: EvalContext): string {
    name + Pitch(rules, ctx)
  }

  /**
   A lead that was assessed is pitched as its ranked score has it, by its first reason; one that only sells
   through social media by the platform, and one that could not be seen as just that.
   */
  lemma SuggestionFollowsRank(name: string, rules: seq<RuleDef>, ctx: EvalContext)
    requires NonNegative(rules) && Result(rules, ctx).reasons != []
    ensures var lead, s, ranked := Result(rules, ctx).reasons[0], SalesSuggestion(name, rules, ctx), RankedScore(rules, ctx);
            if ctx.socialOnly then
              s == name + ": top, " + if |ctx.socialPlatform| > 0 then ctx.socialPlatform else "social media"
            else if ctx.hasWebsite && ctx.siteOpaque then s == name + ": unseen"
            else s == name + (if ranked >= 60 then ": strong, " else if ranked >= 30 then ": worth a call, " else ": soft, ") + lead
  {
    PriorityFollowsRank(rules, ctx);
    hide Result, PriorityOf, RankedScore;
  }

  /** Whatever the lead, there is something to say, and it opens with the business's name. */
  lemma SuggestionIsNeverEmpty(name: string, rules: seq<RuleDef>, ctx: EvalContext)
    ensures name < SalesSuggestion(name, rules, ctx)
  {
    hide Pitch;
  }
}
