/** The scoring engine over an arbitrary rule list, and the score that is finally stored. */
module Scoring {
  import opened Jobs

  /** The facts a rule may look at. */
  datatype EvalContext = EvalContext(hasWebsite: bool, hasSSL: bool, hasPhone: bool, hasEmail: bool,
                                     hasContactForm: bool, hasMetaTags: bool, hasSocialLinks: bool,
                                     isReachable: bool, isMobileFriendly: bool, hasBooking: bool,
                                     siteDown: bool, siteOpaque: bool, socialOnly: bool, socialPlatform: string)

  /** `gate` is the rule's Applies function; without one the rule always applies. */
  datatype RuleDef = RuleDef(name: string, weight: int, reason: string,
                             eval: EvalContext -> bool, gate: Option<EvalContext -> bool>)

  datatype ScoreResult = ScoreResult(totalScore: int, maxScore: int, breakdown: map<string, int>,
                                     reasons: seq<string>, unassessed: bool)

  predicate Applies(r: RuleDef, ctx: EvalContext) {
    r.gate.None? || r.gate.value(ctx)
  }

  predicate Fires(r: RuleDef, ctx: EvalContext) {
    Applies(r, ctx) && r.eval(ctx)
  }

  /******* What the engine computes *******/

  /** The weight of the rules that apply, and of those that fire. */
  function MaxScore(rules: seq<RuleDef>, ctx: EvalContext): int {
    if rules == [] then 0
    else
      var n := |rules| - 1;
      MaxScore(rules[..n], ctx) + if Applies(rules[n], ctx) then rules[n].weight else 0
  }

  function TotalScore(rules: seq<RuleDef>, ctx: EvalContext): int {
    if rules == [] then 0
    else
      var n := |rules| - 1;
      TotalScore(rules[..n], ctx) + if Fires(rules[n], ctx) then rules[n].weight else 0
  }

  function Fired(rules: seq<RuleDef>, ctx: EvalContext): seq<RuleDef> {
    if rules == [] then []
    else
      var n := |rules| - 1;
      Fired(rules[..n], ctx) + if Fires(rules[n], ctx) then [rules[n]] else []
  }

  function Breakdown(rules: seq<RuleDef>, ctx: EvalContext): map<string, int> {
    if rules == [] then map[]
    else
      var n := |rules| - 1;
      Breakdown(rules[..n], ctx)[rules[n].name := if Fires(rules[n], ctx) then rules[n].weight else 0]
  }

  function Reasons(rules: seq<RuleDef>): seq<string> {
    seq(|rules|, i requires 0 <= i < |rules| => rules[i].reason)
  }

  function Result(rules: seq<RuleDef>, ctx: EvalContext): ScoreResult {
    ScoreResult(TotalScore(rules, ctx), MaxScore(rules, ctx), Breakdown(rules, ctx),
                Reasons(Fired(rules, ctx)), ctx.siteOpaque && ctx.hasWebsite)
  }

  method Evaluate(rules: seq<RuleDef>, ctx: EvalContext) returns (res: ScoreResult)
    ensures res == Result(rules, ctx)
  {
    var total, max, breakdown, reasons := 0, 0, map[], [];
    for i := 0 to |rules|
      invariant total == TotalScore(rules[..i], ctx) && max == MaxScore(rules[..i], ctx)
      invariant breakdown == Breakdown(rules[..i], ctx)
      invariant reasons == Reasons(Fired(rules[..i], ctx))
    {
      var rule := rules[i];
      assert rules[..i + 1][..i] == rules[..i];
      if !Applies(rule, ctx) {
        breakdown := breakdown[rule.name := 0];
        continue;
      }
      max := max + rule.weight;
      if rule.eval(ctx) {
        breakdown := breakdown[rule.name := rule.weight];
        total := total + rule.weight;
        reasons := reasons + [rule.reason];
      } else {
        breakdown := breakdown[rule.name := 0];
      }
    }
    assert rules[..|rules|] == rules;
    res := ScoreResult(total, max, breakdown, reasons, ctx.siteOpaque && ctx.hasWebsite);
  }

  /******* Bounds *******/

  predicate NonNegative(rules: seq<RuleDef>) {
    forall i :: 0 <= i < |rules| ==> rules[i].weight >= 0
  }

  predicate DistinctNames(rules: seq<RuleDef>) {
    forall i, j :: 0 <= i < j < |rules| ==> rules[i].name != rules[j].name
  }

  lemma {:induction false} ScoresAreBounded(rules: seq<RuleDef>, ctx: EvalContext)
    requires NonNegative(rules)
    ensures 0 <= TotalScore(rules, ctx) <= MaxScore(rules, ctx)
  {
    if rules != [] {
      ScoresAreBounded(rules[..|rules| - 1], ctx);
    }
  }

  ghost function SumOf(keys: set<string>, m: map<string, int>): int
    requires keys <= m.Keys
  {
    if keys == {} then 0 else var k :| k in keys; m[k] + SumOf(keys - {k}, m)
  }

  lemma {:induction false} SumOfPick(keys: set<string>, m: map<string, int>, k: string)
    requires keys <= m.Keys && k in keys
    ensures SumOf(keys, m) == m[k] + SumOf(keys - {k}, m)
    decreases keys
  {
    var x :| x in keys && SumOf(keys, m) == m[x] + SumOf(keys - {x}, m);
    if x != k {
      SumOfPick(keys - {x}, m, k);
      SumOfPick(keys - {k}, m, x);
      assert keys - {x} - {k} == keys - {k} - {x};
    }
  }

  lemma {:induction false} SumOfSame(keys: set<string>, m: map<string, int>, n: map<string, int>)
    requires keys <= m.Keys && keys <= n.Keys && forall k :: k in keys ==> m[k] == n[k]
    ensures SumOf(keys, m) == SumOf(keys, n)
    decreases keys
  {
    if k :| k in keys {
      SumOfPick(keys, m, k);
      SumOfPick(keys, n, k);
      SumOfSame(keys - {k}, m, n);
    }
  }

  lemma {:induction false} BreakdownNames(rules: seq<RuleDef>, ctx: EvalContext, name: string)
    ensures name in Breakdown(rules, ctx) <==> exists i :: 0 <= i < |rules| && rules[i].name == name
  {
    if rules != [] {
      var n := |rules| - 1;
      BreakdownNames(rules[..n], ctx, name);
      if i :| 0 <= i < |rules| && rules[i].name == name && i < n {
        assert rules[..n][i].name == name;
      }
    }
  }

  /** With distinct names, the breakdown adds up to the total. */
  lemma {:induction false} BreakdownAddsUp(rules: seq<RuleDef>, ctx: EvalContext)
    requires DistinctNames(rules)
    ensures SumOf(Breakdown(rules, ctx).Keys, Breakdown(rules, ctx)) == TotalScore(rules, ctx)
  {
    if rules != [] {
      var n := |rules| - 1;
      var before, after := Breakdown(rules[..n], ctx), Breakdown(rules, ctx);
      BreakdownAddsUp(rules[..n], ctx);
      BreakdownNames(rules[..n], ctx, rules[n].name);
      assert rules[n].name !in before;
      SumOfPick(after.Keys, after, rules[n].name);
      assert after.Keys - {rules[n].name} == before.Keys;
      SumOfSame(before.Keys, before, after);
    }
  }

  /******* Percent and rank *******/

  /** Go's integer division: towards zero. */
  function Quotient(x: int, y: int): int
    requires y != 0
  {
    if x >= 0 && y > 0 then x / y
    else if x < 0 && y < 0 then -x / -y
    else if x < 0 then -(-x / y)
    else -(x / -y)
  }

  function Percent(total: int, max: int): int {
    if max == 0 then 0 else Quotient(total * 100, max)
  }

  function PercentOf(rules: seq<RuleDef>, ctx: EvalContext): int {
    Percent(TotalScore(rules, ctx), MaxScore(rules, ctx))
  }

  function RankedScore(rules: seq<RuleDef>, ctx: EvalContext): int {
    if ctx.siteOpaque && ctx.hasWebsite then Quotient(PercentOf(rules, ctx), 2) else PercentOf(rules, ctx)
  }

  lemma QuotientBounds(x: int, y: int)
    requires y > 0
    ensures x / y * y <= x < (x / y + 1) * y
  {
  }

  /** The quotient is the largest whole number whose multiple still fits. */
  lemma QuotientAtLeast(x: int, y: int, q: int)
    requires y > 0 && q * y <= x
    ensures q <= x / y
  {
    QuotientBounds(x, y);
    Product(q, x / y + 1, y);
  }

  lemma Product(a: int, b: int, c: int)
    requires c > 0
    ensures a >= b ==> a * c >= b * c
  {
  }

  lemma PercentIsBounded(total: int, max: int)
    requires 0 <= total <= max
    ensures 0 <= Percent(total, max) <= 100
  {
    if max > 0 {
      QuotientAtLeast(total * 100, max, 0);
      QuotientBounds(total * 100, max);
      Product(total * 100 / max, 101, max);
    }
  }

  /** The percentage is the share of the total in the maximum, in whole percent; with nothing to score it is 0. */
  lemma PercentIsTheShare(rules: seq<RuleDef>, ctx: EvalContext)
    requires NonNegative(rules)
    ensures var total, max, p := TotalScore(rules, ctx), MaxScore(rules, ctx), PercentOf(rules, ctx);
            if max == 0 then p == 0 else p * max <= total * 100 < (p + 1) * max
  {
    ScoresAreBounded(rules, ctx);
    if MaxScore(rules, ctx) > 0 {
      QuotientBounds(TotalScore(rules, ctx) * 100, MaxScore(rules, ctx));
    }
  }

  /** The ranked score is the percentage, or its half, rounded down, for a site that could not be assessed. */
  lemma RankIsThePercentage(rules: seq<RuleDef>, ctx: EvalContext)
    requires NonNegative(rules)
    ensures var p, ranked := PercentOf(rules, ctx), RankedScore(rules, ctx);
            if ctx.hasWebsite && ctx.siteOpaque then 2 * ranked <= p <= 2 * ranked + 1 else ranked == p
  {
    ScoresAreBounded(rules, ctx);
    PercentIsBounded(TotalScore(rules, ctx), MaxScore(rules, ctx));
    hide PercentOf, TotalScore, MaxScore;
  }

  /** With distinct names, the breakdown gives a rule's weight where it applies and fires, and 0 otherwise. */
  lemma {:induction false} BreakdownTells(rules: seq<RuleDef>, ctx: EvalContext, i: nat)
    requires DistinctNames(rules) && i < |rules|
    ensures rules[i].name in Breakdown(rules, ctx)
    ensures Breakdown(rules, ctx)[rules[i].name] ==
              if (rules[i].gate.None? || rules[i].gate.value(ctx)) && rules[i].eval(ctx) then rules[i].weight else 0
  {
    var n := |rules| - 1;
    if i < n {
      BreakdownTells(rules[..n], ctx, i);
      assert rules[..n][i] == rules[i];
    }
  }

  /** The reasons are those of the rules that apply and fire, in the order of the rules. */
  lemma {:induction false} ReasonsTell(rules: seq<RuleDef>, ctx: EvalContext)
    ensures rules != [] ==>
              var n := |rules| - 1;
              Result(rules, ctx).reasons == Result(rules[..n], ctx).reasons
                + if (rules[n].gate.None? || rules[n].gate.value(ctx)) && rules[n].eval(ctx) then [rules[n].reason] else []
    ensures rules == [] ==> Result(rules, ctx).reasons == []
    ensures Result(rules, ctx).unassessed <==> ctx.siteOpaque && ctx.hasWebsite
  {
  }

  /** A larger share of a larger whole: adding `w` to both sides never lowers the percentage. */
  lemma AddingToBothRaises(total: int, max: int, w: int)
    requires 0 <= total <= max && w >= 0
    ensures Percent(total, max) <= Percent(total + w, max + w)
  {
    if max > 0 {
      var p := Percent(total, max);
      PercentIsBounded(total, max);
      QuotientBounds(total * 100, max);
      assert p * (max + w) == p * max + p * w;
      assert p * w <= 100 * w;
      QuotientAtLeast((total + w) * 100, max + w, p);
    } else {
      PercentIsBounded(w, w);
    }
  }

  lemma AddingToMaxLowers(total: int, max: int, w: int)
    requires 0 <= total <= max && w >= 0
    ensures Percent(total, max + w) <= Percent(total, max)
  {
    if max > 0 {
      var q := Percent(total, max + w);
      PercentIsBounded(total, max + w);
      QuotientBounds(total * 100, max + w);
      assert q * (max + w) == q * max + q * w && q * w >= 0;
      QuotientAtLeast(total * 100, max, q);
    } else if w > 0 {
      assert Percent(0, w) == 0;
    }
  }

  /** Where in the list a rule stands does not matter to the score: it adds what it adds. */
  lemma {:induction false} RuleAnywhere(before: seq<RuleDef>, r: RuleDef, after: seq<RuleDef>, ctx: EvalContext)
    ensures MaxScore(before + [r] + after, ctx) ==
              MaxScore(before + after, ctx) + if r.gate.None? || r.gate.value(ctx) then r.weight else 0
    ensures TotalScore(before + [r] + after, ctx) ==
              TotalScore(before + after, ctx) + if (r.gate.None? || r.gate.value(ctx)) && r.eval(ctx) then r.weight else 0
    decreases after
  {
    var with, without := before + [r] + after, before + after;
    if after == [] {
      assert with[..|with| - 1] == before && without == before;
    } else {
      var n := |after| - 1;
      RuleAnywhere(before, r, after[..n], ctx);
      assert with[..|with| - 1] == before + [r] + after[..n];
      assert without[..|without| - 1] == before + after[..n];
    }
  }

  lemma NonNegativeParts(before: seq<RuleDef>, r: RuleDef, after: seq<RuleDef>)
    requires NonNegative(before + [r] + after)
    ensures NonNegative(before + after) && r.weight >= 0
  {
    var with, without := before + [r] + after, before + after;
    assert with[|before|] == r;
    forall i | 0 <= i < |without| ensures without[i].weight >= 0 {
      assert without[i] == with[if i < |before| then i else i + 1];
    }
  }

  /**
   Wherever a rule is added: one that does not apply changes nothing, one that fires never lowers the
   percentage, and one that applies without firing never raises it.
   */
  lemma AddingARule(before: seq<RuleDef>, r: RuleDef, after: seq<RuleDef>, ctx: EvalContext)
    requires NonNegative(before + [r] + after)
    ensures NonNegative(before + after)
    ensures var applies := r.gate.None? || r.gate.value(ctx);
            && (!applies ==> PercentOf(before + [r] + after, ctx) == PercentOf(before + after, ctx))
            && (applies && r.eval(ctx) ==> PercentOf(before + [r] + after, ctx) >= PercentOf(before + after, ctx))
            && (!r.eval(ctx) ==> PercentOf(before + [r] + after, ctx) <= PercentOf(before + after, ctx))
  {
    NonNegativeParts(before, r, after);
    RuleAnywhere(before, r, after, ctx);
    ScoresAreBounded(before + after, ctx);
    AddingToBothRaises(TotalScore(before + after, ctx), MaxScore(before + after, ctx), r.weight);
    AddingToMaxLowers(TotalScore(before + after, ctx), MaxScore(before + after, ctx), r.weight);
  }

  /******* The leading reason *******/

  predicate NonIncreasing(rules: seq<RuleDef>) {
    forall i, j :: 0 <= i < j < |rules| ==> rules[i].weight >= rules[j].weight
  }

  lemma {:induction false} FirstFiredIsHeaviest(rules: seq<RuleDef>, ctx: EvalContext, r: RuleDef)
    requires NonIncreasing(rules) && r in Fired(rules, ctx)
    ensures Fired(rules, ctx)[0].weight >= r.weight && Fired(rules, ctx)[0] in rules && r in rules
  {
    var n := |rules| - 1;
    var before := Fired(rules[..n], ctx);
    if before == [] {
      assert Fired(rules, ctx) == [rules[n]];
    } else {
      FirstFiredIsHeaviest(rules[..n], ctx, before[0]);
      assert before[0] in rules[..n];
      if r in before {
        FirstFiredIsHeaviest(rules[..n], ctx, r);
      }
    }
  }

  /** For non-increasing weights, the first reason is that of a heaviest rule that fired. */
  lemma LeadingReason(rules: seq<RuleDef>, ctx: EvalContext)
    requires NonIncreasing(rules) && Result(rules, ctx).reasons != []
    ensures exists i :: && 0 <= i < |rules| && rules[i].eval(ctx) && (rules[i].gate.None? || rules[i].gate.value(ctx))
                        && Result(rules, ctx).reasons[0] == rules[i].reason
                        && forall j :: 0 <= j < |rules| && rules[j].eval(ctx) && (rules[j].gate.None? || rules[j].gate.value(ctx)) ==>
                             rules[j].weight <= rules[i].weight
  {
    var fired := Fired(rules, ctx);
    FirstFiredIsHeaviest(rules, ctx, fired[0]);
    FiredAre(rules, ctx);
    var i :| 0 <= i < |rules| && rules[i] == fired[0];
    forall j | 0 <= j < |rules| && Fires(rules[j], ctx) ensures rules[j].weight <= rules[i].weight {
      assert rules[j] in rules;
      FirstFiredIsHeaviest(rules, ctx, rules[j]);
    }
  }

  lemma {:induction false} FiredAre(rules: seq<RuleDef>, ctx: EvalContext)
    ensures forall r :: r in Fired(rules, ctx) <==> r in rules && Fires(r, ctx)
  {
    if rules != [] {
      var n := |rules| - 1;
      FiredAre(rules[..n], ctx);
      assert rules == rules[..n] + [rules[n]];
    }
  }

  /******* The default rules *******/

  function Rule(name: string, weight: int, eval: EvalContext -> bool, gate: Option<EvalContext -> bool>): RuleDef {
    RuleDef(name, weight, name, eval, gate)
  }

  /** Reasons are represented by the rule's name. */
  function DefaultRules(): seq<RuleDef> {
    var liveSite := Some((c: EvalContext) => c.hasWebsite && c.isReachable);
    [ Rule("social_only", 32, (c: EvalContext) => c.socialOnly, Some((c: EvalContext) => c.socialOnly)),
      Rule("no_website", 30, (c: EvalContext) => !c.hasWebsite, Some((c: EvalContext) => !c.hasWebsite && !c.socialOnly)),
      Rule("broken_website", 25, (c: EvalContext) => c.siteDown, Some((c: EvalContext) => c.hasWebsite && !c.siteOpaque)),
      Rule("not_mobile_friendly", 15, (c: EvalContext) => !c.isMobileFriendly, liveSite),
      Rule("no_booking", 12, (c: EvalContext) => !c.hasBooking, liveSite),
      Rule("ssl_missing", 10, (c: EvalContext) => !c.hasSSL, Some((c: EvalContext) => c.hasWebsite)),
      Rule("no_contact_form", 8, (c: EvalContext) => !c.hasContactForm, liveSite),
      Rule("email_missing", 6, (c: EvalContext) => !c.hasEmail, None),
      Rule("no_social_links", 5, (c: EvalContext) => !c.hasSocialLinks, None),
      Rule("meta_missing", 4, (c: EvalContext) => !c.hasMetaTags, liveSite),
      Rule("phone_missing", 2, (c: EvalContext) => !c.hasPhone, None) ]
  }

  /** The default rules' weights, heaviest first, and the first and fourth letters of their names. */
  lemma DefaultRulesByPosition()
    ensures var weights := [32, 30, 25, 15, 12, 10, 8, 6, 5, 4, 2];
            |DefaultRules()| == |weights| && forall i :: 0 <= i < |weights| ==> DefaultRules()[i].weight == weights[i]
    ensures var letters := [('s', 'i'), ('n', 'w'), ('b', 'k'), ('n', '_'), ('n', 'b'), ('s', '_'), ('n', 'c'),
                            ('e', 'i'), ('n', 's'), ('m', 'a'), ('p', 'n')];
            forall i :: 0 <= i < |letters| ==>
              var name := DefaultRules()[i].name; |name| > 3 && (name[0], name[3]) == letters[i]
  {
  }

  /** The default rules meet every condition the properties above ask for. */
  lemma DefaultRulesAreWellFormed()
    ensures NonNegative(DefaultRules()) && DistinctNames(DefaultRules()) && NonIncreasing(DefaultRules())
  {
    hide DefaultRules;
    DefaultRulesByPosition();
    DefaultNamesAreDistinct();
    hide DistinctNames;
  }

  lemma DefaultNamesAreDistinct()
    ensures DistinctNames(DefaultRules())
  {
    hide DefaultRules;
    DefaultRulesByPosition();
  }

  function Points(weight: int, counts: bool): int {
    if counts then weight else 0
  }

  /** One more rule, of which it is known what it weighs, when it applies and what gap it looks for. */
  lemma OneMoreRule(rules: seq<RuleDef>, ctx: EvalContext, n: nat, weight: int, applies: bool, gap: bool)
    requires n < |rules| && rules[n].weight == weight
    requires ((rules[n].gate.None? || rules[n].gate.value(ctx)) <==> applies) && (rules[n].eval(ctx) <==> gap)
    ensures MaxScore(rules[..n + 1], ctx) == MaxScore(rules[..n], ctx) + Points(weight, applies)
    ensures TotalScore(rules[..n + 1], ctx) == TotalScore(rules[..n], ctx) + Points(weight, applies && gap)
  {
    assert rules[..n + 1][..n] == rules[..n];
  }

  lemma NoRules(rules: seq<RuleDef>, ctx: EvalContext)
    ensures MaxScore(rules[..0], ctx) == 0 && TotalScore(rules[..0], ctx) == 0
  {
  }

  /** What the default rules that apply weigh, and those that fire: the four about having a site at all, … */
  lemma StorefrontScores(ctx: EvalContext)
    ensures var live, rules := ctx.hasWebsite && ctx.isReachable, DefaultRules();
            && MaxScore(rules[..4], ctx) ==
               Points(32, ctx.socialOnly) + Points(30, !ctx.hasWebsite && !ctx.socialOnly)
               + Points(25, ctx.hasWebsite && !ctx.siteOpaque) + Points(15, live)
            && TotalScore(rules[..4], ctx) ==
               Points(32, ctx.socialOnly) + Points(30, !ctx.hasWebsite && !ctx.socialOnly)
               + Points(25, ctx.hasWebsite && !ctx.siteOpaque && ctx.siteDown) + Points(15, live && !ctx.isMobileFriendly)
  {
    var rules, live := DefaultRules(), ctx.hasWebsite && ctx.isReachable;
    hide MaxScore, TotalScore, Points;
    NoRules(rules, ctx);
    OneMoreRule(rules, ctx, 0, 32, ctx.socialOnly, ctx.socialOnly);
    OneMoreRule(rules, ctx, 1, 30, !ctx.hasWebsite && !ctx.socialOnly, !ctx.hasWebsite);
    OneMoreRule(rules, ctx, 2, 25, ctx.hasWebsite && !ctx.siteOpaque, ctx.siteDown);
    OneMoreRule(rules, ctx, 3, 15, live, !ctx.isMobileFriendly);
  }

  /** … the three about what it offers, … */
  lemma OfferScores(ctx: EvalContext)
    ensures var live, rules := ctx.hasWebsite && ctx.isReachable, DefaultRules();
            && MaxScore(rules[..7], ctx) ==
               MaxScore(rules[..4], ctx) + Points(12, live) + Points(10, ctx.hasWebsite) + Points(8, live)
            && TotalScore(rules[..7], ctx) ==
               TotalScore(rules[..4], ctx) + Points(12, live && !ctx.hasBooking) + Points(10, ctx.hasWebsite && !ctx.hasSSL)
               + Points(8, live && !ctx.hasContactForm)
  {
    var rules, live := DefaultRules(), ctx.hasWebsite && ctx.isReachable;
    hide MaxScore, TotalScore, Points;
    OneMoreRule(rules, ctx, 4, 12, live, !ctx.hasBooking);
    OneMoreRule(rules, ctx, 5, 10, ctx.hasWebsite, !ctx.hasSSL);
    OneMoreRule(rules, ctx, 6, 8, live, !ctx.hasContactForm);
  }

  /** … and the four about being found and reached. */
  lemma ReachScores(ctx: EvalContext)
    ensures var live, rules := ctx.hasWebsite && ctx.isReachable, DefaultRules();
            && MaxScore(rules, ctx) ==
               MaxScore(rules[..7], ctx) + Points(6, true) + Points(5, true) + Points(4, live) + Points(2, true)
            && TotalScore(rules, ctx) ==
               TotalScore(rules[..7], ctx) + Points(6, !ctx.hasEmail) + Points(5, !ctx.hasSocialLinks)
               + Points(4, live && !ctx.hasMetaTags) + Points(2, !ctx.hasPhone)
  {
    var rules, live := DefaultRules(), ctx.hasWebsite && ctx.isReachable;
    hide MaxScore, TotalScore, Points;
    OneMoreRule(rules, ctx, 7, 6, true, !ctx.hasEmail);
    OneMoreRule(rules, ctx, 8, 5, true, !ctx.hasSocialLinks);
    OneMoreRule(rules, ctx, 9, 4, live, !ctx.hasMetaTags);
    OneMoreRule(rules, ctx, 10, 2, true, !ctx.hasPhone);
    assert rules[..11] == rules;
  }

  /** The site does not load, and the crawler could tell. */
  predicate IsDead(ctx: EvalContext) {
    ctx.hasWebsite && ctx.siteDown && !ctx.siteOpaque && !ctx.isReachable && !ctx.socialOnly
  }

  /** A quotient is at least `q` exactly if the dividend has room for it. */
  lemma QuotientReaches(x: int, y: int, q: int)
    requires 0 <= x && 0 < y && 0 <= q
    ensures q <= Quotient(x, y) <==> q * y <= x
  {
    QuotientBounds(x, y);
    if q * y <= x {
      QuotientAtLeast(x, y, q);
    }
  }

  lemma DeadReachesHalf(ctx: EvalContext)
    requires IsDead(ctx)
    ensures RankedScore(DefaultRules(), ctx) >= 52
  {
    StorefrontScores(ctx);
    OfferScores(ctx);
    ReachScores(ctx);
    hide DefaultRules, MaxScore, TotalScore;
    QuotientReaches(TotalScore(DefaultRules(), ctx) * 100, MaxScore(DefaultRules(), ctx), 52);
  }

  lemma NoSiteReachesTwoThirds(ctx: EvalContext)
    requires !ctx.hasWebsite
    ensures RankedScore(DefaultRules(), ctx) >= 69
  {
    StorefrontScores(ctx);
    OfferScores(ctx);
    ReachScores(ctx);
    hide DefaultRules, MaxScore, TotalScore;
    QuotientReaches(TotalScore(DefaultRules(), ctx) * 100, MaxScore(DefaultRules(), ctx), 69);
  }

  /**
   By the default rules a lead whose site could not be looked at ranks below every lead whose site is dead or
   missing, whatever else is known of either.
   */
  lemma UnseenRanksBelowDead(unseen: EvalContext, dead: EvalContext)
    requires unseen.hasWebsite && unseen.siteOpaque && (IsDead(dead) || !dead.hasWebsite)
    ensures RankedScore(DefaultRules(), unseen) <= 50 < RankedScore(DefaultRules(), dead)
  {
    DefaultRulesAreWellFormed();
    ScoresAreBounded(DefaultRules(), unseen);
    RankIsThePercentage(DefaultRules(), unseen);
    PercentIsBounded(TotalScore(DefaultRules(), unseen), MaxScore(DefaultRules(), unseen));
    hide DefaultRules, RankedScore, TotalScore, MaxScore;
    if dead.hasWebsite {
      DeadReachesHalf(dead);
    } else {
      NoSiteReachesTwoThirds(dead);
    }
  }

  /** Selling through social media alone ranks at least as high as having no web presence, all else equal. */
  lemma SocialOnlyRanksHighest(none: EvalContext, platform: string)
    requires !none.hasWebsite && !none.socialOnly
    ensures RankedScore(DefaultRules(), none.(socialOnly := true, socialPlatform := platform)) >= RankedScore(DefaultRules(), none)
  {
    var social := none.(socialOnly := true, socialPlatform := platform);
    WithoutASite(none);
    WithoutASite(social);
    hide DefaultRules, MaxScore, TotalScore;
    var x, y := TotalScore(DefaultRules(), none), TotalScore(DefaultRules(), social);
    PercentIsBounded(x, 43);
    QuotientReaches(x * 100, 43, PercentOf(DefaultRules(), none));
    QuotientReaches(y * 100, 45, PercentOf(DefaultRules(), none));
  }

  lemma WithoutASite(ctx: EvalContext)
    requires !ctx.hasWebsite
    ensures var rules, reach := DefaultRules(), Points(6, !ctx.hasEmail) + Points(5, !ctx.hasSocialLinks) + Points(2, !ctx.hasPhone);
            && MaxScore(rules, ctx) == (if ctx.socialOnly then 45 else 43)
            && TotalScore(rules, ctx) == (if ctx.socialOnly then 32 else 30) + reach
            && 0 <= reach <= 13
  {
    StorefrontScores(ctx);
    OfferScores(ctx);
    ReachScores(ctx);
    hide DefaultRules, MaxScore, TotalScore;
  }
}
