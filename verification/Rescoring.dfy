/** Scoring a lead from what the tables hold, recommending on top of it, and doing both again. */
module Rescoring {
  import opened Jobs
  import opened Scoring
  import LeadScore
  import LeadStore

  datatype Business = Business(name: string, phone: string, website: string)

  /** The latest audit_reports row of a business. */
  datatype Audit = Audit(axes: LeadScore.Audit, summary: string, services: seq<string>, issues: seq<string>)

  /** A lead_scores row; its id and times are not part of the model. */
  datatype Score = Score(total: int, rule: int, ai: int, priority: LeadScore.Priority,
                         breakdown: map<string, int>, suggestion: string)

  datatype Tables = Tables(businesses: map<nat, Business>, crawl: LeadStore.Tables,
                           audits: map<nat, Audit>, scores: map<nat, Score>)

  /** Which of the reads a handler can do without succeed: the last is genRecommendation's. */
  datatype Reads = Reads(site: bool, contacts: bool, socials: bool, audit: bool, auditAgain: bool)

  /******* The facts *******/

  predicate HasEmail(contacts: seq<LeadStore.Contact>, b: nat) {
    exists i :: 0 <= i < |contacts| && contacts[i].business == b && contacts[i].email != ""
  }

  predicate HasNumber(contacts: seq<LeadStore.Contact>, b: nat) {
    exists i :: 0 <= i < |contacts| && contacts[i].business == b && (contacts[i].phone != "" || contacts[i].whatsApp != "")
  }

  predicate HasProfile(socials: map<(nat, string), LeadStore.Social>, b: nat) {
    exists key :: key in socials && key.0 == b
  }

  /** The crawl's facts, where scoring takes note of them. */
  function SiteOf(t: Tables, b: nat, looks: Reads, social: Option<string>): Option<LeadStore.SiteFacts> {
    if looks.site && b in t.crawl.websites && social.None? then Some(t.crawl.websites[b].facts) else None
  }

  predicate StatusIs(site: Option<LeadStore.SiteFacts>, status: string) {
    site.Some? && site.value.crawlStatus == status
  }

  /** `platform` tells which social network a website address belongs to, if any. */
  function ContextOf(t: Tables, b: nat, looks: Reads, platform: string -> Option<string>): EvalContext
    requires b in t.businesses
  {
    var business := t.businesses[b];
    var social := platform(business.website);
    var site := SiteOf(t, b, looks, social);
    EvalContext(
      business.website != "" && social.None?,
      site.Some? && site.value.hasSSL,
      business.phone != "" || (looks.contacts && HasNumber(t.crawl.contacts, b)),
      looks.contacts && HasEmail(t.crawl.contacts, b),
      site.Some? && site.value.hasBooking,
      site.Some? && site.value.metaDescription != "",
      looks.socials && HasProfile(t.crawl.socials, b),
      StatusIs(site, "live"),
      site.Some? && site.value.isMobileFriendly,
      site.Some? && site.value.hasBooking,
      StatusIs(site, "down"),
      StatusIs(site, "blocked") || StatusIs(site, "unknown"),
      social.Some?,
      if social.Some? then social.value else "")
  }

  /** The facts in the tables' own words, field by field. */
  ghost predicate Reflects(ctx: EvalContext, t: Tables, b: nat, looks: Reads, platform: string -> Option<string>)
    requires b in t.businesses
  {
    var business, social := t.businesses[b], platform(t.businesses[b].website);
    && ctx.socialOnly == social.Some?
    && ctx.socialPlatform == (if social.Some? then social.value else "")
    && ctx.hasWebsite == (business.website != "" && social.None?)
    && (ctx.hasPhone <==> business.phone != "" || (looks.contacts && exists c ::
          c in t.crawl.contacts && c.business == b && (c.phone != "" || c.whatsApp != "")))
    && (ctx.hasEmail <==> looks.contacts && exists c :: c in t.crawl.contacts && c.business == b && c.email != "")
    && (ctx.hasSocialLinks <==> looks.socials && exists key :: key in t.crawl.socials && key.0 == b)
    && if looks.site && b in t.crawl.websites && social.None? then
         var site := t.crawl.websites[b].facts;
         && ctx.isReachable == (site.crawlStatus == "live")
         && ctx.siteDown == (site.crawlStatus == "down")
         && ctx.siteOpaque == (site.crawlStatus == "blocked" || site.crawlStatus == "unknown")
         && ctx.hasSSL == site.hasSSL && ctx.isMobileFriendly == site.isMobileFriendly
         && ctx.hasBooking == site.hasBooking && ctx.hasContactForm == site.hasBooking
         && ctx.hasMetaTags == (site.metaDescription != "")
       else
         && !ctx.isReachable && !ctx.siteDown && !ctx.siteOpaque && !ctx.hasSSL && !ctx.isMobileFriendly
         && !ctx.hasBooking && !ctx.hasContactForm && !ctx.hasMetaTags
  }

  lemma ContactsTell(contacts: seq<LeadStore.Contact>, b: nat)
    ensures HasEmail(contacts, b) <==> exists c :: c in contacts && c.business == b && c.email != ""
    ensures HasNumber(contacts, b) <==>
              exists c :: c in contacts && c.business == b && (c.phone != "" || c.whatsApp != "")
  {
    if c :| c in contacts && c.business == b && c.email != "" {
      var i :| 0 <= i < |contacts| && contacts[i] == c;
    }
    if c :| c in contacts && c.business == b && (c.phone != "" || c.whatsApp != "") {
      var i :| 0 <= i < |contacts| && contacts[i] == c;
    }
  }

  lemma ContextReflects(t: Tables, b: nat, looks: Reads, platform: string -> Option<string>)
    requires b in t.businesses
    ensures Reflects(ContextOf(t, b, looks, platform), t, b, looks, platform)
  {
    ContactsTell(t.crawl.contacts, b);
    hide HasEmail, HasNumber;
  }

  method BuildContext(t: Tables, b: nat, looks: Reads, platform: string -> Option<string>) returns (ctx: EvalContext)
    requires b in t.businesses
    ensures ctx == ContextOf(t, b, looks, platform)
    ensures Reflects(ctx, t, b, looks, platform)
  {
    hide Reflects, HasEmail, HasNumber, HasProfile, StatusIs;
    var business := t.businesses[b];
    var social := platform(business.website);
    var hasWebsite, hasPhone, hasEmail, hasSocialLinks := business.website != "", business.phone != "", false, false;
    if social.Some? {
      hasWebsite := false;
    }
    var site := SiteOf(t, b, looks, social);
    if looks.contacts {
      var email, number := LookAtContacts(t.crawl.contacts, b);
      hasEmail, hasPhone := email, hasPhone || number;
    }
    if looks.socials {
      hasSocialLinks := HasProfile(t.crawl.socials, b);
    }
    ctx := EvalContext(hasWebsite, false, hasPhone, hasEmail, false, false, hasSocialLinks, false, false, false,
                       false, false, social.Some?, if social.Some? then social.value else "");
    if site.Some? {
      ctx := ctx.(isReachable := StatusIs(site, "live"),
                  siteDown := StatusIs(site, "down"),
                  siteOpaque := StatusIs(site, "blocked") || StatusIs(site, "unknown"),
                  hasSSL := site.value.hasSSL,
                  hasBooking := site.value.hasBooking,
                  isMobileFriendly := site.value.isMobileFriendly,
                  hasMetaTags := site.value.metaDescription != "",
                  hasContactForm := site.value.hasBooking);
    } else {
      NoStatus();
    }
    assert ctx == ContextOf(t, b, looks, platform);
    hide ContextOf, SiteOf;
    ContextReflects(t, b, looks, platform);
  }

  lemma NoStatus()
    ensures forall status :: !StatusIs(None, status)
  {
  }

  method LookAtContacts(contacts: seq<LeadStore.Contact>, b: nat) returns (email: bool, number: bool)
    ensures email == HasEmail(contacts, b) && number == HasNumber(contacts, b)
  {
    NoContacts(b);
    hide HasEmail, HasNumber;
    email, number := false, false;
    assert contacts[..0] == [];
    for i := 0 to |contacts|
      invariant email == HasEmail(contacts[..i], b) && number == HasNumber(contacts[..i], b)
    {
      var c := contacts[i];
      assert contacts[..i + 1] == contacts[..i] + [c];
      OneMoreContact(contacts[..i], c, b);
      if c.business == b && c.email != "" {
        email := true;
      }
      if c.business == b && (c.phone != "" || c.whatsApp != "") {
        number := true;
      }
    }
    assert contacts[..|contacts|] == contacts;
  }

  lemma NoContacts(b: nat)
    ensures !HasEmail([], b) && !HasNumber([], b)
  {
  }

  lemma OneMoreContact(contacts: seq<LeadStore.Contact>, c: LeadStore.Contact, b: nat)
    ensures HasEmail(contacts + [c], b) <==> HasEmail(contacts, b) || (c.business == b && c.email != "")
    ensures HasNumber(contacts + [c], b) <==>
              HasNumber(contacts, b) || (c.business == b && (c.phone != "" || c.whatsApp != ""))
  {
    var all := contacts + [c];
    assert all[|contacts|] == c && forall i :: 0 <= i < |contacts| ==> all[i] == contacts[i];
  }

  /******* Scoring *******/

  /** The score ruleScoring makes of the facts and the audit it found. */
  function Judged(name: string, ctx: EvalContext, rules: seq<RuleDef>, audit: Option<LeadScore.Audit>): Score {
    var ranked := RankedScore(rules, ctx);
    var ai := if audit.Some? then LeadScore.AIScore(audit.value) else 0;
    Score(if audit.Some? then LeadScore.Folded(ranked, ai) else ranked,
          Result(rules, ctx).totalScore, ai, LeadScore.PriorityOf(rules, ctx), Result(rules, ctx).breakdown,
          LeadScore.SalesSuggestion(name, rules, ctx))
  }

  /** How facts become a score, kept general where only what it is applied to matters. */
  type Judge = (string, EvalContext, seq<RuleDef>, Option<LeadScore.Audit>) -> Score

  datatype Engine = Engine(platform: string -> Option<string>, judge: Judge)

  function AuditOf(t: Tables, b: nat, looks: Reads): Option<LeadScore.Audit> {
    if looks.audit && b in t.audits then Some(t.audits[b].axes) else None
  }

  /** The score a business gets. It is read off the other tables: lead_scores does not occur. */
  function Verdict(t: Tables, b: nat, looks: Reads, rules: seq<RuleDef>, e: Engine): Score
    requires b in t.businesses
  {
    e.judge(t.businesses[b].name, ContextOf(t, b, looks, e.platform), rules, AuditOf(t, b, looks))
  }

  /** lead_scores has one row per business; an empty suggestion keeps the stored one. */
  function Upserted(scores: map<nat, Score>, b: nat, s: Score): map<nat, Score> {
    scores[b := if s.suggestion == "" && b in scores then s.(suggestion := scores[b].suggestion) else s]
  }

  function AfterScoring(t: Tables, b: nat, looks: Reads, rules: seq<RuleDef>, e: Engine): Tables {
    if b in t.businesses then t.(scores := Upserted(t.scores, b, Verdict(t, b, looks, rules, e))) else t
  }

  /******* Recommending *******/

  function Join(parts: seq<string>, sep: string): string {
    if parts == [] then ""
    else if |parts| == 1 then parts[0]
    else parts[0] + sep + Join(parts[1..], sep)
  }

  function TopN(parts: seq<string>, n: nat): seq<string> {
    if |parts| <= n then parts else parts[..n]
  }

  function SummaryText(audit: Audit): string {
    if audit.summary != "" then "\n\nSite audit: " + audit.summary else ""
  }

  function ServicesText(audit: Audit): string {
    if audit.services != [] then "\n\nPitch: " + Join(audit.services, ", ") else ""
  }

  function IssuesText(audit: Audit): string {
    if audit.issues != [] then "\n\nTop issues: " + Join(TopN(audit.issues, 3), "; ") else ""
  }

  /** What genRecommendation appends to the stored suggestion. */
  function Appendix(audit: Audit): string {
    SummaryText(audit) + ServicesText(audit) + IssuesText(audit)
  }

  /** The text an audit adds, written out: its summary, all its services, its first three issues. */
  function Says(audit: Audit): string {
    (if audit.summary == "" then "" else "\n\nSite audit: " + audit.summary)
    + (if |audit.services| == 0 then "" else "\n\nPitch: " + Listed(audit.services, ", "))
    + (if |audit.issues| == 0 then "" else "\n\nTop issues: " + Listed(audit.issues[..if |audit.issues| < 3 then |audit.issues| else 3], "; "))
  }

  /** The parts with the separator between any two of them. */
  function Listed(parts: seq<string>, sep: string): string {
    if parts == [] then ""
    else
      var n := |parts| - 1;
      if n == 0 then parts[0] else Listed(parts[..n], sep) + sep + parts[n]
  }

  lemma {:induction false} JoinLists(parts: seq<string>, sep: string)
    ensures Join(parts, sep) == Listed(parts, sep)
  {
    var n := |parts| - 1;
    if n >= 1 {
      JoinLists(parts[1..], sep);
      JoinLists(parts[..n], sep);
      JoinLists(parts[1..][..n - 1], sep);
      assert parts[1..][..n - 1] == parts[..n][1..];
      if n >= 2 {
        assert Join(parts, sep) == parts[0] + sep + (Listed(parts[1..][..n - 1], sep) + sep + parts[n]);
        assert Join(parts[..n], sep) == parts[0] + sep + Join(parts[..n][1..], sep);
        assert parts[0] + sep + (Listed(parts[1..][..n - 1], sep) + sep + parts[n])
            == (parts[0] + sep + Listed(parts[1..][..n - 1], sep)) + sep + parts[n];
      }
    }
  }

  lemma AppendixSays(audit: Audit)
    ensures Appendix(audit) == Says(audit)
  {
    JoinLists(audit.services, ", ");
    JoinLists(TopN(audit.issues, 3), "; ");
    assert audit.issues[..|audit.issues|] == audit.issues;
    hide Join, Listed;
  }

  function WithText(s: Score, audit: Audit): Score {
    s.(suggestion := s.suggestion + Appendix(audit))
  }

  /** Without a score it fails, and without an audit it has nothing to do; either way nothing is written. */
  function AfterRecommending(t: Tables, b: nat, looks: Reads): Tables {
    if b !in t.scores || !looks.auditAgain || b !in t.audits then t
    else t.(scores := Upserted(t.scores, b, WithText(t.scores[b], t.audits[b])))
  }

  /** lead_scores as the two handlers change it. */
  class Leads {
    var businesses: map<nat, Business>
    var crawl: LeadStore.Tables
    var audits: map<nat, Audit>
    var scores: map<nat, Score>

    function Value(): Tables
      reads this
    {
      Tables(businesses, crawl, audits, scores)
    }

    method Create(b: nat, s: Score)
      modifies this`scores
      ensures scores == Upserted(old(scores), b, s)
    {
      var suggestion := s.suggestion;
      if suggestion == "" && b in scores {
        suggestion := scores[b].suggestion;
      }
      scores := scores[b := s.(suggestion := suggestion)];
    }

    method RuleScoring(b: nat, looks: Reads, rules: seq<RuleDef>, platform: string -> Option<string>) returns (ok: bool)
      modifies this`scores
      ensures Value() == AfterScoring(old(Value()), b, looks, rules, Engine(platform, Judged))
      ensures ok <==> b in businesses
      ensures ok ==>
                && b in scores
                && var ctx, s := ContextOf(old(Value()), b, looks, platform), scores[b];
                   && s.rule == TotalScore(rules, ctx) && s.breakdown == Breakdown(rules, ctx)
                   && s.priority == LeadScore.PriorityOf(rules, ctx)
                   && (if looks.audit && b in audits
                       then s.ai == LeadScore.AIScore(audits[b].axes)
                            && s.total == LeadScore.Folded(RankedScore(rules, ctx), s.ai)
                       else s.ai == 0 && s.total == RankedScore(rules, ctx))
                   && s.suggestion == LeadScore.SalesSuggestion(businesses[b].name, rules, ctx)
    {
      hide RankedScore, Result, ContextOf, LeadScore.AIScore, LeadScore.Folded, LeadScore.PriorityOf, LeadScore.SalesSuggestion;
      if b !in businesses {
        return false;
      }
      var ctx := BuildContext(Value(), b, looks, platform);
      var result := Evaluate(rules, ctx);
      var ranked := RankedScore(rules, ctx);
      var score := Score(ranked, result.totalScore, 0, LeadScore.PriorityOf(rules, ctx), result.breakdown, "");
      if looks.audit && b in audits {
        var ai := LeadScore.AIScore(audits[b].axes);
        score := score.(ai := ai, total := LeadScore.Folded(ranked, ai));
      }
      score := score.(suggestion := LeadScore.SalesSuggestion(businesses[b].name, rules, ctx));
      JudgedSpeaks(businesses[b].name, ctx, rules, AuditOf(Value(), b, looks));
      ResultTells(rules, ctx);
      Create(b, score);
      return true;
    }

    method GenRecommendation(b: nat, looks: Reads) returns (ok: bool)
      modifies this`scores
      ensures Value() == AfterRecommending(old(Value()), b, looks)
      ensures ok <==> b in old(scores)
      ensures b in old(scores) && looks.auditAgain && b in audits && Says(audits[b]) != "" ==>
                scores[b] == old(scores)[b].(suggestion := old(scores)[b].suggestion + Says(audits[b]))
    {
      if b !in scores {
        return false;
      }
      if !looks.auditAgain || b !in audits {
        return true;
      }
      var audit := audits[b];
      var text := scores[b].suggestion;
      text := text + SummaryText(audit);
      text := text + ServicesText(audit);
      text := text + IssuesText(audit);
      AppendixSays(audit);
      hide SummaryText, ServicesText, IssuesText, Says;
      assert text == scores[b].suggestion + Appendix(audit);
      Create(b, scores[b].(suggestion := text));
      return true;
    }
  }

  /******* Doing it again *******/

  /** One complete pass: a scoring, and the recommendation that follows it. */
  function AfterPass(t: Tables, b: nat, rules: seq<RuleDef>, looks: Reads, e: Engine): Tables {
    AfterRecommending(AfterScoring(t, b, looks, rules, e), b, looks)
  }

  /** Nothing but the business's own score is written. */
  predicate SameButScore(t: Tables, u: Tables, b: nat) {
    && u == t.(scores := u.scores)
    && u.scores.Keys + {b} == t.scores.Keys + {b}
    && forall c :: c in t.scores && c != b ==> c in u.scores && u.scores[c] == t.scores[c]
  }

  lemma SameVerdict(t: Tables, u: Tables, b: nat, c: nat, looks: Reads, rules: seq<RuleDef>, e: Engine)
    requires SameButScore(t, u, b) && c in t.businesses
    ensures Verdict(u, c, looks, rules, e) == Verdict(t, c, looks, rules, e)
  {
    hide HasEmail, HasNumber, HasProfile, StatusIs;
  }

  /** What scoring reads, neither handler writes; so its row is the verdict, whatever the row was before. */
  lemma ScoringIgnoresEarlierScore(t: Tables, u: Tables, b: nat, looks: Reads, rules: seq<RuleDef>, e: Engine)
    requires SameButScore(t, u, b) && b in t.businesses
    requires Verdict(t, b, looks, rules, e).suggestion != ""
    ensures AfterScoring(u, b, looks, rules, e) == AfterScoring(t, b, looks, rules, e)
    ensures AfterScoring(t, b, looks, rules, e) == t.(scores := t.scores[b := Verdict(t, b, looks, rules, e)])
  {
    SameVerdict(t, u, b, b, looks, rules, e);
    hide Verdict;
    var v := Verdict(t, b, looks, rules, e);
    assert u.scores[b := v] == t.scores[b := v];
  }

  /** A judge that always has something to say. */
  ghost predicate Talkative(e: Engine) {
    forall name, ctx, rules, audit :: e.judge(name, ctx, rules, audit).suggestion != ""
  }

  lemma JudgedIsTalkative(platform: string -> Option<string>)
    ensures Talkative(Engine(platform, Judged))
  {
    hide Judged;
    forall name, ctx, rules, audit ensures Judged(name, ctx, rules, audit).suggestion != "" {
      JudgedSpeaks(name, ctx, rules, audit);
    }
  }

  lemma ResultTells(rules: seq<RuleDef>, ctx: EvalContext)
    ensures Result(rules, ctx).totalScore == TotalScore(rules, ctx) && Result(rules, ctx).breakdown == Breakdown(rules, ctx)
  {
  }

  lemma JudgedSpeaks(name: string, ctx: EvalContext, rules: seq<RuleDef>, audit: Option<LeadScore.Audit>)
    ensures Judged(name, ctx, rules, audit).suggestion != ""
  {
    hide RankedScore, Result, LeadScore.AIScore, LeadScore.Folded, LeadScore.PriorityOf, LeadScore.SalesSuggestion;
    LeadScore.SuggestionIsNeverEmpty(name, rules, ctx);
  }

  /******* Histories *******/

  /**
   What can happen to a lead's score while the facts stay as they are: a scoring takes effect; a worker's
   genRecommendation reads the score; and later ends, having seen the audit or not. The three may come in
   any order and number, for any number of workers.
   */
  datatype Event =
    | Scored(rules: seq<RuleDef>, looks: Reads)
    | Fetched(worker: nat)
    | Appended(worker: nat, sees: bool)

  /** The tables, and the scores that workers have read and not yet written back. */
  datatype Desk = Desk(t: Tables, held: map<nat, Score>)

  function AfterEvent(d: Desk, b: nat, event: Event, e: Engine): Desk {
    match event
    case Scored(rules, looks) => d.(t := AfterScoring(d.t, b, looks, rules, e))
    case Fetched(w) => d.(held := if b in d.t.scores then d.held[w := d.t.scores[b]] else d.held - {w})
    case Appended(w, sees) =>
      if w in d.held && sees && b in d.t.audits
      then Desk(d.t.(scores := Upserted(d.t.scores, b, WithText(d.held[w], d.t.audits[b]))), d.held - {w})
      else d.(held := d.held - {w})
  }

  function AfterEvents(t: Tables, b: nat, events: seq<Event>, e: Engine): Desk {
    if events == [] then Desk(t, map[])
    else
      var n := |events| - 1;
      AfterEvent(AfterEvents(t, b, events[..n], e), b, events[n], e)
  }

  /** The handler is one read and one write: undisturbed, it does what it does at a stroke. */
  lemma RecommendingIsTwoEvents(d: Desk, b: nat, w: nat, looks: Reads, e: Engine)
    ensures AfterEvent(AfterEvent(d, b, Fetched(w), e), b, Appended(w, looks.auditAgain), e).t
              == AfterRecommending(d.t, b, looks)
  {
    hide Appendix;
  }

  /******* Where a score comes from *******/

  /**
   A score's origin: the event that scored it, or none for the row there at the start, and how often the
   audit's text has been appended to it since.
   */
  datatype Origin = Origin(scoring: Option<nat>, appends: nat)

  datatype Lineage = Lineage(row: Option<Origin>, held: map<nat, Origin>)

  /** Told from the history alone, and from whether there was a score and is an audit. */
  function LineageOf(stored: bool, audited: bool, events: seq<Event>): Lineage {
    if events == [] then Lineage(if stored then Some(Origin(None, 0)) else None, map[])
    else
      var n := |events| - 1;
      var l := LineageOf(stored, audited, events[..n]);
      match events[n]
      case Scored(_, _) => l.(row := Some(Origin(Some(n), 0)))
      case Fetched(w) => l.(held := if l.row.Some? then l.held[w := l.row.value] else l.held - {w})
      case Appended(w, sees) =>
        if w in l.held && sees && audited
        then Lineage(Some(l.held[w].(appends := l.held[w].appends + 1)), l.held - {w})
        else l.(held := l.held - {w})
  }

  lemma LineageStep(stored: bool, audited: bool, events: seq<Event>, event: Event)
    ensures var l := LineageOf(stored, audited, events);
            LineageOf(stored, audited, events + [event]) ==
              match event
              case Scored(_, _) => l.(row := Some(Origin(Some(|events|), 0)))
              case Fetched(w) => l.(held := if l.row.Some? then l.held[w := l.row.value] else l.held - {w})
              case Appended(w, sees) =>
                if w in l.held && sees && audited
                then Lineage(Some(l.held[w].(appends := l.held[w].appends + 1)), l.held - {w})
                else l.(held := l.held - {w})
  {
    assert (events + [event])[..|events|] == events;
  }

  function Repeat(text: string, n: nat): string {
    if n == 0 then "" else Repeat(text, n - 1) + text
  }

  function TextOf(t: Tables, b: nat): string {
    if b in t.audits then Appendix(t.audits[b]) else ""
  }

  predicate OriginOk(t: Tables, b: nat, events: seq<Event>, o: Origin) {
    match o.scoring
    case None => b in t.scores
    case Some(k) => k < |events| && events[k].Scored?
  }

  /** The row an origin stands for: a verdict, or the row of the start, with so many copies of the text. */
  function RowOf(t: Tables, b: nat, events: seq<Event>, o: Origin, e: Engine): Score
    requires b in t.businesses && OriginOk(t, b, events, o)
  {
    var base := if o.scoring.Some? then Verdict(t, b, events[o.scoring.value].looks, events[o.scoring.value].rules, e)
                else t.scores[b];
    base.(suggestion := base.suggestion + Repeat(TextOf(t, b), o.appends))
  }

  ghost predicate Descends(t: Tables, b: nat, events: seq<Event>, o: Origin, e: Engine, s: Score)
    requires b in t.businesses
  {
    OriginOk(t, b, events, o) && s == RowOf(t, b, events, o, e) && s.suggestion != ""
  }

  /** The tables and every score in a worker's hands are what the lineage says. */
  ghost predicate Follows(t: Tables, b: nat, events: seq<Event>, e: Engine, d: Desk, l: Lineage)
    requires b in t.businesses
  {
    && SameButScore(t, d.t, b)
    && (l.row.Some? <==> b in d.t.scores)
    && (l.row.Some? ==> Descends(t, b, events, l.row.value, e, d.t.scores[b]))
    && l.held.Keys == d.held.Keys
    && forall w :: w in l.held ==> Descends(t, b, events, l.held[w], e, d.held[w])
  }

  lemma DescendsOn(t: Tables, b: nat, events: seq<Event>, event: Event, o: Origin, e: Engine, s: Score)
    requires b in t.businesses && Descends(t, b, events, o, e, s)
    ensures Descends(t, b, events + [event], o, e, s)
  {
    hide Verdict;
  }

  lemma OneMoreCopy(t: Tables, b: nat, events: seq<Event>, o: Origin, e: Engine, s: Score)
    requires b in t.businesses && b in t.audits && Descends(t, b, events, o, e, s)
    ensures Descends(t, b, events, o.(appends := o.appends + 1), e, WithText(s, t.audits[b]))
  {
    hide Verdict, Appendix;
    var base := RowOf(t, b, events, o.(appends := 0), e);
    assert base.suggestion + Repeat(TextOf(t, b), o.appends) + TextOf(t, b)
        == base.suggestion + (Repeat(TextOf(t, b), o.appends) + TextOf(t, b));
  }

  lemma FreshVerdict(t: Tables, b: nat, events: seq<Event>, e: Engine, s: Score)
    requires b in t.businesses && events != [] && events[|events| - 1].Scored? && Talkative(e)
    requires s == Verdict(t, b, events[|events| - 1].looks, events[|events| - 1].rules, e)
    ensures Descends(t, b, events, Origin(Some(|events| - 1), 0), e, s)
  {
    assert s.suggestion + Repeat(TextOf(t, b), 0) == s.suggestion;
  }

  lemma HeldDescendOn(t: Tables, b: nat, events: seq<Event>, event: Event, e: Engine, d: Desk, l: Lineage)
    requires b in t.businesses && Follows(t, b, events, e, d, l)
    ensures forall w :: w in l.held ==> Descends(t, b, events + [event], l.held[w], e, d.held[w])
    ensures l.row.Some? ==> Descends(t, b, events + [event], l.row.value, e, d.t.scores[b])
  {
    hide Descends;
    forall w | w in l.held ensures Descends(t, b, events + [event], l.held[w], e, d.held[w]) {
      DescendsOn(t, b, events, event, l.held[w], e, d.held[w]);
    }
    if l.row.Some? { DescendsOn(t, b, events, event, l.row.value, e, d.t.scores[b]); }
  }

  lemma ScoredFollows(t: Tables, b: nat, events: seq<Event>, rules: seq<RuleDef>, looks: Reads, e: Engine, d: Desk, l: Lineage)
    requires b in t.businesses && Talkative(e) && Follows(t, b, events, e, d, l)
    ensures Follows(t, b, events + [Scored(rules, looks)], e, AfterEvent(d, b, Scored(rules, looks), e),
                    l.(row := Some(Origin(Some(|events|), 0))))
  {
    var v := Verdict(t, b, looks, rules, e);
    assert v.suggestion != "";
    ScoringIgnoresEarlierScore(t, d.t, b, looks, rules, e);
    FreshVerdict(t, b, events + [Scored(rules, looks)], e, v);
    HeldDescendOn(t, b, events, Scored(rules, looks), e, d, l);
    hide Descends, Verdict, AfterScoring;
  }

  lemma FetchedFollows(t: Tables, b: nat, events: seq<Event>, w: nat, e: Engine, d: Desk, l: Lineage)
    requires b in t.businesses && Follows(t, b, events, e, d, l)
    ensures Follows(t, b, events + [Fetched(w)], e, AfterEvent(d, b, Fetched(w), e),
                    l.(held := if l.row.Some? then l.held[w := l.row.value] else l.held - {w}))
  {
    HeldDescendOn(t, b, events, Fetched(w), e, d, l);
    hide Descends;
  }

  lemma AppendedFollows(t: Tables, b: nat, events: seq<Event>, w: nat, e: Engine, d: Desk, l: Lineage)
    requires b in t.businesses && Follows(t, b, events, e, d, l) && w in l.held && b in t.audits
    ensures Follows(t, b, events + [Appended(w, true)], e, AfterEvent(d, b, Appended(w, true), e),
                    Lineage(Some(l.held[w].(appends := l.held[w].appends + 1)), l.held - {w}))
  {
    var s := WithText(d.held[w], t.audits[b]);
    var o := l.held[w].(appends := l.held[w].appends + 1);
    OneMoreCopy(t, b, events, l.held[w], e, d.held[w]);
    assert s.suggestion != "";
    assert AfterEvent(d, b, Appended(w, true), e) == Desk(d.t.(scores := d.t.scores[b := s]), d.held - {w});
    DescendsOn(t, b, events, Appended(w, true), o, e, s);
    HeldDescendOn(t, b, events, Appended(w, true), e, d, l);
    WrittenBackFollows(t, b, events + [Appended(w, true)], w, e, d, l, o, s);
  }

  lemma WrittenBackFollows(t: Tables, b: nat, events: seq<Event>, w: nat, e: Engine, d: Desk, l: Lineage, o: Origin, s: Score)
    requires b in t.businesses && SameButScore(t, d.t, b) && l.held.Keys == d.held.Keys
    requires forall v :: v in l.held ==> Descends(t, b, events, l.held[v], e, d.held[v])
    requires Descends(t, b, events, o, e, s)
    ensures Follows(t, b, events, e, Desk(d.t.(scores := d.t.scores[b := s]), d.held - {w}), Lineage(Some(o), l.held - {w}))
  {
    hide Descends;
  }

  lemma DroppedFollows(t: Tables, b: nat, events: seq<Event>, w: nat, sees: bool, e: Engine, d: Desk, l: Lineage)
    requires b in t.businesses && Follows(t, b, events, e, d, l) && !(w in l.held && sees && b in t.audits)
    ensures Follows(t, b, events + [Appended(w, sees)], e, AfterEvent(d, b, Appended(w, sees), e), l.(held := l.held - {w}))
  {
    HeldDescendOn(t, b, events, Appended(w, sees), e, d, l);
    hide Descends;
  }

  lemma EventFollows(t: Tables, b: nat, events: seq<Event>, event: Event, e: Engine, d: Desk, l: Lineage)
    requires b in t.businesses && Talkative(e)
    requires Follows(t, b, events, e, d, l) && l == LineageOf(b in t.scores, b in t.audits, events)
    ensures Follows(t, b, events + [event], e, AfterEvent(d, b, event, e),
                    LineageOf(b in t.scores, b in t.audits, events + [event]))
  {
    LineageStep(b in t.scores, b in t.audits, events, event);
    hide Follows, AfterEvent, LineageOf;
    match event
    case Scored(rules, looks) => ScoredFollows(t, b, events, rules, looks, e, d, l);
    case Fetched(w) => FetchedFollows(t, b, events, w, e, d, l);
    case Appended(w, sees) =>
      if w in l.held && sees && b in t.audits {
        AppendedFollows(t, b, events, w, e, d, l);
      } else {
        DroppedFollows(t, b, events, w, sees, e, d, l);
      }
  }

  /**
   After any history, the stored score is the verdict of the scoring it descends from, followed by the audit's
   text as often as it was appended since. Stored suggestions are never empty, and stay so.
   */
  lemma {:induction false} EventsFollowLineage(t: Tables, b: nat, events: seq<Event>, e: Engine)
    requires b in t.businesses && Talkative(e)
    requires b in t.scores ==> t.scores[b].suggestion != ""
    ensures Follows(t, b, events, e, AfterEvents(t, b, events, e), LineageOf(b in t.scores, b in t.audits, events))
  {
    if events == [] {
      if b in t.scores {
        assert t.scores[b].suggestion + Repeat(TextOf(t, b), 0) == t.scores[b].suggestion;
      }
    } else {
      var n := |events| - 1;
      EventsFollowLineage(t, b, events[..n], e);
      assert events == events[..n] + [events[n]];
      hide Follows, AfterEvent;
      EventFollows(t, b, events[..n], events[n], e, AfterEvents(t, b, events[..n], e),
                   LineageOf(b in t.scores, b in t.audits, events[..n]));
    }
  }

  /******* Redelivery *******/

  lemma {:induction false} RepeatLength(text: string, n: nat)
    ensures |Repeat(text, n)| == n * |text|
  {
    if n > 0 {
      RepeatLength(text, n - 1);
      assert n * |text| == (n - 1) * |text| + |text|;
    }
  }

  lemma CopiesDiffer(base: string, text: string, n: nat, m: nat)
    ensures base + Repeat(text, n) == base + Repeat(text, m) <==> n == m || text == ""
  {
    RepeatLength(text, n);
    RepeatLength(text, m);
    if n != m && text != "" {
      assert n * |text| != m * |text| by {
        if n < m { Stretch(n, m, |text|); } else { Stretch(m, n, |text|); }
      }
    }
    if text == "" {
      assert Repeat(text, n) == "" && Repeat(text, m) == "";
    }
  }

  lemma Stretch(n: nat, m: nat, k: nat)
    requires n < m && k > 0
    ensures n * k < m * k
  {
    assert m * k == n * k + (m - n) * k;
  }

  /** How often one complete pass appends the audit's text. */
  function Wanted(t: Tables, b: nat, looks: Reads): nat {
    if looks.auditAgain && b in t.audits then 1 else 0
  }

  lemma PassRow(t: Tables, b: nat, rules: seq<RuleDef>, looks: Reads, e: Engine)
    requires b in t.businesses && Talkative(e)
    ensures var v := Verdict(t, b, looks, rules, e);
            AfterPass(t, b, rules, looks, e) ==
              t.(scores := t.scores[b := v.(suggestion := v.suggestion + Repeat(TextOf(t, b), Wanted(t, b, looks)))])
  {
    var v := Verdict(t, b, looks, rules, e);
    assert v.suggestion != "";
    ScoringIgnoresEarlierScore(t, t, b, looks, rules, e);
    hide Verdict, AfterScoring, Appendix;
    var text := TextOf(t, b);
    assert Repeat(text, 1) == Repeat(text, 0) + text == text;
    assert v.(suggestion := v.suggestion + Repeat(text, 0)) == v;
    if b in t.audits {
      assert t.scores[b := v][b := WithText(v, t.audits[b])] == t.scores[b := WithText(v, t.audits[b])];
    }
  }

  /** Every scoring of the history is a delivery of the same job: same rules, same reads. */
  ghost predicate SameScoring(events: seq<Event>, rules: seq<RuleDef>, looks: Reads) {
    forall i :: 0 <= i < |events| && events[i].Scored? ==> events[i] == Scored(rules, looks)
  }

  /** The stored score goes back to a scoring of the history. */
  predicate HasScoring(l: Lineage) {
    l.row.Some? && l.row.value.scoring.Some?
  }

  /**
   Redelivery, in whatever order the deliveries' reads and writes come: the tables are those of one complete
   pass if and only if the stored score carries the audit's text exactly as often as that pass appends it,
   or the audit has no text.
   */
  lemma RedeliveryMatchesOnePass(t: Tables, b: nat, events: seq<Event>, rules: seq<RuleDef>, looks: Reads,
                                 platform: string -> Option<string>)
    requires b in t.businesses && (b in t.scores ==> t.scores[b].suggestion != "")
    requires SameScoring(events, rules, looks) && HasScoring(LineageOf(b in t.scores, b in t.audits, events))
    ensures var e := Engine(platform, Judged);
            AfterEvents(t, b, events, e).t == AfterPass(t, b, rules, looks, e) <==>
            || LineageOf(b in t.scores, b in t.audits, events).row.value.appends == Wanted(t, b, looks)
            || TextOf(t, b) == ""
  {
    var e := Engine(platform, Judged);
    JudgedIsTalkative(platform);
    EventsFollowLineage(t, b, events, e);
    PassRow(t, b, rules, looks, e);
    SameRow(t, b, events, rules, looks, e, AfterEvents(t, b, events, e), LineageOf(b in t.scores, b in t.audits, events));
  }

  lemma SameRow(t: Tables, b: nat, events: seq<Event>, rules: seq<RuleDef>, looks: Reads, e: Engine, d: Desk, l: Lineage)
    requires b in t.businesses && SameScoring(events, rules, looks) && HasScoring(l) && Follows(t, b, events, e, d, l)
    ensures var v := Verdict(t, b, looks, rules, e);
            d.t == t.(scores := t.scores[b := v.(suggestion := v.suggestion + Repeat(TextOf(t, b), Wanted(t, b, looks)))]) <==>
            l.row.value.appends == Wanted(t, b, looks) || TextOf(t, b) == ""
  {
    var v := Verdict(t, b, looks, rules, e);
    var text, n, m := TextOf(t, b), l.row.value.appends, Wanted(t, b, looks);
    assert d.t.scores[b] == v.(suggestion := v.suggestion + Repeat(text, n));
    hide Verdict, TextOf, Wanted, Descends, Repeat;
    CopiesDiffer(v.suggestion, text, n, m);
    var row := v.(suggestion := v.suggestion + Repeat(text, m));
    if n == m || text == "" {
      assert d.t.scores == t.scores[b := row];
    } else {
      assert t.scores[b := row][b] == row;
    }
  }

  /******* Handlers in turn *******/

  /** Deliveries that do not overlap: each handler takes effect as a whole. */
  datatype Work = ScoreLead(rules: seq<RuleDef>, looks: Reads) | RecommendLead(sees: bool)

  function Spelled(work: seq<Work>): seq<Event> {
    if work == [] then []
    else
      var n := |work| - 1;
      Spelled(work[..n]) + match work[n]
                           case ScoreLead(rules, looks) => [Scored(rules, looks)]
                           case RecommendLead(sees) => [Fetched(0), Appended(0, sees)]
  }

  /** How many recommendations took effect after the last scoring; all of them, if there was none. */
  function SinceScoring(work: seq<Work>, audited: bool): nat {
    if work == [] then 0
    else
      var n := |work| - 1;
      match work[n]
      case ScoreLead(_, _) => 0
      case RecommendLead(sees) => SinceScoring(work[..n], audited) + if sees && audited then 1 else 0
  }

  predicate IsScored(work: seq<Work>) {
    exists i :: 0 <= i < |work| && work[i].ScoreLead?
  }

  lemma LastWork(work: seq<Work>)
    requires work != []
    ensures IsScored(work) <==> IsScored(work[..|work| - 1]) || work[|work| - 1].ScoreLead?
  {
    var n := |work| - 1;
    if i :| 0 <= i < n && work[i].ScoreLead? { assert work[..n][i].ScoreLead?; }
    if i :| 0 <= i < n && work[..n][i].ScoreLead? { assert work[i].ScoreLead?; }
  }

  /** A recommendation at a stroke appends to whatever score is stored. */
  lemma RecommendInTurn(stored: bool, audited: bool, before: seq<Event>, sees: bool)
    ensures var row := LineageOf(stored, audited, before).row;
            LineageOf(stored, audited, before + [Fetched(0), Appended(0, sees)]).row ==
              if row.Some? && sees && audited then Some(row.value.(appends := row.value.appends + 1)) else row
  {
    LineageStep(stored, audited, before, Fetched(0));
    LineageStep(stored, audited, before + [Fetched(0)], Appended(0, sees));
    assert before + [Fetched(0), Appended(0, sees)] == before + [Fetched(0)] + [Appended(0, sees)];
    hide LineageOf;
  }

  /** Without overlap, the text is there once for every recommendation that took effect after the last scoring. */
  lemma {:induction false} InTurn(stored: bool, audited: bool, work: seq<Work>)
    ensures var l := LineageOf(stored, audited, Spelled(work));
            && (l.row.Some? <==> stored || IsScored(work))
            && (l.row.Some? ==>
                  && (l.row.value.scoring.Some? <==> IsScored(work))
                  && l.row.value.appends == SinceScoring(work, audited))
  {
    if work != [] {
      var n := |work| - 1;
      InTurn(stored, audited, work[..n]);
      LastWork(work);
      match work[n] {
        case ScoreLead(rules, looks) => LineageStep(stored, audited, Spelled(work[..n]), Scored(rules, looks));
        case RecommendLead(sees) => RecommendInTurn(stored, audited, Spelled(work[..n]), sees);
      }
      hide LineageOf, IsScored;
    }
  }

  lemma {:induction false} SpelledScorings(work: seq<Work>, rules: seq<RuleDef>, looks: Reads)
    requires forall i :: 0 <= i < |work| && work[i].ScoreLead? ==> work[i] == ScoreLead(rules, looks)
    ensures SameScoring(Spelled(work), rules, looks)
  {
    if work != [] {
      SpelledScorings(work[..|work| - 1], rules, looks);
    }
  }

  /**
   Deliveries one after the other, of one scoring job and of the recommendations behind it, however many and
   in whatever order: they leave the tables of one complete pass if and only if, after the last scoring, as
   many recommendations took effect as in that pass, or the audit has no text.
   */
  lemma RescoringIsIdempotent(t: Tables, b: nat, work: seq<Work>, rules: seq<RuleDef>, looks: Reads,
                              platform: string -> Option<string>)
    requires b in t.businesses && (b in t.scores ==> t.scores[b].suggestion != "")
    requires IsScored(work) && forall i :: 0 <= i < |work| && work[i].ScoreLead? ==> work[i] == ScoreLead(rules, looks)
    ensures var e := Engine(platform, Judged);
            AfterEvents(t, b, Spelled(work), e).t == AfterPass(t, b, rules, looks, e) <==>
            SinceScoring(work, b in t.audits) == Wanted(t, b, looks) || TextOf(t, b) == ""
  {
    InTurn(b in t.scores, b in t.audits, work);
    SpelledScorings(work, rules, looks);
    RedeliveryMatchesOnePass(t, b, Spelled(work), rules, looks, platform);
  }

  /** Two deliveries queued together run as score, score, recommend, recommend, and double the text. */
  lemma DoubleDeliveryDoublesText(t: Tables, b: nat, rules: seq<RuleDef>, looks: Reads, platform: string -> Option<string>)
    requires b in t.businesses && b in t.audits && looks.auditAgain
    requires b in t.scores ==> t.scores[b].suggestion != ""
    ensures var e := Engine(platform, Judged);
            var work := [ScoreLead(rules, looks), ScoreLead(rules, looks), RecommendLead(true), RecommendLead(true)];
            AfterEvents(t, b, Spelled(work), e).t == AfterPass(t, b, rules, looks, e) <==> Appendix(t.audits[b]) == ""
  {
    var work := [ScoreLead(rules, looks), ScoreLead(rules, looks), RecommendLead(true), RecommendLead(true)];
    TwoSinceScoring(rules, looks);
    assert work[0].ScoreLead?;
    hide SinceScoring, AfterEvents, AfterPass, Spelled, Judged;
    RescoringIsIdempotent(t, b, work, rules, looks, platform);
  }

  lemma TwoSinceScoring(rules: seq<RuleDef>, looks: Reads)
    ensures var work := [ScoreLead(rules, looks), ScoreLead(rules, looks), RecommendLead(true), RecommendLead(true)];
            IsScored(work) && SinceScoring(work, true) == 2
  {
    var work := [ScoreLead(rules, looks), ScoreLead(rules, looks), RecommendLead(true), RecommendLead(true)];
    assert work[0].ScoreLead?;
    assert work[..3][..2] == [ScoreLead(rules, looks), ScoreLead(rules, looks)];
    assert SinceScoring(work[..3][..2], true) == 0;
    assert SinceScoring(work[..3], true) == 1;
  }

  /** Whatever happened before, a scoring and a recommendation that nothing comes between put it right. */
  lemma LastPassDecides(t: Tables, b: nat, earlier: seq<Event>, rules: seq<RuleDef>, looks: Reads, w: nat,
                        platform: string -> Option<string>)
    requires b in t.businesses && (b in t.scores ==> t.scores[b].suggestion != "")
    ensures var e := Engine(platform, Judged);
            AfterEvents(t, b, earlier + [Scored(rules, looks), Fetched(w), Appended(w, looks.auditAgain)], e).t
              == AfterPass(t, b, rules, looks, e)
  {
    var e := Engine(platform, Judged);
    JudgedIsTalkative(platform);
    EventsFollowLineage(t, b, earlier, e);
    var d := AfterEvents(t, b, earlier, e);
    var scored := earlier + [Scored(rules, looks)];
    var fetched := scored + [Fetched(w)];
    var all := fetched + [Appended(w, looks.auditAgain)];
    assert all == earlier + [Scored(rules, looks), Fetched(w), Appended(w, looks.auditAgain)];
    assert scored[..|earlier|] == earlier && fetched[..|scored|] == scored && all[..|fetched|] == fetched;
    assert Verdict(t, b, looks, rules, e).suggestion != "";
    ScoringIgnoresEarlierScore(t, d.t, b, looks, rules, e);
    RecommendingIsTwoEvents(AfterEvents(t, b, scored, e), b, w, looks, e);
    hide AfterScoring, AfterRecommending, Verdict, Judged;
  }

  lemma StaleLineage(stored: bool, first: Event, second: Event, w: nat)
    requires first.Scored? && second.Scored?
    ensures LineageOf(stored, true, [first, Fetched(w), second, Appended(w, true)]).row == Some(Origin(Some(0), 1))
  {
    var one, two, three := [first], [first] + [Fetched(w)], [first] + [Fetched(w)] + [second];
    LineageStep(stored, true, [], first);
    LineageStep(stored, true, one, Fetched(w));
    LineageStep(stored, true, two, second);
    LineageStep(stored, true, three, Appended(w, true));
    assert [] + [first] == one;
    assert three + [Appended(w, true)] == [first, Fetched(w), second, Appended(w, true)];
    hide LineageOf;
  }

  /**
   A recommendation that read the score before another scoring and writes after it undoes that scoring: the
   stored row is the earlier verdict with the text.
   */
  lemma StaleRecommendationUndoesScoring(t: Tables, b: nat, first: Event, second: Event, w: nat,
                                         platform: string -> Option<string>)
    requires b in t.businesses && b in t.audits && (b in t.scores ==> t.scores[b].suggestion != "")
    requires first.Scored? && second.Scored?
    ensures var e := Engine(platform, Judged);
            var u := AfterEvents(t, b, [first, Fetched(w), second, Appended(w, true)], e).t;
            b in u.scores && u.scores[b] == WithText(Verdict(t, b, first.looks, first.rules, e), t.audits[b])
  {
    var e := Engine(platform, Judged);
    var events := [first, Fetched(w), second, Appended(w, true)];
    JudgedIsTalkative(platform);
    EventsFollowLineage(t, b, events, e);
    StaleLineage(b in t.scores, first, second, w);
    hide LineageOf, AfterEvents;
    var text := TextOf(t, b);
    assert Repeat(text, 1) == Repeat(text, 0) + text == text;
    hide Verdict, Appendix;
  }

  /** On its own, recommending twice equals recommending once exactly when it writes nothing the first time, or nothing new. */
  lemma RecommendationAloneRepeatsItself(t: Tables, b: nat, looks: Reads)
    ensures var once := AfterRecommending(t, b, looks);
            AfterRecommending(once, b, looks) == once <==>
            b !in t.scores || !looks.auditAgain || b !in t.audits
            || (t.audits[b].summary == "" && t.audits[b].services == [] && t.audits[b].issues == [])
  {
    if b in t.scores && looks.auditAgain && b in t.audits {
      var once := AfterRecommending(t, b, looks);
      AppendixLength(t.audits[b]);
      hide Appendix;
      var text, more := t.scores[b].suggestion, Appendix(t.audits[b]);
      if more != "" {
        assert once.scores[b].suggestion == text + more;
        assert AfterRecommending(once, b, looks).scores[b].suggestion == text + more + more;
        assert |text + more + more| > |text + more|;
      } else {
        assert text + more == text;
        assert t.scores[b := t.scores[b]] == t.scores;
      }
    }
  }

  lemma AppendixLength(audit: Audit)
    ensures Appendix(audit) == "" <==> audit.summary == "" && audit.services == [] && audit.issues == []
  {
  }

  /** With the audit stored as the parser lets it through, the total is the one shown to be bounded. */
  lemma JudgedTotalIsBounded(name: string, ctx: EvalContext, rules: seq<RuleDef>, raw: Option<LeadScore.Audit>)
    requires NonNegative(rules)
    ensures var stored := if raw.Some? then Some(LeadScore.Clamped(raw.value)) else None;
            && Judged(name, ctx, rules, stored).total == LeadScore.StoredTotal(RankedScore(rules, ctx), raw)
            && 0 <= Judged(name, ctx, rules, stored).total <= 100
  {
    hide RankedScore, Result, LeadScore.AIScore, LeadScore.Folded, LeadScore.PriorityOf, LeadScore.SalesSuggestion;
    LeadScore.StoredScoreIsBounded(rules, ctx, raw);
  }

  /** A business whose website crawling left in some state, and whose site rows can be read. */
  predicate SiteIs(t: Tables, b: nat, looks: Reads, platform: string -> Option<string>, statuses: set<string>) {
    && b in t.businesses && t.businesses[b].website != "" && platform(t.businesses[b].website).None?
    && looks.site && b in t.crawl.websites && t.crawl.websites[b].facts.crawlStatus in statuses
  }

  /**
   Of two leads without an audit, scored by the default rules, the one whose site blocked the crawler or could
   not be told about is stored below the one whose site is down, or that has none, whatever else is stored.
   */
  lemma DeadSitesScoreAboveUnseen(t: Tables, unseen: nat, dead: nat, looks: Reads, platform: string -> Option<string>)
    requires SiteIs(t, unseen, looks, platform, {"blocked", "unknown"}) && unseen !in t.audits
    requires SiteIs(t, dead, looks, platform, {"down"})
             || (dead in t.businesses && (t.businesses[dead].website == "" || platform(t.businesses[dead].website).Some?))
    requires dead !in t.audits && unseen != dead
    ensures var e := Engine(platform, Judged);
            var u := AfterScoring(AfterScoring(t, unseen, looks, DefaultRules(), e), dead, looks, DefaultRules(), e);
            u.scores[unseen].total < u.scores[dead].total && u.scores[unseen].priority != LeadScore.High
  {
    var e := Engine(platform, Judged);
    UnseenContext(t, unseen, looks, platform);
    DeadContext(t, dead, looks, platform);
    UnauditedVerdict(t, unseen, looks, DefaultRules(), platform);
    UnauditedVerdict(t, dead, looks, DefaultRules(), platform);
    var low, high := ContextOf(t, unseen, looks, platform), ContextOf(t, dead, looks, platform);
    assert unseen in t.businesses && dead in t.businesses;
    hide *;
    UnseenRanksBelowDead(low, high);
    DefaultRulesAreWellFormed();
    LeadScore.PriorityFollowsRank(DefaultRules(), low);
    BothScored(t, unseen, dead, looks, DefaultRules(), e);
  }

  lemma BothScored(t: Tables, b: nat, c: nat, looks: Reads, rules: seq<RuleDef>, e: Engine)
    requires b in t.businesses && c in t.businesses && b != c
    ensures var u := AfterScoring(AfterScoring(t, b, looks, rules, e), c, looks, rules, e);
            && b in u.scores && c in u.scores
            && u.scores[b].total == Verdict(t, b, looks, rules, e).total
            && u.scores[b].priority == Verdict(t, b, looks, rules, e).priority
            && u.scores[c].total == Verdict(t, c, looks, rules, e).total
  {
    var t1 := AfterScoring(t, b, looks, rules, e);
    assert SameButScore(t, t1, b) by { hide Verdict; }
    SameVerdict(t, t1, b, c, looks, rules, e);
    hide Verdict;
  }

  lemma UnseenContext(t: Tables, b: nat, looks: Reads, platform: string -> Option<string>)
    requires SiteIs(t, b, looks, platform, {"blocked", "unknown"})
    ensures var ctx := ContextOf(t, b, looks, platform); ctx.hasWebsite && ctx.siteOpaque
  {
    ContextReflects(t, b, looks, platform);
    hide ContextOf;
  }

  lemma DeadContext(t: Tables, b: nat, looks: Reads, platform: string -> Option<string>)
    requires b in t.businesses
    requires SiteIs(t, b, looks, platform, {"down"})
             || t.businesses[b].website == "" || platform(t.businesses[b].website).Some?
    ensures var ctx := ContextOf(t, b, looks, platform); IsDead(ctx) || !ctx.hasWebsite
  {
    ContextReflects(t, b, looks, platform);
    hide ContextOf;
    if SiteIs(t, b, looks, platform, {"down"}) {
      assert t.crawl.websites[b].facts.crawlStatus[0] == 'd';
    }
  }

  lemma UnauditedVerdict(t: Tables, b: nat, looks: Reads, rules: seq<RuleDef>, platform: string -> Option<string>)
    requires b in t.businesses && b !in t.audits
    ensures var v, ctx := Verdict(t, b, looks, rules, Engine(platform, Judged)), ContextOf(t, b, looks, platform);
            v.total == RankedScore(rules, ctx) && v.priority == LeadScore.PriorityOf(rules, ctx)
  {
  }
}
