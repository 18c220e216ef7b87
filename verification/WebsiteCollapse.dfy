/** Migration 002: one website row per business, with every child row kept. */
module WebsiteCollapse {
  import opened Jobs

  /** Row ids stand for UUIDs, of which only the order matters; `body` stands for the other columns. */
  datatype Website = Website(business: nat, createdAt: int, body: string)

  /** A crawl_results or technologies row: its website is NOT NULL and ON DELETE CASCADE. */
  datatype Child = Child(website: nat, body: string)

  /** An audit_reports row: its website is ON DELETE SET NULL. */
  datatype Audit = Audit(website: Option<nat>, business: nat, body: string)

  type Websites = map<nat, Website>

  /** (a.created_at, a.id) > (b.created_at, b.id) */
  predicate Newer(ws: Websites, a: nat, b: nat)
    requires a in ws && b in ws
  {
    ws[a].createdAt > ws[b].createdAt || (ws[a].createdAt == ws[b].createdAt && a > b)
  }

  predicate SameBusiness(ws: Websites, a: nat, b: nat) {
    a in ws && b in ws && ws[a].business == ws[b].business
  }

  predicate IsNewest(ws: Websites, id: nat) {
    id in ws && forall other :: other in ws && SameBusiness(ws, other, id) ==> !Newer(ws, other, id)
  }

  predicate IsKeeper(ws: Websites, id: nat, keep: nat) {
    SameBusiness(ws, keep, id) && IsNewest(ws, keep)
  }

  predicate IsBest(ws: Websites, ids: set<nat>, keep: nat)
    requires forall x :: x in ids ==> x in ws
  {
    keep in ids && forall x :: x in ids ==> !Newer(ws, x, keep)
  }

  lemma {:induction false} NewestAmong(ws: Websites, ids: set<nat>)
    requires ids != {} && forall x :: x in ids ==> x in ws
    ensures exists keep :: IsBest(ws, ids, keep)
    decreases ids
  {
    var id :| id in ids;
    var rest := ids - {id};
    if rest == {} {
      assert forall x :: x in ids && x != id ==> x in rest;
      assert IsBest(ws, ids, id);
    } else {
      NewestAmong(ws, rest);
      var best :| IsBest(ws, rest, best);
      assert forall x :: x in ids ==> x == id || x in rest;
      assert IsBest(ws, ids, if Newer(ws, id, best) then id else best);
    }
  }

  lemma KeeperExists(ws: Websites, id: nat)
    requires id in ws
    ensures exists keep :: IsKeeper(ws, id, keep)
  {
    var ids := set x | x in ws && SameBusiness(ws, x, id);
    assert id in ids;
    NewestAmong(ws, ids);
    var keep :| IsBest(ws, ids, keep);
    forall other | other in ws && SameBusiness(ws, other, keep) ensures !Newer(ws, other, keep) {
      assert other in ids;
    }
    assert IsKeeper(ws, id, keep);
  }

  /** first_value(id) OVER (PARTITION BY business_id ORDER BY created_at DESC, id DESC) */
  function KeepId(ws: Websites, id: nat): (keep: nat)
    requires id in ws
    ensures IsKeeper(ws, id, keep)
    ensures IsNewest(ws, id) <==> keep == id
  {
    KeeperExists(ws, id);
    var keep :| keep in ws && IsKeeper(ws, id, keep);
    keep
  }

  lemma OneKeeper(ws: Websites, a: nat, b: nat)
    requires SameBusiness(ws, a, b) && IsNewest(ws, a) && IsNewest(ws, b)
    ensures a == b
  {
    assert !Newer(ws, a, b) && !Newer(ws, b, a);
  }

  function Repointed(ws: Websites, site: nat): nat {
    if site in ws && KeepId(ws, site) != site then KeepId(ws, site) else site
  }

  function RepointedRows(ws: Websites, rows: map<nat, Child>): map<nat, Child> {
    map id | id in rows :: rows[id].(website := Repointed(ws, rows[id].website))
  }

  function RepointedAudits(ws: Websites, rows: map<nat, Audit>): map<nat, Audit> {
    map id | id in rows ::
      if rows[id].website.Some? then rows[id].(website := Some(Repointed(ws, rows[id].website.value))) else rows[id]
  }

  /** The rows the DELETE statement names: those with a newer row for their business. */
  function Doomed(ws: Websites): set<nat> {
    set id | id in ws && exists newer :: newer in ws && SameBusiness(ws, newer, id) && Newer(ws, newer, id)
  }

  function Survivors(ws: Websites): Websites {
    map id | id in ws && id !in Doomed(ws) :: ws[id]
  }

  /** ON DELETE CASCADE */
  function Cascaded(rows: map<nat, Child>, doomed: set<nat>): map<nat, Child> {
    map id | id in rows && rows[id].website !in doomed :: rows[id]
  }

  /** ON DELETE SET NULL */
  function Nulled(rows: map<nat, Audit>, doomed: set<nat>): map<nat, Audit> {
    map id | id in rows ::
      if rows[id].website.Some? && rows[id].website.value in doomed then rows[id].(website := None) else rows[id]
  }

  predicate UniqueBusiness(ws: Websites) {
    forall a, b | a in ws && b in ws :: ws[a].business == ws[b].business ==> a == b
  }

  class Database {
    var websites: Websites
    var crawlResults: map<nat, Child>
    var technologies: map<nat, Child>
    var auditReports: map<nat, Audit>
    var uniqueBusinessId: bool

    /** The foreign keys into websites hold. */
    predicate ForeignKeys()
      reads this
    {
      && (forall id :: id in crawlResults ==> crawlResults[id].website in websites)
      && (forall id :: id in technologies ==> technologies[id].website in websites)
      && (forall id :: id in auditReports && auditReports[id].website.Some? ==> auditReports[id].website.value in websites)
    }

    method RepointCrawlResults()
      modifies this`crawlResults
      ensures crawlResults == RepointedRows(websites, old(crawlResults))
    {
      crawlResults := RepointedRows(websites, crawlResults);
    }

    method RepointTechnologies()
      modifies this`technologies
      ensures technologies == RepointedRows(websites, old(technologies))
    {
      technologies := RepointedRows(websites, technologies);
    }

    method RepointAuditReports()
      modifies this`auditReports
      ensures auditReports == RepointedAudits(websites, old(auditReports))
    {
      auditReports := RepointedAudits(websites, auditReports);
    }

    /** DELETE, with what the foreign keys do to the rows still pointing at a deleted website. */
    method DeleteOlderWebsites()
      modifies this`websites, this`crawlResults, this`technologies, this`auditReports
      ensures websites == Survivors(old(websites))
      ensures crawlResults == Cascaded(old(crawlResults), Doomed(old(websites)))
      ensures technologies == Cascaded(old(technologies), Doomed(old(websites)))
      ensures auditReports == Nulled(old(auditReports), Doomed(old(websites)))
    {
      var doomed := Doomed(websites);
      crawlResults := Cascaded(crawlResults, doomed);
      technologies := Cascaded(technologies, doomed);
      auditReports := Nulled(auditReports, doomed);
      websites := map id | id in websites && id !in doomed :: websites[id];
    }

    /** ADD CONSTRAINT fails on a table that violates it. */
    method AddUniqueConstraint() returns (ok: bool)
      modifies this`uniqueBusinessId
      ensures ok <==> UniqueBusiness(websites)
      ensures uniqueBusinessId == if ok then true else old(uniqueBusinessId)
    {
      ok := UniqueBusiness(websites);
      if ok {
        uniqueBusinessId := true;
      }
    }

    /**
     The migration's statements in order. The constraint can always be added, and no child row is deleted
     or loses its website: each is exactly as before but for pointing at its business's newest row.
     */
    method Migrate() returns (ok: bool)
      requires ForeignKeys()
      modifies this
      ensures ok && uniqueBusinessId && UniqueBusiness(websites) && ForeignKeys()
      ensures websites == Survivors(old(websites))
      ensures crawlResults == RepointedRows(old(websites), old(crawlResults))
      ensures technologies == RepointedRows(old(websites), old(technologies))
      ensures auditReports == RepointedAudits(old(websites), old(auditReports))
    {
      RepointCrawlResults();
      RepointTechnologies();
      RepointAuditReports();
      NothingCascades(websites, old(crawlResults));
      NothingCascades(websites, old(technologies));
      NothingNulled(websites, old(auditReports));
      DeleteOlderWebsites();
      SurvivorsAreUnique(old(websites));
      RepointedSurvives(old(websites));
      ok := AddUniqueConstraint();
    }
  }

  lemma SurvivorsAreNewest(ws: Websites, id: nat)
    ensures id in Survivors(ws) <==> IsNewest(ws, id)
  {
  }

  lemma SurvivorsAreUnique(ws: Websites)
    ensures UniqueBusiness(Survivors(ws))
  {
    forall a, b | a in Survivors(ws) && b in Survivors(ws) && ws[a].business == ws[b].business ensures a == b {
      SurvivorsAreNewest(ws, a);
      SurvivorsAreNewest(ws, b);
      OneKeeper(ws, a, b);
    }
  }

  lemma RepointedSurvives(ws: Websites)
    ensures forall site :: site in ws ==> Repointed(ws, site) in Survivors(ws) && Repointed(ws, site) !in Doomed(ws)
  {
    forall site | site in ws ensures Repointed(ws, site) in Survivors(ws) && Repointed(ws, site) !in Doomed(ws) {
      SurvivorsAreNewest(ws, KeepId(ws, site));
    }
  }

  lemma NothingCascades(ws: Websites, rows: map<nat, Child>)
    requires forall id :: id in rows ==> rows[id].website in ws
    ensures Cascaded(RepointedRows(ws, rows), Doomed(ws)) == RepointedRows(ws, rows)
  {
    RepointedSurvives(ws);
  }

  lemma NothingNulled(ws: Websites, rows: map<nat, Audit>)
    requires forall id :: id in rows && rows[id].website.Some? ==> rows[id].website.value in ws
    ensures Nulled(RepointedAudits(ws, rows), Doomed(ws)) == RepointedAudits(ws, rows)
  {
    RepointedSurvives(ws);
    var moved := RepointedAudits(ws, rows);
    forall id | id in moved && moved[id].website.Some? ensures moved[id].website.value !in Doomed(ws) {
      assert rows[id].website.Some?;
    }
  }

  /******* What the collapse means *******/

  /** Every business that had a website keeps exactly one row, unchanged: its (created_at, id)-newest. */
  lemma CollapseKeepsTheNewest(ws: Websites, id: nat)
    requires id in ws
    ensures exists keep :: keep in Survivors(ws) && SameBusiness(ws, keep, id) && Survivors(ws)[keep] == ws[keep]
                           && forall other :: other in Survivors(ws) && SameBusiness(ws, other, id) ==> other == keep
    ensures forall keep :: keep in Survivors(ws) && SameBusiness(ws, keep, id) && id != keep ==>
              ws[keep].createdAt > ws[id].createdAt || (ws[keep].createdAt == ws[id].createdAt && keep > id)
  {
    var keep := KeepId(ws, id);
    SurvivorsAreNewest(ws, keep);
    forall other | other in Survivors(ws) && SameBusiness(ws, other, id) ensures other == keep {
      SurvivorsAreNewest(ws, other);
      OneKeeper(ws, other, keep);
    }
    assert !Newer(ws, id, keep);
  }

  /** Without the re-pointing, the children that the DELETE takes are those of a row with a newer one beside it. */
  lemma UnrepointedAreLost(ws: Websites, rows: map<nat, Child>, audits: map<nat, Audit>, id: nat)
    ensures id in rows && rows[id].website in ws ==>
              (id !in Cascaded(rows, Doomed(ws)) <==>
                 exists newer :: newer in ws && ws[newer].business == ws[rows[id].website].business
                                 && (ws[newer].createdAt > ws[rows[id].website].createdAt
                                     || (ws[newer].createdAt == ws[rows[id].website].createdAt && newer > rows[id].website)))
    ensures id in Cascaded(rows, Doomed(ws)) ==> id in rows && Cascaded(rows, Doomed(ws))[id] == rows[id]
    ensures id in audits && audits[id].website.Some? && audits[id].website.value in ws ==>
              var site := audits[id].website.value;
              Nulled(audits, Doomed(ws))[id] ==
              if exists newer :: newer in ws && ws[newer].business == ws[site].business
                                 && (ws[newer].createdAt > ws[site].createdAt
                                     || (ws[newer].createdAt == ws[site].createdAt && newer > site))
              then audits[id].(website := None) else audits[id]
  {
    if id in rows && rows[id].website in ws {
      DoomedHaveNewer(ws, rows[id].website);
    }
    if id in audits && audits[id].website.Some? && audits[id].website.value in ws {
      DoomedHaveNewer(ws, audits[id].website.value);
    }
  }

  lemma DoomedHaveNewer(ws: Websites, site: nat)
    requires site in ws
    ensures site in Doomed(ws) <==>
            exists newer :: newer in ws && ws[newer].business == ws[site].business
                            && (ws[newer].createdAt > ws[site].createdAt
                                || (ws[newer].createdAt == ws[site].createdAt && newer > site))
  {
    if newer :| newer in ws && ws[newer].business == ws[site].business
                && (ws[newer].createdAt > ws[site].createdAt
                    || (ws[newer].createdAt == ws[site].createdAt && newer > site))
    {
      assert SameBusiness(ws, newer, site) && Newer(ws, newer, site);
    }
  }

  /** A re-pointed child belongs to the business it belonged to before. */
  lemma ChildrenKeepTheirBusiness(ws: Websites, rows: map<nat, Child>, id: nat)
    requires id in rows && rows[id].website in ws
    ensures var row := RepointedRows(ws, rows)[id];
            && row.body == rows[id].body
            && row.website in Survivors(ws)
            && Survivors(ws)[row.website].business == ws[rows[id].website].business
  {
    RepointedSurvives(ws);
  }

  /** So does a re-pointed audit report, which also keeps everything else. */
  lemma AuditsKeepTheirBusiness(ws: Websites, rows: map<nat, Audit>, id: nat)
    requires id in rows && (rows[id].website.Some? ==> rows[id].website.value in ws)
    ensures var row := RepointedAudits(ws, rows)[id];
            && row.body == rows[id].body && row.business == rows[id].business
            && (row.website.Some? <==> rows[id].website.Some?)
            && (row.website.Some? ==>
                  && row.website.value in Survivors(ws)
                  && Survivors(ws)[row.website.value].business == ws[rows[id].website.value].business)
  {
    RepointedSurvives(ws);
  }

  /** A row GetByBusinessID may return: newest by created_at alone, ties in no particular order. */
  predicate MayRead(ws: Websites, b: nat, id: nat) {
    id in ws && ws[id].business == b && forall other :: other in ws && ws[other].business == b ==> ws[other].createdAt <= ws[id].createdAt
  }

  /** The reader had no choice: one row alone has the newest created_at. */
  predicate NewestIsUnique(ws: Websites, b: nat) {
    forall x, y | x in ws && y in ws :: MayRead(ws, b, x) && MayRead(ws, b, y) ==> x == y
  }

  lemma SurvivorIsReadable(ws: Websites, b: nat, id: nat)
    requires MayRead(ws, b, id)
    ensures MayRead(ws, b, KeepId(ws, id)) && MayRead(Survivors(ws), b, KeepId(ws, id))
  {
    var keep := KeepId(ws, id);
    SurvivorsAreNewest(ws, keep);
    assert !Newer(ws, id, keep);
  }

  /**
   Afterwards the reader returns a row it might have returned before; and it returns for certain what it
   returned before if and only if the newest created_at was unique.
   */
  lemma ReaderSeesTheSameRow(ws: Websites, b: nat)
    ensures forall id :: MayRead(Survivors(ws), b, id) ==> MayRead(ws, b, id) && Survivors(ws)[id] == ws[id]
    ensures (forall id :: MayRead(ws, b, id) ==> MayRead(Survivors(ws), b, id)) <==> NewestIsUnique(ws, b)
  {
    forall id | MayRead(Survivors(ws), b, id) ensures MayRead(ws, b, id) {
      SurvivorsAreNewest(ws, id);
      forall other | other in ws && ws[other].business == b ensures ws[other].createdAt <= ws[id].createdAt {
        assert SameBusiness(ws, other, id);
      }
    }
    SurvivorsAreUnique(ws);
    forall id | MayRead(ws, b, id) ensures MayRead(ws, b, KeepId(ws, id)) && MayRead(Survivors(ws), b, KeepId(ws, id)) {
      SurvivorIsReadable(ws, b, id);
    }
  }
}
