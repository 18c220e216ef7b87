/** What the crawl handler writes, and what a second delivery of the same job changes. */
module LeadStore {
  /** The columns every crawl overwrites; `crawledAt` is kept apart because it is the clock's. */
  datatype SiteFacts = SiteFacts(url: string, statusCode: int, loadTimeMs: int, hasSSL: bool, hasBooking: bool,
                                 isMobileFriendly: bool, pagesCrawled: nat, title: string,
                                 metaDescription: string, crawlStatus: string)

  datatype Website = Website(id: nat, facts: SiteFacts, crawledAt: nat, createdAt: nat)

  datatype Contact = Contact(business: nat, email: string, phone: string, whatsApp: string,
                             contactType: string, source: string, confidence: real)

  datatype Social = Social(business: nat, platform: string, url: string, followers: int, verified: bool)

  datatype Technology = Technology(name: string, version: string, category: string)

  /** A crawled page with what the extractors found on it. */
  datatype Page = Page(failed: bool, contacts: seq<Contact>, socials: seq<Social>, technologies: seq<Technology>)

  /** `crawlLog` is crawl_results, which every crawl appends to. */
  datatype Tables = Tables(websites: map<nat, Website>, contacts: seq<Contact>,
                           socials: map<(nat, string), Social>, technologies: map<nat, seq<Technology>>,
                           crawlLog: seq<nat>, nextId: nat)

  /******* Websites *******/

  function OrUnknown(s: string): string {
    if s == "" then "unknown" else s
  }

  /** ON CONFLICT (business_id): the row keeps its id and created_at. */
  function WithWebsite(t: Tables, b: nat, facts: SiteFacts, now: nat): Tables {
    var stored := facts.(crawlStatus := OrUnknown(facts.crawlStatus));
    if b in t.websites then
      t.(websites := t.websites[b := t.websites[b].(facts := stored, crawledAt := now)])
    else
      t.(websites := t.websites[b := Website(t.nextId, stored, now, now)], nextId := t.nextId + 1)
  }

  /******* Contacts *******/

  predicate SameContact(x: Contact, y: Contact) {
    x.business == y.business && x.email == y.email && x.phone == y.phone && x.whatsApp == y.whatsApp
  }

  predicate Recorded(stored: seq<Contact>, c: Contact) {
    exists i :: 0 <= i < |stored| && SameContact(stored[i], c)
  }

  function WithContact(stored: seq<Contact>, c: Contact): seq<Contact> {
    if Recorded(stored, c) then stored else stored + [c]
  }

  function WithContacts(stored: seq<Contact>, batch: seq<Contact>): seq<Contact>
    decreases batch
  {
    if batch == [] then stored else WithContacts(WithContact(stored, batch[0]), batch[1..])
  }

  /** The text dedupeContacts compares. */
  function ContactKey(c: Contact): string {
    c.email + "|" + c.phone + "|" + c.whatsApp
  }

  predicate HasKey(cs: seq<Contact>, key: string) {
    exists i :: 0 <= i < |cs| && ContactKey(cs[i]) == key
  }

  /** The first contact for each key, leaving out those with nothing in them. */
  function FirstContacts(cs: seq<Contact>): seq<Contact> {
    if cs == [] then []
    else
      var n := |cs| - 1;
      var key, before := ContactKey(cs[n]), FirstContacts(cs[..n]);
      if key == "||" || HasKey(before, key) then before else before + [cs[n]]
  }

  method DedupeContacts(cs: seq<Contact>) returns (out: seq<Contact>)
    ensures out == FirstContacts(cs)
  {
    var seen: set<string> := {};
    out := [];
    for i := 0 to |cs|
      invariant out == FirstContacts(cs[..i])
      invariant forall key :: key in seen <==> HasKey(out, key)
    {
      var key := ContactKey(cs[i]);
      assert cs[..i + 1][..i] == cs[..i];
      if key == "||" || key in seen {
        continue;
      }
      seen := seen + {key};
      ghost var before := out;
      out := out + [cs[i]];
      forall k ensures HasKey(out, k) <==> HasKey(before, k) || k == key {
        if HasKey(before, k) {
          var j :| 0 <= j < |before| && ContactKey(before[j]) == k;
          assert ContactKey(out[j]) == k;
        }
        assert ContactKey(out[|before|]) == key;
      }
    }
    assert cs[..|cs|] == cs;
  }

  /** Deduplication keeps one contact per key, and loses no key but the empty one. */
  lemma {:induction false} FirstContactsAreDistinct(cs: seq<Contact>)
    ensures forall i, j :: 0 <= i < j < |FirstContacts(cs)| ==>
              ContactKey(FirstContacts(cs)[i]) != ContactKey(FirstContacts(cs)[j])
    ensures forall key :: HasKey(FirstContacts(cs), key) <==> key != "||" && HasKey(cs, key)
  {
    if cs != [] {
      var n := |cs| - 1;
      FirstContactsAreDistinct(cs[..n]);
      var out, before := FirstContacts(cs), FirstContacts(cs[..n]);
      forall key ensures HasKey(out, key) <==> key != "||" && HasKey(cs, key) {
        assert HasKey(cs, key) <==> HasKey(cs[..n], key) || ContactKey(cs[n]) == key by {
          KeyOfLast(cs, key);
        }
        if out != before {
          assert out[..|before|] == before;
          KeyOfLast(out, key);
        }
      }
    }
  }

  lemma KeyOfLast(cs: seq<Contact>, key: string)
    requires cs != []
    ensures HasKey(cs, key) <==> HasKey(cs[..|cs| - 1], key) || ContactKey(cs[|cs| - 1]) == key
  {
    if HasKey(cs[..|cs| - 1], key) {
      var i :| 0 <= i < |cs| - 1 && ContactKey(cs[..|cs| - 1][i]) == key;
      assert ContactKey(cs[i]) == key;
    }
    if HasKey(cs, key) && ContactKey(cs[|cs| - 1]) != key {
      var i :| 0 <= i < |cs| && ContactKey(cs[i]) == key;
      assert ContactKey(cs[..|cs| - 1][i]) == key;
    }
  }

  /** Without a '|' in any field, the compared text tells contacts apart exactly by their three fields. */
  lemma KeyTellsContactsApart(c: Contact, d: Contact)
    requires '|' !in c.email && '|' !in c.phone && '|' !in c.whatsApp
    requires '|' !in d.email && '|' !in d.phone && '|' !in d.whatsApp
    ensures ContactKey(c) == ContactKey(d) <==> c.email == d.email && c.phone == d.phone && c.whatsApp == d.whatsApp
  {
    if ContactKey(c) == ContactKey(d) {
      assert ContactKey(c) == c.email + ("|" + (c.phone + ("|" + c.whatsApp)));
      assert ContactKey(d) == d.email + ("|" + (d.phone + ("|" + d.whatsApp)));
      CutAtBar(c.email, c.phone + ("|" + c.whatsApp), d.email, d.phone + ("|" + d.whatsApp));
      CutAtBar(c.phone, c.whatsApp, d.phone, d.whatsApp);
    }
  }

  lemma CutAtBar(x: string, xs: string, y: string, ys: string)
    requires '|' !in x && '|' !in y && x + ("|" + xs) == y + ("|" + ys)
    ensures x == y && xs == ys
  {
    var s := x + ("|" + xs);
    assert s[|x|] == '|' && s[|y|] == '|';
    assert forall i :: 0 <= i < |x| ==> s[i] == x[i] && x[i] != '|';
    assert forall i :: 0 <= i < |y| ==> s[i] == y[i] && y[i] != '|';
    assert s[..|x|] == x && s[..|x|] == y;
    assert s[|x| + 1..] == xs && s[|x| + 1..] == ys;
  }

  /******* Social profiles *******/

  function SocialKey(p: Social): (nat, string) {
    (p.business, p.platform)
  }

  function Greatest(x: int, y: int): int {
    if x > y then x else y
  }

  function MergeSocial(stored: Social, excluded: Social): Social {
    stored.(url := excluded.url,
            followers := Greatest(excluded.followers, stored.followers),
            verified := excluded.verified || stored.verified)
  }

  function WithSocial(stored: map<(nat, string), Social>, p: Social): map<(nat, string), Social> {
    stored[SocialKey(p) := if SocialKey(p) in stored then MergeSocial(stored[SocialKey(p)], p) else p]
  }

  function WithSocials(stored: map<(nat, string), Social>, batch: seq<Social>): map<(nat, string), Social>
    decreases batch
  {
    if batch == [] then stored else WithSocials(WithSocial(stored, batch[0]), batch[1..])
  }

  predicate HasPlatform(ps: seq<Social>, platform: string) {
    exists i :: 0 <= i < |ps| && ps[i].platform == platform
  }

  /** The first profile of each platform. */
  function FirstSocials(ps: seq<Social>): seq<Social> {
    if ps == [] then []
    else
      var n := |ps| - 1;
      var before := FirstSocials(ps[..n]);
      if HasPlatform(before, ps[n].platform) then before else before + [ps[n]]
  }

  method DedupeSocials(ps: seq<Social>) returns (out: seq<Social>)
    ensures out == FirstSocials(ps)
  {
    var seen: set<string> := {};
    out := [];
    for i := 0 to |ps|
      invariant out == FirstSocials(ps[..i])
      invariant forall platform :: platform in seen <==> HasPlatform(out, platform)
    {
      assert ps[..i + 1][..i] == ps[..i];
      if ps[i].platform in seen {
        continue;
      }
      seen := seen + {ps[i].platform};
      ghost var before := out;
      out := out + [ps[i]];
      forall q ensures HasPlatform(out, q) <==> HasPlatform(before, q) || q == ps[i].platform {
        if HasPlatform(before, q) {
          var j :| 0 <= j < |before| && before[j].platform == q;
          assert out[j].platform == q;
        }
        assert out[|before|].platform == ps[i].platform;
      }
    }
    assert ps[..|ps|] == ps;
  }

  predicate DistinctPlatforms(ps: seq<Social>) {
    forall i, j :: 0 <= i < j < |ps| ==> ps[i].platform != ps[j].platform
  }

  lemma PlatformOfLast(ps: seq<Social>, platform: string)
    requires ps != []
    ensures HasPlatform(ps, platform) <==> HasPlatform(ps[..|ps| - 1], platform) || ps[|ps| - 1].platform == platform
  {
    if HasPlatform(ps[..|ps| - 1], platform) {
      var i :| 0 <= i < |ps| - 1 && ps[..|ps| - 1][i].platform == platform;
      assert ps[i].platform == platform;
    }
    if HasPlatform(ps, platform) && ps[|ps| - 1].platform != platform {
      var i :| 0 <= i < |ps| && ps[i].platform == platform;
      assert ps[..|ps| - 1][i].platform == platform;
    }
  }

  /** Deduplication keeps one profile per platform, and loses no platform. */
  lemma {:induction false} FirstSocialsAreDistinct(ps: seq<Social>)
    ensures DistinctPlatforms(FirstSocials(ps))
    ensures forall platform :: HasPlatform(FirstSocials(ps), platform) <==> HasPlatform(ps, platform)
  {
    if ps != [] {
      var n := |ps| - 1;
      FirstSocialsAreDistinct(ps[..n]);
      var out, before := FirstSocials(ps), FirstSocials(ps[..n]);
      forall platform ensures HasPlatform(out, platform) <==> HasPlatform(ps, platform) {
        PlatformOfLast(ps, platform);
        if out != before {
          assert out[..|before|] == before;
          PlatformOfLast(out, platform);
        }
      }
    }
  }

  /******* A whole crawl *******/

  function AllContacts(pages: seq<Page>): seq<Contact> {
    if pages == [] then []
    else
      var n := |pages| - 1;
      if pages[n].failed then AllContacts(pages[..n]) else AllContacts(pages[..n]) + pages[n].contacts
  }

  function AllSocials(pages: seq<Page>): seq<Social> {
    if pages == [] then []
    else
      var n := |pages| - 1;
      if pages[n].failed then AllSocials(pages[..n]) else AllSocials(pages[..n]) + pages[n].socials
  }

  /** The first detection of each technology name, continuing from those found so far. */
  function AddTechnologies(found: seq<Technology>, more: seq<Technology>): seq<Technology>
    decreases more
  {
    if more == [] then found
    else AddTechnologies(if HasTechnology(found, more[0].name) then found else found + [more[0]], more[1..])
  }

  predicate HasTechnology(ts: seq<Technology>, name: string) {
    exists i :: 0 <= i < |ts| && ts[i].name == name
  }

  predicate DistinctTechnologies(ts: seq<Technology>) {
    forall i, j :: 0 <= i < j < |ts| ==> ts[i].name != ts[j].name
  }

  lemma OneMoreTechnology(ts: seq<Technology>, t: Technology, name: string)
    ensures HasTechnology(ts + [t], name) <==> HasTechnology(ts, name) || t.name == name
  {
    assert (ts + [t])[|ts|] == t && forall i :: 0 <= i < |ts| ==> (ts + [t])[i] == ts[i];
  }

  lemma {:induction false} AddTechnologiesKeeps(found: seq<Technology>, more: seq<Technology>)
    requires DistinctTechnologies(found)
    ensures DistinctTechnologies(AddTechnologies(found, more))
    ensures forall name :: HasTechnology(AddTechnologies(found, more), name) <==>
                             HasTechnology(found, name) || HasTechnology(more, name)
    decreases more
  {
    if more != [] {
      var next := if HasTechnology(found, more[0].name) then found else found + [more[0]];
      AddTechnologiesKeeps(next, more[1..]);
      forall name ensures HasTechnology(next, name) || HasTechnology(more[1..], name) <==>
                          HasTechnology(found, name) || HasTechnology(more, name)
      {
        OneMoreTechnology(found, more[0], name);
        FirstTechnology(more, name);
      }
    }
  }

  lemma FirstTechnology(ts: seq<Technology>, name: string)
    requires ts != []
    ensures HasTechnology(ts, name) <==> ts[0].name == name || HasTechnology(ts[1..], name)
  {
    if HasTechnology(ts[1..], name) {
      var i :| 0 <= i < |ts| - 1 && ts[1..][i].name == name;
      assert ts[i + 1].name == name;
    }
    if HasTechnology(ts, name) && ts[0].name != name {
      var i :| 0 <= i < |ts| && ts[i].name == name;
      assert ts[1..][i - 1].name == name;
    }
  }

  /** Each technology name is there once, and exactly if some page that could be read shows it. */
  lemma {:induction false} TechnologiesAreDistinct(pages: seq<Page>)
    ensures DistinctTechnologies(AllTechnologies(pages))
    ensures forall name :: HasTechnology(AllTechnologies(pages), name) <==>
              exists i :: 0 <= i < |pages| && !pages[i].failed && HasTechnology(pages[i].technologies, name)
  {
    if pages != [] {
      var n := |pages| - 1;
      TechnologiesAreDistinct(pages[..n]);
      AddTechnologiesKeeps(AllTechnologies(pages[..n]), pages[n].technologies);
      forall name
        ensures HasTechnology(AllTechnologies(pages), name) <==>
                exists i :: 0 <= i < |pages| && !pages[i].failed && HasTechnology(pages[i].technologies, name)
      {
        hide HasTechnology;
        assert forall i :: 0 <= i < n ==> pages[..n][i] == pages[i];
      }
    }
  }

  /** And what is kept of it is a detection on the first such page. */
  lemma {:induction false} TechnologiesAreFirst(pages: seq<Page>, t: Technology)
    requires t in AllTechnologies(pages)
    ensures exists i :: 0 <= i < |pages| && !pages[i].failed && t in pages[i].technologies
                        && forall k :: 0 <= k < i && !pages[k].failed ==> !HasTechnology(pages[k].technologies, t.name)
  {
    if pages != [] {
      var n := |pages| - 1;
      var init := pages[..n];
      if t in AllTechnologies(init) {
        TechnologiesAreFirst(init, t);
        var i :| 0 <= i < n && !init[i].failed && t in init[i].technologies
                 && forall k :: 0 <= k < i && !init[k].failed ==> !HasTechnology(init[k].technologies, t.name);
        assert forall k :: 0 <= k < n ==> init[k] == pages[k];
      } else {
        AddedTechnology(AllTechnologies(init), pages[n].technologies, t);
        TechnologiesAreDistinct(init);
        forall k | 0 <= k < n && !pages[k].failed ensures !HasTechnology(pages[k].technologies, t.name) {
          assert init[k] == pages[k];
        }
      }
    }
  }

  lemma {:induction false} AddedTechnology(found: seq<Technology>, more: seq<Technology>, t: Technology)
    requires t in AddTechnologies(found, more) && t !in found
    ensures t in more && !HasTechnology(found, t.name)
    decreases more
  {
    if more != [] && !(more[0] == t && !HasTechnology(found, t.name)) {
      var next := if HasTechnology(found, more[0].name) then found else found + [more[0]];
      AddedTechnology(next, more[1..], t);
      OneMoreTechnology(found, more[0], t.name);
    }
  }

  function AllTechnologies(pages: seq<Page>): seq<Technology> {
    if pages == [] then []
    else
      var n := |pages| - 1;
      if pages[n].failed then AllTechnologies(pages[..n])
      else AddTechnologies(AllTechnologies(pages[..n]), pages[n].technologies)
  }

  function Categorised(ts: seq<Technology>): seq<Technology> {
    seq(|ts|, i requires 0 <= i < |ts| => ts[i].(category := OrUnknown(ts[i].category)))
  }

  /**
   What a crawl of a readable site writes, in the handler's order: the website, the crawl result, then
   contacts, socials and technologies. `done` says how many of these five writes it gets to.
   */
  function AfterWrites(t: Tables, b: nat, facts: SiteFacts, cs: seq<Contact>, ps: seq<Social>, ts: seq<Technology>,
                       now: nat, done: nat): Tables
  {
    if done == 0 then t
    else
      var t1 := WithWebsite(t, b, facts, now);
      var site := t1.websites[b].id;
      t1.(crawlLog := if done < 2 then t.crawlLog else t.crawlLog + [site],
          contacts := if done < 3 then t.contacts else WithContacts(t.contacts, cs),
          socials := if done < 4 then t.socials else WithSocials(t.socials, ps),
          technologies := if done < 5 then t.technologies else t.technologies[site := Categorised(ts)])
  }

  function AfterCrawl(t: Tables, b: nat, facts: SiteFacts, pages: seq<Page>, now: nat, done: nat): Tables {
    AfterWrites(t, b, facts, FirstContacts(AllContacts(pages)), FirstSocials(AllSocials(pages)),
                AllTechnologies(pages), now, done)
  }

  class Repos {
    var websites: map<nat, Website>
    var contacts: seq<Contact>
    var socials: map<(nat, string), Social>
    var technologies: map<nat, seq<Technology>>
    var crawlLog: seq<nat>
    var nextId: nat

    function Value(): Tables
      reads this
    {
      Tables(websites, contacts, socials, technologies, crawlLog, nextId)
    }

    method CreateWebsite(b: nat, facts: SiteFacts, now: nat) returns (id: nat)
      modifies this
      ensures Value() == WithWebsite(old(Value()), b, facts, now)
      ensures b in websites && id == websites[b].id
    {
      var status := if facts.crawlStatus == "" then "unknown" else facts.crawlStatus;
      if b in websites {
        id := websites[b].id;
        websites := websites[b := websites[b].(facts := facts.(crawlStatus := status), crawledAt := now)];
      } else {
        id := nextId;
        websites := websites[b := Website(id, facts.(crawlStatus := status), now, now)];
        nextId := nextId + 1;
      }
    }

    /** Insert where not exists, one contact at a time, all in one transaction. */
    method UpsertContacts(batch: seq<Contact>)
      modifies this`contacts
      ensures contacts == WithContacts(old(contacts), batch)
    {
      var tx := contacts;
      for i := 0 to |batch|
        invariant WithContacts(tx, batch[i..]) == WithContacts(contacts, batch)
      {
        assert batch[i..][0] == batch[i] && batch[i..][1..] == batch[i + 1..];
        if !Recorded(tx, batch[i]) {
          tx := tx + [batch[i]];
        }
      }
      contacts := tx;
    }

    method UpsertSocials(batch: seq<Social>)
      modifies this`socials
      ensures socials == WithSocials(old(socials), batch)
    {
      var tx := socials;
      for i := 0 to |batch|
        invariant WithSocials(tx, batch[i..]) == WithSocials(socials, batch)
      {
        assert batch[i..][0] == batch[i] && batch[i..][1..] == batch[i + 1..];
        var p := batch[i];
        if SocialKey(p) in tx {
          tx := tx[SocialKey(p) := MergeSocial(tx[SocialKey(p)], p)];
        } else {
          tx := tx[SocialKey(p) := p];
        }
      }
      socials := tx;
    }

    method ReplaceTechnologies(site: nat, ts: seq<Technology>)
      modifies this`technologies
      ensures technologies == old(technologies)[site := Categorised(ts)]
    {
      var rows := [];
      for i := 0 to |ts|
        invariant rows == Categorised(ts[..i])
      {
        rows := rows + [ts[i].(category := if ts[i].category == "" then "unknown" else ts[i].category)];
      }
      assert ts[..|ts|] == ts;
      technologies := technologies[site := rows];
    }

    /** The storing part of crawlWebsite and extractAll; `done` is how far it gets before an error. */
    method StoreCrawl(b: nat, facts: SiteFacts, pages: seq<Page>, now: nat, done: nat)
      modifies this
      ensures Value() == AfterCrawl(old(Value()), b, facts, pages, now, done)
    {
      if done == 0 { return; }
      var site := CreateWebsite(b, facts, now);
      if done == 1 { return; }
      crawlLog := crawlLog + [site];
      var cs, ps, ts := Extract(pages);
      if done == 2 { return; }
      cs := DedupeContacts(cs);
      UpsertContacts(cs);
      if done == 3 { return; }
      ps := DedupeSocials(ps);
      UpsertSocials(ps);
      if done == 4 { return; }
      ReplaceTechnologies(site, ts);
    }
  }

  /** The page loop of extractAll. */
  method Extract(pages: seq<Page>) returns (cs: seq<Contact>, ps: seq<Social>, ts: seq<Technology>)
    ensures cs == AllContacts(pages) && ps == AllSocials(pages) && ts == AllTechnologies(pages)
  {
    cs, ps, ts := [], [], [];
    for i := 0 to |pages|
      invariant cs == AllContacts(pages[..i]) && ps == AllSocials(pages[..i]) && ts == AllTechnologies(pages[..i])
    {
      assert pages[..i + 1][..i] == pages[..i];
      if pages[i].failed {
        continue;
      }
      cs := cs + pages[i].contacts;
      ps := ps + pages[i].socials;
      ts := AddTechnologies(ts, pages[i].technologies);
    }
    assert pages[..|pages|] == pages;
  }

  /******* Redelivery *******/

  lemma {:induction false} RecordedStays(stored: seq<Contact>, batch: seq<Contact>, c: Contact)
    requires Recorded(stored, c)
    ensures Recorded(WithContacts(stored, batch), c)
    decreases batch
  {
    if batch != [] {
      var i :| 0 <= i < |stored| && SameContact(stored[i], c);
      assert SameContact(WithContact(stored, batch[0])[i], c);
      RecordedStays(WithContact(stored, batch[0]), batch[1..], c);
    }
  }

  lemma {:induction false} BatchIsRecorded(stored: seq<Contact>, batch: seq<Contact>, c: Contact)
    requires c in batch
    ensures Recorded(WithContacts(stored, batch), c)
    decreases batch
  {
    var next := WithContact(stored, batch[0]);
    if c == batch[0] {
      assert Recorded(next, c) by {
        if !Recorded(stored, c) { assert SameContact(next[|stored|], c); }
      }
      RecordedStays(next, batch[1..], c);
    } else {
      BatchIsRecorded(next, batch[1..], c);
    }
  }

  lemma {:induction false} RecordedAddsNothing(stored: seq<Contact>, batch: seq<Contact>)
    requires forall c :: c in batch ==> Recorded(stored, c)
    ensures WithContacts(stored, batch) == stored
    decreases batch
  {
    if batch != [] {
      assert batch[0] in batch;
      RecordedAddsNothing(stored, batch[1..]);
    }
  }

  /** Upserting a profile again would change nothing. */
  predicate Absorbed(stored: map<(nat, string), Social>, p: Social) {
    SocialKey(p) in stored && MergeSocial(stored[SocialKey(p)], p) == stored[SocialKey(p)]
  }

  lemma {:induction false} AbsorbedStays(stored: map<(nat, string), Social>, batch: seq<Social>, p: Social)
    requires Absorbed(stored, p) && forall q :: q in batch ==> q.platform != p.platform
    ensures Absorbed(WithSocials(stored, batch), p)
    decreases batch
  {
    if batch != [] {
      assert batch[0] in batch;
      AbsorbedStays(WithSocial(stored, batch[0]), batch[1..], p);
    }
  }

  lemma {:induction false} BatchIsAbsorbed(stored: map<(nat, string), Social>, batch: seq<Social>, p: Social)
    requires DistinctPlatforms(batch) && p in batch
    ensures Absorbed(WithSocials(stored, batch), p)
    decreases batch
  {
    var next := WithSocial(stored, batch[0]);
    if p == batch[0] {
      AbsorbedStays(next, batch[1..], p);
    } else {
      BatchIsAbsorbed(next, batch[1..], p);
    }
  }

  lemma {:induction false} AbsorbedAddsNothing(stored: map<(nat, string), Social>, batch: seq<Social>)
    requires forall p :: p in batch ==> Absorbed(stored, p)
    ensures WithSocials(stored, batch) == stored
    decreases batch
  {
    if batch != [] {
      assert batch[0] in batch;
      assert WithSocial(stored, batch[0]) == stored;
      AbsorbedAddsNothing(stored, batch[1..]);
    }
  }

  /** What readers see, but for the time of the last crawl; crawl_results is a log. */
  predicate SameForReaders(t: Tables, u: Tables) {
    && t.contacts == u.contacts && t.socials == u.socials && t.technologies == u.technologies
    && t.websites.Keys == u.websites.Keys
    && forall b :: b in t.websites ==> t.websites[b] == u.websites[b].(crawledAt := t.websites[b].crawledAt)
  }

  lemma ContactsSettle(stored: seq<Contact>, batch: seq<Contact>)
    ensures WithContacts(WithContacts(stored, batch), batch) == WithContacts(stored, batch)
  {
    forall c | c in batch ensures Recorded(WithContacts(stored, batch), c) {
      BatchIsRecorded(stored, batch, c);
    }
    RecordedAddsNothing(WithContacts(stored, batch), batch);
  }

  lemma SocialsSettle(stored: map<(nat, string), Social>, batch: seq<Social>)
    requires DistinctPlatforms(batch)
    ensures WithSocials(WithSocials(stored, batch), batch) == WithSocials(stored, batch)
  {
    forall p | p in batch ensures Absorbed(WithSocials(stored, batch), p) {
      BatchIsAbsorbed(stored, batch, p);
    }
    AbsorbedAddsNothing(WithSocials(stored, batch), batch);
  }

  lemma WritesSettle(t: Tables, b: nat, facts: SiteFacts, cs: seq<Contact>, ps: seq<Social>, ts: seq<Technology>,
                     now: nat, later: nat, done: nat, all: nat)
    requires 0 < done <= all && DistinctPlatforms(ps)
    ensures SameForReaders(AfterWrites(AfterWrites(t, b, facts, cs, ps, ts, now, done), b, facts, cs, ps, ts, later, all),
                           AfterWrites(t, b, facts, cs, ps, ts, now, all))
  {
    hide WithContacts, WithSocials, Categorised, DistinctPlatforms, OrUnknown;
    ContactsSettle(t.contacts, cs);
    SocialsSettle(t.socials, ps);
    var once, whole := AfterWrites(t, b, facts, cs, ps, ts, now, done), AfterWrites(t, b, facts, cs, ps, ts, now, all);
    var site := WithWebsite(t, b, facts, now).websites;
    assert once.websites == site && whole.websites == site && once.websites[b].facts == whole.websites[b].facts;
    var twice := AfterWrites(once, b, facts, cs, ps, ts, later, all);
    assert twice.websites == site[b := site[b].(crawledAt := later)];
    hide WithWebsite;
  }

  /**
   Serial redelivery: a crawl that got through any number of its writes, followed by a complete one with
   the same findings, leaves readers with what one complete crawl would have. A complete crawl makes
   `all` writes: five, or two where the site could not be read; `done == all` is a plain redelivery.
   */
  lemma CrawlRedeliveryIsIdempotent(t: Tables, b: nat, facts: SiteFacts, pages: seq<Page>, now: nat, later: nat,
                                    done: nat, all: nat)
    requires 0 < done <= all
    ensures SameForReaders(AfterCrawl(AfterCrawl(t, b, facts, pages, now, done), b, facts, pages, later, all),
                           AfterCrawl(t, b, facts, pages, now, all))
  {
    FirstSocialsAreDistinct(AllSocials(pages));
    WritesSettle(t, b, facts, FirstContacts(AllContacts(pages)), FirstSocials(AllSocials(pages)),
                 AllTechnologies(pages), now, later, done, all);
  }

  /******* What a crawl leaves *******/

  /** A page that could be read shows this contact. */
  ghost predicate ShowsContact(pages: seq<Page>, c: Contact) {
    exists i :: 0 <= i < |pages| && !pages[i].failed && c in pages[i].contacts
  }

  ghost predicate ShowsSocial(pages: seq<Page>, p: Social) {
    exists i :: 0 <= i < |pages| && !pages[i].failed && p in pages[i].socials
  }

  lemma {:induction false} AllFindings(pages: seq<Page>)
    ensures forall c :: c in AllContacts(pages) <==> ShowsContact(pages, c)
    ensures forall p :: p in AllSocials(pages) <==> ShowsSocial(pages, p)
  {
    if pages != [] {
      var n := |pages| - 1;
      AllFindings(pages[..n]);
      assert forall i :: 0 <= i < n ==> pages[..n][i] == pages[i];
    }
  }

  lemma {:induction false} FirstContactsAreFound(cs: seq<Contact>)
    ensures forall c :: c in FirstContacts(cs) ==> c in cs && ContactKey(c) != "||"
  {
    if cs != [] { FirstContactsAreFound(cs[..|cs| - 1]); }
  }

  /** New rows come after the old ones, each of them found now, and none the same in all four columns as one before it. */
  lemma {:induction false} NewContacts(stored: seq<Contact>, batch: seq<Contact>)
    ensures stored <= WithContacts(stored, batch)
    ensures forall i :: |stored| <= i < |WithContacts(stored, batch)| ==> WithContacts(stored, batch)[i] in batch
    ensures forall i, j :: 0 <= j < i && |stored| <= i < |WithContacts(stored, batch)| ==>
              var x, y := WithContacts(stored, batch)[j], WithContacts(stored, batch)[i];
              !(x.business == y.business && x.email == y.email && x.phone == y.phone && x.whatsApp == y.whatsApp)
    decreases batch
  {
    if batch != [] {
      NewContacts(WithContact(stored, batch[0]), batch[1..]);
    }
  }

  /** Every contact of the batch is there afterwards, the same in all four columns. */
  lemma StoredContact(stored: seq<Contact>, batch: seq<Contact>, c: Contact)
    requires c in batch
    ensures exists d :: d in WithContacts(stored, batch)
                        && d.business == c.business && d.email == c.email && d.phone == c.phone && d.whatsApp == c.whatsApp
  {
    BatchIsRecorded(stored, batch, c);
    var i :| 0 <= i < |WithContacts(stored, batch)| && SameContact(WithContacts(stored, batch)[i], c);
    assert WithContacts(stored, batch)[i] in WithContacts(stored, batch);
  }

  /** The first profile of its platform. */
  ghost predicate IsFirst(ps: seq<Social>, p: Social) {
    exists i :: 0 <= i < |ps| && ps[i] == p && forall j :: 0 <= j < i ==> ps[j].platform != p.platform
  }

  lemma {:induction false} FirstSocialsAreFirst(ps: seq<Social>)
    ensures forall p :: p in FirstSocials(ps) <==> IsFirst(ps, p)
  {
    if ps != [] {
      var n := |ps| - 1;
      FirstSocialsAreFirst(ps[..n]);
      FirstSocialsAreDistinct(ps[..n]);
      forall p ensures p in FirstSocials(ps) <==> IsFirst(ps, p) {
        FirstOfMore(ps, p);
      }
    }
  }

  lemma FirstOfMore(ps: seq<Social>, p: Social)
    requires ps != []
    ensures IsFirst(ps, p) <==>
            IsFirst(ps[..|ps| - 1], p) || (ps[|ps| - 1] == p && !HasPlatform(ps[..|ps| - 1], p.platform))
  {
    var n := |ps| - 1;
    if i :| 0 <= i < n && ps[..n][i] == p && forall j :: 0 <= j < i ==> ps[..n][j].platform != p.platform {
      assert ps[i] == p && forall j :: 0 <= j < i ==> ps[j] == ps[..n][j];
    }
    if i :| 0 <= i <= n && ps[i] == p && forall j :: 0 <= j < i ==> ps[j].platform != p.platform {
      assert forall j :: 0 <= j < i && j < n ==> ps[j] == ps[..n][j];
      if i < n { assert ps[..n][i] == p; }
    }
  }

  /** A profile of the batch is stored; over an earlier row it brings its address, the greater following and any verification. */
  lemma {:induction false} StoredSocial(stored: map<(nat, string), Social>, batch: seq<Social>, p: Social)
    requires DistinctPlatforms(batch) && p in batch
    ensures var key, all := (p.business, p.platform), WithSocials(stored, batch);
            && key in all
            && all[key] == if key in stored
                           then stored[key].(url := p.url,
                                             followers := if stored[key].followers < p.followers then p.followers else stored[key].followers,
                                             verified := stored[key].verified || p.verified)
                           else p
    decreases batch
  {
    var next := WithSocial(stored, batch[0]);
    if p == batch[0] {
      UntouchedSocial(next, batch[1..], (p.business, p.platform));
    } else {
      assert p in batch[1..];
      StoredSocial(next, batch[1..], p);
    }
  }

  lemma {:induction false} UntouchedSocial(stored: map<(nat, string), Social>, batch: seq<Social>, key: (nat, string))
    requires forall q :: q in batch ==> (q.business, q.platform) != key
    ensures key in WithSocials(stored, batch) <==> key in stored
    ensures key in stored ==> WithSocials(stored, batch)[key] == stored[key]
    decreases batch
  {
    if batch != [] {
      assert batch[0] in batch;
      UntouchedSocial(WithSocial(stored, batch[0]), batch[1..], key);
    }
  }

  /** The website row after a crawl, and the log. */
  lemma CrawlStoresSite(t: Tables, b: nat, facts: SiteFacts, pages: seq<Page>, now: nat)
    ensures var u := AfterCrawl(t, b, facts, pages, now, 5);
            && b in u.websites
            && u.websites[b].facts == facts.(crawlStatus := if facts.crawlStatus == "" then "unknown" else facts.crawlStatus)
            && u.websites[b].crawledAt == now
            && (b in t.websites ==> u.websites[b].id == t.websites[b].id && u.websites[b].createdAt == t.websites[b].createdAt)
            && (b !in t.websites ==> u.websites[b].id == t.nextId && u.websites[b].createdAt == now)
            && (forall c :: c != b ==> (c in u.websites <==> c in t.websites) && (c in t.websites ==> u.websites[c] == t.websites[c]))
            && u.crawlLog == t.crawlLog + [u.websites[b].id]
  {
    hide WithContacts, WithSocials, FirstContacts, FirstSocials, AllContacts, AllSocials, AllTechnologies, Categorised;
  }

  /** The contacts after a crawl: the old ones, and what readable pages show that was not there. */
  lemma CrawlStoresContacts(t: Tables, b: nat, facts: SiteFacts, pages: seq<Page>, now: nat)
    ensures var u := AfterCrawl(t, b, facts, pages, now, 5);
            && t.contacts <= u.contacts
            && (forall i :: |t.contacts| <= i < |u.contacts| ==> ShowsContact(pages, u.contacts[i]))
            && (forall c :: ShowsContact(pages, c) && (c.email != "" || c.phone != "" || c.whatsApp != "") ==>
                  exists d, e :: ShowsContact(pages, d) && ContactKey(d) == ContactKey(c) && e in u.contacts
                                 && e.business == d.business && e.email == d.email && e.phone == d.phone && e.whatsApp == d.whatsApp)
  {
    var found := AllContacts(pages);
    var batch := FirstContacts(found);
    AllFindings(pages);
    FirstContactsAreFound(found);
    FirstContactsAreDistinct(found);
    NewContacts(t.contacts, batch);
    assert AfterCrawl(t, b, facts, pages, now, 5).contacts == WithContacts(t.contacts, batch);
    forall c: Contact | c.email != "" || c.phone != "" || c.whatsApp != "" ensures ContactKey(c) != "||" {
      assert |ContactKey(c)| > 2;
    }
    hide ShowsContact, WithContacts, FirstContacts, AllContacts, AfterCrawl, ContactKey;
    forall c | ShowsContact(pages, c) && ContactKey(c) != "||"
      ensures exists d, e :: ShowsContact(pages, d) && ContactKey(d) == ContactKey(c) && e in WithContacts(t.contacts, batch)
                             && e.business == d.business && e.email == d.email && e.phone == d.phone && e.whatsApp == d.whatsApp
    {
      var i :| 0 <= i < |found| && found[i] == c;
      assert HasKey(found, ContactKey(c));
      var j :| 0 <= j < |batch| && ContactKey(batch[j]) == ContactKey(c);
      StoredContact(t.contacts, batch, batch[j]);
    }
  }

  /** The profiles after a crawl: of each platform shown, the first one found is what is stored or merged in. */
  lemma CrawlStoresSocials(t: Tables, b: nat, facts: SiteFacts, pages: seq<Page>, now: nat, p: Social)
    requires IsFirst(AllSocials(pages), p)
    ensures var key, u := (p.business, p.platform), AfterCrawl(t, b, facts, pages, now, 5);
            && ShowsSocial(pages, p) && key in u.socials
            && u.socials[key] == if key in t.socials
                                 then t.socials[key].(url := p.url,
                                                      followers := if t.socials[key].followers < p.followers then p.followers else t.socials[key].followers,
                                                      verified := t.socials[key].verified || p.verified)
                                 else p
  {
    AllFindings(pages);
    FirstSocialsAreFirst(AllSocials(pages));
    FirstSocialsAreDistinct(AllSocials(pages));
    StoredSocial(t.socials, FirstSocials(AllSocials(pages)), p);
    assert AfterCrawl(t, b, facts, pages, now, 5).socials == WithSocials(t.socials, FirstSocials(AllSocials(pages)));
    hide AfterCrawl, WithSocials, FirstSocials;
  }

  /** The technologies after a crawl: exactly those found, an unnamed category being "unknown". */
  lemma CrawlStoresTechnologies(t: Tables, b: nat, facts: SiteFacts, pages: seq<Page>, now: nat)
    ensures var u, found := AfterCrawl(t, b, facts, pages, now, 5), AllTechnologies(pages);
            && b in u.websites && u.websites[b].id in u.technologies
            && var stored := u.technologies[u.websites[b].id];
               && |stored| == |found|
               && forall i :: 0 <= i < |found| ==>
                    && stored[i].name == found[i].name && stored[i].version == found[i].version
                    && stored[i].category == (if found[i].category == "" then "unknown" else found[i].category)
  {
    hide WithContacts, WithSocials, FirstContacts, FirstSocials, AllContacts, AllSocials, AllTechnologies;
  }
}
