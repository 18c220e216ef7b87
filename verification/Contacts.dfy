/** Contact extraction from one page: canonical phone numbers, and one entry per address or number. */
module Contacts {
  import opened Strings

  datatype Contact = Contact(email: string, phone: string, whatsApp: string, contactType: string,
                             source: string, confidence: real)

  /******* Phone numbers *******/

  predicate IsDigit(c: char) {
    '0' <= c <= '9'
  }

  function DigitsOf(s: string): string {
    if s == "" then "" else (if IsDigit(s[0]) then [s[0]] else "") + DigitsOf(s[1..])
  }

  /** The national ten digits behind an optional trunk or country prefix. */
  function National(d: string): string {
    if |d| == 10 then d
    else if |d| == 11 && "0" <= d then d[1..]
    else if |d| == 12 && "91" <= d then d[2..]
    else if |d| == 13 && "091" <= d then d[3..]
    else ""
  }

  /** Empty for anything that cannot be an Indian mobile number. */
  function NormalizePhone(raw: string): string {
    var d := National(DigitsOf(raw));
    if d == "" || d[0] < '6' || d[0] > '9' then "" else "+91" + d
  }

  predicate Canonical(s: string) {
    |s| == 13 && "+91" <= s && '6' <= s[3] <= '9' && forall i :: 3 <= i < 13 ==> IsDigit(s[i])
  }

  lemma {:induction false} DigitsAreDigits(s: string)
    ensures forall i :: 0 <= i < |DigitsOf(s)| ==> IsDigit(DigitsOf(s)[i])
  {
    if s != "" { DigitsAreDigits(s[1..]); }
  }

  lemma {:induction false} DigitsOfDigits(s: string)
    requires forall i :: 0 <= i < |s| ==> IsDigit(s[i])
    ensures DigitsOf(s) == s
  {
    if s != "" {
      DigitsOfDigits(s[1..]);
      assert s == [s[0]] + s[1..];
    }
  }

  /** Only canonical numbers come out, every canonical number is its own normal form, and none is lost. */
  lemma NormalFormIsCanonical(raw: string)
    ensures NormalizePhone(raw) == "" || Canonical(NormalizePhone(raw))
    ensures NormalizePhone(NormalizePhone(raw)) == NormalizePhone(raw)
    ensures NormalizePhone(raw) == raw && raw != "" <==> Canonical(raw)
  {
    DigitsAreDigits(raw);
    var n := NormalizePhone(raw);
    if n != "" {
      CanonicalIsFixed(n);
    }
    if Canonical(raw) {
      CanonicalIsFixed(raw);
    }
  }

  /** Only digits are kept, in their order: character by character, and text by text. */
  lemma {:induction false} DigitsInOrder(s: string, t: string)
    ensures DigitsOf(s + t) == DigitsOf(s) + DigitsOf(t)
  {
    if s == "" {
      assert s + t == t;
    } else {
      var head := if IsDigit(s[0]) then [s[0]] else "";
      DigitsInOrder(s[1..], t);
      assert (s + t)[1..] == s[1..] + t && (s + t)[0] == s[0];
      var x, y := DigitsOf(s[1..]), DigitsOf(t);
      assert DigitsOf(s + t) == head + (x + y) && DigitsOf(s) == head + x;
      hide DigitsOf;
      assert head + (x + y) == (head + x) + y;
    }
  }

  lemma DigitAlone(c: char)
    ensures DigitsOf([c]) == if '0' <= c <= '9' then [c] else ""
  {
    assert [c][1..] == "";
  }

  /** A national mobile number: ten digits, the first from 6 to 9. */
  predicate Mobile(n: string) {
    |n| == 10 && '6' <= n[0] && forall i :: 0 <= i < 10 ==> '0' <= n[i] <= '9'
  }

  /** The raw numbers with normal form "+91" + n: those whose digits are n's, after 0, 91, 091 or nothing. */
  lemma WhatHasNormalForm(raw: string, n: string)
    requires Mobile(n)
    ensures NormalizePhone(raw) == "+91" + n <==> DigitsOf(raw) in {n, "0" + n, "91" + n, "091" + n}
  {
    var d := DigitsOf(raw);
    assert ("0" + n)[1..] == ("91" + n)[2..] == ("091" + n)[3..] == n;
    if NormalizePhone(raw) == "+91" + n {
      assert National(d) == ("+91" + National(d))[3..] == ("+91" + n)[3..] == n;
      if |d| == 11 {
        assert d == d[..1] + d[1..] && d[..1] == "0";
      } else if |d| == 12 {
        assert d == d[..2] + d[2..] && d[..2] == "91";
      } else if |d| == 13 {
        assert d == d[..3] + d[3..] && d[..3] == "091";
      }
    }
  }

  /** Nothing else has one. */
  lemma NormalFormIsMobile(raw: string)
    ensures var r := NormalizePhone(raw);
            r == "" || (r[..1] == "+" && |r| == 13 && r == "+91" + r[3..] && Mobile(r[3..]))
  {
    DigitsAreDigits(raw);
  }

  lemma CanonicalIsFixed(s: string)
    requires Canonical(s)
    ensures NormalizePhone(s) == s
  {
    var rest := s[1..];
    assert s[..3] == "+91";
    assert s[0] == s[..3][0] && s[1] == s[..3][1] && s[2] == s[..3][2];
    assert DigitsOf(s) == rest by {
      hide National, NormalizePhone;
      assert DigitsOf(s) == DigitsOf(rest);
      DigitsOfDigits(rest);
    }
    assert rest[..2] == "91";
    assert National(rest) == rest[2..];
    assert s == "+91" + rest[2..];
  }

  /******* Email addresses *******/

  const BLOCKLIST := ["example.com", "example.org", "domain.com", "yourdomain", "sentry.io", "wixpress.com",
                      "godaddy.com", "squarespace.com", "@2x.png", "@3x.png", "@sentry", "noreply@", "no-reply@"]
  const BLOCKED_EXTENSIONS := [".png", ".jpg", ".jpeg", ".gif", ".webp", ".svg", ".css", ".js"]

  predicate Plausible(addr: string) {
    && (forall i :: 0 <= i < |BLOCKLIST| ==> !Contains(addr, BLOCKLIST[i]))
    && (forall i :: 0 <= i < |BLOCKED_EXTENSIONS| ==> !HasSuffix(addr, BLOCKED_EXTENSIONS[i]))
    && |addr| <= 100
  }

  /** Empty for an address that is to be ignored. */
  function NormalizeEmail(raw: string): string {
    var addr := Lower(Trim(raw));
    if addr != "" && Plausible(addr) then addr else ""
  }

  /** The addresses kept: not empty, short enough, and without a blocked part or ending, after trimming. */
  lemma AcceptedAddresses(raw: string)
    ensures var addr, r := Lower(Trim(raw)), NormalizeEmail(raw);
            && (r == "" || r == addr)
            && (r != "" <==>
                  && 0 < |addr| <= 100
                  && (forall k, i, j :: 0 <= k < |BLOCKLIST| && 0 <= i <= j <= |addr| ==> addr[i..j] != BLOCKLIST[k])
                  && (forall k :: 0 <= k < |BLOCKED_EXTENSIONS| && |BLOCKED_EXTENSIONS[k]| <= |addr| ==>
                        addr[|addr| - |BLOCKED_EXTENSIONS[k]|..] != BLOCKED_EXTENSIONS[k]))
  {
    var addr := Lower(Trim(raw));
    hide Contains, Lower, Trim;
    forall k | 0 <= k < |BLOCKLIST|
      ensures Contains(addr, BLOCKLIST[k]) <==> exists i, j :: 0 <= i <= j <= |addr| && addr[i..j] == BLOCKLIST[k]
    {
      ContainsSomewhere(addr, BLOCKLIST[k]);
    }
  }

  function ClassifyEmail(addr: string): string {
    var local := addr[..IndexOf(addr, '@')];
    if "sales" <= local || "business" <= local then "sales"
    else if "support" <= local || "help" <= local then "support"
    else "general"
  }

  /** The part before the first "@" decides, by how it starts. */
  lemma LocalPartDecides(local: string, rest: string)
    requires '@' !in local
    ensures var kind, starts := ClassifyEmail(local + "@" + rest), (word: string) => |word| <= |local| && local[..|word|] == word;
            && (kind == "sales" <==> starts("sales") || starts("business"))
            && (kind == "support" <==> starts("support") || starts("help"))
            && kind in {"sales", "support", "general"}
  {
    var addr := local + ['@'] + rest;
    IndexOfFirst(local, '@', rest);
    assert addr == local + "@" + rest && addr[..|local|] == local;
    assert "sales"[0] == 's' && "sales"[1] == 'a' && "support"[1] == 'u' && "business"[0] == 'b' && "help"[0] == 'h';
  }

  /******* First occurrences *******/

  /** A match on the page, in its normal form. */
  datatype Hit = Hit(value: string, source: string, confidence: real, whatsApp: bool)

  predicate HasValue(hits: seq<Hit>, value: string) {
    exists i :: 0 <= i < |hits| && hits[i].value == value
  }

  /** The first hit for each value, ignoring empty ones. */
  function FirstHits(hits: seq<Hit>): seq<Hit> {
    if hits == [] then []
    else
      var n := |hits| - 1;
      var before := FirstHits(hits[..n]);
      if hits[n].value == "" || HasValue(before, hits[n].value) then before else before + [hits[n]]
  }

  function Hits(matches: seq<string>, norm: string -> string, source: string, confidence: real, whatsApp: bool): seq<Hit> {
    seq(|matches|, i requires 0 <= i < |matches| => Hit(norm(matches[i]), source, confidence, whatsApp))
  }

  predicate NonIncreasing(hits: seq<Hit>) {
    forall i, j :: 0 <= i < j < |hits| ==> hits[i].confidence >= hits[j].confidence
  }

  lemma ValueOfLast(hits: seq<Hit>, value: string)
    requires hits != []
    ensures HasValue(hits, value) <==> HasValue(hits[..|hits| - 1], value) || hits[|hits| - 1].value == value
  {
    if HasValue(hits[..|hits| - 1], value) {
      var i :| 0 <= i < |hits| - 1 && hits[..|hits| - 1][i].value == value;
      assert hits[i].value == value;
    }
    if HasValue(hits, value) && hits[|hits| - 1].value != value {
      var i :| 0 <= i < |hits| && hits[i].value == value;
      assert hits[..|hits| - 1][i].value == value;
    }
  }

  /** One hit per value, every non-empty value kept, and with the best confidence any of its hits had. */
  lemma {:induction false} FirstHitsAreBest(hits: seq<Hit>)
    requires NonIncreasing(hits)
    ensures var kept := FirstHits(hits);
            && (forall i, j :: 0 <= i < j < |kept| ==> kept[i].value != kept[j].value)
            && (forall value :: HasValue(kept, value) <==> value != "" && HasValue(hits, value))
            && (forall h, k :: h in hits && k in kept && h.value == k.value ==> h.confidence <= k.confidence)
            && (forall k :: k in kept ==> k in hits)
  {
    if hits != [] {
      var n := |hits| - 1;
      var init, last := hits[..n], hits[n];
      FirstHitsAreBest(init);
      var before, kept := FirstHits(init), FirstHits(hits);
      forall value ensures HasValue(kept, value) <==> value != "" && HasValue(hits, value) {
        ValueOfLast(hits, value);
        if kept != before {
          assert kept[..|before|] == before;
          ValueOfLast(kept, value);
        }
      }
      forall h, k | h in hits && k in kept && h.value == k.value ensures h.confidence <= k.confidence {
        KeptBeatsHit(hits, before, kept, h, k);
      }
    }
  }

  lemma KeptBeatsHit(hits: seq<Hit>, before: seq<Hit>, kept: seq<Hit>, h: Hit, k: Hit)
    requires NonIncreasing(hits) && hits != []
    requires var n := |hits| - 1;
             && (forall x :: x in before ==> x in hits[..n])
             && (forall x, y :: x in hits[..n] && y in before && x.value == y.value ==> x.confidence <= y.confidence)
             && (forall value :: HasValue(before, value) <==> value != "" && HasValue(hits[..n], value))
             && (kept == before || (kept == before + [hits[n]] && hits[n].value != "" && !HasValue(before, hits[n].value)))
    requires h in hits && k in kept && h.value == k.value
    ensures h.confidence <= k.confidence
  {
    var n := |hits| - 1;
    assert hits == hits[..n] + [hits[n]];
    forall i | 0 <= i < n ensures hits[..n][i] == hits[i] && HasValue(hits[..n], hits[i].value) {
      assert hits[..n][i].value == hits[i].value;
    }
  }

  /******* The page *******/

  /** What the five regular expressions find, in page order; `text` is the page without its tags. */
  datatype Matches = Matches(mailto: seq<string>, email: seq<string>, waLinks: seq<string>,
                             tel: seq<string>, text: seq<string>)

  function EmailHits(m: Matches, source: string): seq<Hit> {
    Hits(m.mailto, NormalizeEmail, source + ":mailto", 0.95, false)
    + Hits(m.email, NormalizeEmail, source + ":text", 0.6, false)
  }

  function PhoneHits(m: Matches, source: string): seq<Hit> {
    Hits(m.waLinks, NormalizePhone, source + ":wa", 0.95, true)
    + Hits(m.tel, NormalizePhone, source + ":tel", 0.9, false)
    + Hits(m.text, NormalizePhone, source + ":text", 0.5, false)
  }

  function EmailContact(h: Hit): Contact {
    Contact(h.value, "", "", ClassifyEmail(h.value), h.source, h.confidence)
  }

  function PhoneContact(h: Hit): Contact {
    if h.whatsApp then Contact("", "", h.value, "general", h.source, h.confidence)
    else Contact("", h.value, "", "general", h.source, h.confidence)
  }

  function AsContacts(hits: seq<Hit>, make: Hit -> Contact): seq<Contact> {
    seq(|hits|, i requires 0 <= i < |hits| => make(hits[i]))
  }

  /** The extractor's state: what it will return, and the addresses and numbers it has seen. */
  class Collector {
    var out: seq<Contact>
    var seenEmail: set<string>
    var seenPhone: set<string>

    constructor ()
      ensures out == [] && seenEmail == {} && seenPhone == {}
    {
      out, seenEmail, seenPhone := [], {}, {};
    }

    method AddEmail(raw: string, source: string, confidence: real)
      modifies this
      ensures var addr := NormalizeEmail(raw);
              && seenPhone == old(seenPhone)
              && (addr == "" || addr in old(seenEmail) ==> out == old(out) && seenEmail == old(seenEmail))
              && (addr != "" && addr !in old(seenEmail) ==>
                    && out == old(out) + [Contact(addr, "", "", ClassifyEmail(addr), source, confidence)]
                    && seenEmail == old(seenEmail) + {addr})
    {
      var addr := Lower(Trim(raw));
      if addr == "" || addr in seenEmail || !Plausible(addr) {
        return;
      }
      seenEmail := seenEmail + {addr};
      out := out + [Contact(addr, "", "", ClassifyEmail(addr), source, confidence)];
    }

    method AddPhone(raw: string, source: string, confidence: real, whatsApp: bool)
      modifies this
      ensures var norm := NormalizePhone(raw);
              && seenEmail == old(seenEmail)
              && (norm == "" || norm in old(seenPhone) ==> out == old(out) && seenPhone == old(seenPhone))
              && (norm != "" && norm !in old(seenPhone) ==>
                    && out == old(out) + [Contact("", if whatsApp then "" else norm, if whatsApp then norm else "",
                                                  "general", source, confidence)]
                    && seenPhone == old(seenPhone) + {norm})
    {
      var norm := NormalizePhone(raw);
      if norm == "" || norm in seenPhone {
        return;
      }
      seenPhone := seenPhone + {norm};
      if whatsApp {
        out := out + [Contact("", "", norm, "general", source, confidence)];
      } else {
        out := out + [Contact("", norm, "", "general", source, confidence)];
      }
    }
  }

  /** What the collector holds after some hits of one sort: their first occurrences, and their values seen. */
  ghost predicate Tracks(out: seq<Contact>, seen: set<string>, base: seq<Contact>, hits: seq<Hit>, make: Hit -> Contact) {
    out == base + AsContacts(FirstHits(hits), make) && forall v :: v in seen <==> HasValue(FirstHits(hits), v)
  }

  lemma OneMoreHit(out: seq<Contact>, seen: set<string>, base: seq<Contact>, hits: seq<Hit>, make: Hit -> Contact, h: Hit)
    requires Tracks(out, seen, base, hits, make)
    ensures h.value == "" || h.value in seen ==> Tracks(out, seen, base, hits + [h], make)
    ensures h.value != "" && h.value !in seen ==> Tracks(out + [make(h)], seen + {h.value}, base, hits + [h], make)
  {
    assert (hits + [h])[..|hits|] == hits;
    if h.value != "" && h.value !in seen {
      var before, kept := FirstHits(hits), FirstHits(hits + [h]);
      assert kept == before + [h] && kept[..|before|] == before;
      assert AsContacts(kept, make) == AsContacts(before, make) + [make(h)];
      forall v ensures v in seen + {h.value} <==> HasValue(kept, v) {
        ValueOfLast(kept, v);
      }
    }
  }

  method AddEmails(c: Collector, matches: seq<string>, source: string, confidence: real,
                   ghost base: seq<Contact>, ghost hits: seq<Hit>)
    requires Tracks(c.out, c.seenEmail, base, hits, EmailContact)
    modifies c
    ensures Tracks(c.out, c.seenEmail, base, hits + Hits(matches, NormalizeEmail, source, confidence, false), EmailContact)
    ensures c.seenPhone == old(c.seenPhone)
  {
    hide NormalizeEmail, Tracks;
    ghost var all := Hits(matches, NormalizeEmail, source, confidence, false);
    assert hits + all[..0] == hits;
    for i := 0 to |matches|
      invariant Tracks(c.out, c.seenEmail, base, hits + all[..i], EmailContact)
      invariant c.seenPhone == old(c.seenPhone)
    {
      OneMoreHit(c.out, c.seenEmail, base, hits + all[..i], EmailContact, all[i]);
      assert hits + all[..i + 1] == hits + all[..i] + [all[i]];
      c.AddEmail(matches[i], source, confidence);
    }
    assert all[..|matches|] == all;
  }

  method AddPhones(c: Collector, matches: seq<string>, source: string, confidence: real, whatsApp: bool,
                   ghost base: seq<Contact>, ghost hits: seq<Hit>)
    requires Tracks(c.out, c.seenPhone, base, hits, PhoneContact)
    modifies c
    ensures Tracks(c.out, c.seenPhone, base, hits + Hits(matches, NormalizePhone, source, confidence, whatsApp), PhoneContact)
  {
    hide NormalizePhone, Tracks;
    ghost var all := Hits(matches, NormalizePhone, source, confidence, whatsApp);
    assert hits + all[..0] == hits;
    for i := 0 to |matches|
      invariant Tracks(c.out, c.seenPhone, base, hits + all[..i], PhoneContact)
    {
      OneMoreHit(c.out, c.seenPhone, base, hits + all[..i], PhoneContact, all[i]);
      assert hits + all[..i + 1] == hits + all[..i] + [all[i]];
      c.AddPhone(matches[i], source, confidence, whatsApp);
    }
    assert all[..|matches|] == all;
  }

  function PageContacts(m: Matches, source: string): seq<Contact> {
    AsContacts(FirstHits(EmailHits(m, source)), EmailContact) + AsContacts(FirstHits(PhoneHits(m, source)), PhoneContact)
  }

  lemma NoHits(base: seq<Contact>, make: Hit -> Contact)
    ensures Tracks(base, {}, base, [], make)
  {
    assert AsContacts(FirstHits([]), make) == [];
  }

  /** The extractor: structured matches first, so that each value's first hit is its most trusted. */
  method Extract(m: Matches, source: string) returns (out: seq<Contact>)
    ensures out == PageContacts(m, source)
  {
    NoHits([], EmailContact);
    hide NormalizePhone, NormalizeEmail, PhoneContact, EmailContact, Hits, FirstHits, AsContacts, HasValue;
    var c := new Collector();
    AddEmails(c, m.mailto, source + ":mailto", 0.95, [], []);
    ghost var mailto := Hits(m.mailto, NormalizeEmail, source + ":mailto", 0.95, false);
    assert [] + mailto == mailto;
    AddEmails(c, m.email, source + ":text", 0.6, [], mailto);
    ghost var emails := c.out;
    NoHits(emails, PhoneContact);
    AddPhones(c, m.waLinks, source + ":wa", 0.95, true, emails, []);
    ghost var wa := Hits(m.waLinks, NormalizePhone, source + ":wa", 0.95, true);
    assert [] + wa == wa;
    AddPhones(c, m.tel, source + ":tel", 0.9, false, emails, wa);
    AddPhones(c, m.text, source + ":text", 0.5, false, emails, wa + Hits(m.tel, NormalizePhone, source + ":tel", 0.9, false));
    return c.out;
  }

  function Number(c: Contact): string {
    if c.whatsApp != "" then c.whatsApp else c.phone
  }

  lemma HitsAreOrdered(m: Matches, source: string)
    ensures NonIncreasing(EmailHits(m, source)) && NonIncreasing(PhoneHits(m, source))
  {
  }

  /** No two entries of a page share an address or a number. */
  lemma NoSharedAddressOrNumber(m: Matches, source: string, i: nat, j: nat)
    requires i < j < |PageContacts(m, source)|
    ensures var c, d := PageContacts(m, source)[i], PageContacts(m, source)[j];
            && (c.email != "" ==> c.email != d.email)
            && (Number(c) != "" ==> Number(c) != Number(d))
  {
    HitsAreOrdered(m, source);
    KeptAreDistinct(EmailHits(m, source));
    KeptAreDistinct(PhoneHits(m, source));
    SharesNothing(FirstHits(EmailHits(m, source)), FirstHits(PhoneHits(m, source)), i, j);
  }

  predicate DistinctValues(hits: seq<Hit>) {
    && (forall i :: 0 <= i < |hits| ==> hits[i].value != "")
    && forall i, j :: 0 <= i < j < |hits| ==> hits[i].value != hits[j].value
  }

  lemma SharesNothing(emails: seq<Hit>, phones: seq<Hit>, i: nat, j: nat)
    requires DistinctValues(emails) && DistinctValues(phones)
    requires i < j < |emails| + |phones|
    ensures var all := AsContacts(emails, EmailContact) + AsContacts(phones, PhoneContact);
            && (all[i].email != "" ==> all[i].email != all[j].email)
            && (Number(all[i]) != "" ==> Number(all[i]) != Number(all[j]))
  {
    hide ClassifyEmail;
    var n, all := |emails|, AsContacts(emails, EmailContact) + AsContacts(phones, PhoneContact);
    if j < n {
      assert all[i] == EmailContact(emails[i]) && all[j] == EmailContact(emails[j]);
      assert emails[i].value != emails[j].value;
    } else if i < n {
      assert all[i] == EmailContact(emails[i]) && all[j] == PhoneContact(phones[j - n]);
    } else {
      assert all[i] == PhoneContact(phones[i - n]) && all[j] == PhoneContact(phones[j - n]);
      assert phones[i - n].value != phones[j - n].value;
    }
  }

  lemma KeptAreDistinct(hits: seq<Hit>)
    requires NonIncreasing(hits)
    ensures DistinctValues(FirstHits(hits))
  {
    FirstHitsAreBest(hits);
    var kept := FirstHits(hits);
    forall i | 0 <= i < |kept| ensures kept[i].value != "" {
      assert HasValue(kept, kept[i].value);
    }
  }

  /**
   Every match with a normal form is represented, by an entry trusted at least as much as any of its
   occurrences, and that is itself one of them.
   */
  lemma EveryMatchIsRepresented(m: Matches, source: string, h: Hit)
    requires h.value != "" && (h in EmailHits(m, source) || h in PhoneHits(m, source))
    ensures h in EmailHits(m, source) ==>
              exists k :: k in EmailHits(m, source) && EmailContact(k) in PageContacts(m, source)
                          && k.value == h.value && k.confidence >= h.confidence
    ensures h in PhoneHits(m, source) ==>
              exists k :: k in PhoneHits(m, source) && PhoneContact(k) in PageContacts(m, source)
                          && k.value == h.value && k.confidence >= h.confidence
  {
    HitsAreOrdered(m, source);
    if h in EmailHits(m, source) {
      var k := Representative(EmailHits(m, source), h, EmailContact);
      assert EmailContact(k) in PageContacts(m, source);
    }
    if h in PhoneHits(m, source) {
      var k := Representative(PhoneHits(m, source), h, PhoneContact);
      assert PhoneContact(k) in PageContacts(m, source);
    }
  }

  lemma Representative(hits: seq<Hit>, h: Hit, make: Hit -> Contact) returns (k: Hit)
    requires NonIncreasing(hits) && h in hits && h.value != ""
    ensures k in hits && k.value == h.value && k.confidence >= h.confidence
    ensures make(k) in AsContacts(FirstHits(hits), make)
  {
    FirstHitsAreBest(hits);
    var i :| 0 <= i < |hits| && hits[i] == h;
    assert HasValue(hits, h.value);
    var kept := FirstHits(hits);
    var j :| 0 <= j < |kept| && kept[j].value == h.value;
    k := kept[j];
    assert AsContacts(kept, make)[j] == make(k);
  }

  /** Some match has normal form `v`. */
  predicate Normal(matches: seq<string>, norm: string -> string, v: string) {
    v != "" && exists i :: 0 <= i < |matches| && norm(matches[i]) == v
  }

  /**
   Each entry of the page comes from a match of the sort that its source and confidence tell, and shows it in
   the one field that is that sort's: the address, the WhatsApp number, or the phone number.
   */
  lemma EntryTellsItsMatch(m: Matches, source: string, c: Contact)
    requires c in PageContacts(m, source)
    ensures
      || (c.phone == c.whatsApp == "" && c.contactType == ClassifyEmail(c.email)
          && ((Normal(m.mailto, NormalizeEmail, c.email) && c.source == source + ":mailto" && c.confidence == 0.95)
              || (Normal(m.email, NormalizeEmail, c.email) && c.source == source + ":text" && c.confidence == 0.6)))
      || (c.email == c.phone == "" && c.contactType == "general"
          && Normal(m.waLinks, NormalizePhone, c.whatsApp) && c.source == source + ":wa" && c.confidence == 0.95)
      || (c.email == c.whatsApp == "" && c.contactType == "general"
          && ((Normal(m.tel, NormalizePhone, c.phone) && c.source == source + ":tel" && c.confidence == 0.9)
              || (Normal(m.text, NormalizePhone, c.phone) && c.source == source + ":text" && c.confidence == 0.5)))
  {
    HitsAreOrdered(m, source);
    if c in AsContacts(FirstHits(EmailHits(m, source)), EmailContact) {
      var h := KeptHit(EmailHits(m, source), EmailContact, c);
      hide NormalizeEmail, ClassifyEmail, FirstHits;
    } else {
      var h := KeptHit(PhoneHits(m, source), PhoneContact, c);
      hide NormalizePhone, FirstHits;
    }
  }

  lemma KeptHit(hits: seq<Hit>, make: Hit -> Contact, c: Contact) returns (h: Hit)
    requires NonIncreasing(hits) && c in AsContacts(FirstHits(hits), make)
    ensures h in hits && h.value != "" && c == make(h)
  {
    FirstHitsAreBest(hits);
    KeptAreDistinct(hits);
    var i :| 0 <= i < |FirstHits(hits)| && AsContacts(FirstHits(hits), make)[i] == c;
    h := FirstHits(hits)[i];
  }

  /** And every address and number that some match has is on the page. */
  lemma EveryMatchIsShown(m: Matches, source: string, v: string)
    ensures Normal(m.mailto, NormalizeEmail, v) || Normal(m.email, NormalizeEmail, v) ==>
              exists c :: c in PageContacts(m, source) && c.email == v
    ensures Normal(m.waLinks, NormalizePhone, v) || Normal(m.tel, NormalizePhone, v) || Normal(m.text, NormalizePhone, v) ==>
              exists c :: c in PageContacts(m, source) && (c.whatsApp == v || c.phone == v)
  {
    hide NormalizeEmail, NormalizePhone, ClassifyEmail, PageContacts, FirstHits;
    if Normal(m.mailto, NormalizeEmail, v) || Normal(m.email, NormalizeEmail, v) {
      var h := HitOf(EmailHits(m, source), Hits(m.mailto, NormalizeEmail, source + ":mailto", 0.95, false),
                     Hits(m.email, NormalizeEmail, source + ":text", 0.6, false), [],
                     m.mailto, m.email, [], NormalizeEmail, v);
      EveryMatchIsRepresented(m, source, h);
    }
    if Normal(m.waLinks, NormalizePhone, v) || Normal(m.tel, NormalizePhone, v) || Normal(m.text, NormalizePhone, v) {
      var h := HitOf(PhoneHits(m, source), Hits(m.waLinks, NormalizePhone, source + ":wa", 0.95, true),
                     Hits(m.tel, NormalizePhone, source + ":tel", 0.9, false),
                     Hits(m.text, NormalizePhone, source + ":text", 0.5, false),
                     m.waLinks, m.tel, m.text, NormalizePhone, v);
      EveryMatchIsRepresented(m, source, h);
    }
  }

  lemma HitOf(all: seq<Hit>, a: seq<Hit>, b: seq<Hit>, c: seq<Hit>, ra: seq<string>, rb: seq<string>, rc: seq<string>,
              norm: string -> string, v: string) returns (h: Hit)
    requires all == a + b + c && |a| == |ra| && |b| == |rb| && |c| == |rc|
    requires forall i :: 0 <= i < |a| ==> a[i].value == norm(ra[i])
    requires forall i :: 0 <= i < |b| ==> b[i].value == norm(rb[i])
    requires forall i :: 0 <= i < |c| ==> c[i].value == norm(rc[i])
    requires Normal(ra, norm, v) || Normal(rb, norm, v) || Normal(rc, norm, v)
    ensures h in all && h.value == v
  {
    if Normal(ra, norm, v) {
      var i :| 0 <= i < |ra| && norm(ra[i]) == v;
      h := a[i];
    } else if Normal(rb, norm, v) {
      var i :| 0 <= i < |rb| && norm(rb[i]) == v;
      h := b[i];
    } else {
      var i :| 0 <= i < |rc| && norm(rc[i]) == v;
      h := c[i];
    }
  }
}
