/** robots.txt: which lines apply, which rule wins, and how old a cached file may be. */
module Robots {
  import opened Jobs
  import opened Strings

  datatype Entry = Entry(disallow: seq<string>, allow: seq<string>, fetchedAt: int)

  datatype Directive = Directive(key: string, value: string)

  const TTL: int := 3600

  /******* Parsing *******/

  /** A line without its comment, cut at the first colon; lines that are not directives give nothing. */
  function ParseLine(line: string): Option<Directive> {
    var text := Trim(line[..IndexOf(line, '#')]);
    var colon := IndexOf(text, ':');
    if colon == |text| then None
    else Some(Directive(Lower(Trim(text[..colon])), Trim(text[colon + 1..])))
  }

  function Directives(lines: seq<string>): seq<Directive> {
    if lines == [] then []
    else
      var n := |lines| - 1;
      var d := ParseLine(lines[n]);
      Directives(lines[..n]) + if d.Some? then [d.value] else []
  }

  /**
   A line "key : value # comment": whatever the white space and the letters' case, it is the directive of
   that key and value.
   */
  lemma LineIsDirective(key: string, value: string, comment: string)
    requires '#' !in key && ':' !in key && '#' !in value
    ensures ParseLine(key + ":" + value + "#" + comment) == Some(Directive(Lower(Trim(key)), Trim(value)))
    ensures ParseLine(key + ":" + value) == Some(Directive(Lower(Trim(key)), Trim(value)))
  {
    var text := key + [':'] + value;
    IndexOfFirst(text, '#', comment);
    assert key + ":" + value + "#" + comment == text + ['#'] + comment && key + ":" + value == text;
    assert (text + ['#'] + comment)[..|text|] == text;
    NoComment(text);
    TextIsDirective(key, value);
  }

  lemma NoComment(text: string)
    requires '#' !in text
    ensures IndexOf(text, '#') == |text| && text[..|text|] == text
  {
  }

  lemma TextIsDirective(key: string, value: string)
    requires ':' !in key
    ensures var text := Trim(key + [':'] + value);
            var colon := IndexOf(text, ':');
            colon < |text| && Trim(text[..colon]) == Trim(key) && Trim(text[colon + 1..]) == Trim(value)
  {
    hide TrimLeft, TrimRight, Contains, IndexOf;
    var left, right := TrimLeft(key), TrimRight(value);
    var text := left + [':'] + right;
    assert Trim(key + [':'] + value) == text by {
      TrimLeftStops(key, ':', value);
      TrimRightStops(left, ':', value);
    }
    assert IndexOf(text, ':') == |left| by {
      TrimLeftTakesBlanks(key);
      IndexOfFirst(left, ':', right);
    }
    assert text[..|left|] == left && text[|left| + 1..] == right;
    TrimLeftAgain(key);
    TrimAfterRight(value);
  }

  /** A line without a colon before its comment is no directive. */
  lemma LineIsNoDirective(line: string, comment: string)
    requires '#' !in line && ':' !in line
    ensures ParseLine(line + "#" + comment) == None && ParseLine(line) == None
  {
    IndexOfFirst(line, '#', comment);
    assert line + "#" + comment == line + ['#'] + comment;
    assert (line + ['#'] + comment)[..|line|] == line;
    NoComment(line);
    TrimLeftTakesBlanks(line);
    TrimRightTakesBlanks(TrimLeft(line));
    var text := Trim(line);
    assert forall i :: 0 <= i < |text| ==> text[i] == TrimLeft(line)[i] && TrimLeft(line)[i] in line;
    assert ':' !in text;
  }

  /** An agent names us if it is the wildcard, or has our name in it, in whatever case. */
  lemma AgentsThatNameUs(agent: string)
    ensures NamesUs(agent) <==>
              Lower(agent) == "*" || exists i, j :: 0 <= i <= j <= |agent| && Lower(agent)[i..j] == "leadscraper"
  {
    ContainsSomewhere(Lower(agent), "leadscraper");
    hide Contains;
  }

  predicate NamesUs(agent: string) {
    Lower(agent) == "*" || Contains(Lower(agent), "leadscraper")
  }

  /** Whether the directives so far leave us in a group that applies: the latest user-agent line decides. */
  predicate InOurGroup(ds: seq<Directive>) {
    ds != [] &&
    var last := ds[|ds| - 1];
    if last.key == "user-agent" then NamesUs(last.value) else InOurGroup(ds[..|ds| - 1])
  }

  /** The values of the `key` lines that apply to us, in file order. */
  function OurValues(ds: seq<Directive>, key: string): seq<string> {
    if ds == [] then []
    else
      var n := |ds| - 1;
      OurValues(ds[..n], key) + if ds[n].key == key && InOurGroup(ds[..n]) then [ds[n].value] else []
  }

  lemma OneMore(ds: seq<Directive>, d: Directive)
    ensures forall key :: OurValues(ds + [d], key) ==
                            OurValues(ds, key) + if d.key == key && InOurGroup(ds) then [d.value] else []
    ensures InOurGroup(ds + [d]) == if d.key == "user-agent" then NamesUs(d.value) else InOurGroup(ds)
  {
    assert (ds + [d])[..|ds|] == ds;
  }

  /** One more line: either it is no directive, or its directive comes last. */
  lemma OneMoreLine(lines: seq<string>, i: nat)
    requires i < |lines|
    ensures var ds, d := Directives(lines[..i]), ParseLine(lines[i]);
            && Directives(lines[..i + 1]) == (if d.Some? then ds + [d.value] else ds)
            && (d.Some? ==>
                  && (forall key :: OurValues(ds + [d.value], key) ==
                                      OurValues(ds, key) + if d.value.key == key && InOurGroup(ds) then [d.value.value] else [])
                  && InOurGroup(ds + [d.value]) == if d.value.key == "user-agent" then NamesUs(d.value.value) else InOurGroup(ds))
  {
    assert lines[..i + 1][..i] == lines[..i];
    var d := ParseLine(lines[i]);
    hide ParseLine, NamesUs;
    if d.Some? {
      OneMore(Directives(lines[..i]), d.value);
    }
  }

  lemma NoLines()
    ensures Directives([]) == [] && !InOurGroup([]) && forall key :: OurValues([], key) == []
  {
  }

  method ParseRobots(lines: seq<string>, now: int) returns (entry: Entry)
    ensures entry == Entry(OurValues(Directives(lines), "disallow"), OurValues(Directives(lines), "allow"), now)
  {
    NoLines();
    hide Directives, OurValues, InOurGroup, ParseLine, NamesUs;
    var disallow, allow, applies := [], [], false;
    assert lines[..0] == [];
    for i := 0 to |lines|
      invariant disallow == OurValues(Directives(lines[..i]), "disallow")
      invariant allow == OurValues(Directives(lines[..i]), "allow")
      invariant applies == InOurGroup(Directives(lines[..i]))
    {
      OneMoreLine(lines, i);
      var d := ParseLine(lines[i]);
      if d.None? {
        continue;
      }
      if d.value.key == "user-agent" {
        applies := NamesUs(d.value.value);
      } else if d.value.key == "disallow" {
        if applies { disallow := disallow + [d.value.value]; }
      } else if d.value.key == "allow" {
        if applies { allow := allow + [d.value.value]; }
      }
    }
    assert lines[..|lines|] == lines;
    entry := Entry(disallow, allow, now);
  }

  /** Line `i` applies: the nearest user-agent line above it names us. */
  ghost predicate AppliesAt(ds: seq<Directive>, i: nat)
    requires i <= |ds|
  {
    exists j :: 0 <= j < i && ds[j].key == "user-agent" && NamesUs(ds[j].value)
                && forall k :: j < k < i ==> ds[k].key != "user-agent"
  }

  lemma {:induction false} GroupIsLatestAgent(ds: seq<Directive>)
    ensures InOurGroup(ds) <==> AppliesAt(ds, |ds|)
  {
    if ds != [] {
      var n := |ds| - 1;
      GroupIsLatestAgent(ds[..n]);
      if ds[n].key == "user-agent" {
        assert InOurGroup(ds) ==> AppliesAt(ds, |ds|);
      } else if AppliesAt(ds[..n], n) {
        var j :| 0 <= j < n && ds[..n][j].key == "user-agent" && NamesUs(ds[..n][j].value)
                 && forall k :: j < k < n ==> ds[..n][k].key != "user-agent";
        assert forall k :: j < k < |ds| ==> k == n || ds[k] == ds[..n][k];
        assert AppliesAt(ds, |ds|);
      }
    }
  }

  /** A rule is in force exactly when some line states it under a user-agent line that names us. */
  lemma {:induction false} RulesComeFromOurGroups(ds: seq<Directive>, key: string, value: string)
    ensures value in OurValues(ds, key) <==>
            exists i :: 0 <= i < |ds| && ds[i] == Directive(key, value) && AppliesAt(ds, i)
  {
    hide AppliesAt, InOurGroup, NamesUs;
    if ds != [] {
      var n := |ds| - 1;
      RulesComeFromOurGroups(ds[..n], key, value);
      GroupIsLatestAgent(ds[..n]);
      forall i | 0 <= i <= n ensures AppliesAt(ds[..n], i) <==> AppliesAt(ds, i) {
        AppliesInPrefix(ds, n, i);
      }
      forall i | 0 <= i < n ensures ds[..n][i] == ds[i] {}
    }
  }

  lemma AppliesInPrefix(ds: seq<Directive>, n: nat, i: nat)
    requires i <= n <= |ds|
    ensures AppliesAt(ds[..n], i) <==> AppliesAt(ds, i)
  {
    if AppliesAt(ds[..n], i) {
      var j :| 0 <= j < i && ds[..n][j].key == "user-agent" && NamesUs(ds[..n][j].value)
               && forall k :: j < k < i ==> ds[..n][k].key != "user-agent";
      assert ds[j] == ds[..n][j] && forall k :: j < k < i ==> ds[k] == ds[..n][k];
    }
    if AppliesAt(ds, i) {
      var j :| 0 <= j < i && ds[j].key == "user-agent" && NamesUs(ds[j].value)
               && forall k :: j < k < i ==> ds[k].key != "user-agent";
      assert ds[j] == ds[..n][j] && forall k :: j < k < i ==> ds[k] == ds[..n][k];
    }
  }

  /******* Matching *******/

  predicate Matches(rule: string, path: string) {
    rule != "" && rule <= path
  }

  /**
   Section 2.2.2 of RFC 9309 for literal prefixes: the most specific matching rule decides, an allow rule
   wins a tie, and a path nothing matches is allowed. Stated on sets, so the order of rules cannot matter.
   */
  ghost predicate MostSpecificAllows(disallow: set<string>, allow: set<string>, path: string) {
    || (forall r :: r in disallow ==> !Matches(r, path))
    || exists a :: a in allow && Matches(a, path) && forall r :: r in disallow && Matches(r, path) ==> |r| <= |a|
  }

  ghost function Members(rules: seq<string>): set<string> {
    set r | r in rules
  }

  method Allowed(entry: Entry, urlPath: string) returns (allowed: bool)
    ensures allowed <==> MostSpecificAllows(Members(entry.disallow), Members(entry.allow),
                                            if urlPath == "" then "/" else urlPath)
  {
    var path := if urlPath == "" then "/" else urlPath;
    var best := 0;
    allowed := true;
    for i := 0 to |entry.disallow|
      invariant best >= 0 && (allowed <==> best == 0)
      invariant forall j :: 0 <= j < i && Matches(entry.disallow[j], path) ==> |entry.disallow[j]| <= best
      invariant best > 0 ==> exists j :: 0 <= j < i && Matches(entry.disallow[j], path) && |entry.disallow[j]| == best
    {
      var rule := entry.disallow[i];
      if rule != "" && rule <= path && |rule| > best {
        best, allowed := |rule|, false;
      }
    }
    ghost var longest := best;
    for i := 0 to |entry.allow|
      invariant best >= longest
      invariant allowed <==> longest == 0 || exists j :: 0 <= j < i && Matches(entry.allow[j], path) && |entry.allow[j]| >= longest
      invariant best > longest ==> exists j :: 0 <= j < i && Matches(entry.allow[j], path) && |entry.allow[j]| == best
    {
      var rule := entry.allow[i];
      if rule != "" && rule <= path && |rule| >= best {
        best, allowed := |rule|, true;
      }
    }
    LongestDecides(entry, path, longest);
  }

  lemma LongestDecides(entry: Entry, path: string, longest: nat)
    requires forall j :: 0 <= j < |entry.disallow| && Matches(entry.disallow[j], path) ==> |entry.disallow[j]| <= longest
    requires longest > 0 ==> exists j :: 0 <= j < |entry.disallow| && Matches(entry.disallow[j], path) && |entry.disallow[j]| == longest
    ensures MostSpecificAllows(Members(entry.disallow), Members(entry.allow), path) <==>
            longest == 0 || exists j :: 0 <= j < |entry.allow| && Matches(entry.allow[j], path) && |entry.allow[j]| >= longest
  {
    if longest > 0 {
      var d :| 0 <= d < |entry.disallow| && Matches(entry.disallow[d], path) && |entry.disallow[d]| == longest;
      assert entry.disallow[d] in Members(entry.disallow);
      if j :| 0 <= j < |entry.allow| && Matches(entry.allow[j], path) && |entry.allow[j]| >= longest {
        assert entry.allow[j] in Members(entry.allow);
      }
    }
  }

  /******* The cache *******/

  /** What a fetch brought: an error, a status other than 200, or a file. */
  datatype Fetched = Unreachable | NotServed | Served(lines: seq<string>)

  class Cache {
    var entries: map<string, Entry>
    ghost var fetches: set<(string, Entry)>

    /** Every cached entry is one that was fetched for its host. */
    ghost predicate Valid()
      reads this
    {
      forall host :: host in entries ==> (host, entries[host]) in fetches
    }

    constructor ()
      ensures Valid() && entries == map[] && fetches == {}
    {
      entries, fetches := map[], {};
    }

    /**
     Looks a host up at time `now`; `fetched` is what the network would answer, at `then`. The entry used
     was fetched for this host, and was younger than the TTL at the lookup or has just been fetched.
     */
    method Get(host: string, now: int, fetched: Fetched, later: int) returns (r: Option<Entry>)
      requires Valid() && now <= later
      modifies this
      ensures Valid() && old(fetches) <= fetches
      ensures r.Some? ==> (host, r.value) in fetches && host in entries && entries[host] == r.value
      ensures r.Some? ==> now - r.value.fetchedAt < TTL
      ensures r.Some? && r.value.fetchedAt != later ==> (host, r.value) in old(fetches)
      ensures r.None? <==> fetched.Unreachable? && !(host in old(entries) && now - old(entries)[host].fetchedAt < TTL)
      ensures r.None? ==> entries == old(entries)
      ensures var refetch := !(host in old(entries) && now - old(entries)[host].fetchedAt < TTL);
              && (!refetch ==> r == Some(old(entries)[host]))
              && (refetch && fetched.NotServed? ==> r == Some(Entry([], [], later)))
              && (refetch && fetched.Served? ==>
                    r == Some(Entry(OurValues(Directives(fetched.lines), "disallow"),
                                    OurValues(Directives(fetched.lines), "allow"), later)))
      ensures forall h :: h in old(entries) && h != host ==> h in entries && entries[h] == old(entries)[h]
    {
      if host in entries && now - entries[host].fetchedAt < TTL {
        return Some(entries[host]);
      }
      var entry;
      match fetched {
        case Unreachable => return None;
        case NotServed => entry := Entry([], [], later);
        case Served(lines) => entry := ParseRobots(lines, later);
      }
      fetches := fetches + {(host, entry)};
      entries := entries[host := entry];
      return Some(entry);
    }

    /** The crawler's question. A robots.txt that cannot be fetched means no restriction. */
    method MayFetch(host: string, path: string, now: int, fetched: Fetched, later: int) returns (allowed: bool, ghost used: Option<Entry>)
      requires Valid() && now <= later
      modifies this
      ensures Valid()
      ensures used.None? ==> allowed && fetched.Unreachable?
      ensures used.Some? ==> (host, used.value) in fetches && now - used.value.fetchedAt < 3600
      ensures var refetch := !(host in old(entries) && now - old(entries)[host].fetchedAt < 3600);
              && (!refetch ==> used == Some(old(entries)[host]))
              && (refetch && fetched.NotServed? ==> allowed)
              && (refetch && fetched.Served? ==>
                    (allowed <==> MostSpecificAllows(Members(OurValues(Directives(fetched.lines), "disallow")),
                                                     Members(OurValues(Directives(fetched.lines), "allow")),
                                                     if path == "" then "/" else path)))
      ensures used.Some? ==> (allowed <==> MostSpecificAllows(Members(used.value.disallow), Members(used.value.allow),
                                                              if path == "" then "/" else path))
    {
      var entry := Get(host, now, fetched, later);
      used := entry;
      if entry.None? {
        return true, entry;
      }
      allowed := Allowed(entry.value, path);
    }
  }
}
