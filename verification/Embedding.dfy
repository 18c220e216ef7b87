/** The embedding cache, and why the text it is keyed on does not depend on map order. */
module Embedding {
  type Vector = seq<real>

  /** A lead_embeddings row. */
  datatype Stored = Stored(content: string, vector: Vector, model: string, hash: string)

  /** Each business's document as it would be built now, the provider's model, and the stored rows. */
  datatype State = State(documents: map<nat, string>, model: string, rows: map<nat, Stored>)

  /**
   What the run meets: no embedder set up, a failing row lookup, or the embedder's answer to one document.
   `NotConfigured` is the embedder saying so itself.
   */
  datatype Answer = Disabled | LookupFailed | Vectors(count: nat) | NotConfigured | ProviderError

  datatype Outcome = Embedded | Unchanged | NoProvider | Error

  datatype Step =
    | ChangeDocument(business: nat, content: string)
    | SwitchModel(model: string)
    | Run(business: nat, answer: Answer, stored: bool)

  predicate IsCurrent(rows: map<nat, Stored>, b: nat, hash: string, model: string) {
    b in rows && rows[b].hash == hash && rows[b].model == model
  }

  /** One embedLead run: `answer` is what it meets, `stored` whether the upsert succeeded. */
  function EmbedLead(s: State, b: nat, answer: Answer, stored: bool, hash: string -> string,
                     embed: (string, string) -> Vector): (State, Outcome)
  {
    if answer.Disabled? then (s, NoProvider)
    else if b !in s.documents || answer.LookupFailed? then (s, Error)
    else
      var content := s.documents[b];
      if IsCurrent(s.rows, b, hash(content), s.model) then (s, Unchanged)
      else if answer.NotConfigured? then (s, NoProvider)
      else if answer != Vectors(1) || !stored then (s, Error)
      else (s.(rows := s.rows[b := Stored(content, embed(s.model, content), s.model, hash(content))]), Embedded)
  }

  function Apply(s: State, step: Step, hash: string -> string, embed: (string, string) -> Vector): State {
    match step
    case ChangeDocument(b, content) => s.(documents := s.documents[b := content])
    case SwitchModel(model) => s.(model := model)
    case Run(b, answer, stored) => EmbedLead(s, b, answer, stored, hash, embed).0
  }

  function After(s: State, steps: seq<Step>, hash: string -> string, embed: (string, string) -> Vector): State
    decreases steps
  {
    if steps == [] then s else After(Apply(s, steps[0], hash, embed), steps[1..], hash, embed)
  }

  /** Every stored vector is the embedding of the stored text under the stored model. */
  ghost predicate Coherent(s: State, hash: string -> string, embed: (string, string) -> Vector) {
    forall b :: b in s.rows ==>
      s.rows[b].vector == embed(s.rows[b].model, s.rows[b].content) && s.rows[b].hash == hash(s.rows[b].content)
  }

  lemma {:induction false} CoherentForever(s: State, steps: seq<Step>, hash: string -> string,
                                           embed: (string, string) -> Vector)
    requires Coherent(s, hash, embed)
    ensures Coherent(After(s, steps, hash, embed), hash, embed)
    decreases steps
  {
    if steps != [] {
      CoherentForever(Apply(s, steps[0], hash, embed), steps[1..], hash, embed);
    }
  }

  /** Two texts the cache cannot tell apart. */
  predicate Collide(x: string, y: string, hash: string -> string) {
    x != y && hash(x) == hash(y)
  }

  /** The row a lead should have. */
  function CurrentRow(s: State, b: nat, hash: string -> string, embed: (string, string) -> Vector): Stored
    requires b in s.documents
  {
    Stored(s.documents[b], embed(s.model, s.documents[b]), s.model, hash(s.documents[b]))
  }

  /**
   From an empty table, after any document changes, model switches and runs: a run that embeds leaves a row
   current in text, model and vector; one that skips the lead as unchanged leaves such a row if and only if
   the stored and the current text do not collide; any other run changes nothing.
   */
  lemma RunLeavesCurrentRow(start: State, steps: seq<Step>, b: nat, answer: Answer, stored: bool,
                            hash: string -> string, embed: (string, string) -> Vector)
    requires start.rows == map[]
    ensures var s := After(start, steps, hash, embed);
            var (t, outcome) := EmbedLead(s, b, answer, stored, hash, embed);
            && (outcome == Embedded ==> b in s.documents && t.rows == s.rows[b := CurrentRow(s, b, hash, embed)])
            && (outcome == Unchanged ==>
                  && b in s.documents && b in s.rows
                  && (s.rows[b] == CurrentRow(s, b, hash, embed) <==>
                        !Collide(s.rows[b].content, s.documents[b], hash)))
            && (outcome != Embedded ==> t == s)
  {
    CoherentForever(start, steps, hash, embed);
  }

  /**
   Every collision can happen: in any state and for any lead, once text x has had to be embedded and has
   changed to y, the next run skips the lead with a stale row if and only if x and y collide.
   */
  lemma CollisionLeavesStaleRow(s: State, b: nat, x: string, y: string, hash: string -> string,
                                embed: (string, string) -> Vector)
    requires !IsCurrent(s.rows, b, hash(x), s.model)
    ensures Collide(x, y, hash) <==>
            var u := After(s, [ChangeDocument(b, x), Run(b, Vectors(1), true), ChangeDocument(b, y)], hash, embed);
            var (t, outcome) := EmbedLead(u, b, Vectors(1), true, hash, embed);
            outcome == Unchanged && b in t.rows && t.rows[b] != CurrentRow(u, b, hash, embed)
  {
    var steps := [ChangeDocument(b, x), Run(b, Vectors(1), true), ChangeDocument(b, y)];
    var s1 := Apply(s, steps[0], hash, embed);
    var s2 := Apply(s1, steps[1], hash, embed);
    var s3 := Apply(s2, steps[2], hash, embed);
    assert steps[1..][1..][1..] == [] && steps[1..][0] == steps[1] && steps[1..][1..][0] == steps[2];
    assert After(s3, [], hash, embed) == s3;
    assert After(s2, steps[1..][1..], hash, embed) == s3;
    assert After(s1, steps[1..], hash, embed) == s3;
    assert After(s, steps, hash, embed) == s3;
    assert s2.rows[b] == Stored(x, embed(s.model, x), s.model, hash(x));
  }

  /** The lead_embeddings table, with the documents and model of the moment. */
  class Index {
    var s: State

    method NeedsEmbedding(b: nat, hash: string, model: string) returns (needed: bool)
      ensures needed <==> !IsCurrent(s.rows, b, hash, model)
    {
      if b !in s.rows {
        return true;
      }
      return s.rows[b].hash != hash || s.rows[b].model != model;
    }

    method Upsert(b: nat, content: string, hash: string, model: string, vector: Vector)
      modifies this
      ensures s == old(s).(rows := old(s).rows[b := Stored(content, vector, model, hash)])
    {
      s := s.(rows := s.rows[b := Stored(content, vector, model, hash)]);
    }

    method Embed(b: nat, answer: Answer, stored: bool, hash: string -> string, embed: (string, string) -> Vector)
      returns (outcome: Outcome)
      modifies this
      ensures (s, outcome) == EmbedLead(old(s), b, answer, stored, hash, embed)
      ensures var known := answer != Disabled && b in old(s).documents && answer != LookupFailed;
              var same := known && b in old(s).rows && old(s).rows[b].hash == hash(old(s).documents[b])
                          && old(s).rows[b].model == old(s).model;
              && (outcome == Unchanged <==> same)
              && (outcome == Embedded <==> known && !same && answer == Vectors(1) && stored)
              && (outcome == NoProvider <==> answer == Disabled || (known && !same && answer == NotConfigured))
      ensures outcome != Embedded ==> s == old(s)
      ensures outcome == Embedded ==>
                && s.documents == old(s).documents && s.model == old(s).model
                && (forall c :: c in s.rows <==> c == b || c in old(s).rows)
                && s.rows[b].content == s.documents[b] && s.rows[b].hash == hash(s.documents[b])
                && s.rows[b].vector == embed(s.model, s.documents[b]) && s.rows[b].model == s.model
                && forall c :: c in old(s).rows && c != b ==> s.rows[c] == old(s).rows[c]
    {
      if answer.Disabled? {
        return NoProvider;
      }
      if b !in s.documents || answer.LookupFailed? {
        return Error;
      }
      var content := s.documents[b];
      var needed := NeedsEmbedding(b, hash(content), s.model);
      if !needed {
        return Unchanged;
      }
      if answer.NotConfigured? {
        return NoProvider;
      }
      if answer.ProviderError? || answer.count != 1 || !stored {
        return Error;
      }
      Upsert(b, content, hash(content), s.model, embed(s.model, content));
      return Embedded;
    }
  }

  /******* Gap text *******/

  predicate Leq(x: string, y: string) {
    x == "" || (y != "" && (x[0] < y[0] || (x[0] == y[0] && Leq(x[1..], y[1..]))))
  }

  predicate Sorted(xs: seq<string>) {
    forall i, j :: 0 <= i < j < |xs| ==> Leq(xs[i], xs[j])
  }

  lemma {:induction false} LeqAntisymmetric(x: string, y: string)
    requires Leq(x, y) && Leq(y, x)
    ensures x == y
  {
    if x != "" && y != "" {
      LeqAntisymmetric(x[1..], y[1..]);
      assert x == [x[0]] + x[1..] && y == [y[0]] + y[1..];
    }
  }

  lemma {:induction false} LeqTransitive(x: string, y: string, z: string)
    requires Leq(x, y) && Leq(y, z)
    ensures Leq(x, z)
  {
    if x != "" && x[0] == y[0] == z[0] {
      LeqTransitive(x[1..], y[1..], z[1..]);
    }
  }

  lemma {:induction false} LeqTotal(x: string, y: string)
    ensures Leq(x, y) || Leq(y, x)
  {
    if x != "" && y != "" {
      LeqTotal(x[1..], y[1..]);
    }
  }

  /** The gaps in the order the map happens to be walked in: `order` lists its keys, each once. */
  function GapsIn(breakdown: map<string, int>, order: seq<string>): seq<string>
    requires forall k :: k in order ==> k in breakdown
  {
    if order == [] then []
    else (if breakdown[order[0]] > 0 then [order[0]] else []) + GapsIn(breakdown, order[1..])
  }

  ghost predicate Walks(breakdown: map<string, int>, order: seq<string>) {
    && (forall k :: k in order <==> k in breakdown)
    && forall i, j :: 0 <= i < j < |order| ==> order[i] != order[j]
  }

  predicate Distinct(xs: seq<string>) {
    forall i, j :: 0 <= i < j < |xs| ==> xs[i] != xs[j]
  }

  /** Insertion into a sorted list; sort.Strings is taken as any such sorting. */
  function Insert(x: string, xs: seq<string>): seq<string> {
    if xs == [] || Leq(x, xs[0]) then [x] + xs else [xs[0]] + Insert(x, xs[1..])
  }

  function Sort(xs: seq<string>): seq<string> {
    if xs == [] then [] else Insert(xs[0], Sort(xs[1..]))
  }

  lemma {:induction false} InsertSorts(x: string, xs: seq<string>)
    requires Sorted(xs)
    ensures Sorted(Insert(x, xs)) && multiset(Insert(x, xs)) == multiset(xs) + multiset{x}
  {
    hide Leq;
    if xs == [] {
    } else if Leq(x, xs[0]) {
      forall i | 0 <= i < |xs| ensures Leq(x, xs[i]) {
        if i > 0 { LeqTransitive(x, xs[0], xs[i]); }
      }
    } else {
      LeqTotal(x, xs[0]);
      InsertSorts(x, xs[1..]);
      assert xs == [xs[0]] + xs[1..];
      LeastFirst(xs[0], Insert(x, xs[1..]), xs[1..], x);
    }
  }

  /** A sorted list stays sorted with an element in front that is least. */
  lemma LeastFirst(least: string, ys: seq<string>, rest: seq<string>, x: string)
    requires Sorted(ys) && multiset(ys) == multiset(rest) + multiset{x}
    requires Leq(least, x) && forall y :: y in rest ==> Leq(least, y)
    ensures Sorted([least] + ys)
  {
    hide Leq;
    forall y | y in ys ensures Leq(least, y) {
      assert y in multiset(ys);
    }
  }

  lemma {:induction false} SortSorts(xs: seq<string>)
    ensures Sorted(Sort(xs)) && multiset(Sort(xs)) == multiset(xs)
  {
    if xs != [] {
      SortSorts(xs[1..]);
      InsertSorts(xs[0], Sort(xs[1..]));
      assert xs == [xs[0]] + xs[1..];
    }
  }

  lemma {:induction false} SortedIsUnique(xs: seq<string>, ys: seq<string>)
    requires Sorted(xs) && Sorted(ys) && multiset(xs) == multiset(ys)
    ensures xs == ys
  {
    if xs == [] {
      assert |multiset(ys)| == 0;
    } else {
      assert |ys| == |multiset(ys)| == |multiset(xs)| == |xs|;
      SameLeast(xs, ys);
      assert xs == [xs[0]] + xs[1..] && ys == [ys[0]] + ys[1..];
      assert multiset(xs[1..]) == multiset(xs) - multiset{xs[0]};
      assert multiset(ys[1..]) == multiset(ys) - multiset{ys[0]};
      SortedIsUnique(xs[1..], ys[1..]);
    }
  }

  lemma SameLeast(xs: seq<string>, ys: seq<string>)
    requires xs != [] && ys != [] && Sorted(xs) && Sorted(ys) && multiset(xs) == multiset(ys)
    ensures xs[0] == ys[0]
  {
    hide Leq;
    assert xs[0] in multiset(ys) && ys[0] in multiset(xs);
    var i :| 0 <= i < |ys| && ys[i] == xs[0];
    var j :| 0 <= j < |xs| && xs[j] == ys[0];
    if i > 0 && j > 0 {
      assert Leq(ys[0], ys[i]) && Leq(xs[0], xs[j]);
      LeqAntisymmetric(xs[0], ys[0]);
    }
  }

  lemma {:induction false} GapsAre(breakdown: map<string, int>, order: seq<string>, k: string)
    requires forall x :: x in order ==> x in breakdown
    ensures k in GapsIn(breakdown, order) <==> k in order && breakdown[k] > 0
    ensures Distinct(order) ==> Distinct(GapsIn(breakdown, order))
  {
    if order != [] {
      var rest := order[1..];
      assert order == [order[0]] + rest;
      GapsAre(breakdown, rest, k);
      GapsAre(breakdown, rest, order[0]);
    }
  }

  lemma {:induction false} DistinctCounts(xs: seq<string>, k: string)
    requires Distinct(xs)
    ensures multiset(xs)[k] == if k in xs then 1 else 0
  {
    if xs != [] {
      DistinctCounts(xs[1..], k);
      assert xs == [xs[0]] + xs[1..];
    }
  }

  /** Whatever order the breakdown map is walked in, the sorted gap list, and so the text, is the same. */
  lemma GapTextIgnoresMapOrder(breakdown: map<string, int>, walk: seq<string>, other: seq<string>)
    requires Walks(breakdown, walk) && Walks(breakdown, other)
    ensures Sort(GapsIn(breakdown, walk)) == Sort(GapsIn(breakdown, other))
  {
    var xs, ys := GapsIn(breakdown, walk), GapsIn(breakdown, other);
    forall k ensures multiset(xs)[k] == multiset(ys)[k] {
      GapsAre(breakdown, walk, k);
      GapsAre(breakdown, other, k);
      DistinctCounts(xs, k);
      DistinctCounts(ys, k);
    }
    SortSorts(xs);
    SortSorts(ys);
    SortedIsUnique(Sort(xs), Sort(ys));
  }
}
