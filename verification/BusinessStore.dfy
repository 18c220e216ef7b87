/** Bulk upsert of businesses together with the outbox rows of their follow-up jobs. */
module BusinessStore {
  import opened Jobs
  import Pipeline

  /** A business as a source adapter delivers it; empty strings mean absent. */
  datatype Listing = Listing(name: string, address: string, phone: string, rating: real, website: string,
                             coordinates: Option<(real, real)>, category: string, metadata: string,
                             source: string, sourceId: string, sourceKey: string)

  /** The columns an upsert may overwrite. */
  datatype Columns = Columns(name: string, address: Option<string>, phone: Option<string>, rating: real,
                             website: Option<string>, latitude: Option<real>, longitude: Option<real>,
                             category: Option<string>, metadata: string)

  datatype Row = Row(columns: Columns, source: string, sourceId: Option<string>, sourceKey: Option<string>,
                     createdAt: nat, updatedAt: nat)

  type Key = (string, string)

  /** `index` is the unique index on (source, source_key) over the rows that have a source key. */
  datatype Table = Table(rows: map<nat, Row>, index: map<Key, nat>, nextId: nat)

  function NullStr(s: string): Option<string> {
    if s == "" then None else Some(s)
  }

  function ColumnsOf(b: Listing): Columns {
    Columns(b.name, NullStr(b.address), NullStr(b.phone), b.rating, NullStr(b.website),
            if b.coordinates.Some? then Some(b.coordinates.value.0) else None,
            if b.coordinates.Some? then Some(b.coordinates.value.1) else None,
            NullStr(b.category), if b.metadata == "" then "{}" else b.metadata)
  }

  function Coalesce<T>(x: Option<T>, y: Option<T>): Option<T> {
    if x.Some? then x else y
  }

  /** What ON CONFLICT DO UPDATE makes of a stored row's columns. */
  function Merge(stored: Columns, excluded: Columns): Columns {
    Columns(excluded.name, Coalesce(excluded.address, stored.address), Coalesce(excluded.phone, stored.phone),
            excluded.rating, Coalesce(excluded.website, stored.website),
            Coalesce(excluded.latitude, stored.latitude), Coalesce(excluded.longitude, stored.longitude),
            Coalesce(excluded.category, stored.category), excluded.metadata)
  }

  /** The key a listing conflicts on, if it has one. */
  function KeyOf(b: Listing): Option<Key> {
    if b.sourceKey == "" then None else Some((b.source, b.sourceKey))
  }

  function RowKey(row: Row): Option<Key> {
    if row.sourceKey.Some? then Some((row.source, row.sourceKey.value)) else None
  }

  ghost predicate Valid(t: Table) {
    && (forall key :: key in t.index ==> t.index[key] in t.rows && RowKey(t.rows[t.index[key]]) == Some(key))
    && (forall id :: id in t.rows ==> Indexed(t, id))
  }

  /** Ids come from below the counter, and a keyed row is the one its key's index entry names. */
  predicate Indexed(t: Table, id: nat)
    requires id in t.rows
  {
    && id < t.nextId
    && var key := RowKey(t.rows[id]);
       key.Some? ==> key.value in t.index && t.index[key.value] == id
  }

  function Conflicts(t: Table, b: Listing): bool {
    KeyOf(b).Some? && KeyOf(b).value in t.index
  }

  function IdFor(t: Table, b: Listing): nat {
    if Conflicts(t, b) then t.index[KeyOf(b).value] else t.nextId
  }

  function Upsert(t: Table, b: Listing, now: nat): Table
    requires Valid(t)
  {
    var id := IdFor(t, b);
    if Conflicts(t, b) then
      var row := t.rows[id];
      t.(rows := t.rows[id := row.(columns := Merge(row.columns, ColumnsOf(b)), updatedAt := now)])
    else
      var row := Row(ColumnsOf(b), b.source, NullStr(b.sourceId), NullStr(b.sourceKey), now, now);
      Table(t.rows[id := row],
            if KeyOf(b).Some? then t.index[KeyOf(b).value := id] else t.index,
            t.nextId + 1)
  }

  lemma UpsertKeepsValid(t: Table, b: Listing, now: nat)
    requires Valid(t)
    ensures Valid(Upsert(t, b, now))
    ensures |Upsert(t, b, now).rows| == |t.rows| + if Conflicts(t, b) then 0 else 1
    ensures IdFor(t, b) in Upsert(t, b, now).rows
  {
    var u := Upsert(t, b, now);
    forall id | id in t.rows ensures id != t.nextId {
      assert Indexed(t, id);
    }
    forall id | id in u.rows ensures Indexed(u, id) {
      if id in t.rows { assert Indexed(t, id); }
    }
  }

  function UpsertAll(t: Table, batch: seq<Listing>, now: nat): (u: Table)
    requires Valid(t)
    ensures Valid(u)
    decreases batch
  {
    if batch == [] then t
    else
      UpsertKeepsValid(t, batch[0], now);
      UpsertAll(Upsert(t, batch[0], now), batch[1..], now)
  }

  /** The follow-up jobs of the batch, in order, each made once its business's id is known. */
  function JobsFor(t: Table, batch: seq<Listing>, now: nat, jobFor: (nat, Listing) -> Option<Job>): seq<Job>
    requires Valid(t)
    decreases batch
  {
    if batch == [] then []
    else
      UpsertKeepsValid(t, batch[0], now);
      var rest := JobsFor(Upsert(t, batch[0], now), batch[1..], now, jobFor);
      var job := jobFor(IdFor(t, batch[0]), batch[0]);
      if job.Some? then [job.value] + rest else rest
  }

  /** One turn of the transaction's loop. */
  lemma NextUpsert(t: Table, batch: seq<Listing>, i: nat, now: nat, jobFor: (nat, Listing) -> Option<Job>)
    requires Valid(t) && i < |batch|
    ensures var u := Upsert(t, batch[i], now);
            && Valid(u) && |u.rows| == |t.rows| + (if Conflicts(t, batch[i]) then 0 else 1)
            && UpsertAll(t, batch[i..], now) == UpsertAll(u, batch[i + 1..], now)
            && var job := jobFor(IdFor(t, batch[i]), batch[i]);
               JobsFor(t, batch[i..], now, jobFor) ==
               (if job.Some? then [job.value] else []) + JobsFor(u, batch[i + 1..], now, jobFor)
  {
    UpsertKeepsValid(t, batch[i], now);
    assert batch[i..][0] == batch[i] && batch[i..][1..] == batch[i + 1..];
  }

  lemma NoUpsertsLeft(t: Table, batch: seq<Listing>, now: nat, jobFor: (nat, Listing) -> Option<Job>)
    requires Valid(t)
    ensures batch[0..] == batch && UpsertAll(t, batch[|batch|..], now) == t
    ensures JobsFor(t, batch[|batch|..], now, jobFor) == []
  {
  }

  /** The statements of the transaction, on its own view of the table, up to the first that fails. */
  method RunBatch(t: Table, batch: seq<Listing>, jobFor: (nat, Listing) -> Option<Job>, now: nat, fails: nat -> bool)
    returns (ok: bool, tx: Table, inserted: nat, jobs: seq<Job>)
    requires Valid(t)
    ensures ok <==> forall i: nat :: i < |batch| ==> !fails(i)
    ensures ok ==> tx == UpsertAll(t, batch, now) && jobs == JobsFor(t, batch, now, jobFor)
    ensures ok ==> |tx.rows| == |t.rows| + inserted
  {
    hide *;
    ok, tx, inserted, jobs := true, t, 0, [];
    NoUpsertsLeft(t, batch, now, jobFor);
    for i := 0 to |batch|
      invariant Valid(tx)
      invariant forall j: nat :: j < i ==> !fails(j)
      invariant UpsertAll(tx, batch[i..], now) == UpsertAll(t, batch, now)
      invariant jobs + JobsFor(tx, batch[i..], now, jobFor) == JobsFor(t, batch, now, jobFor)
      invariant |tx.rows| == |t.rows| + inserted
    {
      if fails(i) {
        return false, tx, inserted, jobs;
      }
      var b := batch[i];
      NextUpsert(tx, batch, i, now, jobFor);
      var id, isNew := IdFor(tx, b), !Conflicts(tx, b);
      tx := Upsert(tx, b, now);
      if isNew {
        inserted := inserted + 1;
      }
      var job := jobFor(id, b);
      if job.Some? {
        jobs := jobs + [job.value];
      }
    }
    NoUpsertsLeft(tx, batch, now, jobFor);
  }

  datatype Outcome = Inserted(count: nat) | Error

  class Store {
    var rows: map<nat, Row>
    var index: map<Key, nat>
    var nextId: nat
    var outbox: seq<Job>

    function Value(): Table
      reads this
    {
      Table(rows, index, nextId)
    }

    /**
     One transaction. `fails(i)` says that the i-th upsert errors, `outboxFails` that writing the jobs
     does; `commit` is what becomes of the commit, which may land although an error is reported. `landed`
     tells whether the transaction took effect.
     */
    method BulkInsertWithJobs(batch: seq<Listing>, jobFor: (nat, Listing) -> Option<Job>, now: nat,
                              fails: nat -> bool, outboxFails: bool, commit: Reply)
      returns (r: Outcome, ghost landed: bool)
      requires Valid(Value())
      modifies this
      ensures Valid(Value())
      ensures landed <==> (forall i: nat :: i < |batch| ==> !fails(i)) && (batch == [] || (!outboxFails && commit != Refused))
      ensures && (!landed ==> r == Error && Value() == old(Value()) && outbox == old(outbox))
              && (landed ==> Value() == UpsertAll(old(Value()), batch, now)
                              && outbox == old(outbox) + JobsFor(old(Value()), batch, now, jobFor)
                              && (r == Error <==> batch != [] && commit == Unacked))
      ensures r.Inserted? ==> r.count == |rows| - |old(rows)|
    {
      if |batch| == 0 {
        return Inserted(0), true;
      }
      var ok, tx, inserted, jobs := RunBatch(Value(), batch, jobFor, now, fails);
      if !ok {
        return Error, false;
      }
      if outboxFails || commit == Refused {
        return Error, false;
      }
      rows, index, nextId := tx.rows, tx.index, tx.nextId;
      outbox := outbox + jobs;
      return if commit == Acked then Inserted(inserted) else Error, true;
    }
  }

  /******* Keys stay unique *******/

  /** The partial unique index: no two rows share a source and a source key. */
  lemma KeysAreUnique(t: Table, batch: seq<Listing>, now: nat, a: nat, b: nat)
    requires Valid(t)
    requires a in UpsertAll(t, batch, now).rows && b in UpsertAll(t, batch, now).rows
    requires RowKey(UpsertAll(t, batch, now).rows[a]).Some?
    requires RowKey(UpsertAll(t, batch, now).rows[a]) == RowKey(UpsertAll(t, batch, now).rows[b])
    ensures a == b
  {
    var u := UpsertAll(t, batch, now);
    assert Indexed(u, a) && Indexed(u, b);
  }

  /******* Running a batch again *******/

  lemma MergeAssociative(x: Columns, y: Columns, z: Columns)
    ensures Merge(Merge(x, y), z) == Merge(x, Merge(y, z))
    ensures Merge(x, x) == x
  {
  }

  /** What a batch has to say, all in all, about one key. */
  function Combined(batch: seq<Listing>, key: Key): Option<Columns> {
    if batch == [] then None
    else
      var rest := Combined(batch[1..], key);
      if KeyOf(batch[0]) != Some(key) then rest
      else if rest.None? then Some(ColumnsOf(batch[0]))
      else Some(Merge(ColumnsOf(batch[0]), rest.value))
  }

  /** A key's row after the batch: untouched, merged with what the batch says, or new. */
  predicate KeyEffect(t: Table, u: Table, batch: seq<Listing>, key: Key)
    requires key in t.index ==> t.index[key] in t.rows
    requires key in u.index ==> u.index[key] in u.rows
  {
    var said := Combined(batch, key);
    if key in t.index then
      && key in u.index && u.index[key] == t.index[key]
      && var before, after := t.rows[t.index[key]], u.rows[t.index[key]];
         && after == before.(columns := after.columns, updatedAt := after.updatedAt)
         && after.columns == (if said.None? then before.columns else Merge(before.columns, said.value))
         && (said.None? ==> after.updatedAt == before.updatedAt)
    else
      && (key in u.index <==> said.Some?)
      && (said.Some? ==> u.rows[u.index[key]].columns == said.value)
  }

  lemma UpsertEffect(t: Table, b: Listing, now: nat, key: Key)
    requires Valid(t)
    ensures Valid(Upsert(t, b, now)) && KeyEffect(t, Upsert(t, b, now), [b], key)
  {
    UpsertKeepsValid(t, b, now);
  }

  lemma {:induction false} BatchEffect(t: Table, batch: seq<Listing>, now: nat, key: Key)
    requires Valid(t)
    ensures KeyEffect(t, UpsertAll(t, batch, now), batch, key)
    decreases batch
  {
    if batch != [] {
      var u := Upsert(t, batch[0], now);
      UpsertEffect(t, batch[0], now, key);
      BatchEffect(u, batch[1..], now, key);
      ComposeEffects(t, u, UpsertAll(u, batch[1..], now), batch, key);
    }
  }

  lemma ComposeEffects(t: Table, u: Table, v: Table, batch: seq<Listing>, key: Key)
    requires Valid(t) && Valid(u) && Valid(v) && batch != []
    requires KeyEffect(t, u, [batch[0]], key) && KeyEffect(u, v, batch[1..], key)
    ensures KeyEffect(t, v, batch, key)
  {
    var first, rest := Combined([batch[0]], key), Combined(batch[1..], key);
    assert Combined([batch[0]][1..], key) == None;
    if key in t.index && first.Some? && rest.Some? {
      MergeAssociative(t.rows[t.index[key]].columns, first.value, rest.value);
    }
  }

  /******* Column by column *******/

  /** The batch has something to say about this key here. */
  predicate Names(b: Listing, key: Key) {
    b.sourceKey != "" && b.source == key.0 && b.sourceKey == key.1
  }

  /** The last listing with this key. */
  function LastNamed(batch: seq<Listing>, key: Key): Option<Listing> {
    if batch == [] then None
    else
      var n := |batch| - 1;
      if Names(batch[n], key) then Some(batch[n]) else LastNamed(batch[..n], key)
  }

  function FirstNamed(batch: seq<Listing>, key: Key): Option<Listing> {
    if batch == [] then None
    else
      var n := |batch| - 1;
      var before := FirstNamed(batch[..n], key);
      if before.None? && Names(batch[n], key) then Some(batch[n]) else before
  }

  /** The last value that some listing with this key gives, or else the old one. */
  function LastValue<T>(batch: seq<Listing>, key: Key, get: Listing -> Option<T>, was: Option<T>): Option<T> {
    if batch == [] then was
    else
      var n := |batch| - 1;
      if Names(batch[n], key) && get(batch[n]).Some? then get(batch[n]) else LastValue(batch[..n], key, get, was)
  }

  function Present(s: string): Option<string> {
    if s == "" then None else Some(s)
  }

  function Latitude(b: Listing): Option<real> {
    match b.coordinates
    case None => None
    case Some((latitude, _)) => Some(latitude)
  }

  function Longitude(b: Listing): Option<real> {
    match b.coordinates
    case None => None
    case Some((_, longitude)) => Some(longitude)
  }

  const NOTHING := Columns("", None, None, 0.0, None, None, None, None, "")

  function OldColumns(t: Table, key: Key): Columns
    requires key in t.index ==> t.index[key] in t.rows
  {
    if key in t.index then t.rows[t.index[key]].columns else NOTHING
  }

  function AddressOf(b: Listing): Option<string> { Present(b.address) }

  function PhoneOf(b: Listing): Option<string> { Present(b.phone) }

  function WebsiteOf(b: Listing): Option<string> { Present(b.website) }

  function CategoryOf(b: Listing): Option<string> { Present(b.category) }

  /** What a keyed row's columns are after a batch that names its key, told from the listings alone. */
  predicate ColumnsFollow(batch: seq<Listing>, key: Key, was: Columns, now: Columns)
    requires LastNamed(batch, key).Some?
  {
    var last := LastNamed(batch, key).value;
    && now.name == last.name && now.rating == last.rating
    && now.metadata == (if last.metadata == "" then "{}" else last.metadata)
    && now.address == LastValue(batch, key, AddressOf, was.address)
    && now.phone == LastValue(batch, key, PhoneOf, was.phone)
    && now.website == LastValue(batch, key, WebsiteOf, was.website)
    && now.category == LastValue(batch, key, CategoryOf, was.category)
    && now.latitude == LastValue(batch, key, Latitude, was.latitude)
    && now.longitude == LastValue(batch, key, Longitude, was.longitude)
  }

  lemma {:induction false} UnnamedGivesNothing<T>(batch: seq<Listing>, key: Key, get: Listing -> Option<T>, was: Option<T>)
    requires LastNamed(batch, key).None?
    ensures LastValue(batch, key, get, was) == was
  {
    if batch != [] {
      UnnamedGivesNothing(batch[..|batch| - 1], key, get, was);
    }
  }

  lemma UnnamedGivesNoColumn(batch: seq<Listing>, key: Key, was: Columns)
    requires LastNamed(batch, key).None?
    ensures LastValue(batch, key, AddressOf, was.address) == was.address
    ensures LastValue(batch, key, PhoneOf, was.phone) == was.phone
    ensures LastValue(batch, key, WebsiteOf, was.website) == was.website
    ensures LastValue(batch, key, CategoryOf, was.category) == was.category
    ensures LastValue(batch, key, Latitude, was.latitude) == was.latitude
    ensures LastValue(batch, key, Longitude, was.longitude) == was.longitude
  {
    UnnamedGivesNothing(batch, key, AddressOf, was.address);
    UnnamedGivesNothing(batch, key, PhoneOf, was.phone);
    UnnamedGivesNothing(batch, key, WebsiteOf, was.website);
    UnnamedGivesNothing(batch, key, CategoryOf, was.category);
    UnnamedGivesNothing(batch, key, Latitude, was.latitude);
    UnnamedGivesNothing(batch, key, Longitude, was.longitude);
  }

  /** Without a listing for the key, the batch leaves its row as it was. */
  ghost predicate RowFollows(t: Table, u: Table, batch: seq<Listing>, now: nat, key: Key)
    requires key in t.index ==> t.index[key] in t.rows
    requires key in u.index ==> u.index[key] in u.rows
  {
    && (key in u.index <==> key in t.index || LastNamed(batch, key).Some?)
    && (key in t.index ==> u.index[key] == t.index[key])
    && (key in u.index ==>
          var row := u.rows[u.index[key]];
          && row.source == key.0 && row.sourceKey == Some(key.1)
          && (LastNamed(batch, key).Some? ==> row.updatedAt == now)
          && (key !in t.index ==>
                && row.createdAt == now && FirstNamed(batch, key).Some?
                && row.sourceId == Present(FirstNamed(batch, key).value.sourceId))
          && (key in t.index ==> row.createdAt == t.rows[t.index[key]].createdAt && row.sourceId == t.rows[t.index[key]].sourceId)
          && (LastNamed(batch, key).None? ==> row == t.rows[t.index[key]])
          && (LastNamed(batch, key).Some? ==> ColumnsFollow(batch, key, OldColumns(t, key), row.columns)))
  }

  lemma {:induction false} UpsertLast(t: Table, batch: seq<Listing>, b: Listing, now: nat)
    requires Valid(t)
    ensures UpsertAll(t, batch + [b], now) == Upsert(UpsertAll(t, batch, now), b, now)
    decreases batch
  {
    if batch == [] {
      assert batch + [b] == [b];
      UpsertKeepsValid(t, b, now);
      assert UpsertAll(Upsert(t, b, now), [], now) == Upsert(t, b, now);
    } else {
      UpsertKeepsValid(t, batch[0], now);
      UpsertLast(Upsert(t, batch[0], now), batch[1..], b, now);
      assert (batch + [b])[1..] == batch[1..] + [b];
    }
  }

  /** An upsert under another key, or none, passes this key's row by. */
  lemma UpsertElsewhere(t: Table, b: Listing, now: nat, key: Key)
    requires Valid(t) && !Names(b, key)
    ensures Valid(Upsert(t, b, now))
    ensures key in Upsert(t, b, now).index <==> key in t.index
    ensures key in t.index ==> Upsert(t, b, now).index[key] == t.index[key]
    ensures key in t.index ==> t.index[key] in t.rows && t.index[key] in Upsert(t, b, now).rows
                               && Upsert(t, b, now).rows[t.index[key]] == t.rows[t.index[key]]
  {
    UpsertKeepsValid(t, b, now);
    if key in t.index { assert Indexed(t, t.index[key]); }
  }

  /** An upsert under this key, told column by column. */
  lemma UpsertHere(t: Table, b: Listing, now: nat, key: Key)
    requires Valid(t) && Names(b, key)
    ensures Valid(Upsert(t, b, now)) && key in Upsert(t, b, now).index
    ensures key in t.index ==> t.index[key] in t.rows && Upsert(t, b, now).index[key] == t.index[key]
    ensures Upsert(t, b, now).index[key] in Upsert(t, b, now).rows
    ensures var was, row := OldColumns(t, key), Upsert(t, b, now).rows[Upsert(t, b, now).index[key]];
            && row.source == key.0 && row.sourceKey == Some(key.1) && row.updatedAt == now
            && (key in t.index ==> row.createdAt == t.rows[t.index[key]].createdAt && row.sourceId == t.rows[t.index[key]].sourceId)
            && (key !in t.index ==> row.createdAt == now && row.sourceId == Present(b.sourceId))
            && row.columns.name == b.name && row.columns.rating == b.rating
            && row.columns.metadata == (if b.metadata == "" then "{}" else b.metadata)
            && row.columns.address == (if b.address != "" then Some(b.address) else was.address)
            && row.columns.phone == (if b.phone != "" then Some(b.phone) else was.phone)
            && row.columns.website == (if b.website != "" then Some(b.website) else was.website)
            && row.columns.category == (if b.category != "" then Some(b.category) else was.category)
            && row.columns.latitude == (if b.coordinates.Some? then Some(b.coordinates.value.0) else was.latitude)
            && row.columns.longitude == (if b.coordinates.Some? then Some(b.coordinates.value.1) else was.longitude)
  {
    UpsertKeepsValid(t, b, now);
  }

  /**
   After a batch, a keyed row's name, rating and metadata are those of the last listing with its key, every
   other column is the last value a listing with that key gives, or the old one if none does; and only the
   rows the batch names are touched.
   */
  lemma {:induction false} LastListingWins(t: Table, batch: seq<Listing>, now: nat, key: Key)
    requires Valid(t)
    ensures RowFollows(t, UpsertAll(t, batch, now), batch, now, key)
  {
    if batch != [] {
      var n := |batch| - 1;
      var u := UpsertAll(t, batch[..n], now);
      LastListingWins(t, batch[..n], now, key);
      UpsertLast(t, batch[..n], batch[n], now);
      assert batch[..n] + [batch[n]] == batch;
      OneMoreListing(t, u, batch, now, key);
    }
  }

  lemma OneMoreElsewhere(t: Table, u: Table, batch: seq<Listing>, now: nat, key: Key)
    requires batch != [] && Valid(t) && Valid(u) && RowFollows(t, u, batch[..|batch| - 1], now, key)
    requires !Names(batch[|batch| - 1], key)
    ensures Valid(Upsert(u, batch[|batch| - 1], now))
    ensures RowFollows(t, Upsert(u, batch[|batch| - 1], now), batch, now, key)
  {
    hide Upsert, Merge, ColumnsOf, Names;
    UpsertElsewhere(u, batch[|batch| - 1], now, key);
  }

  lemma OneMoreHere(t: Table, u: Table, batch: seq<Listing>, now: nat, key: Key)
    requires batch != [] && Valid(t) && Valid(u) && RowFollows(t, u, batch[..|batch| - 1], now, key)
    requires Names(batch[|batch| - 1], key)
    ensures Valid(Upsert(u, batch[|batch| - 1], now))
    ensures RowFollows(t, Upsert(u, batch[|batch| - 1], now), batch, now, key)
  {
    var n := |batch| - 1;
    hide Upsert, Merge, ColumnsOf, Names;
    UpsertHere(u, batch[n], now, key);
    FirstIsNamed(batch[..n], key);
    if LastNamed(batch[..n], key).None? {
      UnnamedGivesNoColumn(batch[..n], key, OldColumns(t, key));
    }
    var row := Upsert(u, batch[n], now).rows[Upsert(u, batch[n], now).index[key]];
    ColumnsFollowHere(batch, key, OldColumns(t, key), OldColumns(u, key), row.columns);
    hide ColumnsFollow;
  }

  lemma {:induction false} FirstIsNamed(batch: seq<Listing>, key: Key)
    ensures FirstNamed(batch, key).Some? <==> LastNamed(batch, key).Some?
  {
    if batch != [] { FirstIsNamed(batch[..|batch| - 1], key); }
  }

  lemma ColumnsFollowHere(batch: seq<Listing>, key: Key, was: Columns, mid: Columns, now: Columns)
    requires batch != [] && Names(batch[|batch| - 1], key)
    requires LastNamed(batch[..|batch| - 1], key).Some? ==> ColumnsFollow(batch[..|batch| - 1], key, was, mid)
    requires LastNamed(batch[..|batch| - 1], key).None? ==> mid == was
    requires var b := batch[|batch| - 1];
             && now.name == b.name && now.rating == b.rating && now.metadata == (if b.metadata == "" then "{}" else b.metadata)
             && now.address == (if b.address != "" then Some(b.address) else mid.address)
             && now.phone == (if b.phone != "" then Some(b.phone) else mid.phone)
             && now.website == (if b.website != "" then Some(b.website) else mid.website)
             && now.category == (if b.category != "" then Some(b.category) else mid.category)
             && now.latitude == (if b.coordinates.Some? then Some(b.coordinates.value.0) else mid.latitude)
             && now.longitude == (if b.coordinates.Some? then Some(b.coordinates.value.1) else mid.longitude)
    ensures ColumnsFollow(batch, key, was, now)
  {
    hide Names;
    if LastNamed(batch[..|batch| - 1], key).None? {
      UnnamedGivesNoColumn(batch[..|batch| - 1], key, was);
    }
  }

  lemma OneMoreListing(t: Table, u: Table, batch: seq<Listing>, now: nat, key: Key)
    requires batch != [] && Valid(t) && Valid(u) && RowFollows(t, u, batch[..|batch| - 1], now, key)
    ensures Valid(Upsert(u, batch[|batch| - 1], now))
    ensures RowFollows(t, Upsert(u, batch[|batch| - 1], now), batch, now, key)
  {
    hide Upsert, RowFollows;
    if Names(batch[|batch| - 1], key) {
      OneMoreHere(t, u, batch, now, key);
    } else {
      OneMoreElsewhere(t, u, batch, now, key);
    }
  }

  /**
   A listing without a source key gets a row of its own, with exactly what it says, however often it comes.
   */
  lemma {:induction false} UnkeyedListingIsAdded(t: Table, batch: seq<Listing>, now: nat, i: nat)
    requires Valid(t) && i < |batch| && batch[i].sourceKey == ""
    ensures var jobs := JobsFor(t, batch, now, CollectJob);
            && |jobs| == |batch|
            && var id, u, b := jobs[i].business, UpsertAll(t, batch, now), batch[i];
               id !in t.rows && id in u.rows
               && u.rows[id] == Row(Columns(b.name, Present(b.address), Present(b.phone), b.rating, Present(b.website),
                                            Latitude(b), Longitude(b), Present(b.category),
                                            if b.metadata == "" then "{}" else b.metadata),
                                    b.source, Present(b.sourceId), None, now, now)
    decreases batch
  {
    EveryListingIsFollowedUp(t, batch, now);
    UpsertKeepsValid(t, batch[0], now);
    var u := Upsert(t, batch[0], now);
    var jobs := JobsFor(t, batch, now, CollectJob);
    assert jobs == [CollectJob(IdFor(t, batch[0]), batch[0]).value] + JobsFor(u, batch[1..], now, CollectJob);
    if i == 0 {
      forall id | id in t.rows ensures id != t.nextId {
        assert Indexed(t, id);
      }
      OtherRowsUntouched(u, batch[1..], now, t.nextId);
    } else {
      UnkeyedListingIsAdded(u, batch[1..], now, i - 1);
    }
  }

  /**
   Running the same batch a second time inserts no keyed row, and leaves every keyed row as it was but
   for updated_at, duplicate keys within the batch included.
   */
  lemma RerunIsIdempotent(t: Table, batch: seq<Listing>, now: nat, later: nat, key: Key)
    requires Valid(t)
    ensures var once := UpsertAll(t, batch, now);
            var twice := UpsertAll(once, batch, later);
            && (key in twice.index <==> key in once.index)
            && (key in once.index ==>
                  && twice.index[key] == once.index[key]
                  && twice.rows[twice.index[key]] ==
                       once.rows[once.index[key]].(updatedAt := twice.rows[twice.index[key]].updatedAt))
  {
    var once := UpsertAll(t, batch, now);
    BatchEffect(t, batch, now, key);
    BatchEffect(once, batch, later, key);
    var said := Combined(batch, key);
    if said.Some? && key in t.index {
      MergeAssociative(t.rows[t.index[key]].columns, said.value, said.value);
    } else if said.Some? {
      MergeAssociative(said.value, said.value, said.value);
    }
  }

  /** Rows no key of the batch names are left alone, unkeyed ones among them. */
  lemma {:induction false} OtherRowsUntouched(t: Table, batch: seq<Listing>, now: nat, id: nat)
    requires Valid(t) && id in t.rows
    requires forall b :: b in batch && KeyOf(b).Some? ==> KeyOf(b) != RowKey(t.rows[id])
    ensures id in UpsertAll(t, batch, now).rows && UpsertAll(t, batch, now).rows[id] == t.rows[id]
    decreases batch
  {
    if batch != [] {
      UpsertKeepsValid(t, batch[0], now);
      assert Indexed(t, id) && batch[0] in batch;
      assert forall b :: b in batch[1..] ==> b in batch;
      OtherRowsUntouched(Upsert(t, batch[0], now), batch[1..], now, id);
    }
  }

  /******* What collectBusiness hands over *******/

  /** Crawl the listing's website if it has one, score it at once otherwise. */
  function CollectJob(id: nat, b: Listing): Option<Job> {
    Some(Job(NO_ID, if b.website != "" then WebsiteCrawl else RuleScoring, id, b.website, 0, 0, ""))
  }

  lemma {:induction false} RowsStay(t: Table, batch: seq<Listing>, now: nat, id: nat)
    requires Valid(t) && id in t.rows
    ensures id in UpsertAll(t, batch, now).rows
    decreases batch
  {
    if batch != [] {
      UpsertKeepsValid(t, batch[0], now);
      RowsStay(Upsert(t, batch[0], now), batch[1..], now, id);
    }
  }

  /** Every listing puts one follow-up job in the outbox, for a business the same transaction stores. */
  lemma {:induction false} EveryListingIsFollowedUp(t: Table, batch: seq<Listing>, now: nat)
    requires Valid(t)
    ensures var jobs := JobsFor(t, batch, now, CollectJob);
            && |jobs| == |batch|
            && forall i :: 0 <= i < |batch| ==>
                 && Pipeline.FollowUp(jobs[i])
                 && jobs[i] == Job(0, if batch[i].website != "" then WebsiteCrawl else RuleScoring, jobs[i].business,
                                   batch[i].website, 0, 0, "")
                 && jobs[i].business in UpsertAll(t, batch, now).rows
                 && (jobs[i].kind == WebsiteCrawl <==> batch[i].website != "")
                 && var key := KeyOf(batch[i]);
                    key.Some? ==> key.value in UpsertAll(t, batch, now).index
                                  && UpsertAll(t, batch, now).index[key.value] == jobs[i].business
    decreases batch
  {
    hide Merge, ColumnsOf, Combined, NullStr;
    if batch != [] {
      UpsertKeepsValid(t, batch[0], now);
      var u := Upsert(t, batch[0], now);
      EveryListingIsFollowedUp(u, batch[1..], now);
      RowsStay(u, batch[1..], now, IdFor(t, batch[0]));
      if KeyOf(batch[0]).Some? {
        BatchEffect(u, batch[1..], now, KeyOf(batch[0]).value);
      }
      var jobs := JobsFor(t, batch, now, CollectJob);
      assert jobs == [CollectJob(IdFor(t, batch[0]), batch[0]).value] + JobsFor(u, batch[1..], now, CollectJob);
    }
  }
}
