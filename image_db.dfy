/** The IndexedDB image store (app/lib/db.ts): the `images` object store keyed by
    `id`, read through its `byCreatedAt` index. */
module ImageDb {
  import opened Types
  import opened Strings
  import opened Seqs

  /** `Omit<StoredImageRecord, 'id'>`: what a caller hands to `saveImage`. */
  datatype ImageFields = ImageFields(
    blob: Blob,
    prompt: string,
    modelId: string,
    modelName: string,
    aspectRatio: AspectRatio,
    resolution: Option<Resolution>,
    width: int,
    height: int,
    createdAt: int,
    referenceImageIds: seq<string>,
    metadata: Metadata)

  /** A `StoredImageRecord`: the fields plus the store-assigned id. */
  datatype StoredImageRecord = StoredImageRecord(id: string, fields: ImageFields)

  /** The error `add` raises for a key already in the store. */
  const ConstraintError: Thrown := SimpleError("ConstraintError")

  /** Order of the `byCreatedAt` index: by `createdAt`, equal keys by primary key. */
  predicate IndexLess(a: StoredImageRecord, b: StoredImageRecord)
  {
    a.fields.createdAt < b.fields.createdAt ||
    (a.fields.createdAt == b.fields.createdAt && StrLess(a.id, b.id))
  }

  /** The records as the index lists them, strictly ascending. */
  predicate IndexOrdered(s: seq<StoredImageRecord>)
  {
    forall i, j :: 0 <= i < j < |s| ==> IndexLess(s[i], s[j])
  }

  lemma IndexLessTransitive(a: StoredImageRecord, b: StoredImageRecord, c: StoredImageRecord)
    requires IndexLess(a, b) && IndexLess(b, c)
    ensures IndexLess(a, c)
  {
    if a.fields.createdAt == b.fields.createdAt == c.fields.createdAt {
      StrLessTransitive(a.id, b.id, c.id);
    }
  }

  /** The primary key: no two records share an id. */
  predicate DistinctIds(s: seq<StoredImageRecord>)
  {
    forall i, j :: 0 <= i < j < |s| ==> s[i].id != s[j].id
  }

  /** The test `record => record.id === id`. */
  function HasId(id: string): StoredImageRecord -> bool
  {
    (r: StoredImageRecord) => r.id == id
  }

  /** The test `record => record.id !== id`. */
  function OtherId(id: string): StoredImageRecord -> bool
  {
    (r: StoredImageRecord) => r.id != id
  }

  predicate Stored(s: seq<StoredImageRecord>, id: string)
  {
    exists i :: 0 <= i < |s| && s[i].id == id
  }

  /** `store.get(id)` */
  function Lookup(s: seq<StoredImageRecord>, id: string): (r: Option<StoredImageRecord>)
    ensures r.None? <==> !Stored(s, id)
    ensures r.Some? ==> r.value in s && r.value.id == id
  {
    var k := FindFirst(s, HasId(id));
    if k.Some? then Some(s[k.value]) else None
  }

  /** Where `add` places a new record in the index. */
  function Insert(s: seq<StoredImageRecord>, x: StoredImageRecord): (r: seq<StoredImageRecord>)
    ensures |r| == |s| + 1
    ensures multiset(r) == multiset(s) + multiset{x}
  {
    if s == [] || IndexLess(x, s[0]) then [x] + s
    else
      assert s == [s[0]] + s[1..];
      [s[0]] + Insert(s[1..], x)
  }

  lemma {:induction false} InsertOrdered(s: seq<StoredImageRecord>, x: StoredImageRecord)
    requires IndexOrdered(s) && !Stored(s, x.id)
    ensures IndexOrdered(Insert(s, x))
  {
    if s == [] || IndexLess(x, s[0]) {
      forall k | 0 <= k < |s| ensures IndexLess(x, s[k]) {
        if k > 0 { IndexLessTransitive(x, s[0], s[k]); }
      }
      ConsOrdered(x, s);
    } else {
      assert IndexOrdered(s[1..]);
      InsertOrdered(s[1..], x);
      var rest := Insert(s[1..], x);
      assert IndexLess(s[0], x) by {
        assert s[0].id != x.id;
        if s[0].fields.createdAt == x.fields.createdAt { StrLessTotal(s[0].id, x.id); }
      }
      forall k | 0 <= k < |rest| ensures IndexLess(s[0], rest[k]) {
        assert rest[k] in multiset(rest);
        if rest[k] != x {
          assert rest[k] in multiset(s[1..]);
          var m :| 0 <= m < |s[1..]| && s[1..][m] == rest[k];
          assert s[m + 1] == rest[k];
        }
      }
      ConsOrdered(s[0], rest);
    }
  }

  lemma {:induction false} InsertDistinct(s: seq<StoredImageRecord>, x: StoredImageRecord)
    requires DistinctIds(s) && !Stored(s, x.id)
    ensures DistinctIds(Insert(s, x))
  {
    if !(s == [] || IndexLess(x, s[0])) {
      assert DistinctIds(s[1..]);
      InsertDistinct(s[1..], x);
      var rest := Insert(s[1..], x);
      forall k | 0 <= k < |rest| ensures rest[k].id != s[0].id {
        assert rest[k] in multiset(rest);
        if rest[k] != x {
          assert rest[k] in multiset(s[1..]);
          var m :| 0 <= m < |s[1..]| && s[1..][m] == rest[k];
          assert s[m + 1] == rest[k];
        }
      }
      ConsDistinct(s[0], rest);
    }
  }

  /** Removing records keeps the ids distinct. */
  lemma {:induction false} FilterDistinct(s: seq<StoredImageRecord>, p: StoredImageRecord -> bool)
    requires DistinctIds(s)
    ensures DistinctIds(Filter(s, p))
  {
    if s != [] {
      assert DistinctIds(s[1..]);
      FilterDistinct(s[1..], p);
      if p(s[0]) {
        var rest := Filter(s[1..], p);
        forall k | 0 <= k < |rest| ensures rest[k].id != s[0].id {
          var m :| 0 <= m < |s[1..]| && s[1..][m] == rest[k];
          assert s[m + 1] == rest[k];
        }
        ConsDistinct(s[0], rest);
      }
    }
  }

  /** A record whose id no record of a list carries can go in front of it. */
  lemma ConsDistinct(x: StoredImageRecord, rest: seq<StoredImageRecord>)
    requires DistinctIds(rest) && forall k :: 0 <= k < |rest| ==> rest[k].id != x.id
    ensures DistinctIds([x] + rest)
  {
    var r := [x] + rest;
    forall i, j | 0 <= i < j < |r| ensures r[i].id != r[j].id {
      assert r[j] == rest[j - 1];
      if i > 0 { assert r[i] == rest[i - 1]; }
    }
  }

  /** Removing records keeps the rest in index order. */
  lemma {:induction false} FilterOrdered(s: seq<StoredImageRecord>, p: StoredImageRecord -> bool)
    requires IndexOrdered(s)
    ensures IndexOrdered(Filter(s, p))
  {
    if s != [] {
      assert IndexOrdered(s[1..]);
      FilterOrdered(s[1..], p);
      if p(s[0]) {
        var rest := Filter(s[1..], p);
        forall k | 0 <= k < |rest| ensures IndexLess(s[0], rest[k]) {
          var m :| 0 <= m < |s[1..]| && s[1..][m] == rest[k];
          assert s[m + 1] == rest[k];
        }
        ConsOrdered(s[0], rest);
      }
    }
  }

  /** A record below every record of an ordered list can go in front of it. */
  lemma ConsOrdered(x: StoredImageRecord, rest: seq<StoredImageRecord>)
    requires IndexOrdered(rest) && forall k :: 0 <= k < |rest| ==> IndexLess(x, rest[k])
    ensures IndexOrdered([x] + rest)
  {
    var r := [x] + rest;
    forall i, j | 0 <= i < j < |r| ensures IndexLess(r[i], r[j]) {
      assert r[j] == rest[j - 1];
      if i > 0 { assert r[i] == rest[i - 1]; }
    }
  }

  /** The index read with `direction: 'prev'`, and `getAll().reverse()`: newest first. */
  function NewestFirst(s: seq<StoredImageRecord>): (r: seq<StoredImageRecord>)
    ensures |r| == |s| && multiset(r) == multiset(s)
    ensures IndexOrdered(s) ==> forall i, j :: 0 <= i < j < |r| ==> IndexLess(r[j], r[i])
    ensures IndexOrdered(s) ==> forall i, j :: 0 <= i < j < |r| ==> r[i].fields.createdAt >= r[j].fields.createdAt
  {
    ReverseMultiset(s);
    Reverse(s)
  }

  /** A JavaScript count as a bound: negative numbers act as zero. */
  function Clamp(x: int, n: nat): (r: nat)
    ensures r <= n && (x <= 0 ==> r == 0) && (0 <= x <= n ==> r == x) && (x >= n ==> r == n)
  {
    if x <= 0 then 0 else if x >= n then n else x
  }

  /** The records a cursor that skips `offset` and then collects up to `limit`
      yields: the slice `[offset, offset + limit)` of `s`, cut at its end. */
  function Page<T>(s: seq<T>, limit: int, offset: int): (r: seq<T>)
    ensures |r| == Clamp(limit, |s| - Clamp(offset, |s|))
    ensures forall i :: 0 <= i < |r| ==> r[i] == s[Clamp(offset, |s|) + i]
  {
    var start := Clamp(offset, |s|);
    s[start..start + Clamp(limit, |s| - start)]
  }

  /** Two consecutive pages make the page of their combined size. */
  lemma PagesConcatenate<T>(s: seq<T>, a: nat, b: nat, offset: nat)
    ensures Page(s, a, offset) + Page(s, b, offset + a) == Page(s, a + b, offset)
  {
    var p, q, r := Page(s, a, offset), Page(s, b, offset + a), Page(s, a + b, offset);
    assert |p + q| == |r|;
    forall i | 0 <= i < |r| ensures (p + q)[i] == r[i] {
      if i >= |p| { assert (p + q)[i] == q[i - |p|]; }
    }
  }

  /** One page large enough from the start is everything. */
  lemma PageAll<T>(s: seq<T>, limit: int)
    requires limit >= |s|
    ensures Page(s, limit, 0) == s
  {
  }

  /** How `saveImage` settles on the stored records: a transaction fault rejects, `add`
      under an id already stored fails with a ConstraintError, otherwise the record
      is the fields under the fresh id. */
  function SaveReply(records: seq<StoredImageRecord>, image: ImageFields, freshId: string, fault: Option<Thrown>)
    : (r: Result<StoredImageRecord>)
    ensures r.Ok? <==> fault.None? && !Stored(records, freshId)
    ensures r.Ok? ==> r.value == StoredImageRecord(freshId, image)
    ensures fault.Some? ==> r == Err(fault.value)
  {
    if fault.Some? then Err(fault.value)
    else if Stored(records, freshId) then Err(ConstraintError)
    else Ok(StoredImageRecord(freshId, image))
  }

  /** The database: the records in index order and the cached connection. */
  class Database {
    var records: seq<StoredImageRecord>
    var instance: Option<nat>

    ghost predicate Valid()
      reads this
    {
      IndexOrdered(records) && DistinctIds(records)
    }

    constructor ()
      ensures Valid() && records == [] && instance == None
    {
      records := [];
      instance := None;
    }

    /** `initDB()`: the cached connection if there is one, otherwise the outcome of
        opening, which is cached when it succeeds. */
    method InitDB(opening: Result<nat>) returns (r: Result<nat>)
      modifies this`instance
      ensures old(instance).Some? ==> r == Ok(old(instance).value) && instance == old(instance)
      ensures old(instance).None? ==>
        r == opening && instance == (if opening.Ok? then Some(opening.value) else None)
    {
      if instance.Some? {
        return Ok(instance.value);
      }
      r := opening;
      if opening.Ok? {
        instance := Some(opening.value);
      }
    }

    /** `saveImage(image)` with `freshId` the generated id and `fault` a failure of
        the transaction itself. */
    method SaveImage(image: ImageFields, freshId: string, fault: Option<Thrown>) returns (r: Result<StoredImageRecord>)
      requires Valid()
      modifies this`records
      ensures Valid()
      ensures r == SaveReply(old(records), image, freshId, fault)
      ensures fault.Some? ==> r == Err(fault.value) && records == old(records)
      ensures fault.None? && Stored(old(records), freshId) ==> r == Err(ConstraintError) && records == old(records)
      ensures fault.None? && !Stored(old(records), freshId) ==>
        r == Ok(StoredImageRecord(freshId, image)) && records == Insert(old(records), r.value)
    {
      if fault.Some? {
        return Err(fault.value);
      }
      if Lookup(records, freshId).Some? {
        return Err(ConstraintError);
      }
      var record := StoredImageRecord(freshId, image);
      InsertOrdered(records, record);
      InsertDistinct(records, record);
      records := Insert(records, record);
      r := Ok(record);
    }

    /** `getImages(limit = 50, offset = 0)`: walks the index newest first, skipping
        `offset` records and collecting at most `limit`. */
    method GetImages(limit: int := 50, offset: int := 0, fault: Option<Thrown> := None)
      returns (r: Result<seq<StoredImageRecord>>)
      ensures fault.Some? ==> r == Err(fault.value)
      ensures fault.None? ==> r == Ok(Page(NewestFirst(records), limit, offset))
    {
      if fault.Some? {
        return Err(fault.value);
      }
      var order := NewestFirst(records);
      var images: seq<StoredImageRecord> := [];
      var skipped := 0;
      var pos := 0;
      while pos < |order|
        invariant 0 <= skipped <= pos <= |order|
        invariant skipped == Clamp(offset, pos)
        invariant skipped < pos ==> skipped == Clamp(offset, |order|)
        invariant images == order[skipped..pos]
        invariant |images| <= Clamp(limit, |order| - skipped)
        decreases |order| - pos
      {
        if skipped < offset {
          skipped := skipped + 1;
        } else if |images| < limit {
          images := images + [order[pos]];
        } else {
          break;
        }
        pos := pos + 1;
      }
      assert skipped == Clamp(offset, |order|);
      r := Ok(images);
    }

    /** `getAllImages()`: the whole index, reversed. */
    method GetAllImages(fault: Option<Thrown>) returns (r: Result<seq<StoredImageRecord>>)
      ensures fault.Some? ==> r == Err(fault.value)
      ensures fault.None? ==> r == Ok(NewestFirst(records))
    {
      if fault.Some? {
        return Err(fault.value);
      }
      r := Ok(NewestFirst(records));
    }

    /** `getImageById(id)`: the record, or `null`. */
    method GetImageById(id: string, fault: Option<Thrown>) returns (r: Result<Option<StoredImageRecord>>)
      ensures fault.Some? ==> r == Err(fault.value)
      ensures fault.None? ==> r.Ok? && (r.value.None? <==> !Stored(records, id))
      ensures fault.None? && r.value.Some? ==> r.value.value in records && r.value.value.id == id
    {
      if fault.Some? {
        return Err(fault.value);
      }
      r := Ok(Lookup(records, id));
    }

    /** `deleteImage(id)`: removes the record if there is one; an absent id is no error. */
    method DeleteImage(id: string, fault: Option<Thrown>) returns (r: Result<()>)
      requires Valid()
      modifies this`records
      ensures Valid()
      ensures fault.Some? ==> r == Err(fault.value) && records == old(records)
      ensures fault.None? ==> r == Ok(()) && records == Filter(old(records), OtherId(id))
    {
      if fault.Some? {
        return Err(fault.value);
      }
      FilterOrdered(records, OtherId(id));
      FilterDistinct(records, OtherId(id));
      records := Filter(records, OtherId(id));
      r := Ok(());
    }

    /** `getImageCount()` */
    method GetImageCount(fault: Option<Thrown>) returns (r: Result<nat>)
      ensures fault.Some? ==> r == Err(fault.value)
      ensures fault.None? ==> r == Ok(|records|)
    {
      if fault.Some? {
        return Err(fault.value);
      }
      r := Ok(|records|);
    }
  }

  /** After a delete, the id is gone, every other record stays, and the count drops
      by one exactly when the id was stored. */
  lemma DeleteRemoves(s: seq<StoredImageRecord>, id: string)
    requires DistinctIds(s)
    ensures Lookup(Filter(s, OtherId(id)), id).None?
    ensures forall i :: 0 <= i < |s| && s[i].id != id ==> s[i] in Filter(s, OtherId(id))
    ensures |Filter(s, OtherId(id))| == if Stored(s, id) then |s| - 1 else |s|
  {
    var r := Filter(s, OtherId(id));
    FilterCountOne(s, id);
  }

  lemma {:induction false} FilterCountOne(s: seq<StoredImageRecord>, id: string)
    requires DistinctIds(s)
    ensures |Filter(s, OtherId(id))| == if Stored(s, id) then |s| - 1 else |s|
  {
    if s != [] {
      assert DistinctIds(s[1..]) by {
        forall i, j | 0 <= i < j < |s[1..]| ensures s[1..][i].id != s[1..][j].id {
          assert s[1..][i] == s[i + 1] && s[1..][j] == s[j + 1];
        }
      }
      FilterCountOne(s[1..], id);
      assert Stored(s, id) <==> s[0].id == id || Stored(s[1..], id) by {
        if Stored(s, id) {
          var k :| 0 <= k < |s| && s[k].id == id;
          if k > 0 { assert s[1..][k - 1].id == id; }
        }
        if Stored(s[1..], id) {
          var k :| 0 <= k < |s[1..]| && s[1..][k].id == id;
          assert s[k + 1].id == id;
        }
      }
    }
  }

  /** A saved record can be read back by its id, and the count grows by one. */
  lemma SaveThenGet(s: seq<StoredImageRecord>, x: StoredImageRecord)
    requires DistinctIds(s) && !Stored(s, x.id)
    ensures Lookup(Insert(s, x), x.id) == Some(x)
    ensures |Insert(s, x)| == |s| + 1
  {
    var r := Insert(s, x);
    InsertDistinct(s, x);
    assert x in multiset(r);
    var found := Lookup(r, x.id).value;
    var i :| 0 <= i < |r| && r[i] == x;
    var j :| 0 <= j < |r| && r[j] == found;
    assert i == j;
  }
}
