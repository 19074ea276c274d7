/** The video metadata record kept in the document database, the two records
    the handlers write (backend/server.js, upload-request and confirm-upload),
    and the order in which GET /videos returns records. */
module Metadata {
  import opened Wrappers
  import opened Text

  /** The lifecycle of a record: a write link was issued, then the client
      reported a completed transfer. Stored as "sas-generated" and "uploaded". */
  datatype Status = SasGenerated | Uploaded

  /** Position of a status in the forward-only lifecycle. */
  function Rank(s: Status): nat {
    match s
    case SasGenerated => 0
    case Uploaded => 1
  }

  /** One document of the metadata container. `title` is "" when the document
      has no title; `extra` holds every other property of the document, which
      confirm-upload carries over unchanged. Times are milliseconds. */
  datatype VideoRecord = VideoRecord(
    id: string,
    title: string,
    uploadTime: nat,
    status: Status,
    lastUpdated: Option<nat>,
    extra: map<string, string>)

  /** The title a confirmed record falls back to. */
  const UntitledTitle: string := "Untitled video"

  /** The record upload-request upserts: exactly id, title, uploadTime and status. */
  function Provisional(fileName: string, title: string, now: nat): (r: VideoRecord)
    ensures r.id == fileName && r.title == title && r.uploadTime == now
    ensures r.status == SasGenerated && r.lastUpdated.None? && r.extra == map[]
  {
    VideoRecord(fileName, title, now, SasGenerated, None, map[])
  }

  /** The record confirm-upload upserts: the existing document (if any) with
      id, title, uploadTime, status and lastUpdated overwritten. */
  function Confirmed(existing: Option<VideoRecord>, key: string, title: Option<string>, now: nat): (r: VideoRecord)
    ensures r.id == key && r.status == Uploaded && r.lastUpdated == Some(now)
    ensures r.title != ""
  {
    VideoRecord(
      key,
      if Truthy(title) then title.value
      else if existing.Some? && existing.value.title != "" then existing.value.title
      else UntitledTitle,
      if existing.Some? then existing.value.uploadTime else now,
      Uploaded,
      Some(now),
      if existing.Some? then existing.value.extra else map[])
  }

  /** What the merge keeps and what it replaces: a supplied title wins, else
      the existing title, else "Untitled video"; the first upload time and all
      other properties of an existing record survive; with no existing record
      the upload time is the current time. */
  lemma ConfirmedMerge(existing: Option<VideoRecord>, key: string, title: Option<string>, now: nat)
    ensures var r := Confirmed(existing, key, title, now);
      && (Truthy(title) ==> r.title == title.value)
      && (!Truthy(title) && existing.Some? && existing.value.title != "" ==> r.title == existing.value.title)
      && (!Truthy(title) && (existing.None? || existing.value.title == "") ==> r.title == UntitledTitle)
      && (existing.Some? ==> r.uploadTime == existing.value.uploadTime && r.extra == existing.value.extra)
      && (existing.None? ==> r.uploadTime == now && r.extra == map[])
  {
  }

  /** Confirming is idempotent: merging onto a confirmed record with the same
      inputs gives that record back. */
  lemma ConfirmedIdempotent(existing: Option<VideoRecord>, key: string, title: Option<string>, now: nat)
    ensures var r := Confirmed(existing, key, title, now);
      Confirmed(Some(r), key, title, now) == r
  {
  }

  /** A confirmed record never ranks below the record it merged onto. */
  lemma ConfirmedNeverRegresses(existing: Option<VideoRecord>, key: string, title: Option<string>, now: nat)
    ensures existing.Some? ==> Rank(existing.value.status) <= Rank(Confirmed(existing, key, title, now).status)
  {
  }

  /** Every record sits at the key equal to its own id: at most one record per id. */
  ghost predicate WellKeyed(m: map<string, VideoRecord>) {
    forall k :: k in m ==> m[k].id == k
  }

  /** The ids of a sequence of records. */
  function Ids(items: seq<VideoRecord>): set<string> {
    set i | 0 <= i < |items| :: items[i].id
  }

  /** Appending a record adds exactly its id. */
  lemma IdsAppend(items: seq<VideoRecord>, r: VideoRecord)
    ensures Ids(items + [r]) == Ids(items) + {r.id}
  {
    var extended := items + [r];
    forall k | k in Ids(extended) ensures k in Ids(items) + {r.id} {
      var i :| 0 <= i < |extended| && extended[i].id == k;
      if i < |items| { assert items[i].id == k; }
    }
    forall k | k in Ids(items) + {r.id} ensures k in Ids(extended) {
      if k in Ids(items) {
        var i :| 0 <= i < |items| && items[i].id == k;
        assert extended[i].id == k;
      } else {
        assert extended[|items|].id == k;
      }
    }
  }

  predicate DistinctIds(items: seq<VideoRecord>) {
    forall i, j :: 0 <= i < j < |items| ==> items[i].id != items[j].id
  }

  /** Ordered by upload time, most recent first. */
  predicate NewestFirst(items: seq<VideoRecord>) {
    forall i, j :: 0 <= i < j < |items| ==> items[j].uploadTime <= items[i].uploadTime
  }

  /** `items` is an answer of "SELECT * FROM c ORDER BY c.uploadTime DESC" over
      the container `m`: every stored record exactly once, newest first, ties in
      an order the store chooses. */
  ghost predicate IsListing(m: map<string, VideoRecord>, items: seq<VideoRecord>) {
    && (forall i :: 0 <= i < |items| ==> items[i].id in m && m[items[i].id] == items[i])
    && Ids(items) == m.Keys
    && DistinctIds(items)
    && NewestFirst(items)
  }

  /** Key `k` holds a record with the greatest upload time in `m`. */
  predicate IsNewest(m: map<string, VideoRecord>, k: string) {
    k in m && forall k2 :: k2 in m ==> m[k2].uploadTime <= m[k].uploadTime
  }

  /** Every non-empty container has a newest record. */
  lemma {:induction false} NewestExists(m: map<string, VideoRecord>)
    requires m != map[]
    ensures exists k :: IsNewest(m, k)
    decreases |m|
  {
    var k0 :| k0 in m;
    var rest := m - {k0};
    if rest == map[] {
      forall k2 | k2 in m ensures m[k2].uploadTime <= m[k0].uploadTime {
        assert k2 !in rest;
      }
      assert IsNewest(m, k0);
    } else {
      assert |rest| < |m| by {
        assert rest.Keys == m.Keys - {k0};
      }
      NewestExists(rest);
      var k1 :| IsNewest(rest, k1);
      if m[k0].uploadTime <= m[k1].uploadTime {
        forall k2 | k2 in m ensures m[k2].uploadTime <= m[k1].uploadTime {
          if k2 != k0 { assert k2 in rest; }
        }
        assert IsNewest(m, k1);
      } else {
        forall k2 | k2 in m ensures m[k2].uploadTime <= m[k0].uploadTime {
          if k2 != k0 { assert k2 in rest; }
        }
        assert IsNewest(m, k0);
      }
    }
  }

  /** A listing under construction: `items` lists, newest first, the records
      of `m` outside `rest`, and none of them is older than a record in `rest`. */
  ghost predicate PartialListing(m: map<string, VideoRecord>, rest: map<string, VideoRecord>, items: seq<VideoRecord>) {
    && rest.Keys <= m.Keys
    && (forall k :: k in rest ==> rest[k] == m[k])
    && (forall i :: 0 <= i < |items| ==> items[i].id in m && m[items[i].id] == items[i])
    && Ids(items) == m.Keys - rest.Keys
    && DistinctIds(items)
    && NewestFirst(items)
    && (forall i, k :: 0 <= i < |items| && k in rest ==> rest[k].uploadTime <= items[i].uploadTime)
  }

  /** Moving a newest remaining record to the end of a partial listing keeps it one. */
  lemma ListingStep(m: map<string, VideoRecord>, rest: map<string, VideoRecord>, items: seq<VideoRecord>, k: string)
    requires WellKeyed(m)
    requires PartialListing(m, rest, items) && k in rest && IsNewest(rest, k)
    ensures PartialListing(m, rest - {k}, items + [rest[k]])
    ensures |rest - {k}| < |rest|
  {
    var r := rest[k];
    var rest', items' := rest - {k}, items + [r];
    assert r.id == k;
    assert rest'.Keys == rest.Keys - {k};
    assert Ids(items') == m.Keys - rest'.Keys by {
      IdsAppend(items, r);
    }
    assert forall i :: 0 <= i < |items'| ==> items'[i].id in m && m[items'[i].id] == items'[i] by {
      forall i | 0 <= i < |items'| ensures items'[i].id in m && m[items'[i].id] == items'[i] {
        if i < |items| { assert items'[i] == items[i]; }
      }
    }
    assert DistinctIds(items') by {
      forall i, j | 0 <= i < j < |items'| ensures items'[i].id != items'[j].id {
        if j < |items| {
          assert items'[i] == items[i] && items'[j] == items[j];
        } else {
          assert items'[i].id in Ids(items) by { assert items'[i] == items[i]; }
        }
      }
    }
    assert NewestFirst(items') by {
      forall i, j | 0 <= i < j < |items'| ensures items'[j].uploadTime <= items'[i].uploadTime {
        assert items'[i] == items[i];
        if j < |items| { assert items'[j] == items[j]; }
      }
    }
    assert forall i, k2 :: 0 <= i < |items'| && k2 in rest' ==> rest'[k2].uploadTime <= items'[i].uploadTime by {
      forall i, k2 | 0 <= i < |items'| && k2 in rest' ensures rest'[k2].uploadTime <= items'[i].uploadTime {
        assert rest'[k2] == rest[k2];
        if i < |items| { assert items'[i] == items[i]; }
      }
    }
  }

  /** With nothing left, a partial listing is a listing. */
  lemma ListingDone(m: map<string, VideoRecord>, items: seq<VideoRecord>)
    requires PartialListing(m, map[], items)
    ensures IsListing(m, items)
  {
  }

  /** No two records of `m` share an upload time. */
  ghost predicate DistinctTimes(m: map<string, VideoRecord>) {
    forall k1, k2 :: k1 in m && k2 in m && k1 != k2 ==> m[k1].uploadTime != m[k2].uploadTime
  }

  /** Removing the first record of a listing leaves a listing of the rest. */
  lemma ListingTail(m: map<string, VideoRecord>, items: seq<VideoRecord>)
    requires IsListing(m, items) && items != []
    ensures IsListing(m - {items[0].id}, items[1..])
  {
    var m' := m - {items[0].id};
    var t := items[1..];
    forall k | k in Ids(t) ensures k in m'.Keys {
      var i :| 0 <= i < |t| && t[i].id == k;
      assert items[i + 1].id == k;
    }
    forall k | k in m'.Keys ensures k in Ids(t) {
      assert k in Ids(items);
      var i :| 0 <= i < |items| && items[i].id == k;
      assert i != 0;
      assert t[i - 1].id == k;
    }
  }

  /** When upload times are distinct, two listings start with the same record. */
  lemma SameHead(m: map<string, VideoRecord>, a: seq<VideoRecord>, b: seq<VideoRecord>)
    requires IsListing(m, a) && IsListing(m, b) && DistinctTimes(m) && a != []
    ensures b != [] && a[0].id == b[0].id
  {
    assert a[0].id in Ids(a);
    assert b != [] by {
      assert a[0].id in Ids(b);
    }
    var ka, kb := a[0].id, b[0].id;
    assert ka in Ids(b);
    var i :| 0 <= i < |b| && b[i].id == ka;
    assert b[i].uploadTime <= b[0].uploadTime;
    assert kb in Ids(a);
    var j :| 0 <= j < |a| && a[j].id == kb;
    assert a[j].uploadTime <= a[0].uploadTime;
    assert m[ka].uploadTime == m[kb].uploadTime;
  }

  /** When upload times are distinct the listing is determined: any two
      answers of the ordered query are the same sequence. */
  lemma {:induction false} ListingUnique(m: map<string, VideoRecord>, a: seq<VideoRecord>, b: seq<VideoRecord>)
    requires IsListing(m, a) && IsListing(m, b) && DistinctTimes(m)
    ensures a == b
    decreases |a|
  {
    if a == [] {
      assert m.Keys == {};
    } else {
      SameHead(m, a, b);
      var k := a[0].id;
      assert a[0] == m[k] == b[0];
      ListingTail(m, a);
      ListingTail(m, b);
      ListingUnique(m - {k}, a[1..], b[1..]);
      assert a == [a[0]] + a[1..];
      assert b == [b[0]] + b[1..];
    }
  }

  /** Three records with distinct ids, uploaded at t1 < t2 < t3, listed newest first. */
  lemma ThreeNewestFirst(r1: VideoRecord, r2: VideoRecord, r3: VideoRecord)
    requires r1.id != r2.id && r2.id != r3.id && r1.id != r3.id
    requires r1.uploadTime < r2.uploadTime < r3.uploadTime
    ensures var m := map[r1.id := r1, r2.id := r2, r3.id := r3];
      IsListing(m, [r3, r2, r1]) && DistinctTimes(m)
  {
    var m := map[r1.id := r1, r2.id := r2, r3.id := r3];
    var want := [r3, r2, r1];
    assert m.Keys == {r1.id, r2.id, r3.id};
    assert Ids(want) == m.Keys by {
      assert want[0].id == r3.id && want[1].id == r2.id && want[2].id == r1.id;
    }
    forall k1, k2 | k1 in m && k2 in m && k1 != k2
      ensures m[k1].uploadTime != m[k2].uploadTime
    {
      assert k1 == r1.id || k1 == r2.id || k1 == r3.id;
      assert k2 == r1.id || k2 == r2.id || k2 == r3.id;
    }
  }

  /** Three records uploaded at t1 < t2 < t3 are listed as [r3, r2, r1]. */
  lemma ListingOfThree(m: map<string, VideoRecord>, r1: VideoRecord, r2: VideoRecord, r3: VideoRecord, items: seq<VideoRecord>)
    requires m == map[r1.id := r1, r2.id := r2, r3.id := r3]
    requires r1.id != r2.id && r2.id != r3.id && r1.id != r3.id
    requires r1.uploadTime < r2.uploadTime < r3.uploadTime
    requires IsListing(m, items)
    ensures items == [r3, r2, r1]
  {
    ThreeNewestFirst(r1, r2, r3);
    ListingUnique(m, items, [r3, r2, r1]);
  }

  /** A listing holds exactly one record per stored id, and it is the stored record. */
  lemma {:induction false} ListingHasEachRecordOnce(m: map<string, VideoRecord>, items: seq<VideoRecord>, k: string)
    requires IsListing(m, items) && k in m
    ensures exists i :: 0 <= i < |items| && items[i] == m[k]
    ensures forall i, j :: 0 <= i < |items| && 0 <= j < |items| && items[i].id == k && items[j].id == k ==> i == j
  {
    assert k in Ids(items);
    var i :| 0 <= i < |items| && items[i].id == k;
    assert items[i] == m[k];
  }
}
