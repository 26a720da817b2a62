/**
 * The post queue: a status-tagged table of documents, ordered for dequeueing
 * by `created_at`. The table is held in memory as a sequence in insertion
 * order; its primary key is the document id, or a key the store generates
 * when a document comes without one.
 */
module Queue {
  import opened Wrappers

  datatype Status = Pending | Posted | ReviewRequired | IncludedInStory

  /** A primary key: the id a document brought with it, or one the store generated. */
  datatype Key = Given(id: string) | Generated(serial: nat)

  /** The document fields other than id, status and created_at, in the two shapes the bot writes. */
  datatype Payload =
    | PhotoPost(photoUrl: string, caption: string, tags: seq<string>, latitude: real, longitude: real,
                place: string, userNamesToTag: seq<string>, campaignId: string)
    | StoryPost(imageUrl: string)

  datatype QueueItem = QueueItem(key: Key, createdAt: int, status: Status, payload: Payload)

  /** A document as handed to `pushPosts`: its own id and status, if it has them. */
  datatype NewItem = NewItem(id: Option<string>, createdAt: int, status: Option<Status>, payload: Payload)

  /** The connection settings; host and port only matter to the driver. */
  datatype DbConfig = DbConfig(db: Option<string>)

  datatype QueueError = ConfigRequired

  /** The constructor's check: no configuration is an error, and the database name defaults to "test". */
  function DatabaseName(config: Option<DbConfig>): (r: Result<string, QueueError>)
    ensures r.Err? <==> config.None?
    ensures r.Ok? && config.value.db.None? ==> r.value == "test"
    ensures r.Ok? && config.value.db.Some? ==> r.value == config.value.db.value
  {
    match config
    case None => Err(ConfigRequired)
    case Some(c) => Ok(c.db.GetOr("test"))
  }

  predicate UniqueKeys(rows: seq<QueueItem>) {
    forall i, j :: 0 <= i < j < |rows| ==> rows[i].key != rows[j].key
  }

  predicate HasKey(rows: seq<QueueItem>, k: Key) {
    exists i :: 0 <= i < |rows| && rows[i].key == k
  }

  /** A serial number no generated key of the table uses yet. */
  function FreshSerial(rows: seq<QueueItem>): (n: nat)
    ensures forall i :: 0 <= i < |rows| && rows[i].key.Generated? ==> rows[i].key.serial < n
  {
    if rows == [] then 0
    else
      var rest := FreshSerial(rows[1..]);
      var here := if rows[0].key.Generated? then rows[0].key.serial + 1 else 0;
      if rest < here then here else rest
  }

  /** The stored form of a pushed document: its fields kept, its status forced to PENDING. */
  function Stamp(item: NewItem, key: Key): (r: QueueItem)
    ensures r.status == Pending && r.key == key
    ensures r.createdAt == item.createdAt && r.payload == item.payload
  {
    QueueItem(key, item.createdAt, Pending, item.payload)
  }

  /**
   * Inserting one document: one without an id gets a fresh generated key;
   * one whose id is already taken is refused (a primary-key conflict), and
   * the table is left as it was.
   */
  function Admit(rows: seq<QueueItem>, item: NewItem): seq<QueueItem> {
    match item.id
    case None => rows + [Stamp(item, Generated(FreshSerial(rows)))]
    case Some(id) => if HasKey(rows, Given(id)) then rows else rows + [Stamp(item, Given(id))]
  }

  /** Inserting a batch of documents, in order. */
  function Insert(rows: seq<QueueItem>, items: seq<NewItem>): seq<QueueItem>
    decreases |items|
  {
    if items == [] then rows else Insert(Admit(rows, items[0]), items[1..])
  }

  /** The PENDING row with the least `created_at` (the first such row on a tie), if any. */
  function OldestPending(rows: seq<QueueItem>): (r: Option<QueueItem>)
    ensures r.None? <==> forall i :: 0 <= i < |rows| ==> rows[i].status != Pending
    ensures r.Some? ==> r.value in rows && r.value.status == Pending
    ensures r.Some? ==> forall i :: 0 <= i < |rows| && rows[i].status == Pending ==> r.value.createdAt <= rows[i].createdAt
  {
    if rows == [] then None
    else
      var rest := OldestPending(rows[1..]);
      if rows[0].status == Pending && (rest.None? || rows[0].createdAt <= rest.value.createdAt)
      then Some(rows[0])
      else rest
  }

  /** `get(key).update({status})`: the row with that key takes the status, every other row is kept. */
  function Mark(rows: seq<QueueItem>, key: Key, s: Status): (r: seq<QueueItem>)
    ensures |r| == |rows|
    ensures forall i :: 0 <= i < |rows| ==> r[i].key == rows[i].key && r[i].createdAt == rows[i].createdAt && r[i].payload == rows[i].payload
    ensures forall i :: 0 <= i < |rows| ==> r[i].status == (if rows[i].key == key then s else rows[i].status)
  {
    seq(|rows|, i requires 0 <= i < |rows| => if rows[i].key == key then rows[i].(status := s) else rows[i])
  }

  /** Marking every row whose key is in `keys`. */
  function MarkKeys(rows: seq<QueueItem>, keys: set<Key>, s: Status): (r: seq<QueueItem>)
    ensures |r| == |rows|
    ensures forall i :: 0 <= i < |rows| ==> r[i].key == rows[i].key && r[i].createdAt == rows[i].createdAt && r[i].payload == rows[i].payload
    ensures forall i :: 0 <= i < |rows| ==> r[i].status == (if rows[i].key in keys then s else rows[i].status)
  {
    seq(|rows|, i requires 0 <= i < |rows| => if rows[i].key in keys then rows[i].(status := s) else rows[i])
  }

  /** The POSTED photos of one campaign, in table order (the `getPosted` that index.js calls). */
  function PostedOf(rows: seq<QueueItem>, campaignId: string): (r: seq<QueueItem>)
    ensures |r| <= |rows|
    ensures forall i :: 0 <= i < |r| ==> r[i] in rows && r[i].status == Posted
    ensures forall i :: 0 <= i < |r| ==> r[i].payload.PhotoPost? && r[i].payload.campaignId == campaignId
  {
    if rows == [] then []
    else (if IsPostedPhotoOf(rows[0], campaignId) then [rows[0]] else []) + PostedOf(rows[1..], campaignId)
  }

  /** No POSTED photo of the campaign is left out. */
  lemma {:induction false} PostedOfKeepsEvery(rows: seq<QueueItem>, campaignId: string)
    ensures forall i :: 0 <= i < |rows| && IsPostedPhotoOf(rows[i], campaignId) ==> rows[i] in PostedOf(rows, campaignId)
  {
    if rows != [] {
      PostedOfKeepsEvery(rows[1..], campaignId);
      assert forall i :: 1 <= i < |rows| ==> rows[i] == rows[1..][i - 1];
    }
  }

  predicate IsPostedPhotoOf(row: QueueItem, campaignId: string) {
    row.status == Posted && row.payload.PhotoPost? && row.payload.campaignId == campaignId
  }

  /**
   * The selection keeps table order: the POSTED photos of a table made of two
   * parts are those of the first part followed by those of the second.
   */
  lemma {:induction false} PostedOfAppend(a: seq<QueueItem>, b: seq<QueueItem>, campaignId: string)
    ensures PostedOf(a + b, campaignId) == PostedOf(a, campaignId) + PostedOf(b, campaignId)
  {
    if a != [] {
      assert (a + b)[1..] == a[1..] + b;
      PostedOfAppend(a[1..], b, campaignId);
    } else {
      assert a + b == b;
    }
  }

  /** Inserting only adds rows: the old ones stay first and unchanged, every added row is PENDING, keys stay unique. */
  lemma {:induction false} InsertOnlyAdds(rows: seq<QueueItem>, items: seq<NewItem>)
    ensures var r := Insert(rows, items);
      |rows| <= |r| <= |rows| + |items| && r[..|rows|] == rows
      && (forall j :: |rows| <= j < |r| ==> r[j].status == Pending)
      && (UniqueKeys(rows) ==> UniqueKeys(r))
    decreases |items|
  {
    if items != [] {
      var a := Admit(rows, items[0]);
      AdmitOnlyAdds(rows, items[0]);
      InsertOnlyAdds(a, items[1..]);
      var r := Insert(rows, items);
      assert r == Insert(a, items[1..]);
      assert r[..|rows|] == r[..|a|][..|rows|];
    }
  }

  lemma AdmitOnlyAdds(rows: seq<QueueItem>, item: NewItem)
    ensures var a := Admit(rows, item);
      |rows| <= |a| <= |rows| + 1 && a[..|rows|] == rows
      && (|a| > |rows| ==> a[|rows|].status == Pending)
      && (UniqueKeys(rows) ==> UniqueKeys(a))
  {
  }

  /** Every pushed document that carries an id ends up in the table under that id. */
  lemma {:induction false} InsertStoresEveryId(rows: seq<QueueItem>, items: seq<NewItem>)
    ensures forall i :: 0 <= i < |items| && items[i].id.Some? ==> HasKey(Insert(rows, items), Given(items[i].id.value))
    decreases |items|
  {
    if items != [] {
      var a := Admit(rows, items[0]);
      InsertStoresEveryId(a, items[1..]);
      forall i | 0 <= i < |items| && items[i].id.Some?
        ensures HasKey(Insert(rows, items), Given(items[i].id.value))
      {
        if i == 0 {
          var k := Given(items[0].id.value);
          if !HasKey(rows, k) {
            assert a[|rows|].key == k;
          }
          assert HasKey(a, k);
          HasKeyKept(a, items[1..], k);
        } else {
          assert items[i] == items[1..][i - 1];
        }
      }
    }
  }

  lemma HasKeyKept(rows: seq<QueueItem>, items: seq<NewItem>, k: Key)
    requires HasKey(rows, k)
    ensures HasKey(Insert(rows, items), k)
  {
    InsertOnlyAdds(rows, items);
    var i :| 0 <= i < |rows| && rows[i].key == k;
    assert Insert(rows, items)[i] == Insert(rows, items)[..|rows|][i];
  }

  /** The documents of a batch, each stored under its own id and as PENDING. */
  function StampedWithIds(items: seq<NewItem>): (r: seq<QueueItem>)
    requires forall i :: 0 <= i < |items| ==> items[i].id.Some?
    ensures |r| == |items|
    ensures forall i :: 0 <= i < |items| ==> r[i] == Stamp(items[i], Given(items[i].id.value))
  {
    if items == [] then [] else [Stamp(items[0], Given(items[0].id.value))] + StampedWithIds(items[1..])
  }

  /** A batch of documents with fresh, distinct ids is appended whole, in order, each as PENDING. */
  lemma InsertFresh(rows: seq<QueueItem>, items: seq<NewItem>)
    requires forall i :: 0 <= i < |items| ==> items[i].id.Some? && !HasKey(rows, Given(items[i].id.value))
    requires forall i, j :: 0 <= i < j < |items| ==> items[i].id != items[j].id
    ensures Insert(rows, items) == rows + StampedWithIds(items)
  {
    DistinctIdsAreFresh(rows, items);
    InsertFreshBatch(rows, items);
  }

  /** Each document carries an id that neither the table nor an earlier document of the batch has. */
  predicate FreshBatch(rows: seq<QueueItem>, items: seq<NewItem>)
    decreases |items|
  {
    items == [] ||
    (items[0].id.Some? && !HasKey(rows, Given(items[0].id.value))
     && FreshBatch(rows + [Stamp(items[0], Given(items[0].id.value))], items[1..]))
  }

  /** Admitting a fresh batch in order appends each document under its own id. */
  lemma {:induction false} InsertFreshBatch(rows: seq<QueueItem>, items: seq<NewItem>)
    requires FreshBatch(rows, items)
    requires forall i :: 0 <= i < |items| ==> items[i].id.Some?
    ensures Insert(rows, items) == rows + StampedWithIds(items)
    decreases |items|
  {
    if items != [] {
      var first := Stamp(items[0], Given(items[0].id.value));
      var rest := items[1..];
      assert Admit(rows, items[0]) == rows + [first];
      InsertFreshBatch(rows + [first], rest);
      assert StampedWithIds(items) == [first] + StampedWithIds(rest);
      AppendAssociates(rows, [first], StampedWithIds(rest));
    }
  }

  lemma AppendAssociates<T>(a: seq<T>, b: seq<T>, c: seq<T>)
    ensures a + (b + c) == (a + b) + c
  {
  }

  /** Ids that the table lacks and that differ from each other stay fresh as the batch is admitted in order. */
  lemma {:induction false} DistinctIdsAreFresh(rows: seq<QueueItem>, items: seq<NewItem>)
    requires forall i :: 0 <= i < |items| ==> items[i].id.Some? && !HasKey(rows, Given(items[i].id.value))
    requires forall i, j :: 0 <= i < j < |items| ==> items[i].id != items[j].id
    ensures FreshBatch(rows, items)
    decreases |items|
  {
    if items != [] {
      var rows' := rows + [Stamp(items[0], Given(items[0].id.value))];
      var rest := items[1..];
      assert forall i :: 0 <= i < |rest| ==> rest[i] == items[i + 1];
      forall i | 0 <= i < |rest|
        ensures !HasKey(rows', Given(rest[i].id.value))
      {
        assert rest[i] == items[i + 1];
      }
      DistinctIdsAreFresh(rows', rest);
    }
  }

  /** Documents without an id are all stored: each gets a generated key of its own. */
  lemma {:induction false} InsertAnonymous(rows: seq<QueueItem>, items: seq<NewItem>)
    requires forall i :: 0 <= i < |items| ==> items[i].id.None?
    ensures |Insert(rows, items)| == |rows| + |items|
    decreases |items|
  {
    if items != [] {
      InsertAnonymous(Admit(rows, items[0]), items[1..]);
    }
  }

  /** Inserting two batches one after the other is inserting their concatenation. */
  lemma {:induction false} InsertConcat(rows: seq<QueueItem>, a: seq<NewItem>, b: seq<NewItem>)
    ensures Insert(rows, a + b) == Insert(Insert(rows, a), b)
    decreases |a|
  {
    if a == [] {
      assert a + b == b;
    } else {
      assert (a + b)[0] == a[0];
      assert (a + b)[1..] == a[1..] + b;
      InsertConcat(Admit(rows, a[0]), a[1..], b);
    }
  }

  /** Marking the same row twice with the same status is marking it once. */
  lemma MarkIdempotent(rows: seq<QueueItem>, key: Key, s: Status)
    ensures Mark(Mark(rows, key, s), key, s) == Mark(rows, key, s)
  {
  }

  /** Marking one more key extends a multi-key marking. */
  lemma MarkExtends(rows: seq<QueueItem>, keys: set<Key>, key: Key, s: Status)
    ensures Mark(MarkKeys(rows, keys, s), key, s) == MarkKeys(rows, keys + {key}, s)
  {
  }

  /**
   * Dequeueing in order: once the oldest PENDING row is taken out of PENDING,
   * the next oldest PENDING row is no younger.
   */
  lemma DequeueOrder(rows: seq<QueueItem>, s: Status)
    requires s != Pending
    requires OldestPending(rows).Some?
    ensures var x := OldestPending(rows).value;
      var y := OldestPending(Mark(rows, x.key, s));
      y.Some? ==> x.createdAt <= y.value.createdAt && y.value.key != x.key
  {
    var x := OldestPending(rows).value;
    var m := Mark(rows, x.key, s);
    var y := OldestPending(m);
    if y.Some? {
      var j :| 0 <= j < |m| && m[j] == y.value;
      assert rows[j].status == Pending;
    }
  }

  /**
   * The queue of one content type. `connected` is the driver connection
   * (`this.db`); `tableExists` says whether the `post_queue` table, created
   * together with its `created_at` index, exists in the database.
   */
  class PostQueue {
    const dbName: string
    var connected: bool
    var tableExists: bool
    var rows: seq<QueueItem>

    ghost predicate Valid()
      reads this
    {
      UniqueKeys(rows) && (!tableExists ==> rows == []) && (connected ==> tableExists)
    }

    /** `stored` is the table as the database holds it when the queue is created (None: no table yet). */
    constructor (config: DbConfig, stored: Option<seq<QueueItem>>)
      requires stored.Some? ==> UniqueKeys(stored.value)
      ensures Valid() && !connected
      ensures dbName == DatabaseName(Some(config)).value
      ensures tableExists == stored.Some? && rows == stored.GetOr([])
    {
      dbName := config.db.GetOr("test");
      connected := false;
      tableExists := stored.Some?;
      rows := stored.GetOr([]);
    }

    /** Connects, and creates the table and its index only when the table is absent. */
    method Init()
      requires Valid()
      modifies this
      ensures Valid() && connected && tableExists
      ensures rows == old(rows)
      ensures old(connected) ==> unchanged(this)
    {
      connected := true;
      if !tableExists {
        tableExists := true;
        rows := [];
      }
    }

    /** Stores every document as PENDING; documents already in the table are left alone. */
    method PushPosts(posts: seq<NewItem>)
      requires Valid()
      modifies this
      ensures Valid() && connected
      ensures rows == Insert(old(rows), posts)
    {
      if !connected {
        Init();
      }
      InsertOnlyAdds(rows, posts);
      rows := Insert(rows, posts);
    }

    /** The oldest PENDING document; nothing is changed in the table. */
    method NextPost() returns (next: Option<QueueItem>)
      requires Valid()
      modifies this
      ensures Valid() && connected
      ensures rows == old(rows)
      ensures next == OldestPending(rows)
    {
      if !connected {
        Init();
      }
      next := OldestPending(rows);
    }

    /** Sets one document to POSTED; fails (the query is run without a connection) before `init`. */
    method MarkPosted(key: Key) returns (ok: bool)
      requires Valid()
      modifies this
      ensures Valid() && connected == old(connected)
      ensures ok == connected
      ensures rows == if ok then Mark(old(rows), key, Posted) else old(rows)
    {
      ok := connected;
      if ok {
        rows := Mark(rows, key, Posted);
      }
    }

    /** Sets one document to REVIEW_REQUIRED; fails before `init` as MarkPosted does. */
    method MarkReviewRequired(key: Key) returns (ok: bool)
      requires Valid()
      modifies this
      ensures Valid() && connected == old(connected)
      ensures ok == connected
      ensures rows == if ok then Mark(old(rows), key, ReviewRequired) else old(rows)
    {
      ok := connected;
      if ok {
        rows := Mark(rows, key, ReviewRequired);
      }
    }

    /** Sets one photo to INCLUDED_IN_STORY (the `markIncludedInStory` that index.js calls). */
    method MarkIncludedInStory(key: Key) returns (ok: bool)
      requires Valid()
      modifies this
      ensures Valid() && connected == old(connected)
      ensures ok == connected
      ensures rows == if ok then Mark(old(rows), key, IncludedInStory) else old(rows)
    {
      ok := connected;
      if ok {
        rows := Mark(rows, key, IncludedInStory);
      }
    }
  }
}
