/** The three HTTP handlers of the content resource (api/content.js) as pure
    functions over a keyed document store. The store stands for the
    `ContentMachine` container: a map from document id to document. */
module Content {
  import opened Options
  import opened Json
  import opened Http
  import Records

  /** The database and container names the handlers open. */
  const DatabaseName: string := "XigusaGrowthOS"
  const ContainerName: string := "ContentMachine"

  /** The backend's names agree with the front end's configuration. */
  lemma BackendMatchesConfig()
    ensures DatabaseName == Records.DatabaseId
    ensures ContainerName == Records.ContainerName(Records.ContentKind)
  {
  }

  /** The container: document id to document. */
  type Store = map<string, Doc>

  /** The wall clock as an unbounded stream of millisecond readings; `next`
      is the index of the reading the next `Date.now()` or `new Date()`
      observes. */
  datatype Clock = Clock(reading: nat -> nat, next: nat) {

    /** The current reading, and the clock after it was taken. */
    function Tick(): (nat, Clock) {
      (reading(next), this.(next := next + 1))
    }
  }

  /** A clock that never goes backwards. */
  ghost predicate Monotone(c: Clock) {
    forall i: nat, j: nat :: i <= j ==> c.reading(i) <= c.reading(j)
  }

  /** A timestamp formatter (`toISOString`) that tells distinct readings
      apart. */
  ghost predicate Injective(iso: nat -> string) {
    forall a: nat, b: nat :: iso(a) == iso(b) ==> a == b
  }

  const IdPrefix: string := "content-"

  /** The fields the create handler always sets itself. */
  const SystemFields: set<string> := {"id", "createdAt", "updatedAt"}

  /** The generated id `content-<millis>`. */
  function ContentId(t: nat): string {
    IdPrefix + Decimal(t)
  }

  /** The reading a generated id was made from; `None` for any string that is
      not `content-` followed by digits. */
  function IdReading(id: string): (r: Option<nat>)
    ensures r.Some? ==> |id| > |IdPrefix| && id[..|IdPrefix|] == IdPrefix
  {
    if |id| > |IdPrefix| && id[..|IdPrefix|] == IdPrefix then ParseDecimal(id[|IdPrefix|..])
    else None
  }

  /** Generated ids carry their reading, so two creates at different
      milliseconds get different ids, and a generated id names its reading
      exactly. */
  lemma ContentIdRoundTrip(t: nat, t': nat)
    ensures IdReading(ContentId(t)) == Some(t)
    ensures ContentId(t) == ContentId(t') ==> t == t'
  {
    var id := ContentId(t);
    assert id[..|IdPrefix|] == IdPrefix;
    assert id[|IdPrefix|..] == Decimal(t);
    ParseDecimalOfDecimal(t);
    if ContentId(t) == ContentId(t') {
      assert Decimal(t) == ContentId(t)[|IdPrefix|..] == ContentId(t')[|IdPrefix|..] == Decimal(t');
      DecimalInjective(t, t');
    }
  }

  // ------------------------------------------------------------ documents

  /** The document content-create builds: the body's own fields, then `id`,
      `createdAt` and `updatedAt` written over whatever the body held. */
  function NewDoc(body: Json, idReading: nat, created: string, updated: string): (d: Doc)
    ensures d.Keys == Spread(body).Keys + SystemFields
    ensures forall k :: k in Spread(body) && k !in SystemFields ==> d[k] == Spread(body)[k]
    ensures d["id"] == JStr(ContentId(idReading))
    ensures d["createdAt"] == JStr(created) && d["updatedAt"] == JStr(updated)
  {
    Spread(body)["id" := JStr(ContentId(idReading))]["createdAt" := JStr(created)]["updatedAt" := JStr(updated)]
  }

  /** Whatever the caller puts in `id`, `createdAt` or `updatedAt` has no
      effect on the created document: bodies that agree outside the system
      fields produce the same document. */
  lemma NewDocIgnoresCallerSystemFields(body: Json, body': Json, t: nat, created: string, updated: string)
    requires Spread(body) - SystemFields == Spread(body') - SystemFields
    ensures NewDoc(body, t, created, updated) == NewDoc(body', t, created, updated)
  {
    var d, d' := NewDoc(body, t, created, updated), NewDoc(body', t, created, updated);
    forall k | k in d
      ensures k in d' && d[k] == d'[k]
    {
      if k !in SystemFields {
        assert k in Spread(body) - SystemFields;
      }
    }
    forall k | k in d'
      ensures k in d
    {
      if k !in SystemFields {
        assert k in Spread(body') - SystemFields;
      }
    }
  }

  /** The document content-update writes: `{...existing, ...body, updatedAt}`.
      A missing document reads as `undefined`, which spreads to nothing. */
  function MergeDoc(existing: Option<Doc>, body: Json, updated: string): (d: Doc)
    ensures d.Keys == (if existing.Some? then existing.value.Keys else {}) + Spread(body).Keys + {"updatedAt"}
    ensures forall k :: k in Spread(body) && k != "updatedAt" ==> d[k] == Spread(body)[k]
    ensures existing.Some? ==>
      forall k :: k in existing.value && k !in Spread(body) && k != "updatedAt" ==> d[k] == existing.value[k]
    ensures d["updatedAt"] == JStr(updated)
  {
    var base := if existing.Some? then existing.value else map[];
    base + Spread(body) + map["updatedAt" := JStr(updated)]
  }

  /** Merging the same body a second time changes nothing but `updatedAt`. */
  lemma MergeIdempotent(existing: Option<Doc>, body: Json, first: string, second: string)
    ensures MergeDoc(Some(MergeDoc(existing, body, first)), body, second) == MergeDoc(existing, body, second)
  {
    var once := MergeDoc(existing, body, second);
    var twice := MergeDoc(Some(MergeDoc(existing, body, first)), body, second);
    forall k | k in once
      ensures k in twice && twice[k] == once[k]
    {
    }
    assert twice.Keys == once.Keys;
  }

  // ------------------------------------------------------------- handlers

  const FetchError: string := "Failed to fetch content"
  const CreateError: string := "Failed to create content"
  const UpdateError: string := "Failed to update content"

  /** A handler's response together with the store and clock it leaves. */
  datatype Outcome = Outcome(response: Response, store: Store, clock: Clock)

  /** content-get: every document of the container, in the order the store
      enumerates them (returned as `order`). `available` is false when the
      store cannot be reached. */
  method ContentGet(store: Store, available: bool) returns (response: Response, order: seq<string>)
    ensures !available ==> response == ErrorResponse(500, FetchError)
    ensures available ==> response.status == 200 && response.body.Some? && response.body.value.JArr?
    ensures available ==> |order| == |store| && (forall i :: 0 <= i < |order| ==> order[i] in store)
    ensures available ==> forall i, j :: 0 <= i < j < |order| ==> order[i] != order[j]
    ensures available ==> forall k :: k in store ==> k in order
    ensures available ==> |response.body.value.items| == |order|
    ensures available ==> forall i :: 0 <= i < |order| ==> response.body.value.items[i] == JObj(store[order[i]])
  {
    order := [];
    if !available {
      response := ErrorResponse(500, FetchError);
      return;
    }
    var docs: seq<Json> := [];
    var remaining := store.Keys;
    while remaining != {}
      invariant remaining <= store.Keys
      invariant forall i :: 0 <= i < |order| ==> order[i] in store && order[i] !in remaining
      invariant forall k :: k in store ==> k in remaining || k in order
      invariant forall i, j :: 0 <= i < j < |order| ==> order[i] != order[j]
      invariant |order| + |remaining| == |store|
      invariant |docs| == |order|
      invariant forall i :: 0 <= i < |order| ==> docs[i] == JObj(store[order[i]])
      decreases |remaining|
    {
      var k :| k in remaining;
      order := order + [k];
      docs := docs + [JObj(store[k])];
      remaining := remaining - {k};
    }
    response := Response(200, Some(JArr(docs)));
  }

  /** content-create. `body` is `None` when the request body is not JSON.
      The id reading and the two timestamps are three separate clock reads. */
  function ContentCreate(store: Store, body: Option<Json>, clock: Clock, iso: nat -> string, available: bool): (o: Outcome)
    ensures o.response.status == 201 || o.response == ErrorResponse(500, CreateError)
    ensures o.response.status == 201 <==>
      body.Some? && available && ContentId(clock.reading(clock.next)) !in store
    ensures o.response.status != 201 ==> o.store == store
    ensures o.response.status == 201 ==>
      var id := ContentId(clock.reading(clock.next));
      && o.store.Keys == store.Keys + {id}
      && (forall k :: k in store ==> o.store[k] == store[k])
      && o.response.body == Some(JObj(o.store[id]))
      && o.store[id].Keys == Spread(body.value).Keys + SystemFields
      && (forall k :: k in Spread(body.value) && k !in SystemFields ==> o.store[id][k] == Spread(body.value)[k])
      && o.store[id]["id"] == JStr(id)
      && o.store[id]["createdAt"] == JStr(iso(clock.reading(clock.next + 1)))
      && o.store[id]["updatedAt"] == JStr(iso(clock.reading(clock.next + 2)))
  {
    if body.None? then Outcome(ErrorResponse(500, CreateError), store, clock)
    else
      var (idReading, c1) := clock.Tick();
      var (created, c2) := c1.Tick();
      var (updated, c3) := c2.Tick();
      var doc := NewDoc(body.value, idReading, iso(created), iso(updated));
      var id := ContentId(idReading);
      if !available || id in store then Outcome(ErrorResponse(500, CreateError), store, c3)
      else Outcome(Response(201, Some(JObj(doc))), store[id := doc], c3)
  }

  /** With a clock that never goes backwards, the readings a successful
      create uses are ordered: the id reading, then `createdAt`'s, then
      `updatedAt`'s. */
  lemma CreateTimestampsOrdered(store: Store, body: Option<Json>, clock: Clock, iso: nat -> string, available: bool)
    requires Monotone(clock)
    ensures ContentCreate(store, body, clock, iso, available).response.status == 201 ==>
      clock.reading(clock.next) <= clock.reading(clock.next + 1) <= clock.reading(clock.next + 2)
  {
  }

  /** With a formatter that tells readings apart, a created document's
      `createdAt` equals its `updatedAt` exactly when the clock did not move
      between the two reads. */
  lemma CreateTimestampsEqualIff(store: Store, body: Option<Json>, clock: Clock, iso: nat -> string, available: bool)
    requires Injective(iso)
    ensures var o := ContentCreate(store, body, clock, iso, available);
      var id := ContentId(clock.reading(clock.next));
      o.response.status == 201 ==>
        var stamped := o.store[id];
        (stamped["createdAt"] == stamped["updatedAt"]) == (clock.reading(clock.next + 1) == clock.reading(clock.next + 2))
  {
  }

  /** `createdAt` and `updatedAt` are not in general equal: a clock that
      advances between the two reads gives different timestamps. */
  lemma CreateTimestampsMayDiffer()
    ensures var o := ContentCreate(map[], Some(JObj(map[])), Clock((i: nat) => i, 0), Decimal, true);
      && o.response.status == 201
      && o.store[ContentId(0)]["createdAt"] != o.store[ContentId(0)]["updatedAt"]
  {
    var o := ContentCreate(map[], Some(JObj(map[])), Clock((i: nat) => i, 0), Decimal, true);
    DecimalInjective(1, 2);
    assert o.store[ContentId(0)]["createdAt"] == JStr(Decimal(1));
  }

  /** content-update at route id `id`. `available` is false when the store
      cannot be reached. A missing document reads as `undefined`; the replace
      that follows then fails. */
  function ContentUpdate(store: Store, id: string, body: Option<Json>, clock: Clock, iso: nat -> string, available: bool): (o: Outcome)
    ensures o.response.status == 200 || o.response == ErrorResponse(500, UpdateError)
    ensures o.response.status == 200 <==> body.Some? && available && id in store
    ensures o.response.status != 200 ==> o.store == store
    ensures o.response.status == 200 ==>
      && o.store.Keys == store.Keys
      && (forall k :: k in store && k != id ==> o.store[k] == store[k])
      && o.response.body == Some(JObj(o.store[id]))
      && o.store[id].Keys == store[id].Keys + Spread(body.value).Keys + {"updatedAt"}
      && (forall k :: k in Spread(body.value) && k != "updatedAt" ==> o.store[id][k] == Spread(body.value)[k])
      && (forall k :: k in store[id] && k !in Spread(body.value) && k != "updatedAt" ==> o.store[id][k] == store[id][k])
      && o.store[id]["updatedAt"] == JStr(iso(clock.reading(clock.next)))
  {
    if body.None? || !available then Outcome(ErrorResponse(500, UpdateError), store, clock)
    else
      var existing := if id in store then Some(store[id]) else None;
      var (now, c1) := clock.Tick();
      var merged := MergeDoc(existing, body.value, iso(now));
      if id !in store then Outcome(ErrorResponse(500, UpdateError), store, c1)
      else Outcome(Response(200, Some(JObj(merged))), store[id := merged], c1)
  }

  /** Repeating an update with the same body leaves the same document apart
      from a fresh `updatedAt`. */
  lemma UpdateIdempotent(store: Store, id: string, body: Option<Json>, clock: Clock, iso: nat -> string, available: bool)
    ensures var o1 := ContentUpdate(store, id, body, clock, iso, available);
      var o2 := ContentUpdate(o1.store, id, body, o1.clock, iso, available);
      o1.response.status == 200 ==>
        && o2.response.status == 200
        && o2.store == o1.store[id := o1.store[id]["updatedAt" := JStr(iso(o1.clock.reading(o1.clock.next)))]]
  {
    var o1 := ContentUpdate(store, id, body, clock, iso, available);
    if o1.response.status == 200 {
      var o2 := ContentUpdate(o1.store, id, body, o1.clock, iso, available);
      var u1 := iso(clock.reading(clock.next));
      var u2 := iso(o1.clock.reading(o1.clock.next));
      MergeIdempotent(Some(store[id]), body.value, u1, u2);
      assert o1.store[id] == MergeDoc(Some(store[id]), body.value, u1);
      assert o2.store[id] == MergeDoc(Some(o1.store[id]), body.value, u2);
      assert o1.store[id]["updatedAt" := JStr(u2)] == MergeDoc(Some(store[id]), body.value, u2) by {
        var a := o1.store[id]["updatedAt" := JStr(u2)];
        var b := MergeDoc(Some(store[id]), body.value, u2);
        forall k | k in a ensures k in b && a[k] == b[k] { }
        assert a.Keys == b.Keys;
      }
    }
  }

  // ------------------------------------------------ records through handlers

  /** For an object body the created document is the body with the three
      system fields written over it. */
  lemma NewDocOfObject(m: Doc, t: nat, created: string, updated: string)
    ensures NewDoc(JObj(m), t, created, updated)
      == m + map["id" := JStr(ContentId(t)), "createdAt" := JStr(created), "updatedAt" := JStr(updated)]
  {
  }

  /** A successful create stores the document built from the body and the
      three clock reads under the new id. */
  lemma CreateStoresNewDoc(store: Store, body: Option<Json>, clock: Clock, iso: nat -> string, available: bool)
    ensures var o := ContentCreate(store, body, clock, iso, available);
      var t := clock.reading(clock.next);
      o.response.status == 201 ==>
        && body.Some? && ContentId(t) in o.store
        && o.store[ContentId(t)]
           == NewDoc(body.value, t, iso(clock.reading(clock.next + 1)), iso(clock.reading(clock.next + 2)))
  {
  }

  /** The stamped document of a content item decodes to the stamped item. */
  lemma StampedDocDecodes(c: Records.ContentItem, t: nat, created: string, updated: string)
    ensures Records.ContentFromDoc(NewDoc(JObj(Records.ContentDoc(c)), t, created, updated))
      == Some(c.(id := ContentId(t), createdAt := created, updatedAt := updated))
  {
    NewDocOfObject(Records.ContentDoc(c), t, created, updated);
    Records.ContentDocStamp(c, ContentId(t), created, updated);
    Records.ContentRoundTrip(c.(id := ContentId(t), createdAt := created, updatedAt := updated));
  }

  /** A `null`, boolean or numeric body spreads to nothing, so the created
      document holds only the three system fields. */
  lemma NewDocOfScalar(body: Json, t: nat, created: string, updated: string)
    requires body.JNull? || body.JBool? || body.JNum?
    ensures NewDoc(body, t, created, updated).Keys == SystemFields
  {
  }

  /** A content record posted to content-create is stored as the same
      record carrying the server's id and timestamps in place of its own. */
  lemma CreateStoresRecord(store: Store, c: Records.ContentItem, clock: Clock, iso: nat -> string, available: bool)
    ensures var o := ContentCreate(store, Some(JObj(Records.ContentDoc(c))), clock, iso, available);
      var id := ContentId(clock.reading(clock.next));
      o.response.status == 201 ==>
        && id in o.store
        && Records.ContentFromDoc(o.store[id])
           == Some(c.(id := id, createdAt := iso(clock.reading(clock.next + 1)),
                      updatedAt := iso(clock.reading(clock.next + 2))))
  {
    var body := Some(JObj(Records.ContentDoc(c)));
    CreateStoresNewDoc(store, body, clock, iso, available);
    StampedDocDecodes(c, clock.reading(clock.next), iso(clock.reading(clock.next + 1)), iso(clock.reading(clock.next + 2)));
  }

  /** Updating a stored content record with `{status}` alone yields the
      record with that status and a fresh `updatedAt`, nothing else
      changed. */
  lemma UpdateRestatusesRecord(store: Store, id: string, c: Records.ContentItem, s: Records.ContentStatus,
                               clock: Clock, iso: nat -> string, available: bool)
    requires id in store && store[id] == Records.ContentDoc(c)
    ensures var body := JObj(map["status" := JStr(Records.ContentStatusName(s))]);
      var o := ContentUpdate(store, id, Some(body), clock, iso, available);
      o.response.status == 200 ==>
        Records.ContentFromDoc(o.store[id]) == Some(c.(status := s, updatedAt := iso(clock.reading(clock.next))))
  {
    var updated := iso(clock.reading(clock.next));
    var patch := map["status" := JStr(Records.ContentStatusName(s))];
    var fields := map["status" := JStr(Records.ContentStatusName(s)), "updatedAt" := JStr(updated)];
    assert MergeDoc(Some(store[id]), JObj(patch), updated) == store[id] + fields;
    Records.ContentDocRestatus(c, s, updated);
    Records.ContentRoundTrip(c.(status := s, updatedAt := updated));
  }
}
