/**
 * The three collections the generator writes (users, listings, views), the
 * write batch it stages (src/services/dummyData.js:157, 175-228) and the atomic
 * commit. A batch is a sequence of staged operations, applied in order, all or none.
 */
module DummyStore {
  import opened Wrappers
  import opened Documents
  import opened DummyPools
  import opened DummyCompose

  /** A listing document as batch.set writes it (dummyData.js:193-208). */
  datatype ListingDoc = ListingDoc(
    authorId: string, title: string, description: string, status: string,
    dateCreated: Value, eventDates: seq<EventDate>, isMultiDay: bool, location: Location,
    tags: seq<string>, views: int, images: seq<Value>, categories: seq<string>,
    featured: bool, lastUpdated: Value)

  /** A views/{id} document (dummyData.js:221-225). */
  datatype ViewStats = ViewStats(count: int, uniqueVisitors: seq<string>, lastViewed: Value)

  /** A returned listing: `{ id: listingRef.id, ...listing }`. */
  datatype GeneratedListing = GeneratedListing(id: string, doc: ListingDoc)

  /** User documents stay untyped maps, so that a merge keeps the fields it does not name. */
  datatype Db = Db(users: map<string, Doc>, listings: map<string, ListingDoc>, views: map<string, ViewStats>)

  datatype Op =
    | SetMerge(uid: string, fields: Doc)                              // batch.set(users/uid, fields, { merge: true })
    | SetListing(id: string, listing: ListingDoc)                     // batch.set(listings/id, listing)
    | UpdateArrayUnion(uid: string, field: string, element: Value)    // batch.update(users/uid, { field: arrayUnion(element) })
    | SetViews(id: string, stats: ViewStats)                          // batch.set(views/id, stats)

  /** The serverTimestamp() token every timestamp field of one call receives. */
  const Now: Value := ServerTimestamp

  /** arrayUnion(e) applied to a field: an array gains e unless present; anything else becomes [e]. */
  function ArrayUnion(current: Option<Value>, e: Value): (v: Value)
    ensures v.Arr? && e in v.items
    ensures current.Some? && current.value.Arr? ==>
      current.value.items <= v.items && |v.items| <= |current.value.items| + 1
    ensures current.Some? && current.value.Arr? ==> forall x :: x in v.items <==> x == e || x in current.value.items
    ensures !(current.Some? && current.value.Arr?) ==> v.items == [e]
  {
    match current
    case Some(Arr(xs)) => if e in xs then Arr(xs) else Arr(xs + [e])
    case _ => Arr([e])
  }

  /** One staged write; an update of a missing document fails (and with it the whole batch). */
  function ApplyOp(db: Db, op: Op): (r: Option<Db>)
    ensures r.None? <==> op.UpdateArrayUnion? && op.uid !in db.users
    ensures r.Some? && (op.SetMerge? || op.UpdateArrayUnion?) ==>
      && r.value.listings == db.listings && r.value.views == db.views
      && r.value.users.Keys == db.users.Keys + {op.uid}
      && (forall u :: u in db.users && u != op.uid ==> r.value.users[u] == db.users[u])
    ensures r.Some? && op.SetMerge? ==>
      && (forall k :: k in r.value.users[op.uid] <==> k in op.fields || (op.uid in db.users && k in db.users[op.uid]))
      && (forall k :: k in op.fields ==> r.value.users[op.uid][k] == op.fields[k])
      && (forall k :: op.uid in db.users && k in db.users[op.uid] && k !in op.fields ==> r.value.users[op.uid][k] == db.users[op.uid][k])
    ensures r.Some? && op.UpdateArrayUnion? ==>
      && r.value.users[op.uid].Keys == db.users[op.uid].Keys + {op.field}
      && r.value.users[op.uid][op.field] == ArrayUnion(Get(db.users[op.uid], op.field), op.element)
      && (forall k :: k in db.users[op.uid] && k != op.field ==> r.value.users[op.uid][k] == db.users[op.uid][k])
    ensures op.SetListing? ==> r.value.users == db.users && r.value.views == db.views && r.value.listings.Keys == db.listings.Keys + {op.id}
    ensures op.SetListing? ==> r.value.listings[op.id] == op.listing && forall id :: id in db.listings && id != op.id ==> r.value.listings[id] == db.listings[id]
    ensures op.SetViews? ==> r.value.users == db.users && r.value.listings == db.listings && r.value.views.Keys == db.views.Keys + {op.id}
    ensures op.SetViews? ==> r.value.views[op.id] == op.stats && forall id :: id in db.views && id != op.id ==> r.value.views[id] == db.views[id]
  {
    match op
    case SetMerge(uid, fields) =>
      var current := if uid in db.users then db.users[uid] else map[];
      Some(db.(users := db.users[uid := current + fields]))
    case SetListing(id, l) => Some(db.(listings := db.listings[id := l]))
    case UpdateArrayUnion(uid, f, e) =>
      if uid !in db.users then None
      else Some(db.(users := db.users[uid := db.users[uid][f := ArrayUnion(Get(db.users[uid], f), e)]]))
    case SetViews(id, v) => Some(db.(views := db.views[id := v]))
  }

  /** The effect of committing a batch: every write in order, or None if one of them fails. */
  function ApplyAll(db: Db, ops: seq<Op>): (r: Option<Db>)
    ensures ops == [] ==> r == Some(db)
    decreases |ops|
  {
    if ops == [] then Some(db)
    else match ApplyOp(db, ops[0])
      case None => None
      case Some(db') => ApplyAll(db', ops[1..])
  }

  /** Only an update can fail, so a batch without updates always commits. */
  lemma {:induction false} ApplyAllWithoutUpdates(db: Db, ops: seq<Op>)
    requires forall i :: 0 <= i < |ops| ==> !ops[i].UpdateArrayUnion?
    ensures ApplyAll(db, ops).Some?
    decreases |ops|
  {
    if ops != [] {
      ApplyAllWithoutUpdates(ApplyOp(db, ops[0]).value, ops[1..]);
    }
  }

  /** No staged write deletes a document: every collection keeps at least its keys. */
  lemma {:induction false} ApplyAllKeepsKeys(db: Db, ops: seq<Op>)
    requires ApplyAll(db, ops).Some?
    ensures var db' := ApplyAll(db, ops).value;
      db.users.Keys <= db'.users.Keys && db.listings.Keys <= db'.listings.Keys && db.views.Keys <= db'.views.Keys
    decreases |ops|
  {
    if ops != [] {
      ApplyAllKeepsKeys(ApplyOp(db, ops[0]).value, ops[1..]);
    }
  }

  lemma {:induction false} ApplyAllAppend(db: Db, a: seq<Op>, b: seq<Op>)
    ensures ApplyAll(db, a + b) == match ApplyAll(db, a) case None => None case Some(d) => ApplyAll(d, b)
    decreases |a|
  {
    if a == [] {
      assert a + b == b;
    } else {
      assert (a + b)[1..] == a[1..] + b;
      match ApplyOp(db, a[0])
      case None =>
      case Some(db') => ApplyAllAppend(db', a[1..], b);
    }
  }

  // ---------------------------------------------------------------- the staged batch

  /** The merged fields of a seed user: `{ ...user, createdAt: now, lastLogin: now, listings: [] }`. */
  function SeedFields(u: SeedUser): Doc {
    map["uid" := Str(u.uid), "displayName" := Str(u.displayName), "email" := Str(u.email),
        "createdAt" := Now, "lastLogin" := Now, "listings" := Arr([])]
  }

  function SeedOps(): seq<Op> {
    [SetMerge(DummyUsers[0].uid, SeedFields(DummyUsers[0])),
     SetMerge(DummyUsers[1].uid, SeedFields(DummyUsers[1])),
     SetMerge(DummyUsers[2].uid, SeedFields(DummyUsers[2]))]
  }

  /** The three writes staged for one listing, in source order. */
  function ListingOps(l: GeneratedListing): seq<Op> {
    [SetListing(l.id, l.doc),
     UpdateArrayUnion(l.doc.authorId, "listings", Str(l.id)),
     SetViews(l.id, ViewStats(l.doc.views, [], Now))]
  }

  function ListingsOps(ls: seq<GeneratedListing>): seq<Op>
    decreases |ls|
  {
    if ls == [] then [] else ListingsOps(ls[..|ls| - 1]) + ListingOps(ls[|ls| - 1])
  }

  /** The whole batch of one generateDummyListings call that produced ls. */
  function StagedBatch(ls: seq<GeneratedListing>): seq<Op> {
    SeedOps() + ListingsOps(ls)
  }

  /** Staging one more listing appends its three writes to the batch. */
  lemma StagedBatchSnoc(ls: seq<GeneratedListing>, l: GeneratedListing)
    ensures StagedBatch(ls + [l]) == StagedBatch(ls) + ListingOps(l)
  {
    assert (ls + [l])[..|ls|] == ls;
  }

  lemma {:induction false} ListingsOpsShape(ls: seq<GeneratedListing>)
    ensures |ListingsOps(ls)| == 3 * |ls|
    ensures forall j :: 0 <= j < |ls| ==> ListingsOps(ls)[3 * j .. 3 * j + 3] == ListingOps(ls[j])
    decreases |ls|
  {
    if ls != [] {
      var n := |ls| - 1;
      var prefix := ls[..n];
      ListingsOpsShape(prefix);
      var p := ListingsOps(prefix);
      assert ListingsOps(ls) == p + ListingOps(ls[n]);
      forall j | 0 <= j < |ls| ensures ListingsOps(ls)[3 * j .. 3 * j + 3] == ListingOps(ls[j]) {
        if j < n {
          assert prefix[j] == ls[j];
          assert ListingsOps(ls)[3 * j .. 3 * j + 3] == p[3 * j .. 3 * j + 3];
        } else {
          assert ListingsOps(ls)[3 * j .. 3 * j + 3] == ListingOps(ls[n]);
        }
      }
    }
  }

  /** 3 seed merges first, then for listing j the ops at 3 + 3j, 3 + 3j + 1 and 3 + 3j + 2: 3 + 3·n writes. */
  lemma StagedBatchShape(ls: seq<GeneratedListing>)
    ensures |StagedBatch(ls)| == 3 + 3 * |ls|
    ensures StagedBatch(ls)[..3] == SeedOps()
    ensures forall j :: 0 <= j < |ls| ==>
      && StagedBatch(ls)[3 + 3 * j] == SetListing(ls[j].id, ls[j].doc)
      && StagedBatch(ls)[3 + 3 * j + 1] == UpdateArrayUnion(ls[j].doc.authorId, "listings", Str(ls[j].id))
      && StagedBatch(ls)[3 + 3 * j + 2] == SetViews(ls[j].id, ViewStats(ls[j].doc.views, [], Now))
  {
    ListingsOpsShape(ls);
    ConcatShape(SeedOps(), ListingsOps(ls), ls);
  }

  lemma ConcatShape(seeds: seq<Op>, writes: seq<Op>, ls: seq<GeneratedListing>)
    requires |seeds| == 3 && |writes| == 3 * |ls|
    requires forall j :: 0 <= j < |ls| ==> writes[3 * j .. 3 * j + 3] == ListingOps(ls[j])
    ensures (seeds + writes)[..3] == seeds
    ensures forall j :: 0 <= j < |ls| ==>
      && (seeds + writes)[3 + 3 * j] == SetListing(ls[j].id, ls[j].doc)
      && (seeds + writes)[3 + 3 * j + 1] == UpdateArrayUnion(ls[j].doc.authorId, "listings", Str(ls[j].id))
      && (seeds + writes)[3 + 3 * j + 2] == SetViews(ls[j].id, ViewStats(ls[j].doc.views, [], Now))
  {
    var b := seeds + writes;
    forall j | 0 <= j < |ls|
      ensures b[3 + 3 * j] == SetListing(ls[j].id, ls[j].doc)
      ensures b[3 + 3 * j + 1] == UpdateArrayUnion(ls[j].doc.authorId, "listings", Str(ls[j].id))
      ensures b[3 + 3 * j + 2] == SetViews(ls[j].id, ViewStats(ls[j].doc.views, [], Now))
    {
      assert b[3 + 3 * j .. 3 + 3 * j + 3] == writes[3 * j .. 3 * j + 3];
    }
  }

  // ---------------------------------------------------------------- the committed state

  /** The ids arrayUnion leaves in `users/{uid}.listings` after the reset to [], in order, without repeats. */
  function AuthorIds(ls: seq<GeneratedListing>, uid: string): seq<Value>
    decreases |ls|
  {
    if ls == [] then []
    else
      var prev := AuthorIds(ls[..|ls| - 1], uid);
      var l := ls[|ls| - 1];
      if l.doc.authorId == uid then (if Str(l.id) in prev then prev else prev + [Str(l.id)]) else prev
  }

  /** AuthorIds holds exactly the ids of uid's listings, each once. */
  lemma {:induction false} AuthorIdsExact(ls: seq<GeneratedListing>, uid: string)
    ensures Distinct(AuthorIds(ls, uid))
    ensures forall x :: Str(x) in AuthorIds(ls, uid) <==> exists j :: 0 <= j < |ls| && ls[j].id == x && ls[j].doc.authorId == uid
    ensures forall v :: v in AuthorIds(ls, uid) ==> v.Str?
    decreases |ls|
  {
    if ls != [] {
      var n := |ls| - 1;
      AuthorIdsExact(ls[..n], uid);
      forall x
        ensures Str(x) in AuthorIds(ls, uid) <==> exists j :: 0 <= j < |ls| && ls[j].id == x && ls[j].doc.authorId == uid
      {
        if Str(x) in AuthorIds(ls, uid) && Str(x) !in AuthorIds(ls[..n], uid) {
          assert ls[n].id == x && ls[n].doc.authorId == uid;
        }
        if exists j :: 0 <= j < |ls| && ls[j].id == x && ls[j].doc.authorId == uid {
          var j :| 0 <= j < |ls| && ls[j].id == x && ls[j].doc.authorId == uid;
          if j < n {
            assert ls[..n][j] == ls[j];
          }
        }
      }
    }
  }

  /** Seed user i after the batch: the merged fields, `listings` reset and grown by arrayUnion, other fields kept. */
  ghost predicate SeedUserCommitted(db0: Db, db: Db, ls: seq<GeneratedListing>, i: int)
    requires 0 <= i < 3
  {
    var u := DummyUsers[i];
    && u.uid in db.users
    && db.users[u.uid].Keys == (if u.uid in db0.users then db0.users[u.uid].Keys else {}) + SeedFields(u).Keys
    && (forall k :: k in SeedFields(u) && k != "listings" ==> db.users[u.uid][k] == SeedFields(u)[k])
    && db.users[u.uid]["listings"] == Arr(AuthorIds(ls, u.uid))
    && (forall k :: u.uid in db0.users && k in db0.users[u.uid] && k !in SeedFields(u) ==>
          db.users[u.uid][k] == db0.users[u.uid][k])
  }

  ghost predicate OtherUsersKept(db0: Db, db: Db) {
    forall uid :: uid !in SeedIds ==> Get(db.users, uid) == Get(db0.users, uid)
  }

  /** ls[j] is the last listing with its id, so its write is the one that stays. */
  predicate LastWith(ls: seq<GeneratedListing>, j: int) {
    0 <= j < |ls| && forall k :: j < k < |ls| ==> ls[k].id != ls[j].id
  }

  predicate HasId(ls: seq<GeneratedListing>, id: string) {
    exists j :: 0 <= j < |ls| && ls[j].id == id
  }

  ghost predicate ListingsWritten(db: Db, ls: seq<GeneratedListing>) {
    forall j :: LastWith(ls, j) ==>
      ls[j].id in db.listings && db.listings[ls[j].id] == ls[j].doc &&
      ls[j].id in db.views && db.views[ls[j].id] == ViewStats(ls[j].doc.views, [], Now)
  }

  ghost predicate OtherListingsKept(db0: Db, db: Db, ls: seq<GeneratedListing>) {
    forall id :: !HasId(ls, id) ==> Get(db.listings, id) == Get(db0.listings, id) && Get(db.views, id) == Get(db0.views, id)
  }

  /** What a committed batch leaves, relative to the state db0 before it, once the seeds and the writes for ls are applied. */
  ghost predicate Committed(db0: Db, db: Db, ls: seq<GeneratedListing>) {
    && (forall i :: 0 <= i < 3 ==> SeedUserCommitted(db0, db, ls, i))
    && OtherUsersKept(db0, db)
    && ListingsWritten(db, ls)
    && OtherListingsKept(db0, db, ls)
  }

  lemma ApplyThree(db: Db, a: Op, b: Op, c: Op)
    ensures ApplyAll(db, [a, b, c]) ==
      match ApplyOp(db, a)
      case None => None
      case Some(d1) =>
        match ApplyOp(d1, b)
        case None => None
        case Some(d2) => ApplyOp(d2, c)
  {
    assert [a, b, c][1..] == [b, c];
    assert [b, c][1..] == [c];
    assert [c][1..] == [];
    match ApplyOp(db, a)
    case None =>
    case Some(d1) =>
      assert ApplyAll(db, [a, b, c]) == ApplyAll(d1, [b, c]);
      match ApplyOp(d1, b)
      case None =>
      case Some(d2) =>
        assert ApplyAll(d1, [b, c]) == ApplyAll(d2, [c]);
        match ApplyOp(d2, c)
        case None =>
        case Some(d3) => assert ApplyAll(d2, [c]) == ApplyAll(d3, []);
  }

  function Merged(users: map<string, Doc>, u: SeedUser): map<string, Doc> {
    users[u.uid := (if u.uid in users then users[u.uid] else map[]) + SeedFields(u)]
  }

  function AfterSeeds(db0: Db): Db {
    db0.(users := Merged(Merged(Merged(db0.users, DummyUsers[0]), DummyUsers[1]), DummyUsers[2]))
  }

  lemma AfterSeedsUser(db0: Db, i: int)
    requires 0 <= i < 3
    ensures var u := DummyUsers[i];
      u.uid in AfterSeeds(db0).users &&
      AfterSeeds(db0).users[u.uid] == (if u.uid in db0.users then db0.users[u.uid] else map[]) + SeedFields(u)
  {
    assert DummyUsers[0].uid == "dummy1" && DummyUsers[1].uid == "dummy2" && DummyUsers[2].uid == "dummy3";
  }

  lemma SeedsApplied(db0: Db)
    ensures ApplyAll(db0, SeedOps()) == Some(AfterSeeds(db0))
  {
    ApplyThree(db0, SeedOps()[0], SeedOps()[1], SeedOps()[2]);
    assert SeedOps() == [SeedOps()[0], SeedOps()[1], SeedOps()[2]];
  }

  lemma SeedsCommitted(db0: Db)
    ensures ApplyAll(db0, SeedOps()) == Some(AfterSeeds(db0))
    ensures Committed(db0, AfterSeeds(db0), [])
  {
    SeedsApplied(db0);
    SeedUsersMerged(db0);
    SeedsKeepOthers(db0);
    var db := AfterSeeds(db0);
    assert ListingsWritten(db, []);
    assert OtherListingsKept(db0, db, []);
  }

  lemma SeedUsersMerged(db0: Db)
    ensures forall i :: 0 <= i < 3 ==> SeedUserCommitted(db0, AfterSeeds(db0), [], i)
  {
    forall i | 0 <= i < 3 ensures SeedUserCommitted(db0, AfterSeeds(db0), [], i) {
      AfterSeedsUser(db0, i);
    }
  }

  lemma SeedsKeepOthers(db0: Db)
    ensures OtherUsersKept(db0, AfterSeeds(db0))
  {
    var db := AfterSeeds(db0);
    forall uid | uid !in SeedIds ensures Get(db.users, uid) == Get(db0.users, uid) {
      assert uid != "dummy1" && uid != "dummy2" && uid != "dummy3";
    }
  }

  function AfterListing(db: Db, l: GeneratedListing): Db
    requires l.doc.authorId in db.users
  {
    var a := l.doc.authorId;
    var d1 := db.(listings := db.listings[l.id := l.doc]);
    var d2 := d1.(users := d1.users[a := d1.users[a]["listings" := ArrayUnion(Get(d1.users[a], "listings"), Str(l.id))]]);
    d2.(views := d2.views[l.id := ViewStats(l.doc.views, [], Now)])
  }

  lemma SeedUserStep(db0: Db, db: Db, ls: seq<GeneratedListing>, l: GeneratedListing, i: int)
    requires 0 <= i < 3 && l.doc.authorId in db.users
    requires SeedUserCommitted(db0, db, ls, i)
    ensures SeedUserCommitted(db0, AfterListing(db, l), ls + [l], i)
  {
    var ls' := ls + [l];
    assert ls'[..|ls'| - 1] == ls && ls'[|ls'| - 1] == l;
  }

  lemma ListingsStep(db0: Db, db: Db, ls: seq<GeneratedListing>, l: GeneratedListing)
    requires l.doc.authorId in db.users
    requires ListingsWritten(db, ls) && OtherListingsKept(db0, db, ls)
    ensures ListingsWritten(AfterListing(db, l), ls + [l])
    ensures OtherListingsKept(db0, AfterListing(db, l), ls + [l])
  {
    var ls' := ls + [l];
    var db' := AfterListing(db, l);
    forall j | LastWith(ls', j)
      ensures ls'[j].id in db'.listings && db'.listings[ls'[j].id] == ls'[j].doc
      ensures ls'[j].id in db'.views && db'.views[ls'[j].id] == ViewStats(ls'[j].doc.views, [], Now)
    {
      if j < |ls| {
        assert ls'[|ls|] == l;
        forall k | j < k < |ls| ensures ls[k].id != ls[j].id {
          assert ls'[k] == ls[k];
        }
        assert ls'[j] == ls[j] && LastWith(ls, j);
      }
    }
    forall id | !HasId(ls', id)
      ensures Get(db'.listings, id) == Get(db0.listings, id) && Get(db'.views, id) == Get(db0.views, id)
    {
      assert ls'[|ls|].id == l.id;
      assert !HasId(ls, id) by {
        forall j | 0 <= j < |ls| ensures ls[j].id != id {
          assert ls'[j] == ls[j];
        }
      }
    }
  }

  lemma {:induction false} ListingCommitted(db0: Db, db: Db, ls: seq<GeneratedListing>, l: GeneratedListing)
    requires Committed(db0, db, ls)
    requires l.doc.authorId in SeedIds
    ensures l.doc.authorId in db.users
    ensures ApplyAll(db, ListingOps(l)) == Some(AfterListing(db, l))
    ensures Committed(db0, AfterListing(db, l), ls + [l])
  {
    var i :| 0 <= i < 3 && SeedIds[i] == l.doc.authorId;
    assert DummyUsers[i].uid == l.doc.authorId;
    assert SeedUserCommitted(db0, db, ls, i);
    var ops := ListingOps(l);
    ApplyThree(db, ops[0], ops[1], ops[2]);
    assert ops == [ops[0], ops[1], ops[2]];
    forall i' | 0 <= i' < 3 ensures SeedUserCommitted(db0, AfterListing(db, l), ls + [l], i') {
      SeedUserStep(db0, db, ls, l, i');
    }
    ListingsStep(db0, db, ls, l);
  }

  lemma {:induction false} ListingsCommitted(db0: Db, ls: seq<GeneratedListing>)
    requires forall j :: 0 <= j < |ls| ==> ls[j].doc.authorId in SeedIds
    ensures ApplyAll(db0, StagedBatch(ls)).Some?
    ensures Committed(db0, ApplyAll(db0, StagedBatch(ls)).value, ls)
    decreases |ls|
  {
    if ls == [] {
      SeedsCommitted(db0);
      assert StagedBatch(ls) == SeedOps();
    } else {
      var n := |ls| - 1;
      ListingsCommitted(db0, ls[..n]);
      CommittedSnoc(db0, ls[..n], ls[n]);
      assert ls[..n] + [ls[n]] == ls;
    }
  }

  /** The batch for one more listing commits whenever the shorter batch does. */
  lemma CommittedSnoc(db0: Db, prefix: seq<GeneratedListing>, l: GeneratedListing)
    requires ApplyAll(db0, StagedBatch(prefix)).Some?
    requires Committed(db0, ApplyAll(db0, StagedBatch(prefix)).value, prefix)
    requires l.doc.authorId in SeedIds
    ensures ApplyAll(db0, StagedBatch(prefix + [l])).Some?
    ensures Committed(db0, ApplyAll(db0, StagedBatch(prefix + [l])).value, prefix + [l])
  {
    var db := ApplyAll(db0, StagedBatch(prefix)).value;
    ListingCommitted(db0, db, prefix, l);
    StagedBatchSnoc(prefix, l);
    ApplyAllAppend(db0, StagedBatch(prefix), ListingOps(l));
  }

  /**
   * The batch of a successful call never fails on its own (every update names a seed
   * user the batch has just merged), and after it each seed user's `listings` holds
   * exactly this call's ids for that user.
   */
  lemma BatchResetsSeedListings(db0: Db, ls: seq<GeneratedListing>)
    requires forall j :: 0 <= j < |ls| ==> ls[j].doc.authorId in SeedIds
    ensures ApplyAll(db0, StagedBatch(ls)).Some?
    ensures forall i, x :: 0 <= i < 3 ==>
      var users := ApplyAll(db0, StagedBatch(ls)).value.users;
      && DummyUsers[i].uid in users && "listings" in users[DummyUsers[i].uid]
      && users[DummyUsers[i].uid]["listings"].Arr?
      && Distinct(users[DummyUsers[i].uid]["listings"].items)
      && (Str(x) in users[DummyUsers[i].uid]["listings"].items <==>
            exists j :: 0 <= j < |ls| && ls[j].id == x && ls[j].doc.authorId == DummyUsers[i].uid)
  {
    ListingsCommitted(db0, ls);
    var users := ApplyAll(db0, StagedBatch(ls)).value.users;
    forall i, x | 0 <= i < 3
      ensures DummyUsers[i].uid in users && "listings" in users[DummyUsers[i].uid]
      ensures users[DummyUsers[i].uid]["listings"] == Arr(AuthorIds(ls, DummyUsers[i].uid))
      ensures Distinct(AuthorIds(ls, DummyUsers[i].uid))
      ensures Str(x) in AuthorIds(ls, DummyUsers[i].uid) <==>
            exists j :: 0 <= j < |ls| && ls[j].id == x && ls[j].doc.authorId == DummyUsers[i].uid
    {
      assert SeedUserCommitted(db0, ApplyAll(db0, StagedBatch(ls)).value, ls, i);
      assert "listings" in SeedFields(DummyUsers[i]);
      AuthorIdsExact(ls, DummyUsers[i].uid);
    }
  }

  // ---------------------------------------------------------------- the store

  /** The remote document store, seen as three collections. */
  class Store {
    var users: map<string, Doc>
    var listings: map<string, ListingDoc>
    var views: map<string, ViewStats>

    function Snapshot(): Db
      reads this
    {
      Db(users, listings, views)
    }

    constructor (db: Db)
      ensures Snapshot() == db
    {
      users, listings, views := db.users, db.listings, db.views;
    }

    /**
     * batch.commit(): a transport failure, or a staged write that fails, leaves every
     * collection as it was; otherwise all writes become visible at once.
     */
    method Commit(batch: seq<Op>, transportError: Option<string>) returns (err: Option<string>)
      modifies this
      ensures transportError.Some? ==> err == transportError
      ensures transportError.None? ==> (err.None? <==> ApplyAll(old(Snapshot()), batch).Some?)
      ensures err.None? ==> Some(Snapshot()) == ApplyAll(old(Snapshot()), batch)
      ensures err.Some? ==> Snapshot() == old(Snapshot())
    {
      if transportError.Some? {
        return transportError;
      }
      var after := ApplyAll(Snapshot(), batch);
      if after.None? {
        return Some("No document to update");
      }
      users, listings, views := after.value.users, after.value.listings, after.value.views;
      err := None;
    }
  }
}
