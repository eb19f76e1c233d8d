/**
 * What the admin pages do with a query snapshot: each document becomes a row
 * object `{ id: doc.id, ...doc.data(), <overrides> }`, and the whole `.map` fails
 * when one override throws. Also the make-admin row update shared by
 * src/pages/users/UsersPage.js and src/components/users/UserList.js.
 */
module Rows {
  import opened Wrappers
  import opened Documents

  /** One document of a query snapshot: `doc.id` and `doc.data()`. */
  datatype FetchedDoc = FetchedDoc(id: string, data: Doc)

  /** How `getDocs(q)` settles: the documents in query order, or a rejection. */
  datatype FetchReply = QueryFailed | Docs(docs: seq<FetchedDoc>)

  /** `new Date(ms).toLocaleDateString()`: locale and time-zone dependent, so a parameter. */
  type DateFormat = int -> string

  /** `user.admin`, as a condition. */
  predicate IsAdmin(user: Doc) {
    "admin" in user && Truthy(user["admin"])
  }

  /** `{ id: doc.id, ...doc.data() }`: a field named `id` in the data overrides the document id. */
  function BaseRow(d: FetchedDoc): (row: Doc)
    ensures row.Keys == d.data.Keys + {"id"}
    ensures "id" !in d.data ==> row["id"] == Str(d.id)
    ensures forall k :: k in d.data ==> row[k] == d.data[k]
  {
    map["id" := Str(d.id)] + d.data
  }

  /** A value that has a `toDate()` method: only a Firestore timestamp. */
  predicate HasToDate(v: Value) {
    v.Timestamp?
  }

  /**
   * `v?.toDate().toLocaleDateString() || fallback`, where `v` is None for `undefined`.
   * None: `v` is neither nullish nor a timestamp, so `toDate` is not a function and the
   * call throws a TypeError.
   */
  function DateText(v: Option<Value>, format: DateFormat, fallback: string): (r: Option<string>)
    ensures r.Some? <==> v.None? || v.value.Null? || HasToDate(v.value)
    ensures (v.None? || v == Some(Null)) ==> r == Some(fallback)
    ensures v.Some? && HasToDate(v.value) && format(v.value.millis) != "" ==> r == Some(format(v.value.millis))
    ensures v.Some? && HasToDate(v.value) && format(v.value.millis) == "" ==> r == Some(fallback)
    ensures r.Some? && fallback != "" ==> r.value != ""
  {
    match v
    case None => Some(fallback)
    case Some(Null) => Some(fallback)
    case Some(Timestamp(ms)) => Some(if format(ms) != "" then format(ms) else fallback)
    case Some(_) => None
  }

  /** `user.displayName || fallback`, the name cell of both user tables. */
  function NameOr(user: Doc, fallback: string): (v: Value)
    ensures fallback != "" ==> Truthy(v)
    ensures "displayName" in user && Truthy(user["displayName"]) ==> v == user["displayName"]
    ensures !("displayName" in user && Truthy(user["displayName"])) ==> v == Str(fallback)
  {
    FieldOr(user, "displayName", Str(fallback))
  }

  /** `snapshot.docs.map(f)`, where a row that throws makes the whole map throw. */
  function MapRows(docs: seq<FetchedDoc>, f: FetchedDoc -> Option<Doc>): (r: Option<seq<Doc>>)
    ensures r.Some? <==> forall i :: 0 <= i < |docs| ==> f(docs[i]).Some?
    ensures r.Some? ==> |r.value| == |docs| && forall i :: 0 <= i < |docs| ==> r.value[i] == f(docs[i]).value
    decreases |docs|
  {
    if docs == [] then Some([])
    else
      match f(docs[0])
      case None => None
      case Some(row) =>
        match MapRows(docs[1..], f)
        case None => None
        case Some(rest) => Some([row] + rest)
  }

  /** The MUI palette names a `<Chip color=...>` takes on these pages. */
  datatype ChipColor = ColorPrimary | ColorDefault | ColorSuccess | ColorError

  /** `row.id === id` (ids are compared as values). */
  predicate HasId(row: Doc, id: Value) {
    "id" in row && row["id"] == id
  }

  /** `{...before, admin: true}`: `admin` set to true, every other field kept. */
  predicate AdminGranted(before: Doc, after: Doc) {
    && after.Keys == before.Keys + {"admin"}
    && after["admin"] == Bool(true)
    && forall k :: k in before && k != "admin" ==> after[k] == before[k]
  }

  /** `users.map(user => user.id === uid ? {...user, admin: true} : user)` */
  function MakeAdmin(users: seq<Doc>, uid: Value): (r: seq<Doc>)
    ensures |r| == |users|
    ensures forall i :: 0 <= i < |users| && HasId(users[i], uid) ==> AdminGranted(users[i], r[i])
    ensures forall i :: 0 <= i < |users| && !HasId(users[i], uid) ==> r[i] == users[i]
  {
    seq(|users|, i requires 0 <= i < |users| => if HasId(users[i], uid) then users[i]["admin" := Bool(true)] else users[i])
  }

  /** Granting an admin flag keeps the row's id, so the row still matches. */
  lemma AdminGrantedKeepsId(before: Doc, after: Doc, id: Value)
    requires AdminGranted(before, after)
    ensures HasId(after, id) <==> HasId(before, id)
  {
    assert "id" != "admin";
  }

  /** Making the same user admin twice gives the list of doing it once. */
  lemma MakeAdminIdempotent(users: seq<Doc>, uid: Value)
    ensures MakeAdmin(MakeAdmin(users, uid), uid) == MakeAdmin(users, uid)
  {
    var once := MakeAdmin(users, uid);
    var twice := MakeAdmin(once, uid);
    forall i | 0 <= i < |users| ensures twice[i] == once[i] {
      if HasId(users[i], uid) {
        AdminGrantedKeepsId(users[i], once[i], uid);
        assert AdminGranted(once[i], twice[i]);
        assert twice[i].Keys == once[i].Keys;
      }
    }
  }

  /** A uid that no row carries leaves the list as it is. */
  lemma MakeAdminAbsent(users: seq<Doc>, uid: Value)
    requires forall i :: 0 <= i < |users| ==> !HasId(users[i], uid)
    ensures MakeAdmin(users, uid) == users
  {
  }

  /** Making two users admin gives the same list in either order. */
  lemma MakeAdminCommutes(users: seq<Doc>, a: Value, b: Value)
    ensures MakeAdmin(MakeAdmin(users, a), b) == MakeAdmin(MakeAdmin(users, b), a)
  {
    var ab := MakeAdmin(MakeAdmin(users, a), b);
    var ba := MakeAdmin(MakeAdmin(users, b), a);
    forall i | 0 <= i < |users| ensures ab[i] == ba[i] {
      var u := users[i];
      var ua := MakeAdmin(users, a)[i];
      var ub := MakeAdmin(users, b)[i];
      if HasId(u, a) { AdminGrantedKeepsId(u, ua, b); }
      if HasId(u, b) { AdminGrantedKeepsId(u, ub, a); }
      if HasId(u, a) || HasId(u, b) {
        assert ab[i].Keys == ba[i].Keys;
      }
    }
  }
}
