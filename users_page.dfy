/**
 * The user-management page (src/pages/users/UsersPage.js): the fetched rows with
 * their `lastSignIn` fallback, the make-admin list update and the display rules of
 * the user table.
 */
module UsersPage {
  import opened Wrappers
  import opened Documents
  import opened Rows

  const NeverSignedIn: string := "Never"
  /** The name cell's fallback: `user.displayName || 'No name'`. */
  const NoName: string := "No name"

  /** `{ id: doc.id, ...doc.data(), lastSignIn: doc.data().lastSignIn?.toDate().toLocaleDateString() || 'Never' }` */
  function UserRow(d: FetchedDoc, format: DateFormat): (row: Option<Doc>)
    ensures row.Some? <==> var v := Get(d.data, "lastSignIn"); v.None? || v.value.Null? || HasToDate(v.value)
    ensures row.Some? ==> row.value.Keys == d.data.Keys + {"id", "lastSignIn"}
    ensures row.Some? && "id" !in d.data ==> row.value["id"] == Str(d.id)
    ensures row.Some? ==> forall k :: k in d.data && k != "lastSignIn" ==> row.value[k] == d.data[k]
    ensures row.Some? ==> row.value["lastSignIn"].Str? && row.value["lastSignIn"].s != ""
    ensures row.Some? && Get(d.data, "lastSignIn") in {None, Some(Null)} ==> row.value["lastSignIn"] == Str(NeverSignedIn)
    ensures "lastSignIn" in d.data && d.data["lastSignIn"].Timestamp? ==> var ms := d.data["lastSignIn"].millis;
      row.Some? && row.value["lastSignIn"] == Str(if format(ms) != "" then format(ms) else NeverSignedIn)
  {
    match DateText(Get(d.data, "lastSignIn"), format, NeverSignedIn)
    case None => None
    case Some(text) => Some(BaseRow(d)["lastSignIn" := Str(text)])
  }

  /** `snapshot.docs.map(...)` of the fetch effect; None: one row threw. */
  function UserRows(docs: seq<FetchedDoc>, format: DateFormat): (rows: Option<seq<Doc>>)
    ensures rows.Some? <==> forall i :: 0 <= i < |docs| ==> UserRow(docs[i], format).Some?
    ensures rows.Some? ==> |rows.value| == |docs| && forall i :: 0 <= i < |docs| ==> rows.value[i] == UserRow(docs[i], format).value
  {
    MapRows(docs, d => UserRow(d, format))
  }

  /** The rows of a successful fetch each carry a non-empty `lastSignIn` and every key of their document. */
  lemma FetchedUserRows(docs: seq<FetchedDoc>, format: DateFormat)
    ensures UserRows(docs, format).Some? <==>
      forall i :: 0 <= i < |docs| ==> var v := Get(docs[i].data, "lastSignIn"); v.None? || v.value.Null? || HasToDate(v.value)
    ensures UserRows(docs, format).Some? ==> var rows := UserRows(docs, format).value;
      |rows| == |docs| &&
      forall i :: 0 <= i < |docs| ==>
        && rows[i].Keys == docs[i].data.Keys + {"id", "lastSignIn"}
        && rows[i]["lastSignIn"].Str? && rows[i]["lastSignIn"].s != ""
        && ("id" !in docs[i].data ==> rows[i]["id"] == Str(docs[i].id))
  {
    var f := d => UserRow(d, format);
    var r := MapRows(docs, f);
    assert UserRows(docs, format) == r;
    if r.Some? {
      forall i | 0 <= i < |docs|
        ensures r.value[i].Keys == docs[i].data.Keys + {"id", "lastSignIn"}
        ensures r.value[i]["lastSignIn"].Str? && r.value[i]["lastSignIn"].s != ""
        ensures "id" !in docs[i].data ==> r.value[i]["id"] == Str(docs[i].id)
      {
        assert r.value[i] == UserRow(docs[i], format).value;
      }
    }
  }

  /** The role chip: `user.admin ? 'Admin' : 'User'`, coloured primary for admins. */
  function RoleChip(user: Doc): (chip: (string, ChipColor))
    ensures chip.0 == "Admin" <==> IsAdmin(user)
    ensures chip.0 == "User" <==> !IsAdmin(user)
    ensures chip.1 == ColorPrimary <==> IsAdmin(user)
    ensures !IsAdmin(user) ==> chip.1 == ColorDefault
  {
    if IsAdmin(user) then ("Admin", ColorPrimary) else ("User", ColorDefault)
  }

  /** The status chip: `user.disabled ? 'Disabled' : 'Active'`, coloured error or success. */
  function StatusChip(user: Doc): (chip: (string, ChipColor))
    ensures chip.0 == "Disabled" <==> "disabled" in user && Truthy(user["disabled"])
    ensures chip.0 == "Active" <==> !("disabled" in user && Truthy(user["disabled"]))
    ensures chip.1 == (if chip.0 == "Disabled" then ColorError else ColorSuccess)
  {
    if "disabled" in user && Truthy(user["disabled"]) then ("Disabled", ColorError) else ("Active", ColorSuccess)
  }

  /** `!user.admin && <Button>Make Admin</Button>` */
  function ShowsMakeAdmin(user: Doc): (shown: bool)
    ensures shown <==> RoleChip(user).0 == "User"
  {
    !IsAdmin(user)
  }

  /** After the update the matching rows read Admin and lose their button; the other rows render as before. */
  lemma MakeAdminDisplay(users: seq<Doc>, uid: Value)
    ensures forall i :: 0 <= i < |users| && HasId(users[i], uid) ==>
      RoleChip(MakeAdmin(users, uid)[i]).0 == "Admin" && !ShowsMakeAdmin(MakeAdmin(users, uid)[i])
    ensures forall i :: 0 <= i < |users| && !HasId(users[i], uid) ==>
      RoleChip(MakeAdmin(users, uid)[i]) == RoleChip(users[i]) && StatusChip(MakeAdmin(users, uid)[i]) == StatusChip(users[i])
  {
  }

  /** `true` is truthy, and the update leaves `disabled` and `displayName` alone, so only the role cell changes. */
  lemma MakeAdminKeepsOtherCells(users: seq<Doc>, uid: Value)
    ensures forall i :: 0 <= i < |users| ==>
      && StatusChip(MakeAdmin(users, uid)[i]) == StatusChip(users[i])
      && NameOr(MakeAdmin(users, uid)[i], NoName) == NameOr(users[i], NoName)
  {
    forall i | 0 <= i < |users|
      ensures StatusChip(MakeAdmin(users, uid)[i]) == StatusChip(users[i])
      ensures NameOr(MakeAdmin(users, uid)[i], NoName) == NameOr(users[i], NoName)
    {
      var after := MakeAdmin(users, uid)[i];
      if HasId(users[i], uid) {
        assert AdminGranted(users[i], after);
        assert ("disabled" in after) == ("disabled" in users[i]);
        assert ("displayName" in after) == ("displayName" in users[i]);
      }
    }
  }

  /** The component state: `users` and `loading`. */
  class State {
    var users: seq<Doc>
    var loading: bool

    /** `useState([])`, `useState(true)` */
    constructor ()
      ensures users == [] && loading
    {
      users, loading := [], true;
    }

    /** The fetch effect settling: rows on success, the list untouched on any throw, loading cleared in `finally`. */
    method FetchSettled(reply: FetchReply, format: DateFormat)
      modifies this
      ensures !loading
      ensures reply.Docs? && UserRows(reply.docs, format).Some? ==> users == UserRows(reply.docs, format).value
      ensures !(reply.Docs? && UserRows(reply.docs, format).Some?) ==> users == old(users)
    {
      if reply.Docs? {
        var rows := UserRows(reply.docs, format);
        if rows.Some? {
          users := rows.value;
        }
      }
      loading := false;
    }

    /** handleMakeAdmin(uid): `failure` is how `makeUserAdmin(uid)` rejects, None when it resolves. */
    method HandleMakeAdmin(uid: Value, failure: Option<string>)
      modifies this
      ensures failure.None? ==> users == MakeAdmin(old(users), uid)
      ensures failure.Some? ==> users == old(users)
      ensures loading == old(loading)
    {
      if failure.None? {
        users := MakeAdmin(users, uid);
      }
    }
  }
}
