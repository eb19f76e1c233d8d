/**
 * The user list component (src/components/users/UserList.js): rows are the
 * documents with their id, the make-admin update is the one of UsersPage, and the
 * table shows name, role and button.
 */
module UserList {
  import opened Wrappers
  import opened Documents
  import opened Rows

  /** `snapshot.docs.map(doc => ({ id: doc.id, ...doc.data() }))`: this mapping cannot throw. */
  function ListRows(docs: seq<FetchedDoc>): (rows: seq<Doc>)
    ensures |rows| == |docs|
    ensures forall i :: 0 <= i < |docs| ==> rows[i].Keys == docs[i].data.Keys + {"id"}
    ensures forall i :: 0 <= i < |docs| && "id" !in docs[i].data ==> rows[i]["id"] == Str(docs[i].id)
    ensures forall i, k :: 0 <= i < |docs| && k in docs[i].data ==> rows[i][k] == docs[i].data[k]
  {
    seq(|docs|, i requires 0 <= i < |docs| => BaseRow(docs[i]))
  }

  /** The name cell's fallback: `user.displayName || 'N/A'`. */
  const NoName: string := "N/A"

  /** `user.admin ? 'Admin' : 'User'` */
  function RoleCell(user: Doc): (cell: string)
    ensures cell == "Admin" <==> IsAdmin(user)
    ensures cell == "User" <==> !IsAdmin(user)
  {
    if IsAdmin(user) then "Admin" else "User"
  }

  /** `!user.admin && <Button>Make Admin</Button>` */
  function ShowsMakeAdmin(user: Doc): (shown: bool)
    ensures shown <==> RoleCell(user) == "User"
  {
    !IsAdmin(user)
  }

  /** After the update every matching row reads Admin without a button; no other row's cells change. */
  lemma MakeAdminDisplay(users: seq<Doc>, uid: Value)
    ensures forall i :: 0 <= i < |users| && HasId(users[i], uid) ==>
      RoleCell(MakeAdmin(users, uid)[i]) == "Admin" && !ShowsMakeAdmin(MakeAdmin(users, uid)[i])
    ensures forall i :: 0 <= i < |users| ==> NameOr(MakeAdmin(users, uid)[i], NoName) == NameOr(users[i], NoName)
  {
    forall i | 0 <= i < |users| ensures NameOr(MakeAdmin(users, uid)[i], NoName) == NameOr(users[i], NoName) {
      var after := MakeAdmin(users, uid)[i];
      if HasId(users[i], uid) {
        assert ("displayName" in after) == ("displayName" in users[i]);
      }
    }
  }

  /** The component state: `users` and `loading`. */
  class State {
    var users: seq<Doc>
    var loading: bool

    /** `useState([])`, `useState(true)` */
    constructor ()
      ensures users == [] && loading
    {
      users, loading := [], true;
    }

    /** The fetch effect settling: the rows on success, the list untouched on a rejection, loading cleared in `finally`. */
    method FetchSettled(reply: FetchReply)
      modifies this
      ensures !loading
      ensures reply.Docs? ==> users == ListRows(reply.docs)
      ensures reply.QueryFailed? ==> users == old(users)
    {
      if reply.Docs? {
        users := ListRows(reply.docs);
      }
      loading := false;
    }

    /** handleMakeAdmin(uid): `failure` is how `makeUserAdmin(uid)` rejects, None when it resolves. */
    method HandleMakeAdmin(uid: Value, failure: Option<string>)
      modifies this
      ensures failure.None? ==> users == MakeAdmin(old(users), uid)
      ensures failure.Some? ==> users == old(users)
      ensures loading == old(loading)
    {
      if failure.None? {
        users := MakeAdmin(users, uid);
      }
    }
  }
}
