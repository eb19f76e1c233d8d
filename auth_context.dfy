/**
 * The authentication provider (src/context/AuthContext.js) as a state machine.
 * Its state is user, isAdmin (null until first known) and loading. The
 * onAuthStateChanged callback is async. It runs up to `await checkIsAdmin()` when
 * the event arrives, and the rest runs when that check settles. So a signed-in
 * event is two steps here: the event itself, which hands out a ticket, and a later
 * settlement of that ticket's admin check.
 */
module AuthContext {
  import opened Wrappers

  /** The signed-in Firebase user; only its identity matters here. */
  datatype User = User(uid: string, email: string)

  /** How the awaited `checkIsAdmin()` settles. */
  datatype AdminCheck = Resolved(admin: bool) | Rejected

  /** The value the callback stores: the check's answer, or false in its catch. */
  function AdminStatus(check: AdminCheck): (status: bool)
    ensures status <==> check == Resolved(true)
    ensures check.Rejected? ==> !status
  {
    match check
    case Resolved(admin) => admin
    case Rejected => false
  }

  class AuthProvider {
    var user: Option<User>
    var isAdmin: Option<bool>   // null: not yet known
    var loading: bool
    var subscribed: bool        // the onAuthStateChanged listener is still registered
    var events: nat             // auth events handled so far; a signed-in event's ticket is its number
    var pending: set<nat>       // tickets whose admin check has not settled yet

    /** Once loading is over isAdmin is a boolean, and every pending ticket was handed out by a signed-in event. */
    ghost predicate Valid()
      reads this
    {
      && (!loading ==> isAdmin.Some?)
      && (forall t :: t in pending ==> t < events)
    }

    /** useState(null), useState(null), useState(true), then the effect subscribes. */
    constructor ()
      ensures Valid()
      ensures user.None? && isAdmin.None? && loading
      ensures subscribed && events == 0 && pending == {}
    {
      user, isAdmin, loading := None, None, true;
      subscribed, events, pending := true, 0, {};
    }

    /**
     * The callback up to its first await. A signed-out event also runs to the end:
     * isAdmin false, loading false, no check consulted. A signed-in event returns the
     * ticket of the admin check it starts. After the unsubscribe nothing happens.
     */
    method OnAuthStateChanged(u: Option<User>) returns (ticket: Option<nat>)
      requires Valid()
      modifies this
      ensures Valid()
      ensures !old(subscribed) ==>
        && ticket.None? && user == old(user) && isAdmin == old(isAdmin) && loading == old(loading)
        && subscribed == old(subscribed) && events == old(events) && pending == old(pending)
      ensures old(subscribed) ==> user == u && subscribed && events == old(events) + 1
      ensures old(subscribed) && u.None? ==>
        && isAdmin == Some(false) && !loading && ticket.None? && pending == old(pending)
      ensures old(subscribed) && u.Some? ==>
        && isAdmin == old(isAdmin) && loading == old(loading)
        && ticket == Some(old(events)) && old(events) !in old(pending) && pending == old(pending) + {old(events)}
    {
      ticket := None;
      if !subscribed {
        return;
      }
      user := u;
      if u.None? {
        isAdmin := Some(false);
        loading := false;
      } else {
        ticket := Some(events);
        pending := pending + {events};
      }
      events := events + 1;
    }

    /**
     * The callback after `await checkIsAdmin()` for `ticket`: isAdmin from the check,
     * then loading false. The closure does not look at later events, so a check that
     * settles after a later event still writes isAdmin. Once unmounted, the state
     * updates are dropped.
     */
    method AdminCheckSettled(ticket: nat, check: AdminCheck)
      requires Valid() && ticket in pending
      modifies this
      ensures Valid()
      ensures pending == old(pending) - {ticket}
      ensures user == old(user) && subscribed == old(subscribed) && events == old(events)
      ensures old(subscribed) ==> isAdmin == Some(AdminStatus(check)) && !loading
      ensures !old(subscribed) ==> isAdmin == old(isAdmin) && loading == old(loading)
    {
      pending := pending - {ticket};
      if subscribed {
        isAdmin := Some(AdminStatus(check));
        loading := false;
      }
    }

    /** The effect's cleanup `() => unsubscribe()`. */
    method Unsubscribe()
      requires Valid()
      modifies this
      ensures Valid()
      ensures !subscribed
      ensures user == old(user) && isAdmin == old(isAdmin) && loading == old(loading)
      ensures events == old(events) && pending == old(pending)
    {
      subscribed := false;
    }
  }

  /**
   * A signed-in start settles like this: the user is set, and once the check
   * settles isAdmin is its answer and loading is over.
   */
  method SignInTrace(u: User, check: AdminCheck) returns (p: AuthProvider)
    ensures p.user == Some(u) && p.isAdmin == Some(AdminStatus(check)) && !p.loading && p.pending == {}
  {
    p := new AuthProvider();
    var ticket := p.OnAuthStateChanged(Some(u));
    p.AdminCheckSettled(ticket.value, check);
  }

  /** A check that settles after a later sign-out still writes its answer: isAdmin can be true with no user. */
  method LateCheckAfterSignOut(u: User) returns (p: AuthProvider)
    ensures p.user.None? && p.isAdmin == Some(true) && !p.loading
  {
    p := new AuthProvider();
    var ticket := p.OnAuthStateChanged(Some(u));
    var none := p.OnAuthStateChanged(None);
    p.AdminCheckSettled(ticket.value, Resolved(true));
  }

  /**
   * After the cleanup neither a new auth event nor the settling of a check that was
   * already running changes what the provider exposes.
   */
  method EventsAfterUnsubscribe(u: User, v: User, check: AdminCheck) returns (p: AuthProvider)
    ensures p.user == Some(u) && p.isAdmin.None? && p.loading && !p.subscribed
  {
    p := new AuthProvider();
    var ticket := p.OnAuthStateChanged(Some(u));
    p.Unsubscribe();
    var late := p.OnAuthStateChanged(Some(v));
    var none := p.OnAuthStateChanged(None);
    p.AdminCheckSettled(ticket.value, check);
  }
}
