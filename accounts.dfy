/** User accounts and supplier profiles: the admin's add, edit and toggle of a
    user (app.py add_user, edit_user, toggle_user), the lookup of the supplier
    profile linked to a login, and the backfill that gives every supplier login
    a profile (app.py fix_supplier_profiles). Users are kept in id order, the
    order in which the backfill visits them. */
module Accounts {
  import opened Results
  import opened Models

  predicate IdsAscending(users: seq<User>) {
    forall i, j :: 0 <= i < j < |users| ==> users[i].id < users[j].id
  }

  /** The position of the user with this id (get_or_404). */
  function FindUser(users: seq<User>, id: int): (r: Option<nat>)
    ensures r.Some? ==> r.value < |users| && users[r.value].id == id
    ensures r.None? ==> forall i :: 0 <= i < |users| ==> users[i].id != id
  {
    if users == [] then None
    else if users[0].id == id then Some(0)
    else match FindUser(users[1..], id)
      case None => None
      case Some(i) => Some(i + 1)
  }

  predicate UsernameInUse(users: seq<User>, username: string) {
    exists i :: 0 <= i < |users| && users[i].username == username
  }

  predicate EmailInUse(users: seq<User>, email: string) {
    exists i :: 0 <= i < |users| && users[i].email == email
  }

  predicate UsernameUsedByOther(users: seq<User>, username: string, id: int) {
    exists i :: 0 <= i < |users| && users[i].username == username && users[i].id != id
  }

  predicate EmailUsedByOther(users: seq<User>, email: string, id: int) {
    exists i :: 0 <= i < |users| && users[i].email == email && users[i].id != id
  }

  // ---------------------------------------------------------------------------
  // Supplier profiles
  // ---------------------------------------------------------------------------

  predicate HasProfile(suppliers: seq<Supplier>, userId: int) {
    exists i :: 0 <= i < |suppliers| && suppliers[i].userId == Some(userId)
  }

  /** The first supplier profile linked to the login, as the supplier routes
      look it up; None is "Supplier profile not found". */
  function SupplierProfile(suppliers: seq<Supplier>, userId: int): (r: Option<Supplier>)
    ensures r.Some? <==> HasProfile(suppliers, userId)
    ensures r.Some? ==> r.value.userId == Some(userId) &&
                        exists i :: 0 <= i < |suppliers| && suppliers[i] == r.value &&
                                    forall j :: 0 <= j < i ==> suppliers[j].userId != Some(userId)
  {
    if suppliers == [] then None
    else if suppliers[0].userId == Some(userId) then Some(suppliers[0])
    else
      var rest := SupplierProfile(suppliers[1..], userId);
      assert HasProfile(suppliers, userId) <==> HasProfile(suppliers[1..], userId) by {
        if HasProfile(suppliers, userId) {
          var i :| 0 <= i < |suppliers| && suppliers[i].userId == Some(userId);
          assert suppliers[1..][i - 1] == suppliers[i];
        }
        if HasProfile(suppliers[1..], userId) {
          var i :| 0 <= i < |suppliers[1..]| && suppliers[1..][i].userId == Some(userId);
          assert suppliers[i + 1] == suppliers[1..][i];
        }
      }
      if rest.Some? then
        assert exists i :: 0 <= i < |suppliers| && suppliers[i] == rest.value &&
                           forall j :: 0 <= j < i ==> suppliers[j].userId != Some(userId) by {
          var i :| 0 <= i < |suppliers[1..]| && suppliers[1..][i] == rest.value &&
                   forall j :: 0 <= j < i ==> suppliers[1..][j].userId != Some(userId);
          assert suppliers[i + 1] == rest.value;
          forall j | 0 <= j < i + 1 ensures suppliers[j].userId != Some(userId) {
            if j > 0 { assert suppliers[j] == suppliers[1..][j - 1]; }
          }
        }
        rest
      else rest
  }

  /** The profile the backfill creates for a supplier login. */
  function ProfileFor(u: User, id: int): (s: Supplier)
    ensures s.id == id && s.userId == Some(u.id) && s.email == u.email && s.isActive
    ensures s.name == u.username + "'s Company" && s.contactPerson == Some(u.username)
    ensures s.phone == None && s.address == None
  {
    Supplier(id, u.username + "'s Company", Some(u.username), u.email, None, None, Some(u.id), true)
  }

  /** The profiles the backfill adds, in the order it visits the users: each
      supplier login that has no profile yet, counting those added before it,
      gets one, with ids counting up from `nextId`. */
  function Backfill(users: seq<User>, suppliers: seq<Supplier>, nextId: int): (r: seq<Supplier>)
    ensures |r| <= |users|
    ensures forall j :: 0 <= j < |r| ==> r[j].id == nextId + j
    decreases |users|
  {
    if users == [] then []
    else
      var earlier := Backfill(users[..|users| - 1], suppliers, nextId);
      var u := users[|users| - 1];
      if u.role == "supplier" && !HasProfile(suppliers + earlier, u.id)
      then earlier + [ProfileFor(u, nextId + |earlier|)]
      else earlier
  }

  lemma HasProfileGrows(suppliers: seq<Supplier>, more: seq<Supplier>, userId: int)
    requires HasProfile(suppliers, userId)
    ensures HasProfile(suppliers + more, userId)
  {
    var i :| 0 <= i < |suppliers| && suppliers[i].userId == Some(userId);
    assert (suppliers + more)[i] == suppliers[i];
  }

  /** After the backfill every supplier login has a profile. */
  lemma {:induction false} BackfillCoversSupplierUsers(users: seq<User>, suppliers: seq<Supplier>, nextId: int)
    ensures forall i :: 0 <= i < |users| && users[i].role == "supplier" ==>
              HasProfile(suppliers + Backfill(users, suppliers, nextId), users[i].id)
    decreases |users|
  {
    if users != [] {
      var prefix := users[..|users| - 1];
      var earlier := Backfill(prefix, suppliers, nextId);
      var all := Backfill(users, suppliers, nextId);
      BackfillCoversSupplierUsers(prefix, suppliers, nextId);
      var added := all[|earlier|..];
      assert all == earlier + added;
      assert suppliers + all == (suppliers + earlier) + added;
      forall i | 0 <= i < |users| && users[i].role == "supplier"
        ensures HasProfile(suppliers + all, users[i].id)
      {
        if i < |users| - 1 {
          assert prefix[i] == users[i];
          HasProfileGrows(suppliers + earlier, added, users[i].id);
        } else if HasProfile(suppliers + earlier, users[i].id) {
          HasProfileGrows(suppliers + earlier, added, users[i].id);
        } else {
          var k := |suppliers + earlier|;
          assert (suppliers + all)[k] == ProfileFor(users[i], nextId + |earlier|);
        }
      }
    }
  }

  /** When every supplier login already has a profile the backfill adds none. */
  lemma {:induction false} BackfillNothingMissing(users: seq<User>, suppliers: seq<Supplier>, nextId: int)
    requires forall i :: 0 <= i < |users| && users[i].role == "supplier" ==> HasProfile(suppliers, users[i].id)
    ensures Backfill(users, suppliers, nextId) == []
    decreases |users|
  {
    if users != [] {
      var prefix := users[..|users| - 1];
      forall i | 0 <= i < |prefix| && prefix[i].role == "supplier" ensures HasProfile(suppliers, prefix[i].id) {
        assert prefix[i] == users[i];
      }
      BackfillNothingMissing(prefix, suppliers, nextId);
      assert suppliers + [] == suppliers;
    }
  }

  /** Running the backfill a second time creates no profile. */
  lemma BackfillIdempotent(users: seq<User>, suppliers: seq<Supplier>, nextId: int, laterId: int)
    ensures Backfill(users, suppliers + Backfill(users, suppliers, nextId), laterId) == []
  {
    BackfillCoversSupplierUsers(users, suppliers, nextId);
    BackfillNothingMissing(users, suppliers + Backfill(users, suppliers, nextId), laterId);
  }

  // ---------------------------------------------------------------------------
  // The directory
  // ---------------------------------------------------------------------------

  class Directory {
    var users: seq<User>
    var suppliers: seq<Supplier>
    var nextUserId: int
    var nextSupplierId: int

    /** Users are in ascending id order below the next id, the declared unique
        constraints hold, and supplier ids lie below the next supplier id. */
    ghost predicate Valid()
      reads this
    {
      && IdsAscending(users)
      && (forall i :: 0 <= i < |users| ==> users[i].id < nextUserId)
      && UsernamesUnique(users)
      && UserEmailsUnique(users)
      && SupplierEmailsUnique(suppliers)
      && (forall i :: 0 <= i < |suppliers| ==> suppliers[i].id < nextSupplierId)
    }

    constructor ()
      ensures Valid() && users == [] && suppliers == []
    {
      users, suppliers := [], [];
      nextUserId, nextSupplierId := 1, 1;
    }

    /** add_user: all four fields are required and the username and email must
        be new; the account is created active. */
    method AddUser(username: string, email: string, role: string, password: string) returns (r: Result<int>)
      requires Valid()
      modifies this
      ensures Valid()
      ensures (username == "" || email == "" || role == "" || password == "") ==> r == Err(MissingFields)
      ensures r.Ok? <==> username != "" && email != "" && role != "" && password != "" &&
                         !UsernameInUse(old(users), username) && !EmailInUse(old(users), email)
      ensures (username != "" && email != "" && role != "" && password != "" && r.Err?) ==>
                r.error == (if UsernameInUse(old(users), username) then UsernameTaken else EmailTaken)
      ensures users == if r.Ok? then old(users) + [NewUser(old(nextUserId), username, email, role)] else old(users)
      ensures r.Ok? ==> r.value == old(nextUserId)
      ensures suppliers == old(suppliers) && nextSupplierId == old(nextSupplierId)
    {
      if username == "" || email == "" || role == "" || password == "" {
        return Err(MissingFields);
      }
      if UsernameInUse(users, username) {
        return Err(UsernameTaken);
      }
      if EmailInUse(users, email) {
        return Err(EmailTaken);
      }
      var id := nextUserId;
      users := users + [NewUser(id, username, email, role)];
      nextUserId := nextUserId + 1;
      r := Ok(id);
    }

    /** edit_user: the username and email may not belong to another user. */
    method EditUser(userId: int, username: string, email: string, role: string) returns (r: Result<()>)
      requires Valid()
      modifies this
      ensures Valid()
      ensures FindUser(old(users), userId).None? ==> r == Err(NotFound)
      ensures r.Ok? <==> FindUser(old(users), userId).Some? &&
                         !UsernameUsedByOther(old(users), username, userId) &&
                         !EmailUsedByOther(old(users), email, userId)
      ensures r.Err? && FindUser(old(users), userId).Some? ==>
                r.error == (if UsernameUsedByOther(old(users), username, userId) then UsernameTaken else EmailTaken)
      ensures r.Err? ==> users == old(users)
      ensures r.Ok? ==>
                var i := FindUser(old(users), userId).value;
                users == old(users)[i := old(users)[i].(username := username, email := email, role := role)]
      ensures suppliers == old(suppliers) && nextUserId == old(nextUserId) && nextSupplierId == old(nextSupplierId)
    {
      var found := FindUser(users, userId);
      if found.None? {
        return Err(NotFound);
      }
      if UsernameUsedByOther(users, username, userId) {
        return Err(UsernameTaken);
      }
      if EmailUsedByOther(users, email, userId) {
        return Err(EmailTaken);
      }
      var i := found.value;
      users := users[i := users[i].(username := username, email := email, role := role)];
      r := Ok(());
    }

    /** toggle_user: an admin cannot toggle their own account; any other account
        has its active flag flipped. Returns the new flag. */
    method ToggleUser(currentUserId: int, userId: int) returns (r: Result<bool>)
      requires Valid()
      modifies this
      ensures Valid()
      ensures FindUser(old(users), userId).None? ==> r == Err(NotFound)
      ensures FindUser(old(users), userId).Some? && userId == currentUserId ==> r == Err(CannotToggleSelf)
      ensures r.Err? ==> users == old(users)
      ensures r.Ok? ==>
                var i := FindUser(old(users), userId).value;
                userId != currentUserId &&
                r.value == !old(users)[i].isActive &&
                users == old(users)[i := old(users)[i].(isActive := r.value)]
      ensures FindUser(old(users), userId).Some? && userId != currentUserId ==> r.Ok?
      ensures suppliers == old(suppliers) && nextUserId == old(nextUserId) && nextSupplierId == old(nextSupplierId)
    {
      var found := FindUser(users, userId);
      if found.None? {
        return Err(NotFound);
      }
      var i := found.value;
      if users[i].id == currentUserId {
        return Err(CannotToggleSelf);
      }
      var active := !users[i].isActive;
      users := users[i := users[i].(isActive := active)];
      r := Ok(active);
    }

    /** fix_supplier_profiles: visits the supplier logins in id order and gives
        each one without a profile a new profile (Backfill); returns how many
        were created. The new profiles reuse the logins' emails, so if one
        collides with the email of an existing profile the unique constraint
        rejects the commit and nothing is kept. */
    method FixSupplierProfiles() returns (r: Result<nat>)
      requires Valid()
      modifies this
      ensures Valid()
      ensures var created := Backfill(old(users), old(suppliers), old(nextSupplierId));
              if SupplierEmailsUnique(old(suppliers) + created) then
                r == Ok(|created|) && suppliers == old(suppliers) + created &&
                nextSupplierId == old(nextSupplierId) + |created|
              else
                r == Err(IntegrityError) && suppliers == old(suppliers) && nextSupplierId == old(nextSupplierId)
      ensures r.Ok? ==> forall i :: 0 <= i < |users| && users[i].role == "supplier" ==> HasProfile(suppliers, users[i].id)
      ensures users == old(users) && nextUserId == old(nextUserId)
    {
      var created: seq<Supplier> := [];
      var fixedCount := 0;
      var i := 0;
      while i < |users|
        invariant 0 <= i <= |users|
        invariant created == Backfill(users[..i], suppliers, nextSupplierId)
        invariant fixedCount == |created|
      {
        var u := users[i];
        assert users[..i + 1][..i] == users[..i];
        if u.role == "supplier" && SupplierProfile(suppliers + created, u.id).None? {
          created := created + [ProfileFor(u, nextSupplierId + fixedCount)];
          fixedCount := fixedCount + 1;
        }
        i := i + 1;
      }
      assert users[..i] == users;
      if !SupplierEmailsUnique(suppliers + created) {
        return Err(IntegrityError);
      }
      BackfillCoversSupplierUsers(users, suppliers, nextSupplierId);
      suppliers := suppliers + created;
      nextSupplierId := nextSupplierId + fixedCount;
      r := Ok(fixedCount);
    }
  }

  /** Toggling the same account twice restores every user as it was. */
  method ToggleTwiceRestores(d: Directory, currentUserId: int, userId: int)
    requires d.Valid()
    modifies d
    ensures d.Valid() && d.users == old(d.users)
  {
    var first := d.ToggleUser(currentUserId, userId);
    var second := d.ToggleUser(currentUserId, userId);
  }
}
