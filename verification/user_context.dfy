/** The signed-in user's session: log in, log out, merge-update, the
    persisted copy kept beside the state, the record loaded at startup, and
    the guard on using the session outside its provider. */
module UserContext {
  import opened Wrappers

  datatype User = User(
    id: string,
    name: string,
    email: string,
    phone: Option<string>,
    travelStyle: Option<string>,
    profileImage: Option<string>,
    isLoggedIn: bool)

  /** A partial user: `Some` marks a field that is present. */
  datatype Patch = Patch(
    id: Option<string>,
    name: Option<string>,
    email: Option<string>,
    phone: Option<string>,
    travelStyle: Option<string>,
    profileImage: Option<string>,
    isLoggedIn: Option<bool>)

  const EmptyPatch: Patch := Patch(None, None, None, None, None, None, None)

  /** What the persisted slot holds: nothing, a record that parses, or one that does not. */
  datatype Stored = NoRecord | Parsed(user: User) | Corrupt

  /** `a || b` on an optional string: the empty string counts as missing. */
  function OrElse(a: Option<string>, b: string): (r: string)
    ensures a.Some? && a.value != "" ==> r == a.value
    ensures a.None? || a.value == "" ==> r == b
  {
    if a.Some? && a.value != "" then a.value else b
  }

  /** The user that logging in with `data` creates; `now` stands for the clock
      reading that names a user who brings no id. */
  function NewUser(data: Patch, now: string): (u: User)
    ensures u.isLoggedIn
    ensures u.id == OrElse(data.id, now) && u.name == OrElse(data.name, "") && u.email == OrElse(data.email, "")
    ensures u.phone == data.phone && u.travelStyle == data.travelStyle && u.profileImage == data.profileImage
    ensures now != "" ==> u.id != ""
  {
    User(OrElse(data.id, now), OrElse(data.name, ""), OrElse(data.email, ""),
         data.phone, data.travelStyle, data.profileImage, true)
  }

  /** `{...u, ...p}`: the fields present in the patch replace the user's, the others stay. */
  function Merge(u: User, p: Patch): (r: User)
    ensures p == EmptyPatch ==> r == u
  {
    User(
      if p.id.Some? then p.id.value else u.id,
      if p.name.Some? then p.name.value else u.name,
      if p.email.Some? then p.email.value else u.email,
      if p.phone.Some? then p.phone else u.phone,
      if p.travelStyle.Some? then p.travelStyle else u.travelStyle,
      if p.profileImage.Some? then p.profileImage else u.profileImage,
      if p.isLoggedIn.Some? then p.isLoggedIn.value else u.isLoggedIn)
  }

  /** Every field present in the patch replaces the user's. */
  lemma MergeTakesPatch(u: User, p: Patch)
    ensures var r := Merge(u, p);
      (p.id.Some? ==> r.id == p.id.value) &&
      (p.name.Some? ==> r.name == p.name.value) &&
      (p.email.Some? ==> r.email == p.email.value) &&
      (p.phone.Some? ==> r.phone == p.phone) &&
      (p.travelStyle.Some? ==> r.travelStyle == p.travelStyle) &&
      (p.profileImage.Some? ==> r.profileImage == p.profileImage) &&
      (p.isLoggedIn.Some? ==> r.isLoggedIn == p.isLoggedIn.value)
  {
  }

  /** Every field missing from the patch keeps the user's value. */
  lemma MergeKeepsRest(u: User, p: Patch)
    ensures var r := Merge(u, p);
      (p.id.None? ==> r.id == u.id) &&
      (p.name.None? ==> r.name == u.name) &&
      (p.email.None? ==> r.email == u.email) &&
      (p.phone.None? ==> r.phone == u.phone) &&
      (p.travelStyle.None? ==> r.travelStyle == u.travelStyle) &&
      (p.profileImage.None? ==> r.profileImage == u.profileImage) &&
      (p.isLoggedIn.None? ==> r.isLoggedIn == u.isLoggedIn)
  {
  }

  /** Later field wins: the patch equivalent to applying `p` and then `q`. */
  function Then(p: Patch, q: Patch): Patch {
    Patch(
      if q.id.Some? then q.id else p.id,
      if q.name.Some? then q.name else p.name,
      if q.email.Some? then q.email else p.email,
      if q.phone.Some? then q.phone else p.phone,
      if q.travelStyle.Some? then q.travelStyle else p.travelStyle,
      if q.profileImage.Some? then q.profileImage else p.profileImage,
      if q.isLoggedIn.Some? then q.isLoggedIn else p.isLoggedIn)
  }

  /** Applying the same patch twice is applying it once. */
  lemma MergeIdempotent(u: User, p: Patch)
    ensures Merge(Merge(u, p), p) == Merge(u, p)
  {
  }

  /** Two updates in a row are one update with the combined patch. */
  lemma MergeThen(u: User, p: Patch, q: Patch)
    ensures Merge(Merge(u, p), q) == Merge(u, Then(p, q))
  {
  }

  /** The session state and its persisted copy. */
  class Session {
    var user: Option<User>
    var stored: Stored

    /** The persisted copy mirrors the state: a present user is stored as it
        is, and no user is never stored as a readable record. */
    predicate Synced()
      reads this
    {
      (user.Some? ==> stored == Parsed(user.value)) &&
      (user.None? ==> !stored.Parsed?)
    }

    /** Startup: a readable record becomes the user; anything else leaves no user. */
    constructor (saved: Stored)
      ensures Synced()
      ensures saved.Parsed? ==> user == Some(saved.user)
      ensures !saved.Parsed? ==> user == None
      ensures stored == saved
    {
      user := if saved.Parsed? then Some(saved.user) else None;
      stored := saved;
    }

    method Login(data: Patch, now: string)
      modifies this
      ensures Synced()
      ensures user == Some(NewUser(data, now))
    {
      user := Some(NewUser(data, now));
      stored := Parsed(user.value);
    }

    method Logout()
      modifies this
      ensures Synced()
      ensures user == None && stored == NoRecord
    {
      user := None;
      stored := NoRecord;
    }

    /** Merges the patch into a present user; with no user it does nothing. */
    method UpdateUser(patch: Patch)
      requires Synced()
      modifies this
      ensures Synced()
      ensures old(user).None? ==> user == None && stored == old(stored)
      ensures old(user).Some? ==> user == Some(Merge(old(user).value, patch))
    {
      if user.Some? {
        user := Some(Merge(user.value, patch));
        stored := Parsed(user.value);
      }
    }
  }

  datatype ProviderError = OutsideProvider

  /** Reading the session needs an enclosing provider. */
  function UseUser<C>(context: Option<C>): (r: Result<C, ProviderError>)
    ensures r.Err? <==> context.None?
    ensures context.Some? ==> r == Ok(context.value)
  {
    if context.None? then Err(OutsideProvider) else Ok(context.value)
  }

  /** A session: log in without an id, update the phone, log out. */
  method Visit() returns (during: Option<User>, after: Option<User>)
    ensures during == Some(User("1700000000000", "Priya", "", Some("98450"), None, None, true))
    ensures after == None
  {
    var s := new Session(NoRecord);
    s.Login(EmptyPatch.(name := Some("Priya")), "1700000000000");
    s.UpdateUser(EmptyPatch.(phone := Some("98450")));
    during := s.user;
    s.Logout();
    after := s.user;
  }
}
