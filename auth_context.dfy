/**
 * The account state shared through `AuthContext` (context/AuthContext.tsx): the
 * signed-in user's profile and the set of favourite artwork ids, with the
 * operations that change them.
 */
module AuthContext {
  import opened Wrappers
  import opened Text
  import opened AuthBackend

  /** `UserProfile`: `uid` and `email` are required, the other fields optional. */
  datatype UserProfile = UserProfile(
    uid: string,
    email: string,
    displayName: Option<string>,
    photoURL: Option<string>,
    createdAt: Option<string>)

  /** The field names of a profile. */
  datatype Field = Uid | Email | DisplayName | PhotoURL | CreatedAt

  /** The value of field `f` of `u`, None when it is undefined. */
  function Get(u: UserProfile, f: Field): Option<string> {
    match f
    case Uid => Some(u.uid)
    case Email => Some(u.email)
    case DisplayName => u.displayName
    case PhotoURL => u.photoURL
    case CreatedAt => u.createdAt
  }

  /**
   * `Partial<UserProfile>`: each field is absent (None) or present. An optional
   * field may be present with the value `undefined`, which is `Some(None)`.
   */
  datatype ProfilePatch = ProfilePatch(
    uid: Option<string>,
    email: Option<string>,
    displayName: Option<Option<string>>,
    photoURL: Option<Option<string>>,
    createdAt: Option<Option<string>>)

  /** The patch with no field present, `{}`. */
  const NoChanges := ProfilePatch(None, None, None, None, None)

  /** Whether field `f` is present in `p`, and with which value. */
  function Supplied(p: ProfilePatch, f: Field): Option<Option<string>> {
    match f
    case Uid => if p.uid.Some? then Some(Some(p.uid.value)) else None
    case Email => if p.email.Some? then Some(Some(p.email.value)) else None
    case DisplayName => p.displayName
    case PhotoURL => p.photoURL
    case CreatedAt => p.createdAt
  }

  /**
   * `{ ...user, ...data }`: every field present in the patch takes the patch's
   * value, every other field keeps the user's.
   */
  function MergeProfile(user: UserProfile, data: ProfilePatch): (r: UserProfile)
    ensures forall f :: Get(r, f) == if Supplied(data, f).Some? then Supplied(data, f).value else Get(user, f)
  {
    UserProfile(
      data.uid.GetOr(user.uid),
      data.email.GetOr(user.email),
      data.displayName.GetOr(user.displayName),
      data.photoURL.GetOr(user.photoURL),
      data.createdAt.GetOr(user.createdAt))
  }

  /** Two profiles that agree on every field are the same profile. */
  lemma ProfileExtensionality(a: UserProfile, b: UserProfile)
    requires forall f :: Get(a, f) == Get(b, f)
    ensures a == b
  {
    assert Get(a, Uid) == Get(b, Uid);
    assert Get(a, Email) == Get(b, Email);
    assert Get(a, DisplayName) == Get(b, DisplayName);
    assert Get(a, PhotoURL) == Get(b, PhotoURL);
    assert Get(a, CreatedAt) == Get(b, CreatedAt);
  }

  /** `{ ...p, ...q }`: the patch that applies `p` and then `q`. */
  function Then(p: ProfilePatch, q: ProfilePatch): (r: ProfilePatch)
    ensures forall f :: Supplied(r, f) == if Supplied(q, f).Some? then Supplied(q, f) else Supplied(p, f)
  {
    ProfilePatch(
      if q.uid.Some? then q.uid else p.uid,
      if q.email.Some? then q.email else p.email,
      if q.displayName.Some? then q.displayName else p.displayName,
      if q.photoURL.Some? then q.photoURL else p.photoURL,
      if q.createdAt.Some? then q.createdAt else p.createdAt)
  }

  /** Merging the empty patch changes nothing. */
  lemma MergeNoChanges(user: UserProfile)
    ensures MergeProfile(user, NoChanges) == user
  {
    ProfileExtensionality(MergeProfile(user, NoChanges), user);
  }

  /** Merging the same patch twice is the same as merging it once. */
  lemma MergeIdempotent(user: UserProfile, data: ProfilePatch)
    ensures MergeProfile(MergeProfile(user, data), data) == MergeProfile(user, data)
  {
    ProfileExtensionality(MergeProfile(MergeProfile(user, data), data), MergeProfile(user, data));
  }

  /** Two updates in a row are one update with the combined patch, the later one winning. */
  lemma MergeSequential(user: UserProfile, p: ProfilePatch, q: ProfilePatch)
    ensures MergeProfile(MergeProfile(user, p), q) == MergeProfile(user, Then(p, q))
  {
    ProfileExtensionality(MergeProfile(MergeProfile(user, p), q), MergeProfile(user, Then(p, q)));
  }

  /**
   * `set` with `id` deleted when it was there and added when it was not: `id` flips
   * membership and every other id keeps its own.
   */
  function Toggled(favorites: set<string>, id: string): (r: set<string>)
    ensures id in r <==> id !in favorites
    ensures forall x :: x != id ==> (x in r <==> x in favorites)
  {
    if id in favorites then favorites - {id} else favorites + {id}
  }

  /** Toggling the same id twice restores the set. */
  lemma ToggleTwice(favorites: set<string>, id: string)
    ensures Toggled(Toggled(favorites, id), id) == favorites
  {
    var once := Toggled(favorites, id);
    var twice := Toggled(once, id);
    assert forall x :: x in twice <==> x in favorites;
  }

  /** Toggling two different ids commutes. */
  lemma ToggleCommutes(favorites: set<string>, a: string, b: string)
    ensures Toggled(Toggled(favorites, a), b) == Toggled(Toggled(favorites, b), a)
  {
    var ab := Toggled(Toggled(favorites, a), b);
    var ba := Toggled(Toggled(favorites, b), a);
    assert forall x :: x in ab <==> x in ba;
  }

  /** `name` is `email.split('@')[0]`: the part of `email` before its first `@`, or all of it. */
  ghost predicate IsLocalPart(email: string, name: string) {
    && '@' !in name
    && |name| <= |email| && email[..|name|] == name
    && (|name| < |email| ==> email[|name|] == '@')
  }

  /**
   * The profile `login` stores for a backend user. `uid` and `email` are the
   * backend's; `displayName` is the backend's when non-empty and otherwise the
   * part of the login email before its first `@`; `photoURL` drops an empty value;
   * `createdAt` falls back to the time of the login.
   */
  function ProfileFromLogin(email: string, user: AuthUser, now: string): (p: UserProfile)
    ensures p.uid == user.uid && p.email == user.email
    ensures p.displayName.Some?
    ensures Truthy(user.displayName) ==> p.displayName == user.displayName
    ensures !Truthy(user.displayName) ==> IsLocalPart(email, p.displayName.value)
    ensures Truthy(user.photoURL) ==> p.photoURL == user.photoURL
    ensures !Truthy(user.photoURL) ==> p.photoURL == None
    ensures Truthy(user.createdAt) ==> p.createdAt == user.createdAt
    ensures !Truthy(user.createdAt) ==> p.createdAt == Some(now)
  {
    UserProfile(
      user.uid,
      user.email,
      Some(if Truthy(user.displayName) then user.displayName.value else SplitHead(email, '@')),
      if Truthy(user.photoURL) then user.photoURL else None,
      if Truthy(user.createdAt) then user.createdAt else Some(now))
  }

  /** The one error `updateProfile` reports by itself. */
  const NotLoggedIn := "User not logged in"

  /**
   * The provider's state. The loading flag and the subscription that loads the
   * favourites when the signed-in user changes are not part of this model.
   */
  class AuthProvider {
    var user: Option<UserProfile>
    var favorites: set<string>

    constructor ()
      ensures user == None && favorites == {}
    {
      user := None;
      favorites := {};
    }

    /**
     * `login(email, password)`, given what `loginWithEmail` answered and the current
     * time. An error (a non-empty one from the backend, or the message of an
     * exception) is returned and the user is left alone; a user without an error
     * becomes the signed-in profile.
     */
    method Login(email: string, reply: AuthReply, now: string) returns (error: Option<string>)
      modifies this`user
      ensures match reply
        case Threw(m) => error == Some(m) && user == old(user)
        case Replied(u, e) =>
          if Truthy(e) then error == e && user == old(user)
          else error == None && user == (if u.Some? then Some(ProfileFromLogin(email, u.value, now)) else old(user))
    {
      match reply {
        case Threw(m) =>
          return Some(m);
        case Replied(u, e) =>
          if Truthy(e) {
            return e;
          }
          if u.Some? {
            var profile := ProfileFromLogin(email, u.value, now);
            user := Some(profile);
          }
          return None;
      }
    }

    /**
     * `logout()`: once signing out succeeds the user is cleared; if it throws,
     * the error is only logged and the user stays.
     */
    method Logout(signOutThrew: bool)
      modifies this`user
      ensures signOutThrew ==> user == old(user)
      ensures !signOutThrew ==> user == None
    {
      if !signOutThrew {
        user := None;
      }
    }

    /**
     * `toggleFavorite(id)`: a copy of the set with `id` deleted or added replaces
     * the favourites; the user is untouched.
     */
    method ToggleFavorite(id: string)
      modifies this`favorites
      ensures favorites == Toggled(old(favorites), id)
    {
      var next := favorites;
      if id in next {
        next := next - {id};
      } else {
        next := next + {id};
      }
      favorites := next;
    }

    /**
     * `updateProfile(data)`, given whether persisting the profile locally failed.
     * With nobody signed in it fails with `NotLoggedIn` and changes nothing.
     * Otherwise the user becomes the merge of `data` over it, before the write, so
     * the merge stays even when the write fails and that failure is reported.
     */
    method UpdateProfile(data: ProfilePatch, storageError: Option<string>) returns (success: bool, error: Option<string>)
      modifies this`user
      ensures old(user).None? ==> !success && error == Some(NotLoggedIn) && user == None
      ensures old(user).Some? ==> user == Some(MergeProfile(old(user).value, data))
      ensures old(user).Some? ==> (success <==> storageError.None?) && error == storageError
    {
      if user.None? {
        return false, Some(NotLoggedIn);
      }
      var updated := MergeProfile(user.value, data);
      user := Some(updated);
      if storageError.Some? {
        return false, storageError;
      }
      return true, None;
    }
  }
}
