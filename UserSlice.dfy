/** The Redux slice `user`: at most one current user profile, a loading
    flag and an error message. */
module UserSlice {
  import opened Wrappers

  /** A user record; the optional fields of the source are `Option`s. */
  datatype UserProfile = UserProfile(
    id: string,
    username: string,
    fullName: string,
    email: string,
    avatar: Option<string>,
    bio: Option<string>,
    phone: Option<string>,
    location: Option<string>,
    joinedDate: string)

  /** A `Partial<UserProfile>` payload: `Some(v)` where the payload has
      that key. */
  datatype ProfilePatch = ProfilePatch(
    id: Option<string>,
    username: Option<string>,
    fullName: Option<string>,
    email: Option<string>,
    avatar: Option<string>,
    bio: Option<string>,
    phone: Option<string>,
    location: Option<string>,
    joinedDate: Option<string>)

  /** The payload `{}`. */
  const EmptyPatch: ProfilePatch := ProfilePatch(None, None, None, None, None, None, None, None, None)

  /** The payload `{ avatar: url }`. */
  function AvatarPatch(url: string): ProfilePatch {
    EmptyPatch.(avatar := Some(url))
  }

  datatype Field = Id | Username | FullName | Email | Avatar | Bio | Phone | Location | JoinedDate

  /** The value of one field of a profile; `None` is `undefined`. */
  function Get(u: UserProfile, f: Field): Option<string> {
    match f
    case Id => Some(u.id)
    case Username => Some(u.username)
    case FullName => Some(u.fullName)
    case Email => Some(u.email)
    case Avatar => u.avatar
    case Bio => u.bio
    case Phone => u.phone
    case Location => u.location
    case JoinedDate => Some(u.joinedDate)
  }

  /** The value a payload gives one field; `None` when the key is absent. */
  function PatchGet(p: ProfilePatch, f: Field): Option<string> {
    match f
    case Id => p.id
    case Username => p.username
    case FullName => p.fullName
    case Email => p.email
    case Avatar => p.avatar
    case Bio => p.bio
    case Phone => p.phone
    case Location => p.location
    case JoinedDate => p.joinedDate
  }

  /** Two profiles that agree on every field are equal. */
  lemma FieldsDetermine(u: UserProfile, v: UserProfile)
    requires forall f :: Get(u, f) == Get(v, f)
    ensures u == v
  {
    assert Get(u, Id) == Get(v, Id) && Get(u, Username) == Get(v, Username);
    assert Get(u, FullName) == Get(v, FullName) && Get(u, Email) == Get(v, Email);
    assert Get(u, Avatar) == Get(v, Avatar) && Get(u, Bio) == Get(v, Bio);
    assert Get(u, Phone) == Get(v, Phone) && Get(u, Location) == Get(v, Location);
    assert Get(u, JoinedDate) == Get(v, JoinedDate);
  }

  /** `{ ...u, ...p }`: every key present in the payload takes the
      payload's value, every other field keeps its value. */
  function Merge(u: UserProfile, p: ProfilePatch): (r: UserProfile)
    ensures p == EmptyPatch ==> r == u
    ensures p.id.None? && p.username.None? ==> r.id == u.id && r.username == u.username
  {
    UserProfile(
      if p.id.Some? then p.id.value else u.id,
      if p.username.Some? then p.username.value else u.username,
      if p.fullName.Some? then p.fullName.value else u.fullName,
      if p.email.Some? then p.email.value else u.email,
      if p.avatar.Some? then p.avatar else u.avatar,
      if p.bio.Some? then p.bio else u.bio,
      if p.phone.Some? then p.phone else u.phone,
      if p.location.Some? then p.location else u.location,
      if p.joinedDate.Some? then p.joinedDate.value else u.joinedDate)
  }

  /** `{ ...p, ...q }`: the later payload wins where both have a key. */
  function Override(p: ProfilePatch, q: ProfilePatch): (r: ProfilePatch)
    ensures q == EmptyPatch ==> r == p
    ensures p == EmptyPatch ==> r == q
  {
    ProfilePatch(
      if q.id.Some? then q.id else p.id,
      if q.username.Some? then q.username else p.username,
      if q.fullName.Some? then q.fullName else p.fullName,
      if q.email.Some? then q.email else p.email,
      if q.avatar.Some? then q.avatar else p.avatar,
      if q.bio.Some? then q.bio else p.bio,
      if q.phone.Some? then q.phone else p.phone,
      if q.location.Some? then q.location else p.location,
      if q.joinedDate.Some? then q.joinedDate else p.joinedDate)
  }

  /** The spread merge field by field: a key present in the payload
      takes the payload's value, every other field keeps its value. */
  lemma MergeGet(u: UserProfile, p: ProfilePatch, f: Field)
    ensures Get(Merge(u, p), f) == if PatchGet(p, f).Some? then PatchGet(p, f) else Get(u, f)
  {
    match f
    case Id => case Username => case FullName => case Email => case Avatar =>
    case Bio => case Phone => case Location => case JoinedDate =>
  }

  /** Combining payloads field by field: the later one wins. */
  lemma OverrideGet(p: ProfilePatch, q: ProfilePatch, f: Field)
    ensures PatchGet(Override(p, q), f) == if PatchGet(q, f).Some? then PatchGet(q, f) else PatchGet(p, f)
  {
    match f
    case Id => case Username => case FullName => case Email => case Avatar =>
    case Bio => case Phone => case Location => case JoinedDate =>
  }

  /** An empty payload changes nothing. */
  lemma MergeEmpty(u: UserProfile)
    ensures Merge(u, EmptyPatch) == u
  {
    forall f ensures Get(Merge(u, EmptyPatch), f) == Get(u, f) { MergeGet(u, EmptyPatch, f); }
    FieldsDetermine(Merge(u, EmptyPatch), u);
  }

  /** Applying the same payload twice is applying it once. */
  lemma MergeIdempotent(u: UserProfile, p: ProfilePatch)
    ensures Merge(Merge(u, p), p) == Merge(u, p)
  {
    forall f ensures Get(Merge(Merge(u, p), p), f) == Get(Merge(u, p), f) {
      MergeGet(u, p, f); MergeGet(Merge(u, p), p, f);
    }
    FieldsDetermine(Merge(Merge(u, p), p), Merge(u, p));
  }

  /** Two updates in a row are one update with the combined payload. */
  lemma MergeTwice(u: UserProfile, p: ProfilePatch, q: ProfilePatch)
    ensures Merge(Merge(u, p), q) == Merge(u, Override(p, q))
  {
    forall f ensures Get(Merge(Merge(u, p), q), f) == Get(Merge(u, Override(p, q)), f) {
      MergeGet(u, p, f); MergeGet(Merge(u, p), q, f); MergeGet(u, Override(p, q), f); OverrideGet(p, q, f);
    }
    FieldsDetermine(Merge(Merge(u, p), q), Merge(u, Override(p, q)));
  }

  /** An avatar-only payload changes the avatar and nothing else. */
  lemma MergeAvatarOnly(u: UserProfile, url: string)
    ensures Merge(u, AvatarPatch(url)) == u.(avatar := Some(url))
    ensures forall f :: f != Avatar ==> Get(Merge(u, AvatarPatch(url)), f) == Get(u, f)
  {
    forall f ensures Get(Merge(u, AvatarPatch(url)), f) == Get(u.(avatar := Some(url)), f) {
      MergeGet(u, AvatarPatch(url), f);
    }
    FieldsDetermine(Merge(u, AvatarPatch(url)), u.(avatar := Some(url)));
  }

  /** The current user after updateProfile: merged when there is one,
      still absent otherwise. */
  function Updated(current: Option<UserProfile>, p: ProfilePatch): (r: Option<UserProfile>)
    ensures r.Some? <==> current.Some?
    ensures current.Some? ==> forall f :: PatchGet(p, f).None? ==> Get(r.value, f) == Get(current.value, f)
  {
    match current
    case None => None
    case Some(u) => Some(Merge(u, p))
  }

  /** The seeded current user. */
  const InitialUser: UserProfile := UserProfile(
    "u1", "thien_tdk", "", "thien@example.com", Some(""),
    Some("Software Engineer & Designer"), Some("+84 123 456 789"),
    Some("TP. Hồ Chí Minh, Việt Nam"), "2023-01-15")

  class UserStore {
    var currentUser: Option<UserProfile>
    var isLoading: bool
    var error: Option<string>

    /** The slice's initial state. */
    constructor ()
      ensures currentUser == Some(InitialUser)
      ensures currentUser.value.id == "u1" && currentUser.value.username == "thien_tdk"
      ensures !isLoading && error == None
    {
      currentUser := Some(InitialUser);
      isLoading := false;
      error := None;
    }

    /** updateProfile: merges the payload into the current user; does
        nothing when there is none. */
    method UpdateProfile(p: ProfilePatch)
      modifies this
      ensures currentUser == Updated(old(currentUser), p)
      ensures old(currentUser) == None ==> currentUser == None
      ensures isLoading == old(isLoading) && error == old(error)
    {
      if currentUser.Some? {
        currentUser := Some(Merge(currentUser.value, p));
      }
    }

    /** setLoading: sets the loading flag only. */
    method SetLoading(b: bool)
      modifies this
      ensures isLoading == b
      ensures currentUser == old(currentUser) && error == old(error)
    {
      isLoading := b;
    }

    /** setError: sets the error message only. */
    method SetError(e: Option<string>)
      modifies this
      ensures error == e
      ensures currentUser == old(currentUser) && isLoading == old(isLoading)
    {
      error := e;
    }

    /** logout: there is no current user any more. */
    method Logout()
      modifies this
      ensures currentUser == None
      ensures isLoading == old(isLoading) && error == old(error)
    {
      currentUser := None;
    }
  }

  /** After logout every updateProfile is a no-op. */
  method UpdateAfterLogout(store: UserStore, p: ProfilePatch)
    modifies store
    ensures store.currentUser == None
    ensures store.isLoading == old(store.isLoading) && store.error == old(store.error)
  {
    store.Logout();
    store.UpdateProfile(p);
  }
}
