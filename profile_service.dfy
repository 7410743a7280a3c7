/** The user's display profile (`src/app/profile-service.ts`): a name and an avatar
    URL kept in the signed-in user's storage space under `profile`, cleaned on
    every write. */
module Profiles {
  import opened Wrappers
  import opened Js
  import opened UserStorage

  const ProfileKey := "profile"

  datatype Profile = Profile(name: Option<string>, avatarUrl: Option<string>)

  const EmptyProfile := Profile(None, None)

  /** A `Partial<Profile>` spread over the current profile. */
  datatype ProfilePatch = ProfilePatch(name: Field<Option<string>>, avatarUrl: Field<Option<string>>)

  /** JavaScript truthiness of an optional string. */
  predicate Truthy(o: Option<string>) {
    o.Some? && o.value != ""
  }

  /** `clean` on one field: a truthy value is trimmed (so blanks become the empty
      string), anything else is dropped. */
  function CleanField(o: Option<string>): (r: Option<string>)
    ensures Truthy(o) <==> r.Some?
    ensures r.Some? ==> r.value == Trim(o.value)
  {
    if Truthy(o) then Some(Trim(o.value)) else None
  }

  function Clean(p: Profile): (r: Profile)
    ensures r.name == CleanField(p.name) && r.avatarUrl == CleanField(p.avatarUrl)
  {
    Profile(CleanField(p.name), CleanField(p.avatarUrl))
  }

  /** Cleaning a cleaned field changes it exactly when the original was a
      non-empty blank, which the first cleaning left as an empty string. */
  lemma {:induction false} CleanFieldTwice(o: Option<string>)
    ensures CleanField(CleanField(o)) == CleanField(o) <==> !(Truthy(o) && Trim(o.value) == "")
  {
    if Truthy(o) {
      TrimIdempotent(o.value);
    }
  }

  /** `{ ...p, ...patch }` */
  function Spread(p: Profile, patch: ProfilePatch): (r: Profile)
    ensures r.name == patch.name.Over(p.name) && r.avatarUrl == patch.avatarUrl.Over(p.avatarUrl)
  {
    Profile(patch.name.Over(p.name), patch.avatarUrl.Over(p.avatarUrl))
  }

  /** The patch `setName` applies: the trimmed name, or nothing when it is blank. */
  function NamePatch(name: Option<string>): (r: ProfilePatch)
    ensures r.name.Put? && r.avatarUrl.Keep?
    ensures r.name.value.Some? <==> Trim(name.GetOr("")) != ""
    ensures r.name.value.Some? ==> r.name.value.value == Trim(name.GetOr(""))
  {
    var t := Trim(name.GetOr(""));
    ProfilePatch(Put(if t != "" then Some(t) else None), Keep)
  }

  /** The patch `setAvatarUrl` applies: the URL as given, or nothing when it is
      missing or empty. */
  function AvatarPatch(url: Option<string>): (r: ProfilePatch)
    ensures r.name.Keep? && r.avatarUrl.Put?
    ensures r.avatarUrl.value == (if Truthy(url) then url else None)
  {
    ProfilePatch(Keep, Put(if Truthy(url) then url else None))
  }

  /** `setName` stores the trimmed name, or no name at all when it is blank; the
      avatar URL is re-cleaned. */
  lemma {:induction false} SetNameEffect(current: Profile, name: Option<string>)
    ensures var r := Clean(Spread(current, NamePatch(name)));
            && (r.name.None? <==> Trim(name.GetOr("")) == "")
            && (r.name.Some? ==> r.name.value == Trim(name.GetOr("")) && r.name.value != "")
            && r.avatarUrl == CleanField(current.avatarUrl)
  {
    TrimIdempotent(name.GetOr(""));
  }

  /** `setAvatarUrl` keeps a blank but non-empty URL as the empty string, unlike
      `setName`, which drops a blank name. */
  lemma {:induction false} SetAvatarKeepsBlank(current: Profile)
    ensures Clean(Spread(current, AvatarPatch(Some(" ")))).avatarUrl == Some("")
    ensures Clean(Spread(current, NamePatch(Some(" ")))).name == None
  {
    assert Trim(" ") == "" by {
      TrimEmptyMeansBlank(" ");
    }
  }

  /** The profile service: the published profile, what it has published and stored
      in order, and the browser storage it writes through the user's namespace. */
  class ProfileService {
    var current: Profile
    var effects: seq<Effect<Profile>>
    var storage: map<string, Entry<Profile>>
    /** The signed-in user's email, as the auth service reports it. */
    var email: Option<string>

    /** Publishes the stored profile of whoever is signed in, or the empty one. */
    constructor (storage: map<string, Entry<Profile>>, email: Option<string>)
      ensures current == Lookup(storage, email, ProfileKey, EmptyProfile)
      ensures this.storage == storage && this.email == email && effects == [Published(current)]
    {
      var p := Lookup(storage, email, ProfileKey, EmptyProfile);
      current := p;
      effects := [Published(p)];
      this.storage := storage;
      this.email := email;
    }

    /** The subscription to the current user: a new user's profile is read back and
        published as stored, without cleaning. */
    method UserChanged(newEmail: Option<string>)
      modifies this
      ensures email == newEmail && storage == old(storage)
      ensures current == Lookup(storage, newEmail, ProfileKey, EmptyProfile)
      ensures effects == old(effects) + [Published(current)]
    {
      email := newEmail;
      current := Lookup(storage, newEmail, ProfileKey, EmptyProfile);
      effects := effects + [Published(current)];
    }

    function Value(): Profile
      reads this
    {
      current
    }

    /** Publishes the cleaned profile, then writes it to the user's space. */
    method Set(p: Profile)
      modifies this
      ensures current == Clean(p) && email == old(email)
      ensures effects == old(effects) + [Published(Clean(p)), Stored(Clean(p))]
      ensures storage == Written(old(storage), email, ProfileKey, Clean(p))
    {
      var sanitized := Clean(p);
      current := sanitized;
      storage := Written(storage, email, ProfileKey, sanitized);
      effects := effects + [Published(sanitized), Stored(sanitized)];
    }

    method Update(patch: ProfilePatch)
      modifies this
      ensures current == Clean(Spread(old(current), patch)) && email == old(email)
      ensures effects == old(effects) + [Published(current), Stored(current)]
      ensures storage == Written(old(storage), email, ProfileKey, current)
    {
      Set(Spread(current, patch));
    }

    method SetName(name: Option<string>)
      modifies this
      ensures current == Clean(Spread(old(current), NamePatch(name))) && email == old(email)
      ensures effects == old(effects) + [Published(current), Stored(current)]
      ensures storage == Written(old(storage), email, ProfileKey, current)
    {
      Update(NamePatch(name));
    }

    method SetAvatarUrl(url: Option<string>)
      modifies this
      ensures current == Clean(Spread(old(current), AvatarPatch(url))) && email == old(email)
      ensures effects == old(effects) + [Published(current), Stored(current)]
      ensures storage == Written(old(storage), email, ProfileKey, current)
    {
      Update(AvatarPatch(url));
    }

    method Clear()
      modifies this
      ensures current == EmptyProfile && email == old(email)
      ensures effects == old(effects) + [Published(EmptyProfile), Stored(EmptyProfile)]
      ensures storage == Written(old(storage), email, ProfileKey, EmptyProfile)
    {
      Set(EmptyProfile);
    }
  }

  /** What `set` stores is what the same user sees after signing in again. */
  lemma {:induction false} ProfileSurvivesReload(storage: map<string, Entry<Profile>>, email: Option<string>, p: Profile)
    ensures Lookup(Written(storage, email, ProfileKey, Clean(p)), email, ProfileKey, EmptyProfile) == Clean(p)
  {
    ReadAfterWrite(storage, email, ProfileKey, Clean(p), email, ProfileKey, EmptyProfile);
  }
}
