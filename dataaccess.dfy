/** The data-access layer over its three collections: profiles keyed by
    email address, the skill-tag vocabulary keyed by the tag as supplied,
    and the singleton configuration document.

    The document store is not modelled as a server: its collections are
    fields of the access object, and each round trip to the store takes an
    `Io` argument saying how that round trip ends. */
module DataAccess {
  import opened Wrappers
  import opened Strings
  import opened Tags
  import opened Profiles

  /** How one round trip to the store ends: the store serves the request
      against its current contents, the connection cannot be opened, or
      the store answers with an error other than "not found". */
  datatype Io = Served | DialFailed | Failed

  /** The errors the layer hands back: a failed connection, the store's
      "not found", and every other store error. */
  datatype Error = DialError | ErrNotFound | StoreError

  /** A session-encryption key, as produced by the key generator. */
  type Key = seq<bv8>

  /** The singleton configuration document. */
  datatype Configuration = Configuration(sessionEncryptionKey: Key)

  /** The value returned beside an error: a configuration with no key. */
  const Blank := Configuration([])

  /** The profile that `UpdateProfile` revises: the stored one when the
      lookup is served and finds it, otherwise a fresh one. */
  function Fetched(profiles: map<string, Profile>, emailAddress: string, read: Io): (r: Profile)
    ensures read.Served? && emailAddress in profiles ==> r == profiles[emailAddress]
    ensures !(read.Served? && emailAddress in profiles) ==>
      r.emailAddress == emailAddress && r.version == 0 && r.skills == [] && r.skillsHistory == []
  {
    if read.Served? && emailAddress in profiles then profiles[emailAddress] else Fresh(emailAddress)
  }

  /** The tag documents a successful batch writes: each tag as supplied,
      mapped to its cleaned form. */
  function TagDocuments(tags: seq<string>): (r: map<string, string>)
    ensures forall t :: t in r <==> t in tags
    ensures forall t :: t in r ==> r[t] == CleanTag(t)
  {
    map t | t in tags :: CleanTag(t)
  }

  /** Writing one more tag document on top of a batch's documents. */
  lemma TagDocumentsAppend(stored: map<string, string>, tags: seq<string>, tag: string)
    ensures (stored + TagDocuments(tags))[tag := CleanTag(tag)] == stored + TagDocuments(tags + [tag])
  {
  }

  /** How many writes of a batch of `count` go through before the one
      numbered `failAt` is rejected. */
  function Reached(count: nat, failAt: nat): (n: nat)
    ensures n <= count && n <= failAt
    ensures n == count || n == failAt
  {
    if failAt < count then failAt else count
  }

  ghost predicate KeyedByAddress(profiles: map<string, Profile>) {
    forall k :: k in profiles ==> profiles[k].emailAddress == k
  }

  ghost predicate WrittenByUpdates(profiles: map<string, Profile>) {
    forall k :: k in profiles ==>
      '@' in k && profiles[k].domain == GetDomain(k) && profiles[k].version >= 1
  }

  /** Storing a revised profile under its own address keeps both
      invariants of the profile collection. */
  lemma StoreRevised(profiles: map<string, Profile>, before: Profile, u: ProfileUpdate, now: int)
    requires '@' in u.emailAddress && before.emailAddress == u.emailAddress
    ensures var p := Revised(before, u, now);
            && (KeyedByAddress(profiles) ==> KeyedByAddress(profiles[u.emailAddress := p]))
            && (WrittenByUpdates(profiles) && before.version >= 0 ==>
                  WrittenByUpdates(profiles[u.emailAddress := p]))
  {
  }

  /** Names read off a listing of every key are exactly the stored values. */
  lemma ListedValues(m: map<string, string>, keys: seq<string>, names: seq<string>)
    requires |names| == |keys|
    requires forall i :: 0 <= i < |keys| ==> keys[i] in m && names[i] == m[keys[i]]
    requires forall k :: k in m ==> k in keys
    ensures forall t :: t in names <==> t in m.Values
  {
    forall t | t in m.Values
      ensures t in names
    {
      var k :| k in m && m[k] == t;
      var i :| 0 <= i < |keys| && keys[i] == k;
      assert names[i] == t;
    }
  }

  class MongoDataAccess {
    const connectionString: string
    const databaseName: string

    /** The `profiles` collection. */
    var profiles: map<string, Profile>
    /** The `skills` collection: tag as supplied to its cleaned name. */
    var skills: map<string, string>
    /** The `configuration` collection: present or absent. */
    var configuration: Option<Configuration>

    /** A profile document is stored under its own email address. */
    ghost predicate Valid()
      reads this
    {
      KeyedByAddress(profiles)
    }

    /** What `UpdateProfile` keeps true of every profile it has written:
        the domain is derived from the key, and the version is positive. */
    ghost predicate Consistent()
      reads this
    {
      Valid() && WrittenByUpdates(profiles)
    }

    /** `NewMongoDataAccess`, addressing a store with the given contents. */
    constructor (connection: string, database: string,
                 storedProfiles: map<string, Profile>, storedSkills: map<string, string>,
                 storedConfiguration: Option<Configuration>)
      requires forall k :: k in storedProfiles ==> storedProfiles[k].emailAddress == k
      ensures Valid()
      ensures connectionString == connection && databaseName == database
      ensures profiles == storedProfiles && skills == storedSkills
      ensures configuration == storedConfiguration
    {
      connectionString := connection;
      databaseName := database;
      profiles := storedProfiles;
      skills := storedSkills;
      configuration := storedConfiguration;
    }

    /** `GetProfile`. Only "not found" yields `found == false` without an
        error; a lookup the store rejects is reported as found, with the
        fresh profile and no error. */
    method GetProfile(emailAddress: string, io: Io) returns (profile: Option<Profile>, found: bool, err: Option<Error>)
      ensures err.Some? <==> io.DialFailed?
      ensures err.Some? ==> err.value == DialError && profile.None? && !found
      ensures found <==> io.Failed? || (io.Served? && emailAddress in profiles)
      ensures io.Served? && emailAddress in profiles ==> profile == Some(profiles[emailAddress])
      ensures err.None? && !(io.Served? && emailAddress in profiles) ==> profile == Some(Fresh(emailAddress))
      ensures err.None? && Valid() ==> profile.value.emailAddress == emailAddress
    {
      if io.DialFailed? {
        return None, false, Some(DialError);
      }
      var result := NewProfile();
      result := result.(emailAddress := emailAddress);
      var notFound := false;
      if io.Served? {
        if emailAddress in profiles {
          result := profiles[emailAddress];
        } else {
          notFound := true;
        }
      }
      if notFound {
        return Some(result), false, None;
      }
      return Some(result), true, None;
    }

    /** `UpdateProfile`: fetch, archive the current skills, take the new
        skills (names lower-cased) and availability, bump the version,
        stamp the time and the domain, and upsert under the address. */
    method UpdateProfile(update: ProfileUpdate, now: int, session: Io, read: Io)
      returns (profile: Option<Profile>, err: Option<Error>)
      requires Valid()
      requires !session.DialFailed? && !read.DialFailed? ==> '@' in update.emailAddress
      modifies this
      ensures Valid()
      ensures skills == old(skills) && configuration == old(configuration)
      ensures err.None? <==> session.Served? && !read.DialFailed?
      ensures session.DialFailed? || read.DialFailed? ==> err == Some(DialError)
      ensures session.Failed? && !read.DialFailed? ==> err == Some(StoreError)
      ensures err.Some? ==> profile.None? && profiles == old(profiles)
      ensures err.None? ==>
        var before := Fetched(old(profiles), update.emailAddress, read);
        && profile == Some(Revised(before, update, now))
        && profiles == old(profiles)[update.emailAddress := profile.value]
      ensures err.None? ==>
        var before := Fetched(old(profiles), update.emailAddress, read);
        var p := profile.value;
        && p.emailAddress == update.emailAddress
        && (|before.skills| > 0 ==>
              p.skillsHistory == before.skillsHistory + [SkillLevel(before.lastUpdated, before.skills)])
        && (|before.skills| == 0 ==> p.skillsHistory == before.skillsHistory)
        && p.version == before.version + 1
        && |p.skills| == |update.skills|
        && (forall i :: 0 <= i < |p.skills| ==>
              p.skills[i].level == update.skills[i].level && p.skills[i].skill == ToLower(update.skills[i].skill))
        && p.availability == update.availability
        && p.lastUpdated == now
        && p.domain == GetDomain(update.emailAddress)
      // A first save, and also a save whose lookup the store rejected,
      // starts over from a fresh profile.
      ensures err.None? && !(read.Served? && update.emailAddress in old(profiles)) ==>
        profile.value.version == 1 && profile.value.skillsHistory == []
      ensures old(Consistent()) ==> Consistent()
    {
      if session.DialFailed? {
        return None, Some(DialError);
      }
      var fetched, found, getErr := GetProfile(update.emailAddress, read);
      if getErr.Some? {
        return None, getErr;
      }
      var p := fetched.value;
      ghost var before := p;
      if |p.skills| > 0 {
        var sl := SkillLevel(p.lastUpdated, p.skills);
        p := p.(skillsHistory := p.skillsHistory + [sl]);
      }
      var incoming := update.skills;
      var i := 0;
      while i < |incoming|
        invariant 0 <= i <= |incoming| == |update.skills|
        invariant forall j :: 0 <= j < i ==>
                    incoming[j] == update.skills[j].(skill := ToLower(update.skills[j].skill))
        invariant forall j :: i <= j < |incoming| ==> incoming[j] == update.skills[j]
      {
        incoming := incoming[i := incoming[i].(skill := ToLower(incoming[i].skill))];
        i := i + 1;
      }
      assert incoming == LowercaseSkillNames(update.skills);
      p := p.(skills := incoming);
      p := p.(availability := update.availability);
      p := p.(version := p.version + 1);
      p := p.(lastUpdated := now);
      p := p.(domain := GetDomain(update.emailAddress));
      assert before == Fetched(old(profiles), update.emailAddress, read);
      assert p == Revised(before, update, now);
      RevisedFields(before, update, now);
      StoreRevised(profiles, before, update, now);
      if session.Failed? {
        return None, Some(StoreError);
      }
      profiles := profiles[p.emailAddress := p];
      return Some(p), None;
    }

    /** `ListProfiles`: the stored profiles in the caller's domain, each
        once, in whatever order the store yields them. */
    method ListProfiles(emailAddress: string, io: Io) returns (result: Option<seq<Profile>>, err: Option<Error>)
      requires Valid()
      requires !io.DialFailed? ==> '@' in emailAddress
      ensures io.DialFailed? ==> result.None? && err == Some(DialError)
      ensures io.Failed? ==> result.None? && err == Some(StoreError)
      ensures io.Served? ==> result.Some? && err.None?
      ensures io.Served? ==>
        forall p :: p in result.value <==> p in profiles.Values && p.domain == GetDomain(emailAddress)
      ensures io.Served? ==>
        forall i, j :: 0 <= i < j < |result.value| ==> result.value[i] != result.value[j]
      ensures io.Served? && Consistent() ==>
        forall p :: p in result.value ==> GetDomain(p.emailAddress) == GetDomain(emailAddress)
    {
      if io.DialFailed? {
        return None, Some(DialError);
      }
      var domain := GetDomain(emailAddress);
      if io.Failed? {
        return None, Some(StoreError);
      }
      var r: seq<Profile> := [];
      var pending := profiles.Keys;
      while pending != {}
        invariant pending <= profiles.Keys
        invariant forall i :: 0 <= i < |r| ==>
                    && r[i].emailAddress in profiles && r[i].emailAddress !in pending
                    && profiles[r[i].emailAddress] == r[i] && r[i].domain == domain
        invariant forall k :: k in profiles && k !in pending && profiles[k].domain == domain ==> profiles[k] in r
        invariant forall i, j :: 0 <= i < j < |r| ==> r[i] != r[j]
        decreases pending
      {
        var k :| k in pending;
        if profiles[k].domain == domain {
          r := r + [profiles[k]];
        }
        pending := pending - {k};
      }
      forall p | p in profiles.Values && p.domain == domain
        ensures p in r
      {
        var k :| k in profiles && profiles[k] == p;
      }
      return Some(r), None;
    }

    /** `DeleteProfile`: every removal error, "not found" included, comes
        back as `(false, error)`. */
    method DeleteProfile(emailAddress: string, io: Io) returns (found: bool, err: Option<Error>)
      modifies this
      ensures skills == old(skills) && configuration == old(configuration)
      ensures found <==> err.None?
      ensures found <==> io.Served? && emailAddress in old(profiles)
      ensures found ==> profiles == old(profiles) - {emailAddress}
      ensures !found ==> profiles == old(profiles)
      ensures io.DialFailed? ==> err == Some(DialError)
      ensures io.Served? && emailAddress !in old(profiles) ==> err == Some(ErrNotFound)
      ensures io.Failed? ==> err == Some(StoreError)
      ensures old(Valid()) ==> Valid()
      ensures old(Consistent()) ==> Consistent()
    {
      if io.DialFailed? {
        return false, Some(DialError);
      }
      if io.Failed? {
        return false, Some(StoreError);
      }
      if emailAddress !in profiles {
        return false, Some(ErrNotFound);
      }
      profiles := profiles - {emailAddress};
      return true, None;
    }

    /** `ListSkillTags`: the cleaned name of every tag document, one per
        document, in the order of the ghost `keys`. A query the store
        rejects yields no list and no error. */
    method ListSkillTags(io: Io) returns (tags: Option<seq<string>>, err: Option<Error>, ghost keys: seq<string>)
      ensures io.DialFailed? ==> tags.None? && err == Some(DialError)
      ensures io.Failed? ==> tags.None? && err.None?
      ensures io.Served? ==> tags.Some? && err.None?
      ensures io.Served? ==> |tags.value| == |keys| == |skills|
      ensures io.Served? ==> forall i, j :: 0 <= i < j < |keys| ==> keys[i] != keys[j]
      ensures io.Served? ==> forall k :: k in skills <==> k in keys
      ensures io.Served? ==>
        forall i :: 0 <= i < |keys| ==> keys[i] in skills && tags.value[i] == skills[keys[i]]
      ensures io.Served? ==> forall t :: t in tags.value <==> t in skills.Values
    {
      keys := [];
      if io.DialFailed? {
        return None, Some(DialError), keys;
      }
      if io.Failed? {
        return None, None, keys;
      }
      var names: seq<string> := [];
      var pending := skills.Keys;
      ghost var listed: set<string> := {};
      while pending != {}
        invariant pending <= skills.Keys && listed == skills.Keys - pending
        invariant |names| == |keys| == |listed|
        invariant forall i :: 0 <= i < |keys| ==> keys[i] in listed && names[i] == skills[keys[i]]
        invariant forall k :: k in listed ==> k in keys
        invariant forall i, j :: 0 <= i < j < |keys| ==> keys[i] != keys[j]
        decreases pending
      {
        var k :| k in pending;
        names := names + [skills[k]];
        keys := keys + [k];
        listed := listed + {k};
        pending := pending - {k};
      }
      assert listed == skills.Keys;
      ListedValues(skills, keys, names);
      return Some(names), None, keys;
    }

    /** `AddSkillTags`: upsert each tag, keyed as supplied, with its cleaned
        name; stop at the first rejected write, keeping the earlier ones. */
    method AddSkillTags(tags: seq<string>, connected: bool, failAt: nat) returns (err: Option<Error>)
      modifies this
      ensures profiles == old(profiles) && configuration == old(configuration)
      ensures err.None? <==> connected && failAt >= |tags|
      ensures !connected ==> err == Some(DialError) && skills == old(skills)
      ensures connected ==> skills == old(skills) + TagDocuments(tags[..Reached(|tags|, failAt)])
      ensures connected && failAt < |tags| ==> err == Some(StoreError)
    {
      if !connected {
        return Some(DialError);
      }
      var i := 0;
      while i < |tags|
        invariant 0 <= i <= |tags| && i <= failAt
        invariant skills == old(skills) + TagDocuments(tags[..i])
        invariant profiles == old(profiles) && configuration == old(configuration)
      {
        var tag := tags[i];
        if i == failAt {
          return Some(StoreError);
        }
        assert tags[..i + 1] == tags[..i] + [tag];
        TagDocumentsAppend(old(skills), tags[..i], tag);
        skills := skills[tag := CleanTag(tag)];
        i := i + 1;
      }
      assert tags[..i] == tags;
      return None;
    }

    /** `DeleteSkillTags`: remove each tag; a tag that is not there is
        skipped, the first other error stops the batch. */
    method DeleteSkillTags(tags: seq<string>, connected: bool, failAt: nat) returns (err: Option<Error>)
      modifies this
      ensures profiles == old(profiles) && configuration == old(configuration)
      ensures err.None? <==> connected && failAt >= |tags|
      ensures !connected ==> err == Some(DialError) && skills == old(skills)
      ensures connected ==> skills == old(skills) - (set t | t in tags[..Reached(|tags|, failAt)])
      ensures connected && failAt < |tags| ==> err == Some(StoreError)
    {
      if !connected {
        return Some(DialError);
      }
      var i := 0;
      while i < |tags|
        invariant 0 <= i <= |tags| && i <= failAt
        invariant skills == old(skills) - (set t | t in tags[..i])
        invariant profiles == old(profiles) && configuration == old(configuration)
      {
        var tag := tags[i];
        if i == failAt {
          return Some(StoreError);
        }
        assert tags[..i + 1] == tags[..i] + [tag];
        skills := skills - {tag};
        i := i + 1;
      }
      assert tags[..i] == tags;
      return None;
    }

    /** `getConfiguration`: the stored configuration, or a blank one with
        the error. */
    method GetConfiguration(io: Io) returns (c: Configuration, err: Option<Error>)
      ensures err.None? <==> io.Served? && configuration.Some?
      ensures err.None? ==> c == configuration.value
      ensures err.Some? ==> c == Blank
      ensures io.DialFailed? ==> err == Some(DialError)
      ensures io.Served? && configuration.None? ==> err == Some(ErrNotFound)
      ensures io.Failed? ==> err == Some(StoreError)
    {
      if io.DialFailed? {
        return Blank, Some(DialError);
      }
      if io.Failed? {
        return Blank, Some(StoreError);
      }
      if configuration.None? {
        return Blank, Some(ErrNotFound);
      }
      return configuration.value, None;
    }

    /** `attemptToCreateConfiguration`: insert a configuration carrying the
        generated key; the insert fails when the document already exists. */
    method AttemptToCreateConfiguration(io: Io, key: Key) returns (err: Option<Error>)
      modifies this
      ensures profiles == old(profiles) && skills == old(skills)
      ensures err.None? <==> io.Served? && old(configuration).None?
      ensures err.None? ==> configuration == Some(Configuration(key))
      ensures err.Some? ==> configuration == old(configuration)
      ensures io.DialFailed? ==> err == Some(DialError)
    {
      if io.DialFailed? {
        return Some(DialError);
      }
      if io.Failed? || configuration.Some? {
        return Some(StoreError);
      }
      configuration := Some(Configuration(key));
      return None;
    }

    /** `GetOrCreateConfiguration`: a fetch; on "not found" only, an insert
        whose error is ignored, then a second fetch whose outcome is
        returned. */
    method GetOrCreateConfiguration(first: Io, create: Io, second: Io, key: Key)
      returns (c: Configuration, err: Option<Error>)
      modifies this
      ensures profiles == old(profiles) && skills == old(skills)
      ensures !first.Served? || old(configuration).Some? ==> configuration == old(configuration)
      ensures first.Served? && old(configuration).None? ==>
        configuration == if create.Served? then Some(Configuration(key)) else None
      ensures first.Served? && old(configuration).Some? ==> c == old(configuration).value && err.None?
      ensures first.DialFailed? ==> c == Blank && err == Some(DialError)
      ensures first.Failed? ==> c == Blank && err == Some(StoreError)
      ensures err.None? ==> configuration == Some(c)
      ensures err.Some? ==> c == Blank
      ensures first.Served? && old(configuration).None? ==>
        (err.None? <==> second.Served? && create.Served?)
      ensures first.Served? && create.Served? && second.Served? ==> err.None?
      ensures first.Served? && old(configuration).None? && second.Served? && !create.Served? ==>
        err == Some(ErrNotFound)
      ensures first.Served? && old(configuration).None? && second.DialFailed? ==> err == Some(DialError)
      ensures first.Served? && old(configuration).None? && second.Failed? ==> err == Some(StoreError)
    {
      c, err := GetConfiguration(first);
      if err == Some(ErrNotFound) {
        var ignored := AttemptToCreateConfiguration(create, key);
        c, err := GetConfiguration(second);
      }
    }

    /** `DeleteConfiguration`: drop the whole collection. */
    method DeleteConfiguration(io: Io) returns (err: Option<Error>)
      modifies this
      ensures profiles == old(profiles) && skills == old(skills)
      ensures err.None? <==> io.Served?
      ensures io.Served? ==> configuration.None?
      ensures !io.Served? ==> configuration == old(configuration)
      ensures io.DialFailed? ==> err == Some(DialError)
      ensures io.Failed? ==> err == Some(StoreError)
    {
      if io.DialFailed? {
        return Some(DialError);
      }
      if io.Failed? {
        return Some(StoreError);
      }
      configuration := None;
      return None;
    }
  }

  /** Two bootstraps in a row, with no failure and no other caller, return
      the same configuration, whatever key the second one generates. */
  method BootstrapTwice(store: MongoDataAccess, key1: Key, key2: Key) returns (c1: Configuration, c2: Configuration)
    modifies store
    ensures c1 == c2 && store.configuration == Some(c1)
    ensures old(store.configuration).Some? ==> c1 == old(store.configuration).value
    ensures old(store.configuration).None? ==> c1 == Configuration(key1)
  {
    var e1, e2;
    c1, e1 := store.GetOrCreateConfiguration(Served, Served, Served, key1);
    c2, e2 := store.GetOrCreateConfiguration(Served, Served, Served, key2);
  }

  /** After a delete, the next bootstrap stores and returns the newly
      generated key, so it differs from the old one whenever the generator
      gives a different key. */
  method BootstrapAfterDelete(store: MongoDataAccess, key: Key) returns (c: Configuration)
    modifies store
    ensures c == Configuration(key) && store.configuration == Some(c)
    ensures old(store.configuration).Some? && old(store.configuration).value.sessionEncryptionKey != key ==>
      c != old(store.configuration).value
  {
    var err := store.DeleteConfiguration(Served);
    c, err := store.GetOrCreateConfiguration(Served, Served, Served, key);
  }
}
