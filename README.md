# Skills-directory data-access layer, modelled in Dafny

This project models the data-access layer of a skills directory. The layer
keeps three collections in a document store:

- profiles, keyed by email address, each holding the current skills, a
  history of earlier skill sets, an availability, a version and the time of
  the last update;
- the skill-tag vocabulary, keyed by the tag as supplied and holding the
  cleaned tag;
- a singleton configuration document holding the session-encryption key.

The store is represented by the fields of the class
`DataAccess.MongoDataAccess`: `profiles: map<string, Profile>`,
`skills: map<string, string>` and `configuration: Option<Configuration>`.
Every round trip to the store takes an `Io` argument that says how it ends.
`Served` means the store acts on its current contents. `DialFailed` means
the connection could not be opened. `Failed` means the store answered with
an error other than "not found". The batch tag operations open one session
and then write tag by tag. They take `connected` and `failAt`, the index of
the first write the store rejects.

Files:

- `wrappers.dfy`: `Option`, standing for Go's nil results.
- `strings.dfy`: the functions of Go's `strings` package that the layer uses
  (`ToLower`, `Replace`, `Split`), all on ASCII. `Join` is the partner of
  `Split`, and both round trips are proved.
- `tags.dfy`: `CleanTag` and its properties.
- `profiles.dfy`: the profile types, `getDomain`, and the versioning rule
  `Revised`. `Replay` applies `Revised` over a run of updates. The lemmas
  prove that versions count the updates and that the history archives
  every earlier non-empty skill set.
- `dataaccess.dfy`: the class with one method per operation, and two client
  methods for the configuration bootstrap.

Modelling decisions:

- The loop at `dataaccess/dataaccess.go:96-98` assigns to the range
  variable. It has an effect only if `ProfileUpdate.Skills` holds pointers.
  The model adopts that reading, so stored skill names are lower-cased.
  Under the value-element reading the loop does nothing, and names would be
  stored as supplied.
- `GetProfile` reports a lookup that the store rejects as found, with a
  fresh profile and no error. `UpdateProfile` then builds on that fresh
  profile. A save whose lookup was rejected therefore overwrites an
  existing profile with version 1 and an empty history. `UpdateProfile`'s
  contract states this.
- `getDomain` indexes the second piece of a split on `@` and panics when
  there is none. Each caller requires an `@` only on the paths that reach
  the call.
- A profile document is stored under its own address
  (`MongoDataAccess.Valid`). `UpdateProfile` also keeps `Consistent`: the
  domain is derived from the key and the version is at least 1.
- `NewProfile()` is taken to have version 0, no skills, no history and time
  0. `NewConfiguration(nil)` and `Configuration{}` are both the blank
  configuration `Blank`.
- `DeleteProfile` returns the store's "not found" as an error with
  `found == false` (`dataaccess/dataaccess.go:174-178`).
- `ListSkillTags` returns no list and no error when the query fails
  (`dataaccess/dataaccess.go:130-133`).
- A second bootstrap after a delete yields a different key only if the
  generator supplies one (`BootstrapAfterDelete`).

## Model

| member | source | states |
|---|---|---|
| `Strings.ToLower` | dataaccess/dataaccess.go:204 | the result has the input's length, each character is the ASCII lower-casing of the input's, and no upper-case letter remains |
| `Strings.Replace` | dataaccess/dataaccess.go:228 | every occurrence of one character becomes the other, everything else stays in place, and the replaced character no longer occurs |
| `Strings.Split` | dataaccess/dataaccess.go:204 | at least one piece, no piece holds the separator, and there are two or more pieces exactly when the separator occurs |
| `Strings.JoinSplit` | dataaccess/dataaccess.go:204 | joining the pieces of a split on the separator gives back the original string |
| `Strings.SplitJoin` | dataaccess/dataaccess.go:204 | splitting a join of separator-free pieces gives back those pieces |
| `Tags.CleanTag` | dataaccess/dataaccess.go:226-229 | same length as the tag; each space becomes '-' and every other character is lower-cased; no upper-case letter and no space remain |
| `Tags.CleanTagIdempotent` | dataaccess/dataaccess.go:227-229 | cleaning a cleaned tag changes nothing |
| `Tags.CleanTagExample` | dataaccess/dataaccess.go:226-229 | "Go Lang" cleans to "go-lang" |
| `Profiles.LowercaseSkillNames` | dataaccess/dataaccess.go:96-98 | one skill per supplied skill, in order, each with its level kept and its name lower-cased, so no upper-case letter remains |
| `Profiles.Revised` | dataaccess/dataaccess.go:86-104 | the revised profile keeps the address, has version plus one, the new time and a domain without '@'; its history is the old history, unchanged, followed by one more entry exactly when there were current skills |
| `Profiles.GetDomain` | dataaccess/dataaccess.go:203-205 | defined only for an address with '@'; the domain holds no '@' and no upper-case letter |
| `Profiles.DomainOf` | dataaccess/dataaccess.go:203-205 | the domain is the lower-cased text between the first '@' and the next '@' or the end |
| `Profiles.RevisedFields` | dataaccess/dataaccess.go:86-104 | one revision archives the current skills with their time exactly when there are some, keeps the address, adds one to the version, and sets the lower-cased new skills, the availability, the time and the derived domain |
| `Profiles.ReplayCountsVersions` | dataaccess/dataaccess.go:100-104 | after any run of successful updates the version has grown by exactly the number of updates |
| `Profiles.ReplayKeepsEveryPreviousSkills` | dataaccess/dataaccess.go:86-104 | after a run of updates the history is the old history plus every earlier non-empty skill set, in order, each dated with the time it was set; the newest skills and time are only the current ones |
| `Profiles.TwoUpdatesFromFresh` | dataaccess/dataaccess.go:47-48 | from a fresh profile, a first save gives version 1 and no history; a second save gives version 2, a history holding the first skills with the first save's time, and the second skills |
| `DataAccess.Fetched` | dataaccess/dataaccess.go:47-56 | the profile a save builds on: the stored profile when the lookup is served and finds it; otherwise a fresh profile with the address, version 0, no skills and no history |
| `DataAccess.TagDocuments` | dataaccess/dataaccess.go:154-155 | the tag documents a batch writes: one per supplied tag, keyed by the tag as supplied, holding its cleaned name |
| `DataAccess.StoreRevised` | dataaccess/dataaccess.go:104-106 | upserting a revised profile under its address keeps every document under its own address, and keeps every stored domain derived from its key with a version of at least 1 |
| `DataAccess.MongoDataAccess.constructor` | dataaccess/dataaccess.go:31-34 | the access object addresses a store with the given contents |
| `DataAccess.MongoDataAccess.GetProfile` | dataaccess/dataaccess.go:37-57 | an error only when the connection fails; `found` is false only on "not found"; a stored profile is returned as stored; otherwise a fresh profile with the address, including when the store rejects the lookup |
| `DataAccess.MongoDataAccess.UpdateProfile` | dataaccess/dataaccess.go:61-114 | succeeds exactly when both connections open and the upsert is accepted; then only the address's key is written, with the fetched profile's skills archived when non-empty, the new lower-cased skills, the availability, version plus one, the time and the domain; on failure nothing changes; keeps `Valid` and `Consistent` |
| `DataAccess.MongoDataAccess.ListProfiles` | dataaccess/dataaccess.go:184-201 | when served, exactly the stored profiles whose domain is the caller's, each once; under `Consistent` their addresses have the caller's domain; errors otherwise |
| `DataAccess.MongoDataAccess.DeleteProfile` | dataaccess/dataaccess.go:166-181 | found with no error exactly when served and present, and then only that key is removed; every other outcome, "not found" included, is `(false, error)` and changes nothing |
| `DataAccess.MongoDataAccess.ListSkillTags` | dataaccess/dataaccess.go:117-141 | when served, one name per tag document: the i-th name is the stored name of the i-th of a run of distinct keys that covers every document, so each document contributes exactly once; the names are exactly the stored names; a failed dial is an error, and a rejected query gives no list and no error |
| `DataAccess.MongoDataAccess.AddSkillTags` | dataaccess/dataaccess.go:144-163 | the tags before the first rejected write are upserted, each keyed as supplied with its cleaned name, and the rest are not written; an error exactly when the dial fails or some write is rejected |
| `DataAccess.MongoDataAccess.DeleteSkillTags` | dataaccess/dataaccess.go:208-224 | the tags before the first rejected removal are removed, and absent tags are no error; the rest are kept; an error exactly when the dial fails or a removal is rejected |
| `DataAccess.MongoDataAccess.GetConfiguration` | dataaccess/dataaccess.go:231-243 | the stored configuration with no error exactly when served and present; otherwise the blank configuration with "not found", a dial error or a store error |
| `DataAccess.MongoDataAccess.AttemptToCreateConfiguration` | dataaccess/dataaccess.go:245-255 | stores a configuration with the given key exactly when served and absent; an existing document makes the insert fail and stay unchanged |
| `DataAccess.MongoDataAccess.GetOrCreateConfiguration` | dataaccess/dataaccess.go:258-267 | a present configuration is returned and kept; when absent, one insert is tried with its error ignored and the second fetch decides the answer: the new key when the insert and the fetch are served, "not found" when only the insert failed, a dial or store error when the second fetch fails that way; whatever is returned without error is what is stored |
| `DataAccess.MongoDataAccess.DeleteConfiguration` | dataaccess/dataaccess.go:270-279 | when served, the configuration becomes absent; otherwise an error and no change |
| `DataAccess.BootstrapTwice` | dataaccess/dataaccess.go:258-267 | two failure-free bootstraps in a row return the same configuration: the stored one, or the first generated key |
| `DataAccess.BootstrapAfterDelete` | dataaccess/dataaccess.go:262-278 | after a delete, a failure-free bootstrap returns and stores the newly generated key |

## Left out

- Opening and closing sessions (`mgo.Dial`, `defer session.Close()`) is reduced to the `DialFailed` outcome. The connection string and database name are kept but play no part.
- Logging has no behavioural content and is left out.
- BSON queries and the mgo collection calls are replaced by map and option operations. A decode that fills a result only partly is not modelled: a rejected lookup leaves the fresh result as it was.
- `time.Now()` is the `now` parameter, in whole seconds. `createSessionEncryptionKey` is the `key` parameter, because the generator is random.
- `strings.ToLower` is modelled on ASCII letters only. Unicode case mapping is left out.
- Concurrent callers are left out; the model is sequential. This covers the lost-update race on a profile and racing first-time configuration creators.
- UpdateProfile: under the pointer reading, the source also lower-cases the names inside the caller's `ProfileUpdate`. That aliasing is not modelled: the model lower-cases a copy.
- ListProfiles: the order in which the store yields documents is not modelled; any order is allowed.
- ListSkillTags: as with `ListProfiles`, the order is not modelled.
- DeleteConfiguration: the collection is modelled as holding only the singleton document, so dropping it is the same as clearing the singleton. The store's own error for dropping a collection that does not exist is not modelled.
- Revised: `Version++` works on a fixed-width Go integer; the model's version is an unbounded integer, so overflow is not modelled.
- `Availability` is an opaque string. `Skill` is a name and an integer level. The other fields of `Skill` and `Configuration`, defined outside `dataaccess.go`, are not part of this model.
