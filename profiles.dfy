/** Profiles and the versioning rule that every profile update applies:
    the superseded skills move into the history, the version goes up by
    one, and the update time and the domain are stamped on the profile. */
module Profiles {
  import opened Strings

  /** One skill and the level the person claims in it. */
  datatype Skill = Skill(skill: string, level: int)

  /** A snapshot of a profile's skills, dated with the time they were set. */
  datatype SkillLevel = SkillLevel(date: int, skills: seq<Skill>)

  /** The availability is stored as supplied; its inner shape is not used. */
  type Availability = string

  /** A stored profile. Times are whole seconds since the Unix epoch. */
  datatype Profile = Profile(
    emailAddress: string,
    domain: string,
    skills: seq<Skill>,
    skillsHistory: seq<SkillLevel>,
    availability: Availability,
    version: int,
    lastUpdated: int)

  /** What a caller supplies to `UpdateProfile`. */
  datatype ProfileUpdate = ProfileUpdate(
    emailAddress: string,
    skills: seq<Skill>,
    availability: Availability)

  /** `NewProfile()`: version 0, no skills, no history. */
  function NewProfile(): (r: Profile) {
    Profile("", "", [], [], "", 0, 0)
  }

  /** The profile `GetProfile` starts from: a new one carrying the address. */
  function Fresh(emailAddress: string): (r: Profile) {
    NewProfile().(emailAddress := emailAddress)
  }

  /** `getDomain`: the lower-cased second piece of the address split on '@'
      (Go's `strings.Split(emailAddress, "@")[1]`, which panics without '@'). */
  function GetDomain(emailAddress: string): (r: string)
    requires '@' in emailAddress
    ensures '@' !in r && NoUpper(r)
  {
    var parts := Split(emailAddress, '@');
    ToLower(parts[1])
  }

  /** The domain is the text between the first '@' and the next '@' (or the
      end), lower-cased: a plain split, not mailbox parsing. */
  lemma DomainOf(local: string, domain: string, rest: string)
    requires '@' !in local && '@' !in domain
    requires rest == [] || rest[0] == '@'
    ensures GetDomain(local + ['@'] + domain + rest) == ToLower(domain)
  {
    var e := local + ['@'] + domain + rest;
    assert e == local + ['@'] + (domain + rest);
    SplitAtFirstSeparator(local, '@', domain + rest);
    SplitFirstPiece(domain, '@', rest);
  }

  /** Each incoming skill with its name lower-cased, level untouched. */
  function LowercaseSkillNames(skills: seq<Skill>): (r: seq<Skill>)
    ensures |r| == |skills|
    ensures forall i :: 0 <= i < |r| ==>
              r[i].level == skills[i].level && r[i].skill == ToLower(skills[i].skill) && NoUpper(r[i].skill)
  {
    seq(|skills|, i requires 0 <= i < |skills| => skills[i].(skill := ToLower(skills[i].skill)))
  }

  /** The history entry that an update archives: the current skills dated
      with the current update time, or nothing when there are no skills. */
  function Snapshot(date: int, skills: seq<Skill>): (r: seq<SkillLevel>) {
    if |skills| > 0 then [SkillLevel(date, skills)] else []
  }

  /** The profile that `UpdateProfile` writes, given the profile it fetched,
      the update and the current time. */
  function Revised(p: Profile, u: ProfileUpdate, now: int): (r: Profile)
    requires '@' in u.emailAddress
    ensures r.emailAddress == p.emailAddress && r.version == p.version + 1
    ensures |r.skillsHistory| == |p.skillsHistory| + (if |p.skills| > 0 then 1 else 0)
    ensures r.skillsHistory[..|p.skillsHistory|] == p.skillsHistory
    ensures '@' !in r.domain && r.lastUpdated == now
  {
    p.(skillsHistory := p.skillsHistory + Snapshot(p.lastUpdated, p.skills),
       skills := LowercaseSkillNames(u.skills),
       availability := u.availability,
       version := p.version + 1,
       lastUpdated := now,
       domain := GetDomain(u.emailAddress))
  }

  /** What one revision does to each field: the current skills, when there
      are any, are archived with their time; the address is kept; the
      version goes up by one; the new skills, with lower-cased names, the
      availability, the time and the derived domain replace the old ones. */
  lemma RevisedFields(p: Profile, u: ProfileUpdate, now: int)
    requires '@' in u.emailAddress
    ensures var r := Revised(p, u, now);
      && r.emailAddress == p.emailAddress
      && (|p.skills| > 0 ==> r.skillsHistory == p.skillsHistory + [SkillLevel(p.lastUpdated, p.skills)])
      && (|p.skills| == 0 ==> r.skillsHistory == p.skillsHistory)
      && r.version == p.version + 1
      && |r.skills| == |u.skills|
      && (forall i :: 0 <= i < |r.skills| ==>
            r.skills[i].level == u.skills[i].level && r.skills[i].skill == ToLower(u.skills[i].skill))
      && r.availability == u.availability
      && r.lastUpdated == now
      && r.domain == GetDomain(u.emailAddress)
  {
  }

  /** One successful update: what was supplied and when it was applied. */
  datatype Step = Step(update: ProfileUpdate, now: int)

  ghost predicate Addressed(steps: seq<Step>) {
    forall i :: 0 <= i < |steps| ==> '@' in steps[i].update.emailAddress
  }

  /** A profile after a run of successful updates, oldest first. */
  function Replay(p: Profile, steps: seq<Step>): (r: Profile)
    requires Addressed(steps)
    decreases |steps|
  {
    if steps == [] then p
    else
      var last := steps[|steps| - 1];
      Revised(Replay(p, steps[..|steps| - 1]), last.update, last.now)
  }

  /** Every non-empty skill set the steps supplied, dated with its step. */
  function Superseded(steps: seq<Step>): (r: seq<SkillLevel>)
    decreases |steps|
  {
    if steps == [] then []
    else
      var last := steps[|steps| - 1];
      Superseded(steps[..|steps| - 1]) + Snapshot(last.now, LowercaseSkillNames(last.update.skills))
  }

  /** Every successful update raises the version by exactly one. */
  lemma {:induction false} ReplayCountsVersions(p: Profile, steps: seq<Step>)
    requires Addressed(steps)
    ensures Replay(p, steps).version == p.version + |steps|
  {
    if steps != [] {
      ReplayCountsVersions(p, steps[..|steps| - 1]);
    }
  }

  /** After a run of updates the history holds, in order, every earlier
      non-empty skill set with the time it was set, and the newest skills
      appear only as the current ones. */
  lemma {:induction false} ReplayKeepsEveryPreviousSkills(p: Profile, steps: seq<Step>)
    requires Addressed(steps) && |steps| > 0
    ensures Replay(p, steps).skillsHistory
         == p.skillsHistory + Snapshot(p.lastUpdated, p.skills) + Superseded(steps[..|steps| - 1])
    ensures Replay(p, steps).skills == LowercaseSkillNames(steps[|steps| - 1].update.skills)
    ensures Replay(p, steps).lastUpdated == steps[|steps| - 1].now
  {
    var n := |steps|;
    var last := steps[n - 1];
    var prefix := steps[..n - 1];
    var q := Replay(p, prefix);
    assert Replay(p, steps) == Revised(q, last.update, last.now);
    if n == 1 {
      assert prefix == [];
    } else {
      ReplayKeepsEveryPreviousSkills(p, prefix);
      var previous := prefix[n - 2];
      assert prefix[..n - 2] == steps[..n - 2];
      assert q.skills == LowercaseSkillNames(previous.update.skills);
      assert q.lastUpdated == previous.now;
      assert Superseded(prefix) == Superseded(prefix[..n - 2]) + Snapshot(q.lastUpdated, q.skills);
    }
  }

  /** The two-update walk-through: a first save of an address with no stored
      profile yields version 1 and an empty history; a second save archives
      the first skills with the first save's time and keeps only the new
      skills as the current ones. */
  lemma {:induction false} TwoUpdatesFromFresh(e: string, first: seq<Skill>, second: seq<Skill>,
                                               availability: Availability, t1: int, t2: int)
    requires '@' in e && |first| > 0
    requires forall i :: 0 <= i < |first| ==> NoUpper(first[i].skill)
    requires forall i :: 0 <= i < |second| ==> NoUpper(second[i].skill)
    ensures var p1 := Revised(Fresh(e), ProfileUpdate(e, first, availability), t1);
            && p1.version == 1 && p1.skillsHistory == [] && p1.skills == first
            && var p2 := Revised(p1, ProfileUpdate(e, second, availability), t2);
               && p2.version == 2
               && p2.skillsHistory == [SkillLevel(t1, first)]
               && p2.skills == second
               && p2.emailAddress == e
  {
    LowercaseLowerNames(first);
    LowercaseLowerNames(second);
  }

  lemma LowerIsUnchanged(s: string)
    requires NoUpper(s)
    ensures ToLower(s) == s
  {
  }

  lemma LowercaseLowerNames(skills: seq<Skill>)
    requires forall i :: 0 <= i < |skills| ==> NoUpper(skills[i].skill)
    ensures LowercaseSkillNames(skills) == skills
  {
    forall i | 0 <= i < |skills|
      ensures LowercaseSkillNames(skills)[i] == skills[i]
    {
      LowerIsUnchanged(skills[i].skill);
    }
  }
}
