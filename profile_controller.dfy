/** The profile handlers: create or update the caller's profile, read a
    profile by user id, delete the caller's profile and account, and add
    and remove experience and education entries. */
module ProfileController {
  import opened Http
  import opened JsArray
  import opened Models
  import opened ExperienceValidation

  /** The message of the TypeError thrown by `req.body.skills.split(',')`
      when the body has no skills. */
  const SplitOfUndefined: string := "Cannot read properties of undefined (reading 'split')"

  const HandleExists: string := "That handle already exists"

  /** What a handler sends when the caller has no profile. */
  const NoProfile: Errors := map["noprofile" := "Profile not found"]

  /** The fields `_.pick` keeps of an experience and of an education body. */
  const ExperienceKeys: set<string> := {"title", "company", "location", "from", "to", "current", "description"}
  const EducationKeys: set<string> := {"school", "degree", "fieldofstudy", "from", "to", "current", "description"}

  /** The two successful replies of `createProfile`: `{ updatedProfile }`
      after an update, the saved profile itself after a create. */
  datatype Saved = Updated(updatedProfile: Profile) | Created(savedProfile: Profile)

  /** The `profileFields` object of `createProfile`, or None when building it
      throws. Its guard `typeof req.body.skills !== undefined` compares a
      type name with the value `undefined` and always holds, so the split
      runs, and throws, on a body without skills. Every other field is the
      body's value or ''; the skills joined back with ',' give the body's
      string. */
  function BuildProfileFields(caller: Id, body: Body): (f: Option<ProfileFields>)
    ensures f.Some? <==> "skills" in body
    ensures f.Some? ==>
      && f.value.user == caller
      && f.value.handle == OrEmpty(body, "handle")
      && f.value.company == OrEmpty(body, "company")
      && f.value.website == OrEmpty(body, "website")
      && f.value.status == OrEmpty(body, "status")
      && f.value.location == OrEmpty(body, "location")
      && f.value.bio == OrEmpty(body, "bio")
      && f.value.githubusername == OrEmpty(body, "githubusername")
      && f.value.social == Social(OrEmpty(body, "youtube"), OrEmpty(body, "twitter"), OrEmpty(body, "facebook"),
                                  OrEmpty(body, "instagram"), OrEmpty(body, "linkedin"))
    ensures f.Some? ==>
      && |f.value.skills| >= 1
      && (forall i :: 0 <= i < |f.value.skills| ==> ',' !in f.value.skills[i])
      && Join(f.value.skills, ',') == body["skills"]
  {
    if "skills" !in body then None
    else
      JoinSplit(body["skills"], ',');
      Some(ProfileFields(
        caller,
        OrEmpty(body, "handle"),
        OrEmpty(body, "company"),
        OrEmpty(body, "website"),
        OrEmpty(body, "status"),
        OrEmpty(body, "location"),
        OrEmpty(body, "bio"),
        OrEmpty(body, "githubusername"),
        Split(body["skills"], ','),
        Social(OrEmpty(body, "youtube"), OrEmpty(body, "twitter"), OrEmpty(body, "facebook"),
               OrEmpty(body, "instagram"), OrEmpty(body, "linkedin"))))
  }

  /** `createProfile`. Failed validation returns the errors and stores
      nothing. An existing profile of the caller gets the built fields, its
      entries untouched. Otherwise a new profile is saved even when its
      handle is taken: the 400 for the taken handle is sent without a
      `return`, so the save still runs (and the 200 that follows it cannot
      be sent any more). */
  method CreateProfile(lib: Lib, db: Db, caller: Id, body: Body) returns (r: Response<Saved>)
    requires db.Valid()
    modifies db
    ensures db.Valid()
    ensures db.users == old(db.users) && db.posts == old(db.posts)
    ensures var c := lib.validateProfile(body);
      && (!c.isValid ==> r == BadRequest(c.errors) && db.profiles == old(db.profiles))
      && (c.isValid && "skills" !in c.data ==> r == Failed(SplitOfUndefined) && db.profiles == old(db.profiles))
      && (c.isValid && "skills" in c.data ==>
            var f := BuildProfileFields(caller, c.data).value;
            if caller in old(db.profiles) then
              var p := old(db.profiles[caller]).(fields := f);
              r == Ok(Updated(p)) && db.profiles == old(db.profiles)[caller := p]
            else
              var p := Profile(f, [], []);
              && db.profiles == old(db.profiles)[caller := p]
              && r == if HandleTaken(old(db.profiles), f.handle)
                      then BadRequest(c.errors["handle" := HandleExists])
                      else Ok(Created(p)))
  {
    var c := lib.validateProfile(body);
    if !c.isValid {
      return BadRequest(c.errors);
    }
    // the validator normalised req.body in place
    var built := BuildProfileFields(caller, c.data);
    if built.None? {
      return Failed(SplitOfUndefined);
    }
    var profileFields := built.value;
    if caller in db.profiles {
      // Update
      var updated := db.profiles[caller].(fields := profileFields);
      db.profiles := db.profiles[caller := updated];
      r := Ok(Updated(updated));
    } else {
      // Create
      var errors := c.errors;
      var sent: Option<Response<Saved>> := None;
      if HandleTaken(db.profiles, profileFields.handle) {
        errors := errors["handle" := HandleExists];
        sent := Some(BadRequest(errors));
      }
      var saved := Profile(profileFields, [], []);
      db.profiles := db.profiles[caller := saved];
      r := if sent.Some? then sent.value else Ok(Created(saved));
    }
  }

  /** `userProfile`: a malformed id is a 400, a user without a profile a 404,
      otherwise that user's profile. Nothing is written. */
  method UserProfile(lib: Lib, db: Db, userId: Id) returns (r: Response<Profile>)
    ensures !lib.isMongoId(userId) ==> r == BadRequest(map["user_id" := "Unable to find user"])
    ensures lib.isMongoId(userId) && userId !in db.profiles ==> r == NotFound(NoProfile)
    ensures lib.isMongoId(userId) && userId in db.profiles ==> r == Ok(db.profiles[userId])
  {
    var errors: Errors := map[];
    if !lib.isMongoId(userId) {
      errors := errors["user_id" := "Unable to find user"];
      return BadRequest(errors);
    }
    if userId !in db.profiles {
      errors := errors["noprofile" := "Profile not found"];
      return NotFound(errors);
    }
    r := Ok(db.profiles[userId]);
  }

  /** `deleteProfile`: the caller's profile and the caller's account go;
      removing what is not there is no error. Posts stay. */
  method DeleteProfile(db: Db, caller: Id) returns (r: Response<bool>)
    requires db.Valid()
    modifies db
    ensures db.Valid()
    ensures r == Ok(true)
    ensures db.profiles == old(db.profiles) - {caller}
    ensures db.users == old(db.users) - {caller}
    ensures db.posts == old(db.posts)
  {
    db.profiles := db.profiles - {caller};
    db.users := db.users - {caller};
    r := Ok(true);
  }

  /** `experienceProfile`: failed validation returns the errors, a caller
      without a profile gets a 404, and otherwise an entry holding only the
      picked fields of the normalised body is put in front of the old
      entries. */
  method ExperienceProfile(lib: Lib, db: Db, caller: Id, body: Body, newId: Id) returns (r: Response<Profile>)
    requires db.Valid()
    modifies db
    ensures db.Valid()
    ensures db.users == old(db.users) && db.posts == old(db.posts)
    ensures var errors := ExperienceErrors(lib, body);
      && (errors != map[] ==> r == BadRequest(errors) && db.profiles == old(db.profiles))
      && (errors == map[] && caller !in old(db.profiles) ==> r == NotFound(NoProfile) && db.profiles == old(db.profiles))
      && (errors == map[] && caller in old(db.profiles) ==>
            var p := old(db.profiles[caller]);
            var q := p.(experience := [Entry(newId, Pick(ExperienceData(lib, body), ExperienceKeys))] + p.experience);
            r == Ok(q) && db.profiles == old(db.profiles)[caller := q])
  {
    var data, errors, isValid := ValidateExperienceInput(lib, body);
    if !isValid {
      return BadRequest(errors);
    }
    if caller !in db.profiles {
      errors := errors["noprofile" := "Profile not found"];
      return NotFound(errors);
    }
    var doc := new ProfileDocument.Load(db.profiles[caller]);
    var newExp := Entry(newId, Pick(data, ExperienceKeys));
    doc.UnshiftExperience(newExp);
    db.SaveProfile(doc);
    r := Ok(doc.Snapshot());
  }

  /** `educationProfile`: as `experienceProfile`, with the education
      validator and the education fields. */
  method EducationProfile(lib: Lib, db: Db, caller: Id, body: Body, newId: Id) returns (r: Response<Profile>)
    requires db.Valid()
    modifies db
    ensures db.Valid()
    ensures db.users == old(db.users) && db.posts == old(db.posts)
    ensures var c := lib.validateEducation(body);
      && (!c.isValid ==> r == BadRequest(c.errors) && db.profiles == old(db.profiles))
      && (c.isValid && caller !in old(db.profiles) ==>
            r == NotFound(c.errors["noprofile" := "Profile not found"]) && db.profiles == old(db.profiles))
      && (c.isValid && caller in old(db.profiles) ==>
            var p := old(db.profiles[caller]);
            var q := p.(education := [Entry(newId, Pick(c.data, EducationKeys))] + p.education);
            r == Ok(q) && db.profiles == old(db.profiles)[caller := q])
  {
    var c := lib.validateEducation(body);
    if !c.isValid {
      return BadRequest(c.errors);
    }
    var errors := c.errors;
    if caller !in db.profiles {
      errors := errors["noprofile" := "Profile not found"];
      return NotFound(errors);
    }
    var doc := new ProfileDocument.Load(db.profiles[caller]);
    var newEdu := Entry(newId, Pick(c.data, EducationKeys));
    doc.UnshiftEducation(newEdu);
    db.SaveProfile(doc);
    r := Ok(doc.Snapshot());
  }

  /** `deleteExperienceProfile`: a caller without a profile and a malformed
      id both end in the ReferenceError of the undeclared `errors`, and
      nothing changes; otherwise the entry found by `indexOf` is spliced
      out, which for an absent id is the last one. */
  method DeleteExperienceProfile(lib: Lib, db: Db, caller: Id, expId: Id) returns (r: Response<Profile>)
    requires db.Valid()
    modifies db
    ensures db.Valid()
    ensures db.users == old(db.users) && db.posts == old(db.posts)
    ensures caller !in old(db.profiles) || !lib.isMongoId(expId) ==>
      r == Failed(ErrorsNotDefined) && db.profiles == old(db.profiles)
    ensures caller in old(db.profiles) && lib.isMongoId(expId) ==>
      var p := old(db.profiles[caller]);
      var q := p.(experience := RemoveEntry(p.experience, expId));
      r == Ok(q) && db.profiles == old(db.profiles)[caller := q]
  {
    if caller !in db.profiles {
      return Failed(ErrorsNotDefined);
    }
    var doc := new ProfileDocument.Load(db.profiles[caller]);
    if !lib.isMongoId(expId) {
      return Failed(ErrorsNotDefined);
    }
    var removeIndex := IndexOf(EntryIds(doc.experience), expId);
    doc.SpliceExperience(removeIndex);
    db.SaveProfile(doc);
    r := Ok(doc.Snapshot());
  }

  /** `deleteEducationProfile`: as `deleteExperienceProfile`, on the
      education entries. */
  method DeleteEducationProfile(lib: Lib, db: Db, caller: Id, eduId: Id) returns (r: Response<Profile>)
    requires db.Valid()
    modifies db
    ensures db.Valid()
    ensures db.users == old(db.users) && db.posts == old(db.posts)
    ensures caller !in old(db.profiles) || !lib.isMongoId(eduId) ==>
      r == Failed(ErrorsNotDefined) && db.profiles == old(db.profiles)
    ensures caller in old(db.profiles) && lib.isMongoId(eduId) ==>
      var p := old(db.profiles[caller]);
      var q := p.(education := RemoveEntry(p.education, eduId));
      r == Ok(q) && db.profiles == old(db.profiles)[caller := q]
  {
    if caller !in db.profiles {
      return Failed(ErrorsNotDefined);
    }
    var doc := new ProfileDocument.Load(db.profiles[caller]);
    if !lib.isMongoId(eduId) {
      return Failed(ErrorsNotDefined);
    }
    var removeIndex := IndexOf(EntryIds(doc.education), eduId);
    doc.SpliceEducation(removeIndex);
    db.SaveProfile(doc);
    r := Ok(doc.Snapshot());
  }

  /** Adding an experience entry and then removing it by the id it was
      given restores the caller's profile. */
  method AddThenRemoveExperience(lib: Lib, db: Db, caller: Id, body: Body, newId: Id)
    returns (added: Response<Profile>, removed: Response<Profile>)
    requires db.Valid()
    requires ExperienceErrors(lib, body) == map[] && caller in db.profiles && lib.isMongoId(newId)
    modifies db
    ensures db.Valid()
    ensures added.Ok? && removed.Ok?
    ensures db.profiles == old(db.profiles) && db.users == old(db.users) && db.posts == old(db.posts)
  {
    var p := db.profiles[caller];
    var e := Entry(newId, Pick(ExperienceData(lib, body), ExperienceKeys));
    var withEntry := p.(experience := [e] + p.experience);
    added := ExperienceProfile(lib, db, caller, body, newId);
    assert added == Ok(withEntry);
    ghost var afterAdd := db.profiles;
    assert afterAdd == old(db.profiles)[caller := withEntry];
    assert afterAdd[caller] == withEntry;
    RemoveEntryFront(e, p.experience);
    assert withEntry.(experience := RemoveEntry(withEntry.experience, newId)) == p;
    removed := DeleteExperienceProfile(lib, db, caller, newId);
    assert removed == Ok(p);
    assert db.profiles == afterAdd[caller := p];
  }

  /** Removing by the id of the entry just put in front gives back the old
      entries, whatever they hold. */
  lemma RemoveEntryFront(e: Entry, rest: seq<Entry>)
    ensures RemoveEntry([e] + rest, e.id) == rest
  {
  }
}
