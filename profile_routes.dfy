/**
 * The handlers of the profile routes: create-or-replace, the two reads,
 * deleting a profile with its user, and adding and removing experience and
 * education entries. The caller id is what the authentication middleware
 * supplies; URL normalisation is the pair of parameters `accepts` (which text
 * `normalize-url` can parse) and `normalize` (the normal form).
 */
module ProfileRoutes {
  import opened Js
  import opened Http
  import opened Models

  /** `skills` as submitted: missing, a comma-separated string, or an array of strings. */
  datatype SkillsInput = SkillsAbsent | SkillsText(text: string) | SkillsList(items: seq<string>)

  /** The body of `POST /profile`. */
  datatype ProfileRequest = ProfileRequest(
    company: Value, location: Value, website: Value, bio: Value,
    skills: SkillsInput, status: Value, githubusername: Value,
    youtube: Value, twitter: Value, instagram: Value, linkedin: Value, facebook: Value)

  /** The validator's view of `skills`: an empty string or an empty array is empty. */
  predicate SkillsEmpty(skills: SkillsInput) {
    match skills
    case SkillsAbsent => true
    case SkillsText(text) => text == ""
    case SkillsList(items) => items == []
  }

  const StatusRequired := FieldError("status", "Status is required")
  const SkillsRequired := FieldError("skills", "Skills is required")

  /** The validation errors of `POST /profile`, status before skills. */
  function ProfileErrors(req: ProfileRequest): (errors: seq<FieldError>)
    ensures errors == [] <==> Truthy(req.status) && !SkillsEmpty(req.skills)
    ensures StatusRequired in errors <==> !Truthy(req.status)
    ensures SkillsRequired in errors <==> SkillsEmpty(req.skills)
    ensures forall e :: e in errors ==> e == StatusRequired || e == SkillsRequired
    ensures |errors| == (if Truthy(req.status) then 0 else 1) + (if SkillsEmpty(req.skills) then 1 else 0)
  {
    Require(req.status, "status", "Status is required")
    + (if SkillsEmpty(req.skills) then [SkillsRequired] else [])
  }

  /** `pieces.map(skill => '' + skill.trim())`. */
  function TrimAll(pieces: seq<string>): (r: seq<string>)
    ensures |r| == |pieces|
    ensures forall i :: 0 <= i < |pieces| ==> r[i] == Trim(pieces[i])
  {
    seq(|pieces|, i requires 0 <= i < |pieces| => Trim(pieces[i]))
  }

  /**
   * The stored skills: an array is kept as it is, a string is split on commas
   * and every piece trimmed. A missing `skills` has no `split` and is refused.
   */
  function ParseSkills(skills: SkillsInput): (r: seq<string>)
    requires !skills.SkillsAbsent?
    ensures skills.SkillsList? ==> r == skills.items
    ensures skills.SkillsText? ==> |r| == Count(skills.text, ',') + 1
  {
    match skills
    case SkillsList(items) => items
    case SkillsText(text) => TrimAll(Split(text, ','))
  }

  /** A trimmed piece without commas has no commas and no whitespace at either end. */
  lemma TrimmedPiece(piece: string)
    requires ',' !in piece
    ensures ',' !in Trim(piece)
    ensures Trim(piece) == "" || (!IsWhitespace(Trim(piece)[0]) && !IsWhitespace(Trim(piece)[|Trim(piece)| - 1]))
  {
  }

  /**
   * A skills string becomes its comma-separated pieces in order (joining the
   * untrimmed pieces with commas gives the string back), each piece trimmed.
   */
  lemma ParseSkillsText(text: string)
    ensures var r := ParseSkills(SkillsText(text));
      && |r| == Count(text, ',') + 1
      && Join(Split(text, ','), ',') == text
      && (forall i :: 0 <= i < |r| ==> r[i] == Trim(Split(text, ',')[i]))
  {
    JoinSplit(text, ',');
  }

  /** Trimming comma-free pieces leaves pieces without commas or whitespace at their ends. */
  lemma TrimAllClean(pieces: seq<string>)
    requires forall i :: 0 <= i < |pieces| ==> ',' !in pieces[i]
    ensures var r := TrimAll(pieces);
      forall i :: 0 <= i < |r| ==>
        && ',' !in r[i]
        && (r[i] == "" || (!IsWhitespace(r[i][0]) && !IsWhitespace(r[i][|r[i]| - 1])))
  {
  }

  /** No skill parsed from a string holds a comma, or starts or ends with whitespace. */
  lemma ParsedSkillsClean(text: string)
    ensures var r := ParseSkills(SkillsText(text));
      forall i :: 0 <= i < |r| ==>
        && ',' !in r[i]
        && (r[i] == "" || (!IsWhitespace(r[i][0]) && !IsWhitespace(r[i][|r[i]| - 1])))
  {
  }

  /** The `socialfields` object as the request gives it, in its key order. */
  const SocialKeys: seq<string> := ["youtube", "twitter", "instagram", "linkedin", "facebook"]

  function SubmittedSocial(req: ProfileRequest): (social: map<string, Value>)
    ensures forall k :: k in social <==> k in SocialKeys
  {
    map["youtube" := req.youtube, "twitter" := req.twitter, "instagram" := req.instagram,
        "linkedin" := req.linkedin, "facebook" := req.facebook]
  }

  /** Every key kept; truthy values normalised, falsy ones left as they were. */
  ghost predicate SocialNormalized(submitted: map<string, Value>, social: map<string, Value>, normalize: string -> string) {
    && social.Keys == submitted.Keys
    && forall k :: k in submitted ==>
         social[k] == (if Truthy(submitted[k]) then Str(normalize(submitted[k].s)) else submitted[k])
  }

  /** Some truthy social link is text the normaliser cannot parse. */
  ghost predicate SocialRejected(submitted: map<string, Value>, accepts: string -> bool) {
    exists k :: k in submitted && Truthy(submitted[k]) && !accepts(submitted[k].s)
  }

  /**
   * The loop over `Object.entries(socialfields)`: it walks a snapshot of the
   * entries in `order` and overwrites each truthy value with its normal form.
   * The normaliser throws on text it cannot parse (`accepts` says which text
   * it can), which ends the loop with `threw`.
   */
  method NormalizeSocial(socialfields: map<string, Value>, order: seq<string>,
                         normalize: string -> string, accepts: string -> bool)
    returns (social: map<string, Value>, threw: bool)
    requires forall k :: k in socialfields <==> k in order
    ensures threw <==> SocialRejected(socialfields, accepts)
    ensures !threw ==> SocialNormalized(socialfields, social, normalize)
  {
    social := socialfields;
    threw := false;
    var i := 0;
    while i < |order|
      invariant 0 <= i <= |order|
      invariant social.Keys == socialfields.Keys
      invariant forall k :: k in socialfields ==>
        social[k] == (if k in order[..i] && Truthy(socialfields[k]) then Str(normalize(socialfields[k].s)) else socialfields[k])
      invariant forall k :: k in order[..i] && Truthy(socialfields[k]) ==> accepts(socialfields[k].s)
    {
      var key, value := order[i], socialfields[order[i]];
      if Truthy(value) {
        if !accepts(value.s) {
          return social, true;
        }
        social := social[key := Str(normalize(value.s))];
      }
      assert order[..i + 1] == order[..i] + [key];
      i := i + 1;
    }
    assert order[..i] == order;
  }

  /**
   * The upsert's field building throws: `normalize-url` gets `undefined`
   * for a missing `website`, or text it cannot parse as the website or as a
   * truthy social link.
   */
  ghost predicate NormalizerThrows(req: ProfileRequest, accepts: string -> bool) {
    || req.website.Undefined?
    || (req.website.s != "" && !accepts(req.website.s))
    || SocialRejected(SubmittedSocial(req), accepts)
  }

  /**
   * What the upsert stores and answers with, for a request that passed
   * validation and carries a `website` string: the request's fields under
   * the caller's id, the website normalised unless it is `''`, the parsed
   * skills and the normalised social links.
   */
  ghost predicate BuiltFrom(f: ProfileFields, caller: UserId, req: ProfileRequest, normalize: string -> string) {
    && f.user == caller
    && f.company == req.company && f.location == req.location && f.bio == req.bio
    && f.status == req.status && f.githubusername == req.githubusername
    && req.website.Str?
    && f.website == (if req.website.s == "" then Str("") else Str(normalize(req.website.s)))
    && !req.skills.SkillsAbsent? && f.skills == ParseSkills(req.skills)
    && SocialNormalized(SubmittedSocial(req), f.social, normalize)
  }

  /** The fields built from one request are determined by it. */
  lemma BuiltFromUnique(f: ProfileFields, g: ProfileFields, caller: UserId, req: ProfileRequest, normalize: string -> string)
    requires BuiltFrom(f, caller, req, normalize) && BuiltFrom(g, caller, req, normalize)
    ensures f == g
  {
  }

  /**
   * `POST /profile`. A request without status or skills is refused and the
   * store is untouched. When the normaliser throws (no `website`, or text it
   * cannot parse), it does so before any store call, inside an async
   * handler, so nothing is sent and the store is untouched. Otherwise an
   * existing profile of the caller is deleted, a new one built from the
   * fields is inserted, and the fields are sent back: afterwards the caller
   * has exactly that profile, with no experience or education entries.
   */
  method CreateOrReplaceProfile(db: Database, caller: UserId, req: ProfileRequest,
                                normalize: string -> string, accepts: string -> bool)
    returns (resp: Response<ProfileFields>)
    requires db.Valid()
    modifies db
    ensures db.Valid()
    ensures db.users == old(db.users) && db.posts == old(db.posts)
    ensures ProfileErrors(req) != [] ==> resp == Invalid(ProfileErrors(req)) && db.profiles == old(db.profiles)
    ensures ProfileErrors(req) == [] && NormalizerThrows(req, accepts) ==>
      resp == NoResponse && db.profiles == old(db.profiles)
    ensures ProfileErrors(req) == [] && !NormalizerThrows(req, accepts) ==>
      && resp.Ok? && BuiltFrom(resp.body, caller, req, normalize)
      && db.profiles == old(db.profiles)[caller := NewProfile(resp.body)]
  {
    var errors := ProfileErrors(req);
    if errors != [] {
      return Invalid(errors);
    }
    if req.website.Undefined? || (req.website.s != "" && !accepts(req.website.s)) {
      return NoResponse;
    }
    var website := if req.website.s == "" then Str("") else Str(normalize(req.website.s));
    var social, threw := NormalizeSocial(SubmittedSocial(req), SocialKeys, normalize, accepts);
    if threw {
      return NoResponse;
    }
    var fields := ProfileFields(
      caller, req.company, req.location, website, req.bio,
      ParseSkills(req.skills), req.status, req.githubusername, social);
    if caller in db.profiles {
      var _ := db.RemoveProfile(caller);
    }
    db.InsertProfile(NewProfile(fields));
    resp := Ok(fields);
  }

  /** `GET /profile/me`: the caller's profile, or 400. */
  function GetMyProfile(profiles: map<UserId, Profile>, caller: UserId): (r: Response<Profile>)
    ensures r.Ok? <==> caller in profiles
    ensures r.Ok? ==> r.body == profiles[caller]
    ensures !r.Ok? ==> r == BadRequest("There is no profile for user")
  {
    if caller in profiles then Ok(profiles[caller]) else BadRequest("There is no profile for user")
  }

  /** `GET /profile/user/:userId`: that user's profile, or 400. */
  function GetProfileByUser(profiles: map<UserId, Profile>, userId: UserId): (r: Response<Profile>)
    ensures r.Ok? <==> userId in profiles
    ensures r.Ok? ==> r.body == profiles[userId]
    ensures !r.Ok? ==> r == BadRequest("There is no profile for this user")
  {
    if userId in profiles then Ok(profiles[userId]) else BadRequest("There is no profile for this user")
  }

  /**
   * `DELETE /profile`: the caller's profile goes (if there is one), then the
   * caller's user record; when there was no user record the answer is 400.
   * The caller's posts stay.
   */
  method DeleteProfile(db: Database, caller: UserId) returns (resp: Response<string>)
    requires db.Valid()
    modifies db
    ensures db.Valid()
    ensures db.profiles == old(db.profiles) - {caller} && db.posts == old(db.posts)
    ensures caller in old(db.users) ==> db.users == old(db.users) - {caller} && resp == Ok("User deleted!")
    ensures caller !in old(db.users) ==> db.users == old(db.users) && resp == BadRequest("PROFILE NOT FOUND")
  {
    var _ := db.RemoveProfile(caller);
    var userDeleted := db.RemoveUser(caller);
    if !userDeleted {
      return BadRequest("PROFILE NOT FOUND");
    }
    resp := Ok("User deleted!");
  }

  const FromMessage := "From date is required and needs to be from the past"

  /** The custom `from` validator: with a truthy `to`, `from < to` as strings. */
  predicate FromBeforeTo(from: Value, to: Value) {
    !Truthy(to) || (from.Str? && StringLess(from.s, to.s))
  }

  /**
   * The validation errors of `PUT /profile/experience`: title, company, then
   * the two validators of the `from` chain, each failing one reporting once.
   */
  function ExperienceErrors(exp: Experience): (errors: seq<FieldError>)
    ensures errors == [] <==>
      && Truthy(exp.title) && Truthy(exp.company) && Truthy(exp.from)
      && (Truthy(exp.to) ==> StringLess(exp.from.s, exp.to.s))
    ensures FieldError("title", "Title is required") in errors <==> !Truthy(exp.title)
    ensures FieldError("company", "Company is required") in errors <==> !Truthy(exp.company)
    ensures FieldError("from", FromMessage) in errors <==> !Truthy(exp.from) || !FromBeforeTo(exp.from, exp.to)
  {
    Require(exp.title, "title", "Title is required")
    + Require(exp.company, "company", "Company is required")
    + Require(exp.from, "from", FromMessage)
    + (if FromBeforeTo(exp.from, exp.to) then [] else [FieldError("from", FromMessage)])
  }

  /**
   * How often each message is reported: title and company at most once,
   * the `from` message once per failing validator of its chain, so twice
   * when `from` is missing and `to` is given.
   */
  lemma ExperienceErrorCounts(exp: Experience)
    ensures var errors := ExperienceErrors(exp);
      && multiset(errors)[FieldError("from", FromMessage)] ==
           (if Truthy(exp.from) then 0 else 1) + (if FromBeforeTo(exp.from, exp.to) then 0 else 1)
      && |errors| == multiset(errors)[FieldError("from", FromMessage)]
           + (if Truthy(exp.title) then 0 else 1) + (if Truthy(exp.company) then 0 else 1)
  {
    var fromError := FieldError("from", FromMessage);
    var t := Require(exp.title, "title", "Title is required");
    var c := Require(exp.company, "company", "Company is required");
    var f := Require(exp.from, "from", FromMessage);
    var d: seq<FieldError> := if FromBeforeTo(exp.from, exp.to) then [] else [fromError];
    assert ExperienceErrors(exp) == t + c + f + d;
    assert multiset(t)[fromError] == 0 && multiset(c)[fromError] == 0;
    assert multiset(t + c + f + d) == multiset(t) + multiset(c) + multiset(f) + multiset(d);
  }

  /** An experience whose `to` equals its `from` is refused: `<` on strings is strict. */
  lemma SameDatesRefused(exp: Experience)
    requires Truthy(exp.to) && exp.from == exp.to
    ensures FieldError("from", FromMessage) in ExperienceErrors(exp)
  {
    StringLessIrreflexive(exp.from.s);
  }

  /**
   * The date check compares text, not dates: a December `from` passes
   * against a September `to` of the same year when the month is not padded.
   */
  lemma TextualDateOrder()
    ensures ExperienceErrors(Experience(
      Str("Developer"), Str("Acme"), Undefined, Str("2019-12-01"), Str("2019-9-01"), false, Undefined)) == []
  {
  }

  /** The validation errors of `PUT /profile/education`: school, degree, from, field of study. */
  function EducationErrors(edu: Education): (errors: seq<FieldError>)
    ensures errors == [] <==>
      Truthy(edu.school) && Truthy(edu.degree) && Truthy(edu.from) && Truthy(edu.fieldofstudy)
    ensures FieldError("school", "School is required") in errors <==> !Truthy(edu.school)
    ensures FieldError("degree", "Degree is required") in errors <==> !Truthy(edu.degree)
    ensures FieldError("from", "From is required") in errors <==> !Truthy(edu.from)
    ensures FieldError("fieldofstudy", "Field of study is required.") in errors <==> !Truthy(edu.fieldofstudy)
    ensures forall e :: e in errors ==>
      e in [FieldError("school", "School is required"), FieldError("degree", "Degree is required"),
            FieldError("from", "From is required"), FieldError("fieldofstudy", "Field of study is required.")]
    ensures |errors| == (if Truthy(edu.school) then 0 else 1) + (if Truthy(edu.degree) then 0 else 1)
      + (if Truthy(edu.from) then 0 else 1) + (if Truthy(edu.fieldofstudy) then 0 else 1)
  {
    Require(edu.school, "school", "School is required")
    + Require(edu.degree, "degree", "Degree is required")
    + Require(edu.from, "from", "From is required")
    + Require(edu.fieldofstudy, "fieldofstudy", "Field of study is required.")
  }

  /** There is an entry with id `id` at index `i` and none before it. */
  ghost predicate FirstWithId<T>(entries: seq<Entry<T>>, id: EntryId, i: int) {
    0 <= i < |entries| && entries[i].id == id && forall k :: 0 <= k < i ==> entries[k].id != id
  }

  /**
   * `list.splice(list.map(item => item.id).indexOf(id), 1)`: with the id
   * present, exactly the entry at its first index goes and the others keep
   * their order; with the id absent, indexOf gives -1 and the splice drops
   * the LAST entry of a non-empty list.
   */
  function RemoveEntry<T>(entries: seq<Entry<T>>, id: EntryId): (r: seq<Entry<T>>)
    ensures forall i :: FirstWithId(entries, id, i) ==> r == entries[..i] + entries[i + 1..]
    ensures (exists i :: FirstWithId(entries, id, i)) ==> |r| == |entries| - 1
    ensures id !in Ids(entries) ==> r == if entries == [] then [] else entries[..|entries| - 1]
  {
    Splice(entries, IndexOf(Ids(entries), id), 1)
  }

  /** Adding an entry and then removing its id gives the old list back. */
  lemma AddThenRemove<T>(entries: seq<Entry<T>>, e: Entry<T>)
    ensures RemoveEntry([e] + entries, e.id) == entries
  {
  }

  /**
   * Removing an id that no entry has is not a no-op: on a non-empty list
   * it takes off the oldest entry. This is `RemoveEntry`'s third clause with
   * the absence stated entry by entry, kept as the documented example.
   */
  lemma RemoveAbsentDropsOldest<T>(entries: seq<Entry<T>>, id: EntryId)
    requires entries != [] && forall i :: 0 <= i < |entries| ==> entries[i].id != id
    ensures RemoveEntry(entries, id) == entries[..|entries| - 1]
    ensures |RemoveEntry(entries, id)| == |entries| - 1
  {
  }

  /**
   * `PUT /profile/experience`. An invalid entry is refused; without a
   * profile the handler dereferences null and answers 500; otherwise the
   * entry, with its generated id, goes to the front of the list and the
   * saved profile is sent back.
   */
  method AddExperience(db: Database, caller: UserId, exp: Experience, newId: EntryId)
    returns (resp: Response<Profile>)
    requires db.Valid()
    modifies db
    ensures db.Valid()
    ensures db.users == old(db.users) && db.posts == old(db.posts)
    ensures ExperienceErrors(exp) != [] ==> resp == Invalid(ExperienceErrors(exp)) && db.profiles == old(db.profiles)
    ensures ExperienceErrors(exp) == [] && caller !in old(db.profiles) ==>
      resp == ServerError("Server error") && db.profiles == old(db.profiles)
    ensures ExperienceErrors(exp) == [] && caller in old(db.profiles) ==>
      var p := old(db.profiles)[caller];
      && resp == Ok(p.(experience := [Entry(newId, exp)] + p.experience))
      && db.profiles == old(db.profiles)[caller := resp.body]
  {
    var errors := ExperienceErrors(exp);
    if errors != [] {
      return Invalid(errors);
    }
    if caller !in db.profiles {
      return ServerError("Server error");
    }
    var profile := db.profiles[caller];
    profile := profile.(experience := [Entry(newId, exp)] + profile.experience);
    db.SaveProfile(profile);
    resp := Ok(profile);
  }

  /**
   * `DELETE /profile/experience/:exp_id`. Without a profile: 500. Otherwise
   * the entry list loses what RemoveEntry says and the profile is sent back.
   */
  method DeleteExperience(db: Database, caller: UserId, expId: EntryId)
    returns (resp: Response<Profile>)
    requires db.Valid()
    modifies db
    ensures db.Valid()
    ensures db.users == old(db.users) && db.posts == old(db.posts)
    ensures caller !in old(db.profiles) ==> resp == ServerError("Server error") && db.profiles == old(db.profiles)
    ensures caller in old(db.profiles) ==>
      var p := old(db.profiles)[caller];
      && resp == Ok(p.(experience := RemoveEntry(p.experience, expId)))
      && db.profiles == old(db.profiles)[caller := resp.body]
  {
    if caller !in db.profiles {
      return ServerError("Server error");
    }
    var profile := db.profiles[caller];
    var removedIndex := IndexOf(Ids(profile.experience), expId);
    profile := profile.(experience := Splice(profile.experience, removedIndex, 1));
    db.SaveProfile(profile);
    resp := Ok(profile);
  }

  /** `PUT /profile/education`, as AddExperience for the education list. */
  method AddEducation(db: Database, caller: UserId, edu: Education, newId: EntryId)
    returns (resp: Response<Profile>)
    requires db.Valid()
    modifies db
    ensures db.Valid()
    ensures db.users == old(db.users) && db.posts == old(db.posts)
    ensures EducationErrors(edu) != [] ==> resp == Invalid(EducationErrors(edu)) && db.profiles == old(db.profiles)
    ensures EducationErrors(edu) == [] && caller !in old(db.profiles) ==>
      resp == ServerError("Server error") && db.profiles == old(db.profiles)
    ensures EducationErrors(edu) == [] && caller in old(db.profiles) ==>
      var p := old(db.profiles)[caller];
      && resp == Ok(p.(education := [Entry(newId, edu)] + p.education))
      && db.profiles == old(db.profiles)[caller := resp.body]
  {
    var errors := EducationErrors(edu);
    if errors != [] {
      return Invalid(errors);
    }
    if caller !in db.profiles {
      return ServerError("Server error");
    }
    var profile := db.profiles[caller];
    profile := profile.(education := [Entry(newId, edu)] + profile.education);
    db.SaveProfile(profile);
    resp := Ok(profile);
  }

  /** `DELETE /profile/education/:edu_id`, as DeleteExperience for the education list. */
  method DeleteEducation(db: Database, caller: UserId, eduId: EntryId)
    returns (resp: Response<Profile>)
    requires db.Valid()
    modifies db
    ensures db.Valid()
    ensures db.users == old(db.users) && db.posts == old(db.posts)
    ensures caller !in old(db.profiles) ==> resp == ServerError("Server error") && db.profiles == old(db.profiles)
    ensures caller in old(db.profiles) ==>
      var p := old(db.profiles)[caller];
      && resp == Ok(p.(education := RemoveEntry(p.education, eduId)))
      && db.profiles == old(db.profiles)[caller := resp.body]
  {
    if caller !in db.profiles {
      return ServerError("Server error");
    }
    var profile := db.profiles[caller];
    var removedIndex := IndexOf(Ids(profile.education), eduId);
    profile := profile.(education := Splice(profile.education, removedIndex, 1));
    db.SaveProfile(profile);
    resp := Ok(profile);
  }
}
