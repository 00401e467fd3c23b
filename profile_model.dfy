/**
 * The profile document and the create-or-update path: the update object the handler builds
 * from the request body, `$set` of that object on an existing profile, and the new profile
 * saved when there is none.
 */
module ProfileModel {
  import opened Basics
  import opened Skills
  import opened Validation
  import opened EmbeddedList

  datatype Social = Social(
    youtube: Option<string>, twitter: Option<string>, facebook: Option<string>,
    linkedin: Option<string>, instagram: Option<string>)

  const NoSocial := Social(None, None, None, None, None)

  type Experience = Entry<ExperienceFields>
  type Education = Entry<EducationFields>

  /** A stored profile; a field that is None is absent from the document. */
  datatype Profile = Profile(
    user: UserId,
    company: Option<string>, website: Option<string>, location: Option<string>,
    status: Option<string>, bio: Option<string>, githubusername: Option<string>,
    skills: Option<seq<string>>, social: Social,
    experience: seq<Experience>, education: seq<Education>)

  /** The `profileFields` object: `user` and `social` always, the other keys only when set. */
  datatype ProfileFields = ProfileFields(
    user: UserId,
    company: Option<string>, website: Option<string>, location: Option<string>,
    status: Option<string>, bio: Option<string>, githubusername: Option<string>,
    skills: Option<seq<string>>, social: Social)

  /** `if (v) fields.k = v`: the key carries the input when it is truthy and is absent otherwise. */
  function IfTruthy(v: Option<string>): (r: Option<string>)
    ensures r.Some? <==> Truthy(v)
    ensures r.Some? ==> r == v
  {
    if Truthy(v) then v else None
  }

  /** The update object for `user` built from request body `b`. */
  function FieldsFor(user: UserId, b: ProfileRequest): ProfileFields {
    ProfileFields(
      user,
      IfTruthy(b.company), IfTruthy(b.website), IfTruthy(b.location),
      IfTruthy(b.status), IfTruthy(b.bio), IfTruthy(b.githubusername),
      if Truthy(b.skills) then Some(NormalizeSkills(b.skills.value)) else None,
      Social(IfTruthy(b.youtube), IfTruthy(b.twitter), IfTruthy(b.facebook),
             IfTruthy(b.linkedin), IfTruthy(b.instagram)))
  }

  /** `{ user }`: the object before any optional key is set. */
  function BlankFields(user: UserId): ProfileFields {
    ProfileFields(user, None, None, None, None, None, None, None, NoSocial)
  }

  /** Builds `profileFields` one key at a time, as the handler does. */
  method BuildProfileFields(user: UserId, b: ProfileRequest) returns (f: ProfileFields)
    ensures f == FieldsFor(user, b)
  {
    f := BuildScalarKeys(user, b);
    if Truthy(b.skills) {
      f := f.(skills := Some(NormalizeSkills(b.skills.value)));
    }
    var social := BuildSocial(b);
    f := f.(social := social);
  }

  /** Starts from `{ user }` and sets each plain string key whose input is truthy. */
  method BuildScalarKeys(user: UserId, b: ProfileRequest) returns (f: ProfileFields)
    ensures f == FieldsFor(user, b).(skills := None, social := NoSocial)
  {
    f := BlankFields(user);
    if Truthy(b.company) { f := f.(company := b.company); }
    if Truthy(b.website) { f := f.(website := b.website); }
    if Truthy(b.location) { f := f.(location := b.location); }
    if Truthy(b.status) { f := f.(status := b.status); }
    if Truthy(b.bio) { f := f.(bio := b.bio); }
    if Truthy(b.githubusername) { f := f.(githubusername := b.githubusername); }
  }

  /** Builds `profileFields.social`: starts empty and sets each platform whose input is truthy. */
  method BuildSocial(b: ProfileRequest) returns (social: Social)
    ensures social == FieldsFor("", b).social
  {
    social := NoSocial;
    if Truthy(b.youtube) { social := social.(youtube := b.youtube); }
    if Truthy(b.twitter) { social := social.(twitter := b.twitter); }
    if Truthy(b.facebook) { social := social.(facebook := b.facebook); }
    if Truthy(b.linkedin) { social := social.(linkedin := b.linkedin); }
    if Truthy(b.instagram) { social := social.(instagram := b.instagram); }
  }

  /**
   * What the built object holds: the requester as `user`, a `social` object in every case,
   * each optional key exactly when its input is truthy, and the normalised skills list.
   */
  lemma FieldsForKeys(user: UserId, b: ProfileRequest)
    ensures var f := FieldsFor(user, b);
      && f.user == user
      && (f.company.Some? <==> Truthy(b.company)) && (f.company.Some? ==> f.company == b.company)
      && (f.website.Some? <==> Truthy(b.website)) && (f.website.Some? ==> f.website == b.website)
      && (f.location.Some? <==> Truthy(b.location)) && (f.location.Some? ==> f.location == b.location)
      && (f.status.Some? <==> Truthy(b.status)) && (f.status.Some? ==> f.status == b.status)
      && (f.bio.Some? <==> Truthy(b.bio)) && (f.bio.Some? ==> f.bio == b.bio)
      && (f.githubusername.Some? <==> Truthy(b.githubusername))
      && (f.githubusername.Some? ==> f.githubusername == b.githubusername)
      && (f.skills.Some? <==> Truthy(b.skills))
      && (f.skills.Some? ==> |f.skills.value| == CommaCount(b.skills.value) + 1)
      && (f.social.youtube.Some? <==> Truthy(b.youtube))
      && (f.social.twitter.Some? <==> Truthy(b.twitter))
      && (f.social.facebook.Some? <==> Truthy(b.facebook))
      && (f.social.linkedin.Some? <==> Truthy(b.linkedin))
      && (f.social.instagram.Some? <==> Truthy(b.instagram))
  {
    if Truthy(b.skills) {
      NormalizeSkillsPieces(b.skills.value);
    }
  }

  /** A request that passed validation yields an object with status and skills set. */
  lemma ValidatedFieldsHaveStatusAndSkills(user: UserId, b: ProfileRequest)
    requires Errors(ProfileChecks(b)) == []
    ensures FieldsFor(user, b).status == b.status && b.status.Some?
    ensures FieldsFor(user, b).skills == Some(NormalizeSkills(b.skills.value))
  {
    ProfileErrors(b);
  }

  /** `$set` of one key: the given value replaces the stored one, an absent key leaves it. */
  function Override<T>(given: Option<T>, stored: Option<T>): (r: Option<T>)
    ensures given.Some? ==> r == given
    ensures given.None? ==> r == stored
  {
    if given.Some? then given else stored
  }

  /**
   * `findOneAndUpdate({user}, {$set: f})`: each key of `f` overwrites the stored value,
   * `social` is replaced as one object, and the embedded lists are untouched.
   */
  function SetFields(p: Profile, f: ProfileFields): (q: Profile)
    ensures q.user == f.user && q.social == f.social
    ensures q.experience == p.experience && q.education == p.education
    ensures f.company.Some? ==> q.company == f.company
    ensures f.website.Some? ==> q.website == f.website
    ensures f.location.Some? ==> q.location == f.location
    ensures f.status.Some? ==> q.status == f.status
    ensures f.bio.Some? ==> q.bio == f.bio
    ensures f.githubusername.Some? ==> q.githubusername == f.githubusername
    ensures f.skills.Some? ==> q.skills == f.skills
    ensures f.company.None? ==> q.company == p.company
    ensures f.website.None? ==> q.website == p.website
    ensures f.location.None? ==> q.location == p.location
    ensures f.status.None? ==> q.status == p.status
    ensures f.bio.None? ==> q.bio == p.bio
    ensures f.githubusername.None? ==> q.githubusername == p.githubusername
    ensures f.skills.None? ==> q.skills == p.skills
  {
    Profile(f.user,
      Override(f.company, p.company), Override(f.website, p.website),
      Override(f.location, p.location), Override(f.status, p.status),
      Override(f.bio, p.bio), Override(f.githubusername, p.githubusername),
      Override(f.skills, p.skills), f.social, p.experience, p.education)
  }

  /** `new Profile(f)`: the keys of `f`, with empty experience and education lists. */
  function NewProfile(f: ProfileFields): (p: Profile)
    ensures p.experience == [] && p.education == []
  {
    Profile(f.user, f.company, f.website, f.location, f.status, f.bio, f.githubusername,
      f.skills, f.social, [], [])
  }

  /** A document that holds only its owner. */
  function BlankProfile(user: UserId): Profile {
    Profile(user, None, None, None, None, None, None, None, NoSocial, [], [])
  }

  /** Creating is updating a blank document: both paths of the upsert store the same keys. */
  lemma CreateIsSetOnBlank(f: ProfileFields)
    ensures NewProfile(f) == SetFields(BlankProfile(f.user), f)
  {
  }

  /** Applying the same update twice is the same as applying it once. */
  lemma SetIdempotent(p: Profile, f: ProfileFields)
    ensures SetFields(SetFields(p, f), f) == SetFields(p, f)
  {
  }

  /** The update object whose keys are those of `b`, falling back to those of `a`. */
  function Merge(a: ProfileFields, b: ProfileFields): (m: ProfileFields)
    ensures m.user == b.user && m.social == b.social
    ensures b.company.Some? ==> m.company == b.company
    ensures b.website.Some? ==> m.website == b.website
    ensures b.location.Some? ==> m.location == b.location
    ensures b.status.Some? ==> m.status == b.status
    ensures b.bio.Some? ==> m.bio == b.bio
    ensures b.githubusername.Some? ==> m.githubusername == b.githubusername
    ensures b.skills.Some? ==> m.skills == b.skills
    ensures b.company.None? ==> m.company == a.company
    ensures b.website.None? ==> m.website == a.website
    ensures b.location.None? ==> m.location == a.location
    ensures b.status.None? ==> m.status == a.status
    ensures b.bio.None? ==> m.bio == a.bio
    ensures b.githubusername.None? ==> m.githubusername == a.githubusername
    ensures b.skills.None? ==> m.skills == a.skills
  {
    ProfileFields(b.user,
      Override(b.company, a.company), Override(b.website, a.website),
      Override(b.location, a.location), Override(b.status, a.status),
      Override(b.bio, a.bio), Override(b.githubusername, a.githubusername),
      Override(b.skills, a.skills), b.social)
  }

  /**
   * Partial overwrite: two updates in a row equal one update with the union of their keys,
   * the later one winning; but `social` is that of the later update alone.
   */
  lemma SetTwice(p: Profile, a: ProfileFields, b: ProfileFields)
    ensures SetFields(SetFields(p, a), b) == SetFields(p, Merge(a, b))
  {
  }

  /** Consequently an update that sends no social links clears the stored ones. */
  lemma SetWithoutSocialClearsIt(p: Profile, user: UserId, b: ProfileRequest)
    requires !Truthy(b.youtube) && !Truthy(b.twitter) && !Truthy(b.facebook)
    requires !Truthy(b.linkedin) && !Truthy(b.instagram)
    ensures SetFields(p, FieldsFor(user, b)).social == NoSocial
  {
  }
}
