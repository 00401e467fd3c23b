/**
 * The request checks of the handlers: each `check(field, message).not().isEmpty()` of
 * express-validator, and the list `validationResult(req).array()` reports.
 */
module Validation {
  import opened Basics

  /** One `check(param, msg).not().isEmpty()` applied to the value the request carries. */
  datatype Check = Check(param: string, msg: string, value: Option<string>)

  /** One entry of `errors.array()`: the offending value, the check's message, the field name. */
  datatype FieldError = FieldError(value: Option<string>, msg: string, param: string)

  /** `isEmpty` sees an absent value as ""; so the negated check fails exactly on falsy input. */
  predicate Fails(c: Check) {
    !Truthy(c.value)
  }

  function ErrorOf(c: Check): FieldError {
    FieldError(c.value, c.msg, c.param)
  }

  /** The number of checks that fail. */
  function FailCount(checks: seq<Check>): nat {
    if checks == [] then 0 else (if Fails(checks[0]) then 1 else 0) + FailCount(checks[1..])
  }

  /** The error list: one entry per failing check, in the order the checks are declared. */
  function Errors(checks: seq<Check>): (r: seq<FieldError>)
    ensures |r| == FailCount(checks)
    ensures r == [] <==> forall i :: 0 <= i < |checks| ==> !Fails(checks[i])
    ensures forall e :: e in r ==> exists i :: 0 <= i < |checks| && Fails(checks[i]) && e == ErrorOf(checks[i])
  {
    if checks == [] then []
    else
      var rest := Errors(checks[1..]);
      assert forall i :: 1 <= i < |checks| ==> checks[i] == checks[1..][i - 1];
      if Fails(checks[0]) then [ErrorOf(checks[0])] + rest else rest
  }

  /** Every failing check is reported. */
  lemma {:induction false} FailingCheckReported(checks: seq<Check>, i: nat)
    requires i < |checks| && Fails(checks[i])
    ensures ErrorOf(checks[i]) in Errors(checks)
  {
    if i > 0 {
      assert checks[1..][i - 1] == checks[i];
      FailingCheckReported(checks[1..], i - 1);
    }
  }

  /** Reports of consecutive groups of checks follow one another: check order is report order. */
  lemma {:induction false} ErrorsAppend(a: seq<Check>, b: seq<Check>)
    ensures Errors(a + b) == Errors(a) + Errors(b)
  {
    if a != [] {
      assert (a + b)[1..] == a[1..] + b;
      ErrorsAppend(a[1..], b);
    } else {
      assert a + b == b;
    }
  }

  // ---- the checks of each handler ----

  /** The body of a create-or-update profile request. */
  datatype ProfileRequest = ProfileRequest(
    company: Option<string>, website: Option<string>, location: Option<string>,
    bio: Option<string>, status: Option<string>, githubusername: Option<string>,
    skills: Option<string>,
    youtube: Option<string>, facebook: Option<string>, twitter: Option<string>,
    instagram: Option<string>, linkedin: Option<string>)

  /** The body of an add-experience request: the fields the new experience record keeps. */
  datatype ExperienceFields = ExperienceFields(
    title: Option<string>, company: Option<string>, location: Option<string>,
    from: Option<string>, to: Option<string>, current: Option<bool>,
    description: Option<string>)

  /** The body of an add-education request: the fields the new education record keeps. */
  datatype EducationFields = EducationFields(
    school: Option<string>, degree: Option<string>, fieldofstudy: Option<string>,
    from: Option<string>, to: Option<string>, current: Option<bool>,
    description: Option<string>)

  function ProfileChecks(b: ProfileRequest): seq<Check> {
    [Check("status", "Status is required!", b.status),
     Check("skills", "Skills is required!", b.skills)]
  }

  function ExperienceChecks(b: ExperienceFields): seq<Check> {
    [Check("title", "Title is required!", b.title),
     Check("company", "Company is required!", b.company),
     Check("from", "From date is required!", b.from)]
  }

  function EducationChecks(b: EducationFields): seq<Check> {
    [Check("school", "School is required!", b.school),
     Check("degree", "Degree is required!", b.degree),
     Check("fieldofstudy", "Field of study is required!", b.fieldofstudy),
     Check("from", "From date is required!", b.from)]
  }

  /** A profile request is rejected exactly when status or skills is falsy, naming each one. */
  lemma ProfileErrors(b: ProfileRequest)
    ensures Errors(ProfileChecks(b)) == [] <==> Truthy(b.status) && Truthy(b.skills)
    ensures !Truthy(b.status) ==> Errors(ProfileChecks(b))[0] == FieldError(b.status, "Status is required!", "status")
    ensures |Errors(ProfileChecks(b))| == (if Truthy(b.status) then 0 else 1) + (if Truthy(b.skills) then 0 else 1)
    ensures !Truthy(b.skills) ==> FieldError(b.skills, "Skills is required!", "skills") in Errors(ProfileChecks(b))
  {
    var cs := ProfileChecks(b);
    assert cs == [cs[0]] + [cs[1]];
    ErrorsAppend([cs[0]], [cs[1]]);
    if !Truthy(b.skills) {
      FailingCheckReported(cs, 1);
    }
  }

  /** An experience request is rejected exactly when title, company or from is falsy. */
  lemma ExperienceErrors(b: ExperienceFields)
    ensures Errors(ExperienceChecks(b)) == [] <==> Truthy(b.title) && Truthy(b.company) && Truthy(b.from)
    ensures |Errors(ExperienceChecks(b))|
      == (if Truthy(b.title) then 0 else 1) + (if Truthy(b.company) then 0 else 1) + (if Truthy(b.from) then 0 else 1)
  {
    var cs := ExperienceChecks(b);
    assert cs == [cs[0]] + ([cs[1]] + [cs[2]]);
    ErrorsAppend([cs[1]], [cs[2]]);
    ErrorsAppend([cs[0]], [cs[1]] + [cs[2]]);
  }

  /** An education request is rejected exactly when school, degree, fieldofstudy or from is falsy. */
  lemma EducationErrors(b: EducationFields)
    ensures Errors(EducationChecks(b)) == []
      <==> Truthy(b.school) && Truthy(b.degree) && Truthy(b.fieldofstudy) && Truthy(b.from)
    ensures |Errors(EducationChecks(b))|
      == (if Truthy(b.school) then 0 else 1) + (if Truthy(b.degree) then 0 else 1)
       + (if Truthy(b.fieldofstudy) then 0 else 1) + (if Truthy(b.from) then 0 else 1)
  {
    var cs := EducationChecks(b);
    assert cs == [cs[0]] + ([cs[1]] + ([cs[2]] + [cs[3]]));
    ErrorsAppend([cs[2]], [cs[3]]);
    ErrorsAppend([cs[1]], [cs[2]] + [cs[3]]);
    ErrorsAppend([cs[0]], [cs[1]] + ([cs[2]] + [cs[3]]));
  }
}
