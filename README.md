# Profile routes: a verified model

This project models the profile API of a MERN social-network application (`routes/api/profile.js`).
The document database is replaced by an in-memory state kept in one object, `ProfileRoutes.Store`:
- profiles keyed by their owner's user id;
- users keyed by `_id`;
- the posts collection.

Each request handler is a method of that object. The authenticated requester (`req.user.id`, supplied by the auth middleware) is a parameter. So is the id that Mongoose gives a new embedded record on save.

The modules follow the parts of the handler file:

- `Basics` (basics.dfy): optional request values and JavaScript truthiness of a string field.
- `Skills` (skills.dfy): the skills normaliser `skills.split(",").map(skill => skill.trim())`. It defines `String.prototype.split` on one separator and `String.prototype.trim` over the white space JavaScript strips, with their inverse and uniqueness laws.
- `Validation` (validation.dfy): the express-validator chains `check(field, msg).not().isEmpty()` of the three POST/PUT handlers, and the `errors.array()` list they produce.
- `EmbeddedList` (embedded_list.dfy): embedded experience/education records, `map(item => item.id)`, `indexOf` and `splice(index, 1)`, including JavaScript's negative-start rule.
- `ProfileModel` (profile_model.dfy): the profile document, the step-by-step builder of the `profileFields` update object, `$set` of that object and `new Profile(...)`.
- `ProfileRoutes` (store.dfy): the store class and the handlers GET `/me`, GET `/user/:user_id`, POST `/`, DELETE `/`, PUT/DELETE `/experience`, PUT/DELETE `/education`.

Behaviour of the handlers that the model keeps as the code has it:
- `skills` keeps empty pieces: `"ui,,api,"` gives `["ui", "", "api", ""]`. Storing only non-empty entries would need a filter that the handler does not have.
- `$set` replaces the whole `social` object. An update that sends no social links therefore clears the stored links; the platforms are not merged one by one.
- Adding or removing a record when the user has no profile dereferences `null`. The catch block then answers 500 `Internal Server Error` for add, or `Internal Server Error.` (with a period) for remove. There is no separate not-found answer for this case.
- Both "no profile" lookups and an unknown record id answer 400, each with its own message.

## Model

| member | source | states |
|---|---|---|
| Basics.Truthy | routes/api/profile.js:72-89 | definition of the `if (v)` test on a body field: present and not the empty string; its uses are stated by `ProfileModel.IfTruthy` and `Validation.Fails` |
| Skills.IsJsSpace | routes/api/profile.js:80 | definition of the characters `trim` strips: JavaScript's white space and line terminators |
| Skills.TrimStart | routes/api/profile.js:80 | definition of removing leading white space; its meaning is proved in `Skills.TrimStartSuffix` |
| Skills.TrimEnd | routes/api/profile.js:80 | definition of removing trailing white space; its meaning is proved in `Skills.TrimEndPrefix` |
| Skills.Trim | routes/api/profile.js:80 | definition of `skill.trim()` as both trims; its meaning is proved in `Skills.TrimNoSurroundingSpace`, `Skills.TrimIsInfix` and `Skills.TrimIsCore` |
| Skills.NormalizeSkills | routes/api/profile.js:79-81 | definition of `skills.split(",").map(skill => skill.trim())`; its meaning is proved in `Skills.NormalizeSkillsPieces` and the two examples |
| Skills.TrimStartSuffix | routes/api/profile.js:80 | trimming the start leaves a suffix of the input that starts with a non-space; everything dropped is white space |
| Skills.TrimEndPrefix | routes/api/profile.js:80 | trimming the end leaves a prefix of the input that ends with a non-space; everything dropped is white space |
| Skills.TrimNoSurroundingSpace | routes/api/profile.js:80 | a trimmed skill has no white space at either end |
| Skills.TrimIsCore | routes/api/profile.js:80 | for input = white space + core + white space, with no white space at the ends of core, trim returns exactly core |
| Skills.TrimIsInfix | routes/api/profile.js:80 | trim's result sits inside its input with only white space before and after it |
| Skills.TrimKeepsCommaFree | routes/api/profile.js:80 | trimming a piece that has no comma leaves no comma |
| Skills.Split | routes/api/profile.js:80 | `split(",")` gives exactly (number of commas + 1) pieces |
| Skills.SplitPiecesCommaFree | routes/api/profile.js:80 | no piece of the split contains a comma |
| Skills.JoinSplit | routes/api/profile.js:80 | joining the pieces with commas gives back the input |
| Skills.SplitJoin | routes/api/profile.js:80 | splitting the comma-join of comma-free pieces gives back those pieces, empty ones included |
| Skills.TrimEach | routes/api/profile.js:80 | `map(skill => skill.trim())` keeps one entry per piece |
| Skills.TrimEachAt | routes/api/profile.js:80 | the i-th mapped entry is the i-th piece, trimmed |
| Skills.NormalizeSkillsPieces | routes/api/profile.js:79-81 | the stored list has (commas + 1) entries, follows input order, and each entry has no surrounding white space and no comma |
| Skills.NormalizeExample | routes/api/profile.js:79-81 | `"a, b ,c"` is stored as `["a", "b", "c"]` |
| Skills.NormalizeKeepsEmptyPieces | routes/api/profile.js:79-81 | empty pieces are kept: `"ui,,api,"` gives `["ui", "", "api", ""]` |
| Validation.Fails | routes/api/profile.js:40-45 | definition of a failing `.not().isEmpty()` check: its value is absent or empty; used by `Validation.ProfileErrors` and its siblings |
| Validation.ProfileChecks | routes/api/profile.js:40-46 | definition of the two POST `/` checks, in declaration order, with their field names and messages; their outcome is stated by `Validation.ProfileErrors` |
| Validation.ExperienceChecks | routes/api/profile.js:176-184 | definition of the three PUT `/experience` checks, in declaration order, with their field names and messages; their outcome is stated by `Validation.ExperienceErrors` |
| Validation.EducationChecks | routes/api/profile.js:260-271 | definition of the four PUT `/education` checks, in declaration order, with their field names and messages; their outcome is stated by `Validation.EducationErrors` |
| Validation.Errors | routes/api/profile.js:49-52 | one entry per failing check; the list is empty iff no check fails; every entry is the value, message and field of a failing check |
| Validation.FailingCheckReported | routes/api/profile.js:49-52 | every failing check appears in the error list |
| Validation.ErrorsAppend | routes/api/profile.js:49-52 | errors are reported in the order the checks are declared |
| Validation.ProfileErrors | routes/api/profile.js:40-52 | a profile request is rejected iff status or skills is empty or absent; one entry per failed field, "Status is required!" first when status fails |
| Validation.ExperienceErrors | routes/api/profile.js:176-191 | an experience request is rejected iff title, company or from is empty or absent; one entry per failed field |
| Validation.EducationErrors | routes/api/profile.js:259-276 | an education request is rejected iff school, degree, fieldofstudy or from is empty or absent; one entry per failed field |
| EmbeddedList.Ids | routes/api/profile.js:233 | the id list has one id per record, in list order |
| EmbeddedList.IndexOf | routes/api/profile.js:238 | returns -1 iff the id is absent; otherwise the first index holding it |
| EmbeddedList.SpliceStart | routes/api/profile.js:240 | the start index lies in 0..length; a start in 0..length is kept, one beyond the length becomes the length; a negative one counts back from the end |
| EmbeddedList.Splice | routes/api/profile.js:240 | one element fewer, earlier elements kept in place, later elements shifted down by one; unchanged when the start is at the end |
| EmbeddedList.RemoveFound | routes/api/profile.js:233-240 | for a present id: the removed index is the first record with that id; exactly that record goes; the rest keep their relative order |
| EmbeddedList.RemoveKeepsUnique | routes/api/profile.js:233-240 | if ids are unique, the removed id no longer appears and the rest stay unique |
| EmbeddedList.PrependKeepsUnique | routes/api/profile.js:215 | prepending a record with a fresh id keeps ids unique |
| EmbeddedList.SpliceOfMissingIndexDropsLast | routes/api/profile.js:234-240 | without the `includes` guard, `indexOf` gives -1 and `splice(-1, 1)` would drop the last record |
| ProfileModel.IfTruthy | routes/api/profile.js:72-77 | a key is present iff its input is truthy, and then holds the input |
| ProfileModel.FieldsFor | routes/api/profile.js:70-89 | definition of the finished `profileFields` object as one value; its keys are stated by `ProfileModel.FieldsForKeys`, and `ProfileModel.BuildProfileFields` proves the step-by-step build reaches it |
| ProfileModel.BuildProfileFields | routes/api/profile.js:70-89 | the object built key by key equals the update object `FieldsFor` of the requester and the body |
| ProfileModel.BuildScalarKeys | routes/api/profile.js:70-77 | after the plain string keys are set, the object equals `FieldsFor` with skills still absent and social still empty |
| ProfileModel.BuildSocial | routes/api/profile.js:83-89 | the social object built platform by platform equals the `social` part of `FieldsFor` |
| ProfileModel.FieldsForKeys | routes/api/profile.js:70-89 | `user` is the requester; `social` is always present; each optional key and each platform key is present iff its input is truthy; skills holds (commas + 1) entries |
| ProfileModel.ValidatedFieldsHaveStatusAndSkills | routes/api/profile.js:49-81 | after validation passes, the update object carries the status and the normalised skills |
| ProfileModel.Override | routes/api/profile.js:95-99 | a given key replaces the stored value; an absent key keeps it |
| ProfileModel.SetFields | routes/api/profile.js:95-99 | `$set`: each key of the object overwrites, absent keys keep the stored value, `social` is replaced whole, the experience and education lists are untouched |
| ProfileModel.NewProfile | routes/api/profile.js:104-106 | a created profile starts with empty experience and education lists |
| ProfileModel.CreateIsSetOnBlank | routes/api/profile.js:93-106 | the create path stores what the update path would store over a blank document |
| ProfileModel.SetIdempotent | routes/api/profile.js:95-99 | repeating an update changes nothing more |
| ProfileModel.Merge | routes/api/profile.js:95-99 | the merged object has the later update's user and social; each key the later update sets is taken from it, every other key from the earlier one |
| ProfileModel.SetTwice | routes/api/profile.js:95-99 | two updates in a row equal one update with the union of their keys, the later winning; social is the later one's |
| ProfileModel.SetWithoutSocialClearsIt | routes/api/profile.js:83-99 | an update with no social input stores an empty social object |
| ProfileRoutes.WithoutPostsOf | routes/api/profile.js:155 | the remaining posts are exactly the posts of other users |
| ProfileRoutes.WithoutPostsOfKeepsOthers | routes/api/profile.js:155 | no post of the deleted user remains; every other user's posts stay the same and in the same order |
| ProfileRoutes.Store.GetMe | routes/api/profile.js:14-25 | the requester's profile with 200, or 400 "There is no profile for this user." when there is none; a 200 answer carries a profile owned by the requester |
| ProfileRoutes.Store.GetByUserId | routes/api/profile.js:131-139 | the target's profile with 200, or 400 "Profile Not Found."; a 200 answer carries a profile owned by the target |
| ProfileRoutes.Store.Upsert | routes/api/profile.js:48-107 | on a failed check: 400 with the error list and store unchanged; otherwise the requester has exactly one profile, equal to `$set` of the built object over the old one or to the new profile, other users' profiles are unchanged, and the stored profile is returned |
| ProfileRoutes.Store.DeleteAccount | routes/api/profile.js:152-161 | the user's posts, then profile, then user are removed; every other record is unchanged |
| ProfileRoutes.Store.AddExperience | routes/api/profile.js:187-217 | on a failed check: 400 and store unchanged; with no profile: 500 and store unchanged; otherwise the new record with the fresh id is at index 0 and the old list follows |
| ProfileRoutes.Store.RemoveExperience | routes/api/profile.js:228-244 | with no profile: 500 and unchanged; an unknown id: 400 "Profile Not Found!" and unchanged; otherwise the record at the first index of the id is spliced out |
| ProfileRoutes.Store.AddEducation | routes/api/profile.js:273-303 | as AddExperience, for the education checks and list |
| ProfileRoutes.Store.RemoveEducation | routes/api/profile.js:314-330 | as RemoveExperience, for the education list |
| ProfileRoutes.AddTwiceNewestFirst | routes/api/profile.js:214-216 | after two accepted additions the later record is at index 0, the earlier at index 1, the old list after them |
| ProfileRoutes.DeleteThenGetMe | routes/api/profile.js:155-159 | after deleting the account, GET /me answers 400 no-profile; no user and no post of that id remain |

## Left out

- GitHub proxy (routes/api/profile.js:340-363): outbound HTTP, configuration secrets and parsing of the upstream body.
- Authentication: the auth middleware is not part of this model. The requester id is a parameter, so the 401 path is not modelled. routes/api/auth.js (password hashing and token signing) is left out.
- GET `/` (routes/api/profile.js:118-126), which lists every profile: it only returns the whole collection in the database's iteration order, with populated owners.
- `populate("user", ["name", "avatar"])`: the responses carry the bare profile.
- Store failures and the 500 answers they cause. At lines 124, 145 and 164 the `res.status(500), send(...)` typo makes those paths throw instead of answering. The ObjectId cast branch at line 142 is also left out.
- Mongoose schema behaviour: models/Profile.js is not part of this model. Casting of `from`/`to` to dates and of `current` to a boolean are not modelled. Schema defaults for `current`, `date` and the lists (beyond a new profile starting with empty lists) and schema-level `required` validation are not modelled either. A record keeps the request values as they arrived.
- Id generation is the `freshId` parameter. Uniqueness of record ids is not a store invariant, because it rests on the generator. `PrependKeepsUnique` and `RemoveKeepsUnique` state what follows from unique ids.
- Request fields are modelled as strings that are present or absent, except `current`, which is an optional boolean. Other JSON types for the string fields are not modelled: numbers, booleans, and a `skills` array, on which `split` would throw. Neither is a string `current`, which Mongoose would cast. `check` also searches the query, params, cookies and headers; only the body is modelled. The error entries' `location` key is omitted.
- Logging: the `console.error` calls of the catch blocks (routes/api/profile.js:27, 109, 219, 246, 305, 332) write to the server console and change no state or answer.
- JavaScript strings are UTF-16 code units; here they are sequences of Unicode scalar values.
- Concurrency: every handler is one sequential step. The model does not capture interleavings between `findOne` and `save`, or the lost updates they allow. It claims no atomicity that the code lacks. In particular, two concurrent first upserts for the same user are not modelled.
- ProfileRoutes.Store.DeleteAccount: the three removals are one step here, so the partial state that a failure between them leaves is not modelled.
