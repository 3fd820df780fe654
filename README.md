# socialmern: the rule layer of the REST handlers, in Dafny

This project models the request handlers of socialmern, a small social
network with users, profiles and a post feed, together with its three
hand-written input validators. Each handler checks its ids and its input.
It loads a document, changes an embedded sequence in place (likes,
comments, experience or education) and saves the document back. The model
reproduces what the JavaScript does, including its slips:

- `indexOf` gives -1 for an absent id, and `splice(-1, 1)` then removes
  the **last** entry. So removing a comment, an experience or an education
  entry by an id that is not there still removes something.
- The "comment not found" guard of `deleteCommentPost` is an assignment
  (`… .length = 0`). Its value is 0, so it never fires.
- Several handlers assign to an `errors` variable they never declared. The
  ReferenceError this throws is caught and sent as a 400 with the message
  `errors is not defined`.
- `createProfile` sends a 400 when the requested handle is already taken,
  but it does not return. The new profile is saved anyway. The later
  `res.status(200).json(...)` then fails with ERR_HTTP_HEADERS_SENT, because
  the reply is already sent. The catch's `res.status(400).send(...)` fails
  the same way, so the handler's promise rejects unhandled, and on Node.js 15
  and later an unhandled rejection ends the process by default. The model
  keeps the 400 reply and the saved profile, and leaves out this second
  failure.
- `createProfile` guards the skills split with
  `typeof req.body.skills !== undefined`. That compares a type name with
  the value `undefined`, so the guard always holds, and a body without
  skills ends in a TypeError.
- `login` looks the user up with `findOne({ email: body.email })`. With
  no email in the body the filter matches any stored user, and the
  password is compared against that user's hash.
- The validators write an error key twice. The later message wins, so an
  empty company gets "Password must at least 2 characters" and an empty
  password gets "Password must at least 8 characters".

Structure:

- `Http` (http.dfy) holds the boundary values:
  - request bodies and error maps (`map<string, string>`; an absent key is
    `undefined`);
  - the handler outcome `Response` (`Ok`, `BadRequest`, `NotFound`, and
    `Failed` for a caught exception);
  - `Lib`, a record of uninterpreted functions for the third-party code.
- `JsArray` (js_array.dfy) gives `indexOf`, `filter(...).length`,
  `splice(start, 1)`, `split` and `join` their ECMAScript meaning. It proves
  what the handlers rely on: the `splice(indexOf(x), 1)` idiom removes the
  first `x`, and removing or prepending keeps a list free of duplicates.
- `Validator`, `ExperienceValidation`, `LoginValidation` and
  `PostValidation` model the validators. Each is a method that normalises
  and then checks step by step. Its result equals a declarative pair of
  functions (data, errors), whose contracts state each error key as an
  if-and-only-if.
- `Models` (models.dfy) holds the documents and the store:
  - `Db` is a class with three maps (users, profiles, posts). Its `Valid()`
    invariant says every document is stored under its own id, emails are
    unique, each profile belongs to its key, and no post is liked twice by
    one user.
  - `PostDocument` and `ProfileDocument` are the documents that `findOne`
    loads. Their sequences are changed in place by `unshift` and `splice`
    methods and then saved.
- `PostController`, `ProfileController` and `UserController` hold one
  member per handler. The handlers that write (create, delete, like,
  unlike, comment, register and the profile updates) are methods with
  `modifies db`, and they preserve `Db.Valid()`. The read-only handlers
  (`GetPost`, `UserProfile`, `Login`) are methods without `modifies`, and
  `Me` is a function. Every branch of the source is stated in the
  `ensures`.

Every handler takes the caller's id (`req.user.id`), fresh document ids and
the `Lib` primitives as parameters.

## Model

Some functions are plain definitions used by the contracts below and have
no row of their own: `Http.Get`, `Http.Pick`, `Validator.Defaulted`,
`Models.EntryIds`, `Models.CommentIds`, `JsArray.Join`,
`PostController.CommentNotFoundGuard`, `UserController.NewUser`,
`UserController.Attempt` and `UserController.Me`. Their properties are
stated by the rows that use them: the validators and `CreatePost` for
`Get` and `Defaulted`; `Register`, `Login` and `ExperienceProfile` for
`Pick`; `RemoveEntry` and `RemoveComment` for the id lists; `JoinSplit`,
`SplitJoin` and `JoinHasSeparator` for `Join`; `DeleteCommentPost` for the
guard; `Register`, `Login` and `RegisterThenLogin` for `NewUser` and
`Attempt`; `MeHidesSecrets` for `Me`.

| member | source | states |
|---|---|---|
| Http.OrEmpty | server/controllers/profile.js:130-136 | `body.key \|\| ''`: the value when present and non-empty, '' when absent or empty |
| JsArray.IndexOf | controllers/post.js:195-197 | -1 exactly when the value is absent; otherwise an index holding it with no earlier occurrence |
| JsArray.CountOf | controllers/post.js:145-148 | the length of `filter(y => y === x)`: at most the length, and zero exactly when the value is absent |
| JsArray.ActualStart | controllers/post.js:199 | splice's start: a start within the array as given, a negative one counted back from the end, always within bounds |
| JsArray.SpliceOne | controllers/post.js:199 | `splice(start, 1)` removes the entry at an in-range start and keeps the rest in order; the length drops by one exactly when the actual start is inside the array |
| JsArray.SpliceMinusOne | controllers/post.js:293-297 | `splice(-1, 1)` removes the last entry, and leaves an empty array empty |
| JsArray.RemoveFirst | controllers/post.js:186-199 | reference definition of removing the first occurrence: the multiset loses exactly one copy, the length drops by one when present and nothing changes when absent |
| JsArray.SpliceIndexOfPresent | controllers/post.js:195-199 | on a present value, `splice(indexOf(x), 1)` equals removing its first occurrence |
| JsArray.SpliceIndexOfAbsent | server/controllers/profile.js:302-304 | on an absent value the same idiom removes the last entry, and nothing from an empty array |
| JsArray.NoDuplicatesCount | controllers/post.js:186-189 | in a duplicate-free likes list a user occurs at most once |
| JsArray.PrependKeepsNoDuplicates | controllers/post.js:145-154 | prepending a user who is not in likes keeps the list duplicate-free |
| JsArray.SpliceKeepsNoDuplicates | controllers/post.js:195-199 | removing one entry keeps the list duplicate-free |
| JsArray.Split | server/controllers/profile.js:139 | `split(',')` gives at least one piece, and no piece contains the separator |
| JsArray.JoinSplit | server/controllers/profile.js:138-140 | joining the pieces of a split with the separator gives back the original string |
| JsArray.JoinHasSeparator | server/controllers/profile.js:139 | the join of separator-free pieces holds the separator exactly when there are at least two pieces |
| JsArray.SplitJoin | server/controllers/profile.js:139 | splitting the join of at least one separator-free piece gives back the pieces |
| Validator.IsEmpty | server/validation/experience.js:12 | `validator.isEmpty(s)`: the string has no characters |
| Validator.HasMinLength | server/validation/experience.js:21 | `validator.isLength(s, { min })`: at least `min` characters, counted as Unicode code points |
| Validator.IsLength | server/validation/login.js:24 | `validator.isLength(s, { min, max })`: between `min` and `max` characters, counted as Unicode code points |
| ExperienceValidation.ExperienceData | server/validation/experience.js:7-9 | title, company and from become their defaulted values; every other field is kept |
| ExperienceValidation.ExperienceErrors | server/validation/experience.js:5-33 | keys are only title, company and from; title and from are set exactly when empty; company is set exactly below 2 characters, always with the length message; the map is empty exactly when all three pass |
| ExperienceValidation.ValidateExperienceInput | server/validation/experience.js:4-34 | the step-by-step normalisation and overwriting checks end in exactly ExperienceData and ExperienceErrors, and isValid holds exactly when there are no errors |
| LoginValidation.LoginData | server/validation/login.js:7-8 | email and password become their defaulted values; every other field is kept |
| LoginValidation.LoginErrors | server/validation/login.js:5-31 | the email is set exactly when it is empty or not an email, and an empty non-email gets 'Email is invalid'; the password is set exactly outside 8..30 characters, always with the length message; the map is empty exactly when both pass |
| LoginValidation.ValidateLoginInput | server/validation/login.js:4-32 | the sequential checks end in exactly LoginData and LoginErrors, and isValid holds exactly when there are no errors |
| PostValidation.PostData | validation/post.js:7 | text becomes its defaulted value; every other field is kept |
| PostValidation.PostErrors | validation/post.js:5-21 | text is the only key, set exactly outside 2..300 characters, with 'Text field is required' for empty text and the length message otherwise; empty exactly when 2..300 |
| PostValidation.ValidatePostInput | validation/post.js:4-22 | the two checks, the second overwriting the first, end in exactly PostData and PostErrors, and isValid holds exactly when there are no errors |
| Models.RemoveEntry | server/controllers/profile.js:302-304 | with a present id exactly the first entry with that id goes and the rest keep their order; with an absent id the last entry goes, or nothing when there are none |
| Models.EmailTaken | server/controllers/user.js:31-33 | `User.findOne({ email })` finds a user: some stored user has exactly this email |
| Models.HandleTaken | server/controllers/profile.js:163-167 | `Profile.findOne({ handle })` finds a profile: some stored profile has exactly this handle |
| Models.RemoveComment | controllers/post.js:293-297 | the same for comments: the first comment with the id, else the last comment, else nothing |
| Models.Db.SavePost | controllers/post.js:156 | `post.save()` stores the document under its id and keeps the store valid; nothing else changes |
| Models.Db.SaveProfile | server/controllers/profile.js:215 | `profile.save()` stores the document under its owner and keeps the store valid; nothing else changes |
| Models.PostDocument.Load | controllers/post.js:139 | the loaded document is a copy of the stored post |
| Models.PostDocument.UnshiftLike | controllers/post.js:154 | the user goes in front of the old likes; comments stay |
| Models.PostDocument.SpliceLike | controllers/post.js:199 | likes become their `splice(start, 1)`; comments stay |
| Models.PostDocument.UnshiftComment | controllers/post.js:245 | the comment goes in front of the old comments; likes stay |
| Models.PostDocument.SpliceComment | controllers/post.js:297 | comments become their `splice(start, 1)`; likes stay |
| Models.ProfileDocument.Load | server/controllers/profile.js:196 | the loaded document is a copy of the stored profile |
| Models.ProfileDocument.UnshiftExperience | server/controllers/profile.js:213 | the entry goes in front of the old experience; education stays |
| Models.ProfileDocument.SpliceExperience | server/controllers/profile.js:304 | experience becomes its `splice(start, 1)`; education stays |
| Models.ProfileDocument.UnshiftEducation | server/controllers/profile.js:254 | the entry goes in front of the old education; experience stays |
| Models.ProfileDocument.SpliceEducation | server/controllers/profile.js:337 | education becomes its `splice(start, 1)`; experience stays |
| PostController.GetPost | controllers/post.js:36-60 | a malformed id gives a 400 with post_id, a missing post a 404 with nopost, otherwise the stored post |
| PostController.CreatePost | controllers/post.js:65-89 | invalid text gives the validator's errors and stores nothing; otherwise a post by the caller, with the normalised text, name, avatar, no likes and no comments, is stored under the new id |
| PostController.DeletePost | controllers/post.js:94-123 | a malformed id fails with the undeclared-errors exception; a missing post gives nopost; a caller with no profile fails reading `_user` of null; a post by someone else gives unauthorized and stays; the author's post is removed |
| PostController.LikePost | controllers/post.js:128-164 | a caller already in likes gives alreadyliked and nothing changes; otherwise likes become `[caller] + old likes`; the store stays valid, so no one likes twice |
| PostController.UnlikeRemovesFirst | controllers/post.js:195-199 | on a duplicate-free likes list holding the caller, `splice(indexOf(caller), 1)` is the removal of the caller's first like, equal to the list without the entry at that index, and the result stays duplicate-free |
| PostController.UnlikePost | controllers/post.js:169-209 | a caller not in likes gives notliked and nothing changes; otherwise exactly the caller's first like goes and the other likes keep their order |
| PostController.CommentPost | controllers/post.js:214-255 | invalid text gives the validator's errors before any id is read; a malformed post id adds post_id to them; a missing post gives nopost; otherwise a comment by the caller with the normalised text, name and avatar goes in front |
| PostController.DeleteCommentPost | controllers/post.js:260-307 | malformed ids fail with the undeclared-errors exception; a missing post gives nopost; otherwise the comments become RemoveComment of the old comments, so the comment is never reported missing |
| PostController.LikeThenUnlike | controllers/post.js:145-154 | a like followed by an unlike from a user not yet in likes both succeed and restore every stored post |
| PostController.LikeTwice | controllers/post.js:145-152 | the second of two likes is rejected with alreadyliked, and likes hold the caller once, in front |
| ProfileController.BuildProfileFields | server/controllers/profile.js:127-147 | the fields exist exactly when the body has skills; each text field and each social link is the body's value or ''; the skills are separator-free pieces that join back to the body's string |
| ProfileController.CreateProfile | server/controllers/profile.js:117-182 | validation failure returns the errors and stores nothing; a body without skills fails on the split; an existing profile gets the new fields and keeps its entries; otherwise a new empty profile is saved, and the reply is the handle error exactly when the handle was taken |
| ProfileController.UserProfile | server/controllers/profile.js:86-112 | a malformed id gives a 400 with user_id, a user without a profile a 404 with noprofile, otherwise that profile |
| ProfileController.DeleteProfile | server/controllers/profile.js:269-281 | the caller's profile and user are removed, posts stay, and the reply is success |
| ProfileController.ExperienceProfile | server/controllers/profile.js:187-223 | the validator's errors are returned before the profile is read; no profile gives noprofile; otherwise an entry with only title, company, location, from, to, current and description of the normalised body goes in front of the old entries |
| ProfileController.EducationProfile | server/controllers/profile.js:228-264 | the same with the education validator and school, degree, fieldofstudy, from, to, current and description |
| ProfileController.DeleteExperienceProfile | server/controllers/profile.js:286-314 | no profile or a malformed id fails with the undeclared-errors exception and changes nothing; otherwise experience becomes RemoveEntry of the old experience |
| ProfileController.DeleteEducationProfile | server/controllers/profile.js:319-347 | the same for education |
| ProfileController.AddThenRemoveExperience | server/controllers/profile.js:187-223 | adding a valid experience and then removing it by the id it was given both succeed and restore the stored profiles |
| ProfileController.RemoveEntryFront | server/controllers/profile.js:302-304 | removing by the id of the entry in front gives back exactly the entries behind it |
| UserController.Register | server/controllers/user.js:15-60 | only the five register fields reach the validator; invalid input returns its errors; a taken email adds 'Email already exists'; neither touches the table; otherwise exactly one user is added and emails stay unique |
| UserController.Login | server/controllers/user.js:65-88 | a present email no user has gives 'User not found'; for the one user with that email the reply is Attempt on that user; an absent email turns the lookup into a filter matching any document, so an empty table gives 'User not found' and otherwise the reply is Attempt on some stored user; nothing is written |
| UserController.MeHidesSecrets | server/controllers/user.js:93-99 | two users get the same reply exactly when they agree on id, name and email; changing the avatar or the password hash never changes it |
| UserController.RegisterThenLogin | server/controllers/user.js:15-88 | a successful registration followed by a login with the same email and password yields the new user's token, provided comparing a password with its own hash succeeds |

## Left out

- The database: `findOne`, `findById`, `findOneAndUpdate`, `findOneAndRemove`, `save` and `remove` become operations on the in-memory maps of `Db`. `populate('_user', …)` and `sort({ date: -1 })` are query presentation and are not modelled.
- `allPost`, `myProfile`, `handleProfile` and `allProfile` are plain store queries with no rule beyond "found or 404". They are not part of this model.
- Async/await and the non-atomic find-then-save: each handler runs to completion on its own, so lost updates between concurrent requests are not modelled.
- HTTP plumbing, routing, passport authentication and the JWT secret and expiry. The caller's id arrives as a parameter, `me` takes the authenticated user as its argument, and the signed token is the uninterpreted `sign` over id, name and avatar.
- Id generation: every new post, comment, entry and user id is a parameter the caller supplies fresh.
- The `isEmpty` helper applied to a present string (`Lib.blank`), `validator.isEmail`, `isMongoId`, bcrypt, gravatar and jsonwebtoken are uninterpreted functions. The profile, education and register validators are not part of this model and are uninterpreted functions of the body, whose `data` result is the body after their normalisation.
- Likes are modelled as the sequence of the users' ids. The sub-document id Mongoose gives each like is not modelled.
- Time stamps (`date`) and schema defaults and casting of Mongoose documents are not modelled.
- UserController.Register: reads an absent name, email or password of the register validator's result as ''. How Mongoose and bcrypt treat `undefined` there is not modelled.
- The `isEmpty` helper's code is not part of this model. Two of its cases are fixed rather than left uninterpreted: an absent (`undefined`) field is empty, so the validators default it to '', and `isEmpty(errors)` on the error object holds exactly when the object has no keys.
- `Validator.IsLength` and `Validator.HasMinLength` count Unicode code points, as `validator.isLength` does for surrogate pairs; recent versions of that package also leave out the variation selectors U+FE0E and U+FE0F, which the model counts.
- The TypeError messages `Cannot read properties of null (reading '_user')` and `Cannot read properties of undefined (reading 'split')` are the wording of Node.js 16.9 and later; older versions word them differently (`Cannot read property '_user' of null`).
- `Models.EmailTaken` and `Models.HandleTaken` compare strings exactly; schema options such as lower-casing or trimming are not modelled.
- UserController.Login: Mongoose's treatment of `findOne({ email: undefined })` is modelled as a filter that matches any stored user; which user it returns is left open (any stored user may be the one compared against).
- UserController.Login: the model assumes bcrypt's `compare` rejects, with the message `Illegal arguments: undefined, string`, when the password field is absent. Its code is not part of this model.
- ProfileController.CreateProfile: `findOneAndUpdate` with `$set` is modelled as replacing the profile's own fields with the built ones. Mongoose's treatment of the `_user` field in an update is not modelled.
- Only string-valued request bodies are modelled (`Body` maps field names to strings). body-parser delivers any JSON value, and non-strings take paths the model cannot produce: a number such as `{"text": 5}` passes the `isEmpty` helper and then makes `validator.isEmpty` throw a TypeError, which `createPost` answers with a 400; `skills` sent as an array makes `req.body.skills.split` throw "is not a function" in `createProfile`, also a 400; a boolean `current` is stored as given.
- ProfileController.CreateProfile: on a taken handle the model gives the handle 400 and the saved profile, and leaves out the ERR_HTTP_HEADERS_SENT failures of the later `res.status(200).json` and of the catch's reply, and the unhandled rejection that ends the process on Node.js 15 and later.
- `validateLoginInput` is modelled as written, but `login` does not call it, so the model's `Login` does not call it either.
