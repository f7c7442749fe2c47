# Profile and post handlers of a MERN social app, modelled in Dafny

The server's `routes/api/profile.js` and `routes/api/post.js` are Express
handlers over Mongoose models. This project models the logic inside those
handlers over an in-memory document store: the users, the profiles (one per
user) and the posts. It covers:

- request validation (`check(...).not().isEmpty()` and the custom `from < to` check);
- how the profile upsert builds its fields: website normalisation, skills parsing, the loop over the social links;
- replacing a profile;
- the `unshift` and `indexOf`/`splice` edits of a profile's experience and education lists;
- deleting a profile together with its user;
- creating, listing, reading and deleting posts, with the owner check.

Layout:

- `js.dfy` (module `Js`): the JavaScript built-ins the handlers rely on, as ECMAScript defines them. These are truthiness, `String.prototype.trim`, `split` on one character, `Array.prototype.indexOf`, `splice`, and `<` on strings.
- `http.dfy` (module `Http`): the response a handler sends, and the non-empty validator.
- `models.dfy` (module `Models`): the documents, and the store as a class `Database`. Its three `map` fields are updated by the store calls (`save`, `deleteOne`, `findOneAndRemove`, `findByIdAndRemove`, `remove`). `Valid()` says each profile sits under its owner's id and each post under its own id. The constructor establishes it for the starting state: the user records registration has made, and no profiles or posts.
- `profile_routes.dfy` (module `ProfileRoutes`) and `post_routes.dfy` (module `PostRoutes`): one member per handler. A handler that changes the store is a method with `modifies db`, and its postcondition gives every outcome and the whole new store. A read-only handler is a function of the collection it reads.

Each caller id is a parameter and stands for what the authentication middleware supplies. Generated values are parameters too: the id of a new entry or post, and a post's creation time. The URL normaliser (`normalize-url`) is two function parameters. `accepts` says which text it can parse. `normalize` gives the normal form of accepted text. Nothing else is assumed about either.

Where the code and the documented intent of the service disagree, the model follows the code:

- Removing an experience or education entry whose id is absent is meant to change nothing. The code's `indexOf` gives -1, and `splice(-1, 1)` then drops the last (oldest) entry. `RemoveEntry` and `RemoveAbsentDropsOldest` state what the code does.
- Creating a post for a caller whose user record is missing is meant to give "not found". The code dereferences the null user inside the promise chain, so the catch answers 500. `CreatePost` answers 500.
- `DELETE /profile` answers 400 `PROFILE NOT FOUND` when the user record is missing. By then the caller's profile, if there was one, has already been removed.
- The upsert treats only `website === ''` as "no website". A request with no `website` at all passes `undefined` to `normalize-url`, which throws on a non-string. It also throws on a website or a truthy social link it cannot parse as a URL. Each throw happens before any store call, inside an `async` handler that Express does not catch. So no response is sent and the store is unchanged (`NoResponse`).
- The store hands out fresh ids, so `CreatePost` requires that the new post's id is not in use yet.

## Model

| member | source | states |
|---|---|---|
| `Js.Truthy` | mern-server/routes/api/profile.js:80 | `if (value)` on a request value: `undefined` and `''` are falsy, every other string is truthy |
| `Js.Trim` | mern-server/routes/api/profile.js:71 | `trim()` gives a result no longer than its input, with no whitespace at either end |
| `Js.TrimStart` | mern-server/routes/api/profile.js:71 | the result is a suffix of the input; everything cut off is whitespace; the result does not start with whitespace |
| `Js.TrimEnd` | mern-server/routes/api/profile.js:71 | the result is a prefix of the input; everything cut off is whitespace; the result does not end with whitespace |
| `Js.TrimSlice` | mern-server/routes/api/profile.js:71 | `trim()` returns the slice `s[i..j]` between leading and trailing whitespace, and that slice neither starts nor ends with whitespace |
| `Js.Count` | mern-server/routes/api/profile.js:71 | the count of a character is at most the length, and is zero exactly when the character does not occur |
| `Js.Split` | mern-server/routes/api/profile.js:71 | `split(',')` gives (number of commas + 1) pieces, and no piece holds a comma |
| `Js.JoinSplit` | mern-server/routes/api/profile.js:71 | joining the pieces of a split with the separator gives the original string back, so the pieces are the string's parts in order |
| `Js.IndexOf` | mern-server/routes/api/profile.js:230-231 | `indexOf` gives -1 exactly when the value is absent; otherwise it gives the first index holding the value |
| `Js.Splice` | mern-server/routes/api/profile.js:232 | `splice(i, 1)` with `0 <= i < length` removes exactly element `i`; a start in `-length..-1` counts from the end (so -1 removes the last element); an empty array stays empty |
| `Js.StringLess` | mern-server/routes/api/profile.js:183 | `value < req.body.to` on two strings: the first differing character decides, and a proper prefix is smaller |
| `Js.StringLessPrefix` | mern-server/routes/api/profile.js:183 | a proper prefix is `<` the longer string, for example `"2019-1" < "2019-10"` |
| `Js.StringLessAt` | mern-server/routes/api/profile.js:183 | when two strings agree up to a position and differ there, the one with the smaller character at that position is `<` the other |
| `Js.StringLessIrreflexive` | mern-server/routes/api/profile.js:183 | no string is `<` itself |
| `Js.StringLessTransitive` | mern-server/routes/api/profile.js:183 | string `<` is transitive |
| `Js.StringLessTotal` | mern-server/routes/api/profile.js:183 | of two different strings, one is `<` the other |
| `Http.IsEmpty` | mern-server/routes/api/profile.js:35-37 | express-validator's `isEmpty` on a request value is true exactly when the value is falsy |
| `Http.Require` | mern-server/routes/api/profile.js:35-37 | a `not().isEmpty()` chain reports nothing exactly when the value is truthy; otherwise it reports exactly one error, with the chain's field and message |
| `Models.NewProfile` | mern-server/routes/api/profile.js:92-100 | `new Profile(profileFields)` holds the given fields and empty experience and education lists |
| `Models.Ids` | mern-server/routes/api/profile.js:230 | `map(item => item.id)` has one id per entry, in list order |
| `Models.Database.InsertProfile` | mern-server/routes/api/profile.js:100-101 | inserting a profile for a user who has none adds exactly that profile; the other collections stay the same |
| `Models.Database.SaveProfile` | mern-server/routes/api/profile.js:210 | saving an edited profile replaces the stored one; the other collections stay the same |
| `Models.Database.RemoveProfile` | mern-server/routes/api/profile.js:148 | the user's profile is gone afterwards, and the flag says whether there was one |
| `Models.Database.RemoveUser` | mern-server/routes/api/profile.js:151 | the user record is gone afterwards, and the flag says whether there was one |
| `Models.Database.InsertPost` | mern-server/routes/api/post.js:35 | a post under a fresh id is added; nothing else changes |
| `Models.Database.RemovePost` | mern-server/routes/api/post.js:83 | exactly that post is gone; nothing else changes |
| `ProfileRoutes.ProfileErrors` | mern-server/routes/api/profile.js:35-47 | the upsert's request has no errors exactly when status is truthy and skills is non-empty; "Status is required" is reported exactly when status is empty, "Skills is required" exactly when skills is empty, each at most once, and nothing else is reported |
| `ProfileRoutes.TrimAll` | mern-server/routes/api/profile.js:71 | `map(skill => '' + skill.trim())` trims every piece and keeps their number and order |
| `ProfileRoutes.ParseSkills` | mern-server/routes/api/profile.js:69-71 | an array of skills is stored unchanged; a string gives (number of commas + 1) skills |
| `ProfileRoutes.ParseSkillsText` | mern-server/routes/api/profile.js:69-71 | a skills string becomes its comma-separated pieces in order, each trimmed; joining the untrimmed pieces gives the string back |
| `ProfileRoutes.TrimmedPiece` | mern-server/routes/api/profile.js:71 | trimming a piece without commas leaves no comma and no whitespace at either end |
| `ProfileRoutes.TrimAllClean` | mern-server/routes/api/profile.js:71 | trimming every comma-free piece leaves pieces with no comma and no whitespace at either end |
| `ProfileRoutes.ParsedSkillsClean` | mern-server/routes/api/profile.js:69-71 | no skill parsed from a string holds a comma, or starts or ends with whitespace |
| `ProfileRoutes.SubmittedSocial` | mern-server/routes/api/profile.js:77 | the social object has exactly the keys youtube, twitter, instagram, linkedin and facebook |
| `ProfileRoutes.NormalizeSocial` | mern-server/routes/api/profile.js:79-82 | the loop over `Object.entries` throws exactly when some truthy value cannot be parsed. Otherwise it keeps every key, replaces each truthy value by its normal form, and leaves each falsy value as it was |
| `ProfileRoutes.BuiltFromUnique` | mern-server/routes/api/profile.js:63-83 | the fields built from one request are fully determined by the caller, the request and the normaliser |
| `ProfileRoutes.CreateOrReplaceProfile` | mern-server/routes/api/profile.js:43-116 | without status or skills: 400 with the errors, store unchanged. With no `website`, or a website or truthy social link the normaliser cannot parse: no response, store unchanged. Otherwise the old profile is replaced by exactly one new profile built from the request (a `''` website stays `''`), with empty experience and education; the response is those fields; users, posts and other profiles are unchanged. `Valid()` is kept |
| `ProfileRoutes.GetMyProfile` | mern-server/routes/api/profile.js:12-27 | the caller's stored profile; 400 "There is no profile for user" exactly when there is none |
| `ProfileRoutes.GetProfileByUser` | mern-server/routes/api/profile.js:131-136 | that user's stored profile; 400 "There is no profile for this user" exactly when there is none |
| `ProfileRoutes.DeleteProfile` | mern-server/routes/api/profile.js:146-158 | the caller's profile is gone afterwards. The user record is removed with 200 "User deleted!" when it existed; otherwise the answer is 400 "PROFILE NOT FOUND" and the users are unchanged. Posts are unchanged |
| `ProfileRoutes.ExperienceErrors` | mern-server/routes/api/profile.js:173-188 | no errors exactly when title, company and from are truthy and, if `to` is truthy, `from < to` as strings. Each message appears exactly when its check fails |
| `ProfileRoutes.FromBeforeTo` | mern-server/routes/api/profile.js:183 | the custom `from` validator: it passes when `to` is falsy, and otherwise exactly when `from` is a string `<` the `to` string |
| `ProfileRoutes.ExperienceErrorCounts` | mern-server/routes/api/profile.js:173-183 | title and company are each reported at most once. The `from` message is reported once per failing validator of its chain, so twice when `from` is missing and `to` is given. Nothing else is reported |
| `ProfileRoutes.SameDatesRefused` | mern-server/routes/api/profile.js:180-183 | an experience whose `to` equals its `from` fails the date check |
| `ProfileRoutes.TextualDateOrder` | mern-server/routes/api/profile.js:183 | the date check compares text: `from` "2019-12-01" passes against `to` "2019-9-01" |
| `ProfileRoutes.EducationErrors` | mern-server/routes/api/profile.js:245-263 | no errors exactly when school, degree, from and fieldofstudy are all truthy; each message appears exactly when its field is empty, at most once, and nothing else is reported |
| `ProfileRoutes.RemoveEntry` | mern-server/routes/api/profile.js:229-232 | with the id present, exactly the entry at its first index is removed, the others keep their order, and the list shrinks by one. With the id absent, a non-empty list loses its last entry and an empty list stays empty |
| `ProfileRoutes.AddThenRemove` | mern-server/routes/api/profile.js:209-232 | removing the id of an entry just put in front gives the previous list back |
| `ProfileRoutes.RemoveAbsentDropsOldest` | mern-server/routes/api/profile.js:230-232 | the documented example of the surprise in `RemoveEntry`'s third clause, stated per entry: removing an id that no entry has drops the last (oldest) entry of a non-empty list |
| `ProfileRoutes.AddExperience` | mern-server/routes/api/profile.js:184-223 | invalid entry: 400 with the errors, store unchanged. No profile: 500, store unchanged. Otherwise the list becomes `[new entry] + old list`, the rest of the profile stays the same, and the saved profile is returned |
| `ProfileRoutes.DeleteExperience` | mern-server/routes/api/profile.js:226-243 | no profile: 500, store unchanged. Otherwise the experience list becomes `RemoveEntry(list, id)`, the rest of the profile stays the same, and the profile is returned |
| `ProfileRoutes.AddEducation` | mern-server/routes/api/profile.js:258-299 | as for experience, for the education list and its validation |
| `ProfileRoutes.DeleteEducation` | mern-server/routes/api/profile.js:301-319 | as for experience, for the education list |
| `PostRoutes.PostErrors` | mern-server/routes/api/post.js:16-25 | no errors exactly when text is truthy; otherwise exactly "Text is required" |
| `PostRoutes.CreatePost` | mern-server/routes/api/post.js:21-42 | empty text: 400, no post added. Caller's user record missing: 500, no post added. Otherwise a new post is added under the new id and returned. It has the request's text, the user's name and avatar, the caller as owner, and no likes or comments |
| `PostRoutes.LatestExists` | mern-server/routes/api/post.js:45 | a non-empty store has a post that no other post is newer than |
| `PostRoutes.ConsEnumerates` | mern-server/routes/api/post.js:45 | a post put in front of a listing of the other stored posts gives a listing of all of them, each exactly once |
| `PostRoutes.ConsNewestFirst` | mern-server/routes/api/post.js:45 | a newest post put in front of a newest-first listing of the others keeps the listing newest first |
| `PostRoutes.ListKeys` | mern-server/routes/api/post.js:45 | the posts under a set of ids, each exactly once, newest first |
| `PostRoutes.ListPosts` | mern-server/routes/api/post.js:44-53 | the listing holds every stored post exactly once, newest first |
| `PostRoutes.GetPost` | mern-server/routes/api/post.js:55-62 | the stored post; 404 "Post not found" exactly when the id is absent |
| `PostRoutes.DeletePost` | mern-server/routes/api/post.js:73-85 | absent id: 404, store unchanged. Caller not the owner: 401, store unchanged, and the post can still be read. Owner: 200 "Post removed", exactly that post is gone, and every other post is unchanged |

## Left out

- Express routing, the request and response objects, and the `auth` middleware: the caller id is a parameter and the outcome is a `Response` value.
- Failures of the store itself are not modelled. Most handlers' `.catch` answers 500 for them. The upsert's `deleteOne` catch (profile.js:96-98) returns the error and sends nothing, after the 200 with the fields has already gone out, so the old profile stays. GET /me (profile.js:12-27) has no `.catch`, and its `try/catch` does not see the rejected `findOne`, so a failure there sends no response. Only the 500s caused by a missing document, which the handlers dereference, are modelled.
- The `CastError` branches for malformed ids (profile.js:138-142, post.js:64-68, post.js:87-91): they depend on the ORM's id format, and they send 400 and then 500 on the same response.
- The ordering of the un-awaited `save()`, `deleteOne` and `remove()` promises: each handler is one sequential transition.
- `GET /profile` (profile.js:119-129): it lists every profile joined with its owner's name and avatar, and that join is not modelled.
- GetMyProfile: returns the stored profile without the owner's name and avatar that `populate` joins in.
- GetProfileByUser: returns the stored profile without the owner's name and avatar that `populate` joins in.
- Likes, comments and the GitHub repository lookup are not in the two route files; they are not part of this model.
- `normalize-url` is the pair of free parameters `accepts` and `normalize`. Its rules for which text parses and what the normal form is are not modelled; it is taken to throw on `undefined` and on text `accepts` refuses.
- express-validator details: `check` also looks at query, params, cookies and headers, and it validates an array element by element. Only body fields are modelled, and an array counts as empty when it has no elements.
- Request-body values are `undefined` or strings, and `skills` may also be an array of strings. Numbers, `null` and objects are not modelled. `current` is the boolean the schema casts it to.
- Mongoose document ids of profiles are not modelled; a replaced profile losing its id is therefore not visible. Entry and post ids, and post creation times, are parameters.
- ListPosts: it is a ghost function, and it fixes no order among posts with equal dates, as `sort({date: -1})` does not.
- Js.StringLess: compares Unicode code points, where JavaScript compares UTF-16 code units. The two orders differ only between characters above U+FFFF and characters in U+E000..U+FFFF.
- Console logging.
