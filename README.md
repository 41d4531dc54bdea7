# fyre-cli, modelled in Dafny

fyre-cli is a command-line scaffolding tool. `fyre create <project-name>` copies a project template (node, react or vue) into a new directory below the working directory and writes the project name into its `package.json`. `fyre list` prints the registered templates. This project models the tool's own logic in `bin/cli.js` and three small deterministic pieces of the templates it ships:

- the REST router of the node template (`src/routes/api.js`), mounted under `/api`;
- the node template's string helpers (`src/utils/helpers.js`);
- the vue template's router (`src/router/index.js`).

Modules, one per concern:

- `Wrappers`: `Option`.
- `JsText`: the JavaScript string primitives the code relies on:
  - white space;
  - digits;
  - `String(n)` for integers;
  - `padStart` and `padEnd`;
  - ASCII `toUpperCase`.
- `JsNumber`: the two string-to-number conversions of the user route:
  - `isNaN(s)`, which applies the StringNumericLiteral grammar of section 7.1.4.1 of ECMA-262;
  - `parseInt(s)` of section 19.2.5 of ECMA-262.
- `Json`: JSON values as JavaScript sees them:
  - objects as their members in the order written, with property read and assignment;
  - truthiness;
  - `String()` coercion.
- `Registry`: the `TEMPLATES` registry, the choices of the template prompt, and the lines of `list`.
- `ProjectName`: the project-name regular expression.
- `FileSystem`: an abstract file system and the fs-extra operations `create` performs on it.
  - The file system is a map from paths (lists of components) to entries.
  - The functions `Removed`, `WithDir`, `Copied` and `ReadJson` describe each operation on the map.
  - The class `FileSystem` holds the map as a field and performs the same operations in place.
- `CreateWorkflow`: the `create` action.
  - `CreateRun` is its specification, a function yielding the outcome, the final tree and the steps taken, in order. The steps are prompts shown, deletions, the directory made, the copy, the `package.json` write and the processes started.
  - `Create`, `CopyTemplate` and `FinishProject` are the action as methods that change a `FileSystem` one operation at a time. Each is proved equal to its specification function.
- `CreateProperties`: what a run guarantees about the project it leaves behind.
- `Email`: the address pattern of `POST /api/users`, as a language and as a decision procedure proved to accept exactly that language.
- `ApiRoutes`: each route handler as a function from the request (plus the clock and environment values it reads) to a status code and a JSON body. It also models the dispatch over the five registrations.
- `Helpers`: `capitalize` and the `YYYY-MM-DD` text of `formatDate`.
- `VueRouter`: the route table, `scrollBehavior`, and the `beforeEach` guard. The guard is a method that sets the title of a `Document` object.

Inputs the code reads from its surroundings become parameters:

- prompt answers and option flags (`Answers`, `Options`);
- the working directory and the templates directory (`Env`);
- `process.env.npm_package_version`, `new Date().toISOString()` and `Date.now()` (`ApiRoutes.Context`);
- the calendar fields of a `Date` (`Helpers.CalendarDate`).

The `{% projectName %}` tokens in the template files (for example src/templates/vue-app/src/router/index.js:56) are never substituted: no code in `bin/cli.js` replaces them. The vue router's title therefore keeps the literal placeholder (`VueRouter.ProjectPlaceholder`).

## Model

| member | source | states |
|---|---|---|
| ProjectName.IsValidName | bin/cli.js:39 | a name passes iff it is non-empty and every character is a letter, digit, `_` or `-` |
| ProjectName.ValidNameIsOneComponent | bin/cli.js:39-45 | a valid name has no separator and no dot, so the target is the working directory with one component appended |
| Registry.Lookup | bin/cli.js:91 | `TEMPLATES[key]` is present iff `key` is a registered key, and then it is the entry with that key |
| Registry.LookupIn | bin/cli.js:13-26 | lookup in a list of entries finds an entry with the key iff one exists |
| Registry.Choices | bin/cli.js:81-84 | one prompt choice per registry entry, in registration order, labelled `name - description` with the key as value |
| Registry.ChoiceValues | bin/cli.js:81-84 | the values the template prompt can return are the registry keys, one per entry, in registration order |
| Registry.ChoiceValuesAreKeys | bin/cli.js:81-84 | the prompt offers exactly the keys `node`, `react`, `vue`, in that order |
| Registry.ChoicesAreRegistered | bin/cli.js:81-94 | every answer of the template prompt passes the registry check |
| Registry.KeysDistinct | bin/cli.js:13-26 | the registry keys are pairwise distinct |
| Registry.ListOutput | bin/cli.js:168-172 | `list` prints a heading, then one line per registry entry in registration order, then an empty line |
| Registry.ListLineLayout | bin/cli.js:170 | a list line is two spaces, the key, spaces up to column 12 (or none for a longer key), ` - `, then the name, `: ` and the description |
| Registry.ListColumnsAligned | bin/cli.js:169-171 | on every registered line the ` - ` separator starts at the same column, 12 |
| FileSystem.Removed | bin/cli.js:63-70 | `fs.remove(p)` deletes exactly `p` and what lies below it; afterwards `p` does not exist and nothing else changes |
| FileSystem.WithDir | bin/cli.js:105 | `fs.ensureDir(p)` makes `p` an entry, keeps every existing entry, and changes nothing outside `p` |
| FileSystem.Copied | bin/cli.js:109 | `fs.copy(src, dst)` changes nothing outside `dst` |
| FileSystem.RelocatedTo | bin/cli.js:109 | each entry at `src + s` arrives at `dst + s` with the same content |
| FileSystem.RelocatedFrom | bin/cli.js:109 | each copied entry lies below `dst` and comes from the same relative place below `src` |
| FileSystem.ExistsAway | bin/cli.js:137 | changes below one directory do not affect whether an unrelated path exists |
| FileSystem.FileSystem.Remove | bin/cli.js:65 | the tree becomes `Removed(old tree, p)`, and `p` no longer exists |
| FileSystem.FileSystem.EnsureDir | bin/cli.js:105 | the tree becomes `WithDir(old tree, p)`, and `p` exists |
| FileSystem.FileSystem.Copy | bin/cli.js:109 | the copy succeeds iff fs-extra would not refuse it; on success the tree is the copied tree, else it is unchanged |
| FileSystem.FileSystem.WriteJson | bin/cli.js:116 | the file at `p` holds the written JSON value and every other entry is unchanged |
| CreateWorkflow.ExitStatus | bin/cli.js:157-160 | a run exits with status 1 exactly on the failure outcomes; cancellation and success give 0 |
| CreateWorkflow.CreateRun | bin/cli.js:36-161 | an invalid name exits 1 before any file-system access and with no step taken; the run is cancelled iff the target exists, `--force` is unset and the user declines overwriting, and then nothing changes; nothing outside the target ever changes |
| CreateWorkflow.ClearedTree | bin/cli.js:46-71 | after the conflict is resolved the target does not exist, and nothing outside it changed |
| CreateWorkflow.ClearSteps | bin/cli.js:46-88 | the target is deleted iff it existed; the overwrite prompt is shown iff it existed without `--force`; the template prompt is shown iff no template option was given |
| CreateWorkflow.Materialize | bin/cli.js:91-145 | the run exits with the unknown-template failure iff the key is not registered, and with the missing-directory failure iff the key is registered but its directory does not exist; on either, the tree and steps are unchanged (no copy) |
| CreateWorkflow.CopyStage | bin/cli.js:105-117 | the copy fails iff fs-extra refuses it, leaving tree and steps unchanged |
| CreateWorkflow.PackageStage | bin/cli.js:112-145 | the run completes iff there is no `package.json` below the target or it parses as a non-null JSON value; a failure changes nothing |
| CreateWorkflow.Create | bin/cli.js:36-161 | the imperative action leaves the file system, outcome and steps that `CreateRun` specifies |
| CreateWorkflow.CopyTemplate | bin/cli.js:91-109 | the template checks, `ensureDir` and copy, then the rest of the action, match `Materialize` |
| CreateWorkflow.FinishProject | bin/cli.js:112-145 | the `package.json` rewrite and the processes started match `PackageStage` |
| CreateProperties.ReachesPackageStage | bin/cli.js:91-109 | once every check before the copy passes and the copy succeeds, the run is the `package.json` stage on the staged copy |
| CreateProperties.CopyStageReached | bin/cli.js:105-109 | past the template checks, the run fails to copy exactly when fs-extra refuses the copy |
| CreateProperties.DoneStages | bin/cli.js:36-119 | a completed run had a valid name, a registered template, an existing template directory and a successful copy |
| CreateProperties.PackageStageKeeps | bin/cli.js:112-117 | the `package.json` stage changes no entry except `package.json` |
| CreateProperties.TemplateApartFromTarget | bin/cli.js:97-109 | in a run that gets past the copy, no template entry lies below the target |
| CreateProperties.TemplateFileCopied | bin/cli.js:105-109 | every template entry except `package.json` is in the finished project at the same place below the target, unchanged |
| CreateProperties.TargetHoldsOnlyTemplate | bin/cli.js:63-109 | every entry below the target of a finished project, other than the target and `package.json`, is the template's entry at the same relative place |
| CreateProperties.TargetIsDirectory | bin/cli.js:105 | the target of a finished project is a directory |
| CreateProperties.PackageStageRenames | bin/cli.js:112-117 | an object `package.json` in the staged copy is rewritten with `name` set to the project name |
| CreateProperties.RenamedObject | bin/cli.js:115 | after `packageJson.name = projectName`, `name` reads as the project name, every other property reads as before, and the property order is kept |
| CreateProperties.PackageJsonRenamed | bin/cli.js:112-117 | given a template whose `package.json` is an object, a run that does not fail to copy completes, and its `package.json` is that object with `name` set |
| CreateProperties.SpawnOnlyWhenDone | bin/cli.js:121-145 | a run that does not complete starts no process |
| CreateProperties.SpawnsOfCompletedRun | bin/cli.js:121-145 | a completed run ends with `git init` iff `--git` was given, then an install iff `--install` was given. The install uses yarn iff the working directory holds `yarn.lock`, else npm, and both run in the new project |
| CreateProperties.DoneReachable | bin/cli.js:36-117 | with `--force`, a registered template whose directory holds only an object `package.json`, and a target apart from it, the run completes and the project's `package.json` is renamed. So the lemmas about completed runs do not hold vacuously |
| CreateProperties.SampleRunDone | bin/cli.js:36-117 | `create app --template node --force` in `home`, with the tool's templates under `tool/templates`, completes and leaves `home/app/package.json` as `{"name": "app"}` |
| CreateProperties.LockUnaffected | bin/cli.js:137 | creating the project never changes whether `yarn.lock` exists in the working directory |
| CreateProperties.ChoiceAnswerAccepted | bin/cli.js:74-94 | a template picked at the prompt never fails the registry check |
| CreateProperties.ForcedUnknownTemplateDeletes | bin/cli.js:63-94 | with `--force`, an existing target and an unregistered template, the target is deleted, nothing is copied, and the run exits 1 |
| Json.Get | bin/cli.js:115 | a property read is undefined iff no member has that name |
| Json.GetOfDistinct | bin/cli.js:115 | in an object without repeated names each property reads as written |
| Json.GetSetSame | bin/cli.js:115 | after `obj[key] = value`, reading `key` gives `value` |
| Json.GetSetOther | bin/cli.js:115 | after `obj[key] = value`, every other property reads as before |
| Json.KeysAfterSet | bin/cli.js:115 | assignment keeps the order of property names and appends a new name last |
| JsText.NatToString | src/templates/node-basic/src/routes/api.js:59-60 | `String(n)` for `n >= 0` is a non-empty digit string without a leading zero, whose decimal value is `n` |
| JsText.IntToString | src/templates/node-basic/src/routes/api.js:59-60 | `String(n)` is the digits of `n` when `n >= 0`, and `-` followed by the digits of `-n` otherwise |
| JsText.NatToStringOfValue | src/templates/node-basic/src/routes/api.js:54-60 | printing the value of a canonical decimal string gives the string back |
| JsText.PadEnd | bin/cli.js:170 | `padEnd(n)` keeps the string as a prefix and fills with spaces up to length `n` |
| JsText.PadStart | src/templates/node-basic/src/utils/helpers.js:5-6 | `padStart(n, fill)` keeps the string as a suffix and fills with `fill` up to length `n` |
| JsText.ToUpper | src/templates/node-basic/src/utils/helpers.js:12 | upper-casing maps a lower-case ASCII letter to its capital and leaves every other character alone |
| JsText.ToLower | src/templates/node-basic/src/index.js:90 | ASCII case folding maps a capital letter to its lower-case form and leaves every other character alone |
| JsNumber.FindFirst | src/templates/node-basic/src/routes/api.js:54 | the scan stops at the first character of the class, or at the end |
| JsNumber.TrimStart | src/templates/node-basic/src/routes/api.js:47 | the result is the suffix left after the leading white space |
| JsNumber.TrimEnd | src/templates/node-basic/src/routes/api.js:47 | the result is the prefix left before the trailing white space |
| JsNumber.DigitsAreNumeric | src/templates/node-basic/src/routes/api.js:47-54 | a non-empty run of decimal digits passes `isNaN`, and `parseInt` reads its decimal value |
| JsNumber.NegatedDigitsAreNumeric | src/templates/node-basic/src/routes/api.js:47-54 | a minus sign before a digit run passes `isNaN`, and `parseInt` reads the negated value |
| JsNumber.ParseIntOfIntToString | src/templates/node-basic/src/routes/api.js:47-54 | every integer as `String` prints it passes `isNaN` and `parseInt` reads it back |
| JsNumber.TrailingLettersAreNaN | src/templates/node-basic/src/routes/api.js:47-54 | `isNaN("12abc")` holds, while `parseInt("12abc")` is 12 |
| Email.IndexOfAt | src/templates/node-basic/src/routes/api.js:87 | the position of the first `@`, or the length when there is none |
| Email.IsValidEmail | src/templates/node-basic/src/routes/api.js:87-88 | the test accepts exactly the strings of the pattern: three non-empty runs without white space or `@`, separated by `@` and `.` |
| Email.ScanDecidesPattern | src/templates/node-basic/src/routes/api.js:87 | the direct scan (first `@`, then an inner `.` in the host) accepts iff the pattern matches |
| Email.AcceptedMatches | src/templates/node-basic/src/routes/api.js:87 | a string the scan accepts has a split matching the pattern |
| Email.MatchIsScanned | src/templates/node-basic/src/routes/api.js:87 | a string matching the pattern is accepted by the scan |
| Email.HostNeedsInnerDot | src/templates/node-basic/src/routes/api.js:87 | `a@b` (no dot in the host) and `a@.com` (dot first in the host) are rejected |
| Email.SecondAtRejected | src/templates/node-basic/src/routes/api.js:87 | `a@b@c.d`, with a second `@`, is rejected |
| Email.ExampleDomainValid | src/templates/node-basic/src/routes/api.js:87 | any non-empty local part without white space or `@`, followed by `@example.com`, passes the check |
| Email.SpaceRejected | src/templates/node-basic/src/routes/api.js:87 | `a b@c.d`, with a space in the local part, is rejected |
| ApiRoutes.Health | src/templates/node-basic/src/routes/api.js:9-16 | status 200, `status` is `OK`, the message is `API服务运行正常` and the timestamp is the current time. The version is the variable's value when that is set and non-empty, else `1.0.0` |
| ApiRoutes.GetUsers | src/templates/node-basic/src/routes/api.js:23-36 | status 200 and `success`; `data` holds the sample users in order and `count` equals its length |
| ApiRoutes.SampleIdsDistinct | src/templates/node-basic/src/routes/api.js:25-29 | the sample users have distinct ids |
| ApiRoutes.SampleEmailsValid | src/templates/node-basic/src/routes/api.js:25-29 | every sample address passes the creation route's address check |
| ApiRoutes.GetUser | src/templates/node-basic/src/routes/api.js:43-68 | status 400 with the invalid-id error iff `isNaN(id)`; otherwise 200 with a record built from `parseInt(id)` and the current time |
| ApiRoutes.Found | src/templates/node-basic/src/routes/api.js:64-67 | status 200 with `success` true and the given `data` |
| ApiRoutes.UserRecord | src/templates/node-basic/src/routes/api.js:57-62 | the record's id is the parsed id (null for NaN), its name is `用户<id>` and its address `user<id>@example.com`, with `createdAt` the current time |
| ApiRoutes.GetUserOfDecimalId | src/templates/node-basic/src/routes/api.js:47-62 | a canonical decimal id is answered with its value as id and the id text, as written, in the name and address |
| ApiRoutes.GetUserOfIntegerId | src/templates/node-basic/src/routes/api.js:47-62 | every integer written as `String` prints it is answered with that integer as id |
| ApiRoutes.TrailingLettersRejected | src/templates/node-basic/src/routes/api.js:47-52 | the id `12abc` is rejected with 400, although `parseInt` would read 12 |
| ApiRoutes.BlankIdGivesNaNUser | src/templates/node-basic/src/routes/api.js:47-62 | a blank id passes `isNaN`, and the record then has id null and name `用户NaN` |
| ApiRoutes.IdTextChars | src/templates/node-basic/src/routes/api.js:59-60 | a printed id holds neither white space nor `@` |
| ApiRoutes.MadeUpEmailValid | src/templates/node-basic/src/routes/api.js:60 | the made-up address of any user record passes the creation route's address check |
| ApiRoutes.PostUser | src/templates/node-basic/src/routes/api.js:75-108 | 400 with the missing-fields error iff `name` or `email` is falsy; with both truthy, 400 with the bad-address error iff the coerced address fails the pattern, else 201. On 201, `data` has the current time as id and the given `name` and `email` |
| ApiRoutes.Created | src/templates/node-basic/src/routes/api.js:103-107 | status 201 with `success` true and the given `data` |
| ApiRoutes.NewUserRecord | src/templates/node-basic/src/routes/api.js:96-101 | the new record holds the given id, name, address and creation time |
| ApiRoutes.ArrayEmailAccepted | src/templates/node-basic/src/routes/api.js:87-88 | the check coerces its argument, so an array holding one valid address is accepted and stored as given |
| ApiRoutes.DocsMatchRoutes | src/templates/node-basic/src/routes/api.js:118-124 | the documented list, written separately from the registrations, has one entry per registered route, in registration order, with its method and its full path below `/api` |
| ApiRoutes.Docs | src/templates/node-basic/src/routes/api.js:115-126 | status 200; `endpoints` has one entry per registered route, in registration order, with its method, its full path below `/api` and its documented description |
| ApiRoutes.FirstMatch | src/templates/node-basic/src/index.js:90 | the index found is the first registration from `from` on that matches the request, or none matches |
| ApiRoutes.RoutedSegments | src/templates/node-basic/src/index.js:90 | with `strict` off, a request path is matched with one trailing slash removed, and only then |
| ApiRoutes.Handle | src/templates/node-basic/src/index.js:90 | a request below `/api` reaches a handler iff some registration matches it, literal segments compared ignoring ASCII case and one trailing slash ignored |
| ApiRoutes.ServesKey | src/templates/node-basic/src/routes/api.js:9-115 | a request matching a registration shares its method, its segment count and the length of its first segment |
| ApiRoutes.RoutesDisjoint | src/templates/node-basic/src/routes/api.js:9-115 | the registrations do not overlap, so each request reaches the handler of the one route it matches |
| ApiRoutes.UserByIdDispatch | src/templates/node-basic/src/routes/api.js:43 | `GET /api/users/42` reaches the user handler with id `42` |
| ApiRoutes.TrailingSlashIgnored | src/templates/node-basic/src/index.js:90 | adding one trailing slash to a request path changes neither whether it is served nor the answer |
| ApiRoutes.SameRoutedHandled | src/templates/node-basic/src/index.js:90 | requests that agree on method, body and segments up to one trailing slash get the same answer |
| ApiRoutes.UpperCaseSlashedUsers | src/templates/node-basic/src/routes/api.js:23 | `GET /api/USERS/` reaches the user list: case and a trailing slash are ignored |
| Helpers.Capitalize | src/templates/node-basic/src/utils/helpers.js:11-13 | the length is kept; the first character is upper-cased (and is not a lower-case letter afterwards), the rest is unchanged; `""` stays `""` |
| Helpers.CapitalizeIdempotent | src/templates/node-basic/src/utils/helpers.js:12 | capitalising twice gives the same as capitalising once |
| Helpers.CapitalizeFixedPoints | src/templates/node-basic/src/utils/helpers.js:12 | a string is left unchanged iff it is empty or does not start with a lower-case letter |
| Helpers.TwoDigits | src/templates/node-basic/src/utils/helpers.js:5-6 | a number below 100 as exactly two decimal digits with that value |
| Helpers.TwoDigitsIsPadStart | src/templates/node-basic/src/utils/helpers.js:5-6 | the two digits are `String(k).padStart(2, '0')` |
| Helpers.InvalidDatePrintsNaN | src/templates/node-basic/src/utils/helpers.js:3-7 | the result is `NaN-NaN-NaN` iff the date is invalid |
| Helpers.FormatDateFields | src/templates/node-basic/src/utils/helpers.js:4-7 | the text is the year as `String` prints it, `-` at its length and at its length plus 3, then two digits reading as month index plus 1 and two digits reading as the day |
| Helpers.FormatDateInjective | src/templates/node-basic/src/utils/helpers.js:2-8 | different valid dates print differently |
| Helpers.FormatDateLength | src/templates/node-basic/src/utils/helpers.js:4-7 | a four-digit year gives the ten characters `YYYY-MM-DD` |
| VueRouter.Resolve | src/templates/vue-app/src/router/index.js:9-34 | a path resolves to a matching record: the static route with that path when there is one, otherwise the catch-all |
| VueRouter.RoutesDistinct | src/templates/vue-app/src/router/index.js:9-34 | no two records share a name or a path |
| VueRouter.NotFoundOnlyForUnknownPaths | src/templates/vue-app/src/router/index.js:28-33 | the not-found record is chosen iff the path is none of `/`, `/about`, `/contact` |
| VueRouter.ScrollBehavior | src/templates/vue-app/src/router/index.js:39-50 | a saved position is returned unchanged iff present; otherwise a non-empty hash gives a smooth scroll to that element; otherwise the top left corner |
| VueRouter.PageTitle | src/templates/vue-app/src/router/index.js:56 | the title always ends with the project placeholder, and is the bare placeholder iff the route title is absent or empty |
| VueRouter.PageTitleRecoversTitle | src/templates/vue-app/src/router/index.js:56 | for a non-empty route title the page title is that title, ` - `, then the placeholder |
| VueRouter.EveryPathTitled | src/templates/vue-app/src/router/index.js:9-56 | every path resolves to a route with a non-empty title, so the page title is `<title> - {% projectName %}` |
| VueRouter.BeforeEach | src/templates/vue-app/src/router/index.js:54-58 | the guard sets the document title from the target route's title and always lets the navigation proceed |

## Left out

- Process spawning: `git init` and the dependency install are recorded as steps and never run. Spawn errors and their warnings are not modelled.
- Prompts and argument parsing: inquirer prompts and commander parsing become the `Answers` and `Options` inputs. `-v/--version`, the unknown-command handler and the help shown without arguments are not modelled.
- Console output: the console messages of `create`, including the success line and the next-step hints, are not modelled. `list` is the exception, and its lines are.
- Cancelling the overwrite prompt returns normally, so the process exits with status 0 (`CreateWorkflow.ExitStatus`).
- fs-extra internals are reduced to their effect on the path map:
  - `ensureDir` does not create missing parents;
  - the only copy failures modelled are copying a directory into itself and copying a file onto a directory;
  - permission and I/O errors are not modelled.
- `writeJson` formatting with two-space indentation is not modelled. The file holds the JSON value.
- `TEMPLATES[template]` also finds inherited `Object.prototype` names such as `constructor`. The model checks own keys only.
- The templates directory is an input (`Env.templatesRoot`). `bin/cli.js` computes it as `bin/../templates`, while the repository keeps the templates under `src/templates`.
- ApiRoutes.Handle: HEAD requests, which Express answers with the GET handlers, are not dispatched. Case folding covers ASCII letters only, which is exact for the ASCII route literals.
- Json: an object is its members as written. `JSON.parse` (inside `fs.readJson`) keeps one member per repeated name, with the last value at the first name's position. It also lists integer-index names such as `"0"` first, in ascending order. The model does neither, so for a `package.json` with repeated or index-like names, the member order `CreateProperties.RenamedObject` and `Json.KeysAfterSet` state differs from what `writeJson` emits. Property reads agree, since `Json.Get` returns the last value.
- Numbers are exact integers throughout. IEEE doubles, their precision limits, fractions and exponent notation in `String(n)` are not modelled.
- `Json.ToStr`: `String()` coercion covers integers only, so a fractional number in a request body is not represented.
- Date parsing and time zones of `new Date(date)` are not modelled. `formatDate` takes the calendar fields a `Date` reports (`Helpers.CalendarDate`).
- `generateId` is not modelled because it depends on `Math.random`.
- Timestamps in `src/routes/api.js` (`Date.now()`, `toISOString()`) and the environment variable are parameters.
- Express is not modelled beyond the dispatch over the five registrations:
  - middleware, the JSON body parser and its errors;
  - the rate limiter and server lifecycle of `src/index.js`;
  - URL decoding of path segments and the `%`-escapes in an id.
- vue-router is not modelled beyond the route table and guard:
  - path normalisation, case-insensitive and trailing-slash matching;
  - lazy component loading;
  - the browser history.
- The React and Vue bootstrapping files, the build and lint configurations, and the example tests are not part of this model.
- Placeholder substitution, author and year metadata, and a required-file integrity check are not implemented by any code of the tool, so they are not modelled.
- JsText.ToUpper: only ASCII letters are upper-cased, not the full Unicode case mapping of `toUpperCase`.
- Helpers.Capitalize: relies on `JsText.ToUpper`, so only an ASCII first letter is upper-cased. `charAt` and `slice` are taken per character, not per UTF-16 code unit.
- Helpers.FormatDateFields: stated for non-negative years only, where `String(year)` has no sign.
- Helpers.FormatDateInjective: stated for non-negative years only, for the same reason.
- Helpers.FormatDateLength: stated for four-digit years only. Other years give other lengths.
- CreateProperties.PackageJsonRenamed: requires the template directory and the target to lie apart, and the run not to fail its copy. It also requires the template's `package.json` to be a JSON object.
- JsNumber.TrailingLettersAreNaN: shows the `isNaN`/`parseInt` disagreement on one input, not as a general law.
