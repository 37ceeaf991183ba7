# Project URL resolution of update-project-item-status

This project models the pure logic of `src/update-project-item-status.ts`,
a GitHub Action step. The step takes a project URL such as
`https://github.com/orgs/github/projects/1`, matches it against an anchored
regular expression and reads three groups from it: the owner type (`orgs` or
`users`), the owner name and the project number. It maps the owner type to the
root field of the `getProject` GraphQL query (`organization` or `user`). After
the query, it reads the project id from the branch of the response keyed by
that root field.

Modules:

- `Wrappers` (`wrappers.dfy`): `Option` and `Result`, used for `undefined`
  values and for thrown errors.
- `Digits` (`digits.dfy`): the `\d` character class, the greedy `\d+` run and
  the value `parseInt(…, 10)` gives a digit string.
- `ResolveErrors` (`errors.dfy`): the two errors the step throws, and their
  messages.
- `ProjectUrl` (`project_url.dfy`): the pattern
  `^(?:https://)?github\.com/(?<ownerType>orgs|users)/(?<ownerName>[^/]+)/projects/(?<projectNumber>\d+)`
  as a parser over strings. `Parse` returns `Ok(ownerType, ownerName,
  projectNumber)` or `InvalidUrl(original)`. It works one stage per group.
  `MatchesAt` and `Matches` say declaratively what the pattern matches, and
  the lemmas prove that `Parse` succeeds exactly on those strings.
- `OwnerType` (`owner_type.dfy`): `mustGetOwnerTypeQuery`, and the read of
  the project id from the `getProject` response.
- `Resolve` (`resolve.dfy`): how the step composes these two pieces.

Behaviour of the code that a reader might not expect, and that the model keeps:

- `\d+` (src/update-project-item-status.ts:7) accepts `/projects/0` and any
  number of leading zeros, and `parseInt(…, 10)` (:64) reads them as the plain
  value. The model accepts project number 0.
- Nothing is thrown when the `getProject` response lacks the queried branch:
  `?.` at :86 makes the project id `undefined`, and it is passed on.
  `ProjectId` returns `None` in that case.
- The tests (__tests__/update-project-item-status.test.ts) import
  `getStatusFieldData` and `getStatusColumnIdFromSettings` and expect the
  errors "Item ID is required" and "Status is required". The source defines
  none of these, so the model has nothing of them (see "Left out").

## Model

| member | source | states |
|---|---|---|
| `Digits.LeadingDigits` | src/update-project-item-status.ts:7 | the greedy `\d+` run: a prefix of the input, made only of ASCII digits, not followed by a digit |
| `Digits.ToDecimal` | src/update-project-item-status.ts:64 | every natural number has a non-empty decimal numeral without a leading zero, and `parseInt` reads it back as that number |
| `Digits.LeadingDigitsOfDigits` | src/update-project-item-status.ts:7 | a digit string followed by more text: the digit run is the whole digit string plus the digits that start the rest |
| `Digits.Value` | src/update-project-item-status.ts:64 | `parseInt(…, 10)` of the digit group: the base-10 value, most significant digit first; an n-digit string reads below 10^n, and at least 10^(n-1) when it has no leading zero (partners: `ToDecimal` reads back through it, `ValueLeadingZeros` ignores zeros in front) |
| `Digits.ValueLeadingZeros` | src/update-project-item-status.ts:64 | any number of leading zeros leaves the base-10 value unchanged |
| `ProjectUrl.OwnerNameSpan` | src/update-project-item-status.ts:7 | the greedy `[^/]+` run: a slash-free prefix that ends at the end of the input or at a `/` |
| `ProjectUrl.MatchesAt` | src/update-project-item-status.ts:6-7 | the strings the start-anchored pattern matches as a prefix, split into its groups: optional `https://`, `github.com/`, `orgs` or `users`, `/`, a non-empty slash-free name, `/projects/`, one or more digits, then any tail; every match is at least 28 characters and starts with the scheme group followed by `github.com/` |
| `ProjectUrl.Matches` | src/update-project-item-status.ts:6-7 | some split of the string is a match of the pattern; such a string is at least 28 characters and starts with `github.com/` or `https://github.com/` (the partner `ParseAcceptsExactlyMatches` ties it to `Parse`) |
| `ProjectUrl.Parse` | src/update-project-item-status.ts:53-65 | on success the owner type is `orgs` or `users` and the owner name is non-empty and slash-free; on failure the error carries the original URL |
| `ProjectUrl.ParseComplete` | src/update-project-item-status.ts:7 | every string the pattern matches parses to that match's owner type and name; the number is the value of the whole leading digit run, and a tail not starting with a digit is ignored |
| `ProjectUrl.ParseSound` | src/update-project-item-status.ts:63-65 | every successful parse comes from a match of the pattern whose digit group is maximal, and the number is that group's base-10 value |
| `ProjectUrl.ParseAcceptsExactlyMatches` | src/update-project-item-status.ts:6-7 | the parse succeeds if and only if the pattern matches: optional `https://`, `github.com/`, `orgs` or `users`, `/`, a non-empty slash-free name, `/projects/`, at least one digit |
| `ProjectUrl.RoundTrip` | src/update-project-item-status.ts:63-65 | parsing the URL built from an owner type, an owner name and the decimal numeral of n yields exactly those three, with or without `https://` |
| `ProjectUrl.TrailingTextIgnored` | src/update-project-item-status.ts:7 | text after the project number that does not start with a digit does not change the result |
| `ProjectUrl.LeadingZerosAllowed` | src/update-project-item-status.ts:64 | a project number written with leading zeros is accepted and has the same value |
| `ProjectUrl.ParseExtends` | src/update-project-item-status.ts:7 | the pattern is not anchored at the end: appending text to an accepted URL keeps it accepted, with the same owner type and name |
| `ProjectUrl.OtherHostRejected` | src/update-project-item-status.ts:7 | a URL that starts with neither `github.com/` nor `https://github.com/` is rejected |
| `ProjectUrl.HttpSchemeRejected` | src/update-project-item-status.ts:7 | a URL with the `http://` scheme is rejected |
| `ProjectUrl.NonProjectPathRejected` | src/update-project-item-status.ts:7 | after the owner name, a path other than `/projects/` followed by a digit is rejected |
| `ProjectUrl.RepositoriesUrlRejected` | __tests__/update-project-item-status.test.ts:32-43 | `https://github.com/orgs/github/repositories` is rejected as an invalid URL |
| `ResolveErrors.Message` | src/update-project-item-status.ts:57-61 | the invalid-URL message is the fixed prefix, the URL verbatim, then the format hint; the owner-type message is the fixed prefix, the value as shown by a template literal, then the fixed suffix |
| `ResolveErrors.InvalidUrlMessageNamesUrl` | src/update-project-item-status.ts:58-59 | the rejected URL can be read back out of the message at a fixed position |
| `ResolveErrors.InvalidUrlMessageInjective` | src/update-project-item-status.ts:58-59 | different URLs produce different invalid-URL messages |
| `ResolveErrors.UnsupportedMessageInjective` | src/update-project-item-status.ts:113 | different present owner-type values produce different unsupported-owner-type messages |
| `ResolveErrors.UndefinedOwnerTypeMessage` | src/update-project-item-status.ts:113 | an absent owner type is shown as `undefined`, the same message as for the string `undefined` |
| `OwnerType.MustGetOwnerTypeQuery` | src/update-project-item-status.ts:109-117 | succeeds exactly for `orgs` and `users`, with the query whose token is the input; every other value, absent included, fails with an unsupported-owner-type error naming that value |
| `OwnerType.MustGetOwnerTypeQueryResults` | src/update-project-item-status.ts:110 | `orgs` maps to `organization` and `users` maps to `user` |
| `OwnerType.MustGetOwnerTypeQueryInvertsToken` | src/update-project-item-status.ts:110 | the mapper returns a given query exactly when the input is that query's token |
| `OwnerType.UnsupportedOwnerTypeNamed` | src/update-project-item-status.ts:112-114 | every value other than `orgs` and `users` fails, and the message starts with the prefix followed by that value |
| `OwnerType.ProjectId` | src/update-project-item-status.ts:86 | for the `organization` query the id comes from the `organization` branch, for `user` from the `user` branch; it is present exactly when that branch is |
| `OwnerType.ProjectIdIgnoresOtherBranch` | src/update-project-item-status.ts:86 | the branch not keyed by the query never affects the id |
| `Resolve.ResolveProjectQuery` | src/update-project-item-status.ts:53-66 | fails exactly when the URL does not match, and then only with the invalid-URL error for that URL, never with an unsupported owner type; on success the query's token, owner name and number are the parsed groups |
| `Resolve.ParsedOwnerTypeSupported` | src/update-project-item-status.ts:65-66 | the mapper accepts every owner type a successful parse yields |
| `Resolve.ResolveRoundTrip` | src/update-project-item-status.ts:53-66 | a project URL built from a query, an owner name and a number resolves back to exactly that query, name and number |
| `Resolve.ProjectIdForUrl` | src/update-project-item-status.ts:86 | for an accepted `orgs` URL the id is read from the `organization` branch, for `users` from the `user` branch; an unmatched URL fails before any read |
| `Resolve.ExampleUrlResolves` | __tests__/update-project-item-status.test.ts:19 | `https://github.com/orgs/github/projects/1` resolves to the `organization` query for `github`, project 1 |
| `Resolve.ExampleProjectId` | __tests__/update-project-item-status.test.ts:81-91 | for that URL, a response with an `organization` branch yields that branch's id |
| `Resolve.ExampleRepositoriesUrlFails` | __tests__/update-project-item-status.test.ts:32-43 | the repository-list URL fails with the invalid-project-URL error carrying that URL |

## Left out

- The orchestration in `updateProjectItemStatus` (src/update-project-item-status.ts:45-107) is not modelled. That covers reading the four inputs with `core.getInput`, creating the client with `github.getOctokit`, the two `octokit.graphql` calls, `core.debug` and `console.log`. These are I/O and calls into libraries. The model takes the `getProject` response as a parameter.
- The second query and its response (src/update-project-item-status.ts:88-104) are not modelled. The response is only logged, and nothing is computed from it.
- No status-field lookup, status-option lookup or update mutation is modelled. The tests import `getStatusFieldData` and `getStatusColumnIdFromSettings`, and expect "Item ID is required" and "Status is required", but none of these exists in `src/update-project-item-status.ts`.
- `core.getInput(…, {required: true})` (src/update-project-item-status.ts:46-49) is not modelled. It throws `Input required and not supplied: <name>` for an empty `project-url`, `github-token`, `item-id` or `status`, in that order, before `github.getOctokit` runs at :52. It also trims surrounding whitespace from each value.
- `ProjectUrl.Parse` receives the URL after that trimming. So `Parse(" https://github.com/orgs/x/projects/1")` is `InvalidUrl`, although the step accepts that input.
- `src/main.ts` is not modelled. It only turns a thrown error into `core.setFailed`.
- `Digits.Value` reads the project number as an unbounded natural number. `parseInt` returns a double, which loses precision above 2^53; that is not modelled.
- `OwnerType.ProjectId` follows the declared response type, in which a present owner branch always has a `projectNext`. A `null` `projectNext` would make `.id` throw; that case is not modelled.
- The pattern runs over UTF-16 code units, while the model runs over Dafny characters. The owner-name group accepts any non-`/` unit and the other groups are ASCII, so both accept the same strings.
