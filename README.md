# next-typed-env, modelled in Dafny

`withTypedEnv` checks the process environment against a schema at build-configuration
time and then generates two TypeScript modules: `env/env.client.ts` with the variables that
are safe for the browser, and `env/env.server.ts` with all of them. Each variable is
exported with a literal type. This project models that pipeline in three stages, plus the
ordering of its filesystem writes:

- **Validator** (`Validator`, validator.dfy). The schema is an ordered list of keys. Each key
  has a descriptor: `Scalar` (any string) or `Enum(members)`. `Parse` checks every declared
  key against an environment `map<string, string>`. It drops undeclared keys and collects
  one issue per offending key, in schema order. `ValidateEnv` turns each issue into one line
  of the error message.
- **Partitioner** (`Partitioner`, partitioner.dfy). `PartitionRecord` is the `reduce` that
  builds the `client` and `server` objects, one `Step` per validated entry. Object spreading is
  modelled by `Put`: an existing key keeps its place, and a new key is appended. `ValuesFor`
  gives an enumeration key all its declared members, and any other key the singleton list of
  its value. `IsPublic` decides whether the key also goes to `client`.
- **Renderer** (`Renderer`, renderer.dfy). `RenderExport` renders
  `export const K = process.env.K as T;` for one binding, trimmed as
  `String.prototype.trim` does. `T` (`TypeText`) is the `' | '`-joined union of quoted
  values, or `string` when `VERCEL` is `"1"`. `RenderFile` joins the lines of all bindings
  with `"\n\n"`.
- **Pipeline** (`TypedEnv`, typed_env.dfy). `Generate` composes the three stages.
  `WithTypedEnv` is the imperative glue. It validates first. It creates the directory only
  if it is missing. Then it writes the client module and then the server module to a
  `Disk` object.

`Strings` (strings.dfy) holds the JavaScript built-ins these stages use: `join`, `trim`,
`includes`. `EnvSchema` (schema.dfy) holds the shared datatypes, and `Wrappers`
(wrappers.dfy) holds `Option` and `Result`.

The environment is a parameter. `VERCEL` is read from that same map (`StripLiterals`). The
schema library is replaced by the `Scalar | Enum` descriptor. A missing key gets the
library's `"Required"` message. For an enumeration mismatch the model uses the library's
wording (`EnumMismatchMessage`), but nothing depends on that text beyond its differing from
`"Required"`.

## Model

| member | source | states |
|---|---|---|
| `Strings.JoinLayout` | src/index.ts:16 | In `parts.join(sep)`, part k starts at the sum of the earlier parts' lengths plus one separator each. A separator follows each part except the last. The last part ends the text, so there is no trailing separator. |
| `Strings.JoinSnoc` | src/index.ts:16 | Joining one more part adds exactly one separator and that part at the end. |
| `Strings.JoinContainsEachPart` | src/index.ts:16 | Every part of a join occurs in the joined text. |
| `Strings.TrimStart` | src/index.ts:12 | The result is a suffix of the input. Everything removed is JavaScript whitespace. The result does not start with whitespace. |
| `Strings.TrimEnd` | src/index.ts:12 | The result is a prefix of the input. Everything removed is JavaScript whitespace. The result does not end with whitespace. |
| `Strings.QuotedUnionHasEveryValue` | src/index.ts:11 | The `' \| '`-joined union contains every value wrapped in single quotes, verbatim. |
| `EnvSchema.Lookup` | src/index.ts:57 | `schema.shape[key]` is undefined exactly when no field of the schema has that key. |
| `EnvSchema.LookupAt` | src/index.ts:57 | In a shape with distinct keys, looking up a declared key finds that key's own descriptor. |
| `Validator.CheckField` | src/index.ts:29 | A key passes exactly when it is present and, for an enumeration, its value is a member. The value passes through unchanged. An issue names the key, and its message is `"Required"` exactly when the key is missing. |
| `Validator.Problems` | src/index.ts:33-43 | The list of problems is empty exactly when every declared key conforms. |
| `Validator.Parse` | src/index.ts:29 | Parsing succeeds exactly when every declared key conforms. The record then holds exactly the schema's keys in schema order, each with its environment value. On failure the issues are those of the non-conforming keys, in schema order, and there is at least one. |
| `Validator.ProblemsMembers` | src/index.ts:33-43 | An issue is reported exactly when it is the issue of some non-conforming declared key. |
| `Validator.ProblemsCount` | src/index.ts:33-43 | There is exactly one issue per non-conforming key. |
| `Validator.ParseIgnoresUndeclaredKeys` | src/index.ts:29 | Two environments that agree on the declared keys validate to the same result. Undeclared variables never matter. |
| `Validator.ValidateEnvSucceeds` | src/index.ts:27-29 | `validateEnv` succeeds exactly when every declared key conforms. The record's keys are then exactly the schema's keys, in order. |
| `Validator.MissingKeyFails` | src/index.ts:36-37 | A declared key missing from the environment makes validation fail. Its line `"<key> required in schema but missing in environment"` is among the message lines and in the joined message. |
| `Validator.FailureLines` | src/index.ts:33-43 | Every message line belongs to one offending key. It is the "required" line for a missing key, and `"<key> <reason>"` otherwise. Every offending key has its line. |
| `Partitioner.Put` | src/index.ts:61-62 | Spreading a new key appends it. Spreading an existing key keeps every key in place. Every binding of another key keeps its position and its value list. Either way the key ends up bound to the new list. |
| `Partitioner.PublicOnlyMembers` | src/index.ts:58 | A binding is in the public view exactly when it is in the object and its key starts with `NEXT_PUBLIC_` or equals `NODE_ENV`. |
| `Partitioner.PublicOnlyConcat` | src/index.ts:61 | The public view keeps relative order: it distributes over concatenation. |
| `Partitioner.PublicOnlyPut` | src/index.ts:61-62 | Adding a key and then taking the public view gives the same result as adding the key to the public view when it is public. When it is not public, the public view is unchanged. |
| `Partitioner.ClientIsPublicServer` | src/index.ts:55-66 | `client` is exactly the public part of `server`: the same bindings, the same value lists, the same relative order. |
| `Partitioner.ClientSubsetOfServer` | src/index.ts:58-62 | A binding is in `client` exactly when it is in `server` and its key is public. |
| `Partitioner.ServerFollowsRecord` | src/index.ts:55-66 | With distinct keys, `server` has one binding per validated entry, in entry order, each with the entry's value list. |
| `Partitioner.PrivateKeyNotInClient` | src/index.ts:58 | A key that is not public, such as `SECRET_KEY`, never appears in `client`. |
| `Renderer.ExportLine` | src/index.ts:9-12 | The trim has no effect. Each export line is exactly `export const K = process.env.K as T;`. |
| `Renderer.DefaultModeQuotesEveryValue` | src/index.ts:11 | In the default mode, every value of the list appears in the line in single quotes. |
| `Renderer.StripModeIgnoresValues` | src/index.ts:11 | When literals are stripped, the type is `string` and the line does not depend on the values. |
| `Renderer.RenderFileLayout` | src/index.ts:14-17 | Binding k's export line sits at its offset in the module. A blank line follows it unless it is the last line. The last line ends the text. |
| `Renderer.RenderFileContainsEach` | src/index.ts:14-17 | Every binding's export line is in the rendered module. |
| `Renderer.RenderFileSnoc` | src/index.ts:14-17 | An empty object renders as "". One more binding appends `"\n\n"` and its line, in entry order. |
| `TypedEnv.GenerateSpec` | src/index.ts:50-70 | Generation succeeds exactly when every declared key conforms. The server module then renders every declared key in schema order, with an enumeration typed by all its members. The client module renders exactly the public keys among them. |
| `TypedEnv.ServerIsDeclared` | src/index.ts:55-62 | After a successful validation, `server` binds each declared key to its members (enumeration) or to its value (scalar). |
| `TypedEnv.GenerateFailsWithValidation` | src/index.ts:52 | When validation fails nothing is generated, and the failure carries the validator's lines. |
| `TypedEnv.TestPartition` | src/__tests__/index.test.ts:8-22 | In the test's run, the server module renders the three keys in order. The client module renders only `NEXT_PUBLIC_API_URL` and `NODE_ENV`. |
| `TypedEnv.TestLines` | src/__tests__/index.test.ts:38-53 | The three export lines are the test's strings, written as the template's pieces. |
| `TypedEnv.TestScenario` | src/__tests__/index.test.ts:38-53 | The client module contains the URL and `NODE_ENV` lines. The server module contains the `SECRET_KEY` line. |
| `TypedEnv.MissingKeyScenario` | src/__tests__/index.test.ts:55-65 | A missing `VALID_ENV` fails with the single line `VALID_ENV required in schema but missing in environment`. |
| `TypedEnv.Disk.MakeDir` | src/index.ts:68 | The directory exists afterwards, and no file changes. |
| `TypedEnv.Disk.WriteFile` | src/index.ts:19-25 | A write succeeds exactly when the directory exists and the path is writable. It then overwrites that one file in full. |
| `TypedEnv.WithTypedEnv` | src/index.ts:50-72 | On a schema violation no directory or file is touched. Otherwise the directory exists afterwards and the client module is written before the server module. A failure on the second write leaves the first write in place, and the error names the offending path. |

## Left out

- The console output of src/utils/log.ts is not modelled. Neither is the colour of its prefixes.
  `error(...)` returns nothing, so the source throws `undefined` after it prints the message.
  The model carries the printed message in the failure value instead. src/index.ts:7 also
  imports `info` and `success`, which src/utils/log.ts does not export. As written, the call
  to `info` at src/index.ts:51 would therefore fail before anything is validated. The model
  treats `info` and `success` as logging calls that do nothing.
- The fallback for exceptions other than the schema library's (src/index.ts:44-46) is not
  modelled. It depends on library exceptions outside the source.
- The schema library itself is not modelled. Only the two descriptor kinds are, with parsing
  reduced to presence and membership. Other validators, coercion to numbers and custom
  messages are not modelled. Environment values are strings, so the `number` in the source's
  value type never arises here.
- Only the schema object's default handling of undeclared keys is modelled: they are dropped.
  A schema built with `.passthrough()` would pass every environment variable on to `server`,
  and one built with `.strict()` would fail on any extra variable. Neither is modelled.
- The enumeration-mismatch wording is the library's. It is not part of this repository. The
  model relies only on its differing from `"Required"`.
- JavaScript objects list integer-like keys such as `"123"` before all other keys. The model
  keeps insertion order for every key. Environment variable names do not start with a digit.
- The `NextConfig` argument is returned unchanged. It is not modelled.
- `process.cwd()` and `path.join` are replaced by the relative paths `env/env.client.ts` and
  `env/env.server.ts`, with no path normalisation.
- `Disk.MakeDir` always succeeds. A failure of `mkdirSync` is not modelled.
- A failing `writeFileSync` is modelled as a set of unwritable paths, chosen when the `Disk` is created.
- `TypedEnv.TestLines`, `TypedEnv.TestScenario`: the test's expected lines are written as
  concatenations of the template's pieces, not as single string literals. Each concatenation
  spells the same characters as the test's literal.
- Determinism is not stated as a lemma. It is immediate, since `Generate` is a function of
  the schema and the environment.

## Notes

- The source writes the client module and then the server module with no rollback. A
  failure on the second write therefore leaves a new `env.client.ts` beside an old
  `env.server.ts`. `WithTypedEnv` models this as written.
