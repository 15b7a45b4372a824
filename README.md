# Data shaping in Kibana's status page, Gemini adapter and OpenAI connector

This project is a Dafny model of three small data-shaping components of Kibana, with proofs of what they promise.

- **Gemini chat-format translator** (inference plugin). It maps the vendor-neutral tool choice to a Gemini tool config. It turns the tool table into function declarations. It converts JSON-schema-like parameter schemas into Gemini schema nodes. It maps each chat message by role, then merges consecutive messages of the same role into one multi-turn message.
- **OpenAI request sanitiser** (stack connectors). It rewrites a JSON request body so that `stream` is forced on or off, but only for the two endpoints that accept it. It fills in a default model. It returns the body untouched when parsing or an edit fails. It also trims a trailing `/chat/completions` from a URL.
- **Status page data** (status_page core plugin). It splits `prefix:name@version` plugin ids, maps colour states to labels and a severity, and sorts the plugin rows by severity and then by name. It maps the overall state to the header badge. It keeps the component's loading and raw-response flags.

Files:

- `wrappers.dfy`: `Option`.
- `records.dfy`: JavaScript plain objects as ordered key/value lists. Property assignment overwrites an existing key in place and appends a new one.
- `json.dfy`: JSON values and JavaScript truthiness.
- `gemini_adapter.dfy`, `openai_utils.dfy`, `status_component.dfy`: one module per source file.

How the source's form is kept:

- `messagesToGemini` folds into an output list that it extends in place. It is a method with a loop, proved equal to the fold `MergeSameRole`, whose properties are lemmas.
- `remapPlugins` maps into a fresh array and sorts it in place. Its sort is an in-place insertion sort on that array.
- The status component's state is a class with the same four fields.
- `getRequestWithStreamOption` edits the parsed object's fields statement by statement.
- The `reduce` calls that assign `properties[key]` into a fresh local record are left folds of the record assignment `Records.Assign`. Nothing else can see those records while they are being filled, so nothing is lost by this.

Assumptions:

- `JSON.parse` and `JSON.stringify` are abstract functions passed in as parameters. `parse` returns `None` where `JSON.parse` throws.
- `localeCompare` is lexicographic order on characters.
- The compiled connector code runs in strict mode. So writing a property on a truthy number, string or `true` throws a TypeError, which is caught, and the original body is returned.
- The two streaming endpoints are `https://api.openai.com/v1/chat/completions` and `https://api.openai.com/v1/completions`. The constants file that defines them, `x-pack/platform/plugins/shared/stack_connectors/common/openai/constants.ts`, is not part of this model.

## Model

| member | source | states |
|---|---|---|
| `GeminiAdapter.ToolChoiceToConfig` | x-pack/platform/plugins/shared/inference/server/chat_complete/adapters/gemini/gemini_adapter.ts:63-83 | No config exactly when the choice is absent. Otherwise: mode ANY exactly for `required` or a named function, NONE exactly for `none`, AUTO exactly for `auto`. `allowedFunctionNames` is present exactly for a named function, and then it is `[name]`. |
| `GeminiAdapter.ToolsToGemini` | x-pack/platform/plugins/shared/inference/server/chat_complete/adapters/gemini/gemini_adapter.ts:85-106 | Absent tools give `[]`. Otherwise the result is exactly one Tool with one declaration per table entry, in order, with the same name and description. A tool without a schema gets an empty OBJECT schema; one with a schema gets its conversion. |
| `GeminiAdapter.LeafEnum` | x-pack/platform/plugins/shared/inference/server/chat_complete/adapters/gemini/gemini_adapter.ts:137-154 | `enum` takes precedence. Without it, a present `const` becomes a one-element enum. With neither, there is no enum. (Corrected form; see Findings.) |
| `GeminiAdapter.LeafEnumAsWrittenDropsFalsyConst` | x-pack/platform/plugins/shared/inference/server/chat_complete/adapters/gemini/gemini_adapter.ts:141 | As written, a falsy `const` (`false`, `0`, `""`) with no `enum` produces no enum, while the corrected form produces `[const]`. |
| `GeminiAdapter.ConvertLeafDepartsOnlyOnFalsyConst` | x-pack/platform/plugins/shared/inference/server/chat_complete/adapters/gemini/gemini_adapter.ts:137-154 | A converted leaf has the `enum` the code as written computes, in every case but one: a falsy `const` with no `enum`, where the conversion gives the one-element enum. |
| `GeminiAdapter.ConvertPropertiesInOrder` | x-pack/platform/plugins/shared/inference/server/chat_complete/adapters/gemini/gemini_adapter.ts:126-134 | For a record with unique keys, the `reduce` that assigns `properties[key]` yields exactly one entry per input entry, in order, with the key kept and the value converted. |
| `GeminiAdapter.ConvertPreservesShape` | x-pack/platform/plugins/shared/inference/server/chat_complete/adapters/gemini/gemini_adapter.ts:109-156 | Conversion preserves structure, for every schema whose records have unique keys. array→ARRAY, object→OBJECT, string/boolean/number→STRING/BOOLEAN/NUMBER. Descriptions and `required` are kept. Property keys are kept in order. Items and properties are converted recursively. |
| `GeminiAdapter.ToolSchemaToGeminiPreservesShape` | x-pack/platform/plugins/shared/inference/server/chat_complete/adapters/gemini/gemini_adapter.ts:158-167 | The top level is OBJECT and `required` is copied. The property keys and shapes equal those of the input's properties, or `{}` when there are none. |
| `GeminiAdapter.MessageToGemini` | x-pack/platform/plugins/shared/inference/server/chat_complete/adapters/gemini/gemini_adapter.ts:183-247 | Assistant → role `assistant`: a text part only for non-empty content, then one `functionCall` per tool call in order, with `args` defaulting to `{}` when there is no `arguments` key. User → role `user` with one part per content part: text → text, image → `inlineData` with the same data and mime type. Tool → role `user` with one `functionResponse` named by `toolCallId`. A string response is wrapped as `{response: s}`; any other response is passed through. |
| `GeminiAdapter.MergeSameRoleAlternates` | x-pack/platform/plugins/shared/inference/server/chat_complete/adapters/gemini/gemini_adapter.ts:170-181 | After merging, no two adjacent messages share a role. The last merged message has the last input's role. |
| `GeminiAdapter.MergeSameRoleShrinks` | x-pack/platform/plugins/shared/inference/server/chat_complete/adapters/gemini/gemini_adapter.ts:170-181 | Merging never produces more messages than it is given. It produces at least one when given at least one. |
| `GeminiAdapter.MergeSameRoleKeepsParts` | x-pack/platform/plugins/shared/inference/server/chat_complete/adapters/gemini/gemini_adapter.ts:170-181 | All output parts, flattened in order, equal all input parts, flattened in order. |
| `GeminiAdapter.MergeSameRoleFixesAlternating` | x-pack/platform/plugins/shared/inference/server/chat_complete/adapters/gemini/gemini_adapter.ts:170-181 | A list in which roles already alternate is returned unchanged. |
| `GeminiAdapter.MergeSameRoleIdempotent` | x-pack/platform/plugins/shared/inference/server/chat_complete/adapters/gemini/gemini_adapter.ts:170-181 | Merging twice is the same as merging once. |
| `GeminiAdapter.MergeSameRoleCollapsesRuns` | x-pack/platform/plugins/shared/inference/server/chat_complete/adapters/gemini/gemini_adapter.ts:170-181 | The roles of the merged messages are the input roles with every run of one role collapsed to a single entry, so each output message stands for exactly one maximal same-role run. |
| `GeminiAdapter.MergeSameRoleKeepsRoleOfParts` | x-pack/platform/plugins/shared/inference/server/chat_complete/adapters/gemini/gemini_adapter.ts:170-181 | Every part, paired with its message's role, appears in the output in the same order and under the same role as in the input. A user part never ends up in an assistant message. |
| `GeminiAdapter.MessagesToGemini` | x-pack/platform/plugins/shared/inference/server/chat_complete/adapters/gemini/gemini_adapter.ts:170-181 | The in-place fold computes the merge of the mapped messages. Its result alternates roles, has no more messages than the input, its roles are the collapsed runs of the input roles, and it keeps every mapped part in order under its own role. |
| `Records.Assign` | x-pack/platform/plugins/shared/stack_connectors/server/connector_types/openai/lib/openai_utils.ts:40-47 | Property assignment: the key then reads as the new value and every other key reads as before. An existing key keeps its position, and a new key is appended at the end, which is where `stream`, `stream_options` and `model` go. |
| `OpenAIUtils.RewriteParsedBody` | x-pack/platform/plugins/shared/stack_connectors/server/connector_types/openai/lib/openai_utils.ts:37-48 | A falsy parsed value is kept as is, and so is an array. A truthy number, string or `true` makes the edit throw. For an object: `stream` is set only on the two streaming endpoints, and left alone otherwise. `stream_options = {include_usage: true}` is set only when streaming is requested on such an endpoint. `model` keeps a truthy value and otherwise becomes the default model, whatever the URL. Every other field is kept, and existing keys keep their order. |
| `OpenAIUtils.GetRequestWithStreamOption` | x-pack/platform/plugins/shared/stack_connectors/server/connector_types/openai/lib/openai_utils.ts:30-56 | A body that does not parse is returned unchanged. A falsy parsed value is re-serialised with nothing added. Otherwise the result is the serialised rewrite, or the original body when the edit throws. |
| `OpenAIUtils.SanitizeRequest` | x-pack/platform/plugins/shared/stack_connectors/server/connector_types/openai/lib/openai_utils.ts:20-22 | Exactly the stream rewrite with `stream = false`. |
| `OpenAIUtils.RewriteKeepsKeysUnique` | x-pack/platform/plugins/shared/stack_connectors/server/connector_types/openai/lib/openai_utils.ts:39-47 | The edits never make a key appear twice in the rewritten object. |
| `OpenAIUtils.SanitizeNeverAddsStreamOptions` | x-pack/platform/plugins/shared/stack_connectors/server/connector_types/openai/lib/openai_utils.ts:39-46 | With `stream = false`, `stream_options` is never changed. `stream` becomes `false` only on a streaming endpoint. |
| `OpenAIUtils.RemoveEndpointFromUrl` | x-pack/platform/plugins/shared/stack_connectors/server/connector_types/openai/lib/openai_utils.ts:60-63 | The result is a prefix of the URL. What is removed is nothing, `/chat/completions` or `/chat/completions/`. The URL is unchanged exactly when it ends with neither. |
| `OpenAIUtils.RemoveEndpointIsRegexReplace` | x-pack/platform/plugins/shared/stack_connectors/server/connector_types/openai/lib/openai_utils.ts:61-62 | Agrees with replacing the `$`-anchored pattern `\/chat\/completions\/?$`. Where the pattern matches, everything from the match on is removed. Where it matches nowhere, the URL is returned unchanged. |
| `StatusComponent.IndexOf` | src/core_plugins/status_page/public/status_component.js:52-53 | `indexOf`: -1 exactly when the character is absent. Otherwise the index of its first occurrence. |
| `StatusComponent.Substring` | src/core_plugins/status_page/public/status_component.js:92-93 | `substring` gives the slice for in-range bounds. It gives the empty string when both bounds are at or below 0, as in `substring(0, -1)`. |
| `StatusComponent.IdRemainderWithoutColon` | src/core_plugins/status_page/public/status_component.js:52 | With no `:` in the id, the name/version text is the whole id. |
| `StatusComponent.IdRemainderAfterFirstColon` | src/core_plugins/status_page/public/status_component.js:52 | With a `:`, the name/version text is everything after the first `:`. |
| `StatusComponent.NameAndVersionSplitsAtFirstAt` | src/core_plugins/status_page/public/status_component.js:92-93 | The name is the text before the first `@` and the version is the text after it. |
| `StatusComponent.NameAndVersionWithoutAt` | src/core_plugins/status_page/public/status_component.js:92-93 | With no `@`, the name is empty and the version is the whole text. |
| `StatusComponent.NameAndVersionJoin` | src/core_plugins/status_page/public/status_component.js:92-93 | When there is an `@`, name + `@` + version gives the text back, and the name contains no `@`. |
| `StatusComponent.StateOf` | src/core_plugins/status_page/public/status_component.js:55-87 | green→(success, check, Running, 2), yellow→(warning, alert, Warning, 1), red→(danger, cross, Error, 0), anything else→(subdued, bolt, Unknown, 2). Severity is 0 exactly for red and 1 exactly for yellow. |
| `StatusComponent.RemapPlugin` | src/core_plugins/status_page/public/status_component.js:89-94 | Each row keeps the plugin's `id` and all its other fields. Its `state` is the mapped state, and its name and version come from the id. |
| `StatusComponent.NameLeqTotal` | src/core_plugins/status_page/public/status_component.js:102 | The name order is total. |
| `StatusComponent.NameLeqTransitive` | src/core_plugins/status_page/public/status_component.js:102 | The name order is transitive. |
| `StatusComponent.RowLeqTotal` | src/core_plugins/status_page/public/status_component.js:96-106 | Any two rows are comparable under the comparator. |
| `StatusComponent.RowLeqTransitive` | src/core_plugins/status_page/public/status_component.js:96-106 | The comparator's order is transitive. |
| `StatusComponent.SortRows` | src/core_plugins/status_page/public/status_component.js:96-106 | The in-place sort leaves the array sorted by ascending severity value (red first), with ties broken by name. The result is a permutation of the input. |
| `StatusComponent.InsertLast` | src/core_plugins/status_page/public/status_component.js:96-106 | One pass of the in-place sort: given a sorted prefix `a[..i]`, it leaves `a[..i+1]` sorted by the comparator and a permutation of its old contents, and `a[i+1..]` unchanged. |
| `StatusComponent.RemapPlugins` | src/core_plugins/status_page/public/status_component.js:46-107 | A non-array gives `undefined`. Otherwise there is one row per plugin (same length, a permutation of the mapped plugins), sorted by severity and then by name. |
| `StatusComponent.OverallHealth` | src/core_plugins/status_page/public/status_component.js:148-158 | green → Running/success; yellow → Warning/warning; anything else → Error/danger. |
| `StatusComponent.HeaderAgreesWithRows` | src/core_plugins/status_page/public/status_component.js:141-158 | The header badge and the plugin rows agree on the label and colour of green, yellow and red. An unknown state is "Error" in the header and "Unknown" in a row. |
| `StatusComponent.StatusPage.constructor` | src/core_plugins/status_page/public/status_component.js:37-44 | The component starts with `loading = true`, `showRawResponse = false` and no data. |
| `StatusComponent.StatusPage.Load` | src/core_plugins/status_page/public/status_component.js:112-121 | When the payload arrives: loading ends, the payload is kept as the raw response, and the overall state and metrics are stored. The plugins are stored remapped. The raw-response flag is untouched. |
| `StatusComponent.StatusPage.ToggleRawResponse` | src/core_plugins/status_page/public/status_component.js:411-413 | Sets `showRawResponse` to exactly the argument and changes nothing else. |
| `StatusComponent.StatusPage.RawResponse` | src/core_plugins/status_page/public/status_component.js:415-442 | The raw-response panel exists exactly when the flag is set, and it shows the stored payload. |
| `StatusComponent.StatusPage.HeaderStatus` | src/core_plugins/status_page/public/status_component.js:141-158 | "Loading status"/subdued while loading. After that, the overall state's health. |

## Left out

- The Gemini `chatComplete` body (executor call, event-stream and JSON line parsing, the rxjs pipeline) is I/O and calls into code that is not part of this model.
- Messages with a role other than user, assistant or tool cannot be expressed. The source's `switch` has no default, so such a message would fail later in the `reduce`.
- The `as` casts in the adapter (`as string[]`, `as object`) are type assertions with no effect at run time. They are not modelled.
- `JSON.parse` and `JSON.stringify` are abstract. No textual round trip is claimed, because `stringify(parse(b))` need not equal `b`.
- JSON numbers are reals, and floating-point representation is not modelled. `JSON.parse` turns an overflowing literal such as `1e999` into `Infinity`; the model covers that only as some non-zero `JNumber`.
- Special object keys such as `__proto__` are not modelled.
- Records.Assign: appends a new key at the end. JavaScript lists integer-like keys ("0", "5", ...) first, in ascending order, so `o["5"] = v` on `{a: 1}` gives keys `["5", "a"]`. This does not affect `stream`, `stream_options` or `model`, nor the `reduce` over entries that are already in `Object.entries` order.
- GeminiAdapter.ConvertSchemaType: uses the corrected leaf rule of the Findings row (`GeminiAdapter.LeafEnum`). So `ToolSchemaToGemini` and `ToolsToGemini` model the intended conversion: for a leaf with a falsy `const` and no `enum`, they give the one-element enum, where the code as written gives none. `GeminiAdapter.ConvertLeafDepartsOnlyOnFalsyConst` states that this is the only difference. The shape lemmas do not depend on `enum`.
- A `description` or `required` key written with the value `undefined` is treated as an absent key, which is how serialisation treats it.
- `localeCompare` is modelled as lexicographic order on characters. Locale-specific collation is not modelled.
- StatusComponent.RemapPlugins: does not state that rows with equal severity and equal name keep their input order. `Array.prototype.sort` is stable, and the insertion sort here is too, but only sortedness and permutation are proved.
- StatusComponent.StatusPage.Load: takes the overall state, the statuses and the metrics as arguments next to the payload. The source reads all three out of the payload with lodash `get` (status_component.js:115-119), so the model does not tie them to the payload. The overall state is taken as a string; a payload without `status.overall`, which would make the header throw, is not modelled.
- The fetch and banner handling of `componentWillMount` is left out as I/O. So are every React/EUI render method and `renderMetrics`, which uses floating-point division and `formatNumber` (not part of this model).

## Findings

| source | as written | input that shows it | evidently intended | confidence | as-written member | corrected member |
|---|---|---|---|---|---|---|
| x-pack/platform/plugins/shared/inference/server/chat_complete/adapters/gemini/gemini_adapter.ts:141 | `def.const ? [def.const] : undefined` tests the constant for truthiness, and lines 147 and 153 do the same. | A boolean leaf `{type: 'boolean', const: false}` with no `enum` gets no `enum`, so Gemini may send `true`. The same happens for `const: 0` and `const: ""`. | A present `const` becomes a one-element `enum`. | medium, not executed | `GeminiAdapter.LeafEnumAsWrittenDropsFalsyConst` | `GeminiAdapter.LeafEnum` |
