# AutoSelfHost ("ash") in Dafny

A model of the rules at the core of AutoSelfHost, the "ash" feature of a
Next.js SaaS starter. AutoSelfHost offers a catalog of 20 self-hostable
applications. A user picks one, fills in its configuration form and asks a
chat-completion model for a `docker-compose.yml`.

The model covers the following parts of the product:

- **Compose generation** (`generate_compose.dfy`), modelling the `generateCompose` server action:
  - request validation against the schema, with the schema library's first message on failure;
  - the API-key gate;
  - the prompt: one `- key: value` line per configuration entry, an optional "App requirements" block, and the fixed rule list;
  - the single outbound chat request;
  - classification of the provider's reply into a result or one of four fixed error messages;
  - fence stripping, with `^```ya?ml\n?` and `\n?```$` followed by `trim`.
- **Entitlements** (`manifest.dfy`, `entitlements.dfy`):
  - the plan table: `free` is bounded at 5 compose configurations and 10 generations per hour; `pro` is unlimited;
  - `resolvePlan`;
  - `checkEntitlement`.

  The manifest writes "unlimited" as `-1`. The model uses a tagged `Unlimited | Bounded(n)` limit instead, and proves that the check gives the same answer as the one written over the source's integers.
- **Catalog** (`catalog.dfy`):
  - the 20 templates as data, with their structural invariants: distinct slugs, distinct field ids, select defaults among the options, boolean toggle defaults, non-empty slugs and names;
  - `CATEGORIES`, which is `[...new Set(categories)].sort()`.

  The model proves that `CATEGORIES` is strictly sorted, covers exactly the categories in use, and equals the ten-name list.
- **Catalog grid** (`catalog_grid.dfy`):
  - the search and category filter, as an order-preserving selection;
  - at most three tags on each card;
  - the link to each template's page;
  - the "No apps found" message.
- **Configure form** (`configure_app.dfy`), the class `ConfigureForm` with fields `configValues`, `compose` and `error`:
  - seeding the values from the field defaults: a loop method, proved against a fold;
  - `handleFieldChange`, with JavaScript object-spread semantics: an existing key keeps its position and a new key goes last;
  - `handleGenerate`: clearing the error, sending the request and landing the result;
  - copy and download, with the file name `docker-compose-<slug>.yml`.
- **Support modules:**
  - `strings.dfy` covers the JavaScript string operations the code uses: `trim`, an ASCII `toLowerCase`, `includes`, `join`, split, `replace(/_/g, ' ')` and integer rendering.
  - `string_order.dfy` covers the default string order of `sort()`, sorting and de-duplication. Characters are Unicode scalar values, so the order is JavaScript's code-unit order for text inside the Basic Multilingual Plane.
  - `wrappers.dfy` holds `Option` and `Result`.

Network I/O becomes a parameter:
- The chat endpoint is a function `ChatRequest -> Reply`.
- The environment variables `OPENAI_API_KEY` and `ASH_AI_MODEL` form the `Env` record.

A `Run` records the request that was sent, if any, together with the result. This makes "no request is issued" a provable statement.

### Two consequences of the fence-stripping code

The leading-fence pattern `^```ya?ml\n?` needs a `yaml` or `yml` tag, in any letter case. A bare leading fence stays in the output, as `GenerateCompose.BareOpeningFenceKept` states.

Cleaning leaves unfenced text unchanged, which `GenerateCompose.CleanUnfenced` and `GenerateCompose.UnfencedReply` prove. It is not idempotent on text that is still fenced after one pass.

## Model

| member | source | states |
|---|---|---|
| GenerateCompose.NonEmptyStringIssues | packages/features/ash/src/actions/generate-compose.ts:12-13 | `string().min(1)` reports nothing exactly for a non-empty string |
| GenerateCompose.OptionalStringIssues | packages/features/ash/src/actions/generate-compose.ts:14 | the optional hints accept exactly a string or `undefined` |
| GenerateCompose.RecordValueIssues | packages/features/ash/src/actions/generate-compose.ts:15 | a string record reports nothing exactly when every value is a string |
| GenerateCompose.SchemaIssues | packages/features/ash/src/actions/generate-compose.ts:11-16 | the schema's issues in field order, one type issue for a non-object body; its properties are stated by `GenerateCompose.ParseRequest`, `GenerateCompose.ParseRequestToJs`, `GenerateCompose.NonObjectRejected`, `GenerateCompose.EmptySlugRejected` and `GenerateCompose.NameIssueReported` |
| GenerateCompose.ParseRequest | packages/features/ash/src/actions/generate-compose.ts:11-16 | parsing fails exactly when the schema reports an issue, and it fails with the first issue's message; an accepted request has a non-empty slug and name |
| GenerateCompose.ParseRequestToJs | packages/features/ash/src/actions/generate-compose.ts:11-16 | any request with a non-empty slug and name, sent as the form sends it, parses back to itself |
| GenerateCompose.NonObjectRejected | packages/features/ash/src/actions/generate-compose.ts:28-109 | a non-object body fails with "Expected object, received …" ("Required" when undefined), and no request is sent |
| GenerateCompose.EmptySlugRejected | packages/features/ash/src/actions/generate-compose.ts:11-109 | an empty slug fails with the minimum-length message, before the key check and without a request |
| GenerateCompose.NameIssueReported | packages/features/ash/src/actions/generate-compose.ts:11-109 | with a valid slug, an empty or missing name is the reported issue, and no request is sent |
| GenerateCompose.HasApiKey | packages/features/ash/src/actions/generate-compose.ts:34-37 | `!apiKey` is false exactly for a set, non-empty key; `GenerateCompose.GenerateCompose` states that a request is sent only then and that otherwise the key message is returned |
| GenerateCompose.ModelName | packages/features/ash/src/actions/generate-compose.ts:57 | the model is the override when it is set at all (even empty), otherwise `gpt-4.1-mini` |
| GenerateCompose.ConfigLineList | packages/features/ash/src/actions/generate-compose.ts:39-40 | one `- key: value` line per entry, in entry order |
| GenerateCompose.ConfigLines | packages/features/ash/src/actions/generate-compose.ts:39-41 | the configuration section; `GenerateCompose.ConfigLinesSplit` and `GenerateCompose.ConfigLinesAppend` state that it is the per-entry lines joined by newlines |
| GenerateCompose.RequirementsBlock | packages/features/ash/src/actions/generate-compose.ts:48 | the requirements block; `GenerateCompose.RequirementsInsertion` states that it is empty for absent or empty hints and otherwise exactly "App requirements:\n" + hints + "\n" |
| GenerateCompose.Prompt | packages/features/ash/src/actions/generate-compose.ts:43-55 | the prompt; `GenerateCompose.PromptFrame`, `GenerateCompose.PromptConfigSection` and `GenerateCompose.RequirementsInsertion` state its opening, its configuration section, its requirements block and its closing rules |
| GenerateCompose.ConfigLinesSplit | packages/features/ash/src/actions/generate-compose.ts:39-41 | when keys and values hold no newline, splitting the configuration section at newlines gives back exactly the per-entry lines, in order |
| GenerateCompose.ConfigLinesAppend | packages/features/ash/src/actions/generate-compose.ts:39-41 | a further entry adds its line after a newline at the end of the section |
| GenerateCompose.PromptFrame | packages/features/ash/src/actions/generate-compose.ts:43-55 | the prompt opens with the fixed sentence naming the template, then the "User configuration:" heading; it ends with a line break and the fixed rule list |
| GenerateCompose.PromptConfigSection | packages/features/ash/src/actions/generate-compose.ts:43-46 | the configuration lines sit right after the "User configuration:" heading |
| GenerateCompose.RequirementsInsertion | packages/features/ash/src/actions/generate-compose.ts:48 | absent and empty hints give the same prompt; non-empty hints insert exactly "App requirements:\n" + hints + "\n" before the line break that precedes the rules |
| GenerateCompose.OpeningFenceLength | packages/features/ash/src/actions/generate-compose.ts:92 | the opening pattern matches exactly when the text starts with ```` ```yaml ```` or ```` ```yml ```` in any ASCII case |
| GenerateCompose.DropClosingFence | packages/features/ash/src/actions/generate-compose.ts:93 | removing the closing fence keeps a prefix, and text that does not end in ```` ``` ```` is unchanged |
| GenerateCompose.CleanCompose | packages/features/ash/src/actions/generate-compose.ts:91-94 | the cleaned text never starts or ends with whitespace and is no longer than its input |
| GenerateCompose.ClassifyText | packages/features/ash/src/actions/generate-compose.ts:76-101 | a successful reply with non-blank text yields that text trimmed and cleaned, with the model and the usage (0 when absent) |
| GenerateCompose.CleanUnfenced | packages/features/ash/src/actions/generate-compose.ts:91-94 | trimmed text with neither fence is left unchanged by cleaning |
| GenerateCompose.FencedReply | packages/features/ash/src/actions/generate-compose.ts:83-101 | a completion ```` ```<yaml or yml, any case>\nX\n``` ```` yields `trim(X)`, with the reported token count |
| GenerateCompose.FenceOnlyReply | packages/features/ash/src/actions/generate-compose.ts:83-101 | a completion that is only an opening and a closing fence passes the emptiness check and succeeds with an empty document |
| GenerateCompose.UnfencedReply | packages/features/ash/src/actions/generate-compose.ts:83-101 | whitespace-wrapped text without either fence comes back as the text itself |
| GenerateCompose.BareOpeningFenceKept | packages/features/ash/src/actions/generate-compose.ts:92-94 | a leading fence without a `yaml`/`yml` tag survives cleaning |
| GenerateCompose.ClassifyReply | packages/features/ash/src/actions/generate-compose.ts:76-107 | the provider-failure message comes exactly for a non-ok HTTP reply, whatever its body; the unexpected-error message comes exactly for a transport failure, a body that is not JSON (or is `null`) and non-string content; the empty-response message comes exactly for missing or blank content; a success carries the model, the usage (0 when absent) and trimmed text |
| GenerateCompose.GenerateCompose | packages/features/ash/src/actions/generate-compose.ts:28-109 | a request is sent exactly when the input parses and a key is set; a schema failure reports the first issue; a missing or empty key reports its fixed message; the request carries the key, the model and the prompt; the result is the classified reply |
| GenerateCompose.FencedRun | packages/features/ash/src/actions/generate-compose.ts:28-101 | with a key and no model override, a valid request answered by a fenced document succeeds with that document, the default model and the reported usage |
| GenerateCompose.VaultwardenScenario | packages/features/ash/src/actions/generate-compose.ts:28-101 | the vaultwarden request with port and admin token, against a provider returning a fenced document, yields the unwrapped document, the default model and the usage |
| Manifest.ToSentinel | packages/features/ash/src/manifest.ts:25-26 | the integer form is -1 exactly for an unlimited limit (or the ambiguous bound -1) |
| Manifest.FromSentinel | packages/features/ash/src/manifest.ts:25 | reading an integer gives `Unlimited` exactly for -1 |
| Manifest.SentinelRoundTrip | packages/features/ash/src/manifest.ts:16-29 | the tagged and the integer encodings convert into each other without loss, except for the bound -1 |
| Manifest.ResourceKeys | packages/features/ash/src/manifest.ts:18-21 | the resource keys are `compose_configs` and `generations_per_hour` |
| Manifest.PlanTable | packages/features/ash/src/manifest.ts:16-29 | two plans with the same two resources: free at 5 and 10, pro unlimited, no bound equal to -1 |
| Manifest.SentinelTable | packages/features/ash/src/manifest.ts:16-29 | the integer table as the manifest writes it has the same plans and resources as the tagged table, and each integer reads as the tagged limit and is its encoding |
| Manifest.NavigationAndEntities | packages/features/ash/src/manifest.ts:11-15 | two navigation entries, at the catalog and deployments paths; the entities are `app_templates` and `compose_configs` |
| Entitlements.ResolvePlan | packages/features/ash/src/lib/entitlements.ts:25-33 | every subscription resolves to `free`, a plan in the table |
| Entitlements.PlanLimits | packages/features/ash/src/lib/entitlements.ts:45 | a plan not in the table gets the free plan's limits |
| Entitlements.ResourceLimit | packages/features/ash/src/lib/entitlements.ts:46 | a resource the plan does not list is bounded at 0 |
| Entitlements.LimitReason | packages/features/ash/src/lib/entitlements.ts:56 | the reason names the plan and the limit at their places, and it contains the resource with `_` read as spaces |
| Entitlements.CheckEntitlement | packages/features/ash/src/lib/entitlements.ts:38-63 | usage is echoed; a reason is present exactly when access is refused; the applied limit is the resolved plan's; access is allowed exactly when the limit is unlimited or usage is below the bound; a refusal carries the limit message |
| Entitlements.CheckEntitlementSentinel | packages/features/ash/src/lib/entitlements.ts:44-62 | the check written over the manifest's integer table as the code writes it, with -1 as unlimited; `Entitlements.TaggedMatchesSentinel` states that it agrees with the tagged check on every input |
| Entitlements.TaggedMatchesSentinel | packages/features/ash/src/lib/entitlements.ts:44-62 | the tagged check and the check over the manifest's integers, with -1 read as unlimited, agree on every input |
| Entitlements.UnknownPlanIsFree | packages/features/ash/src/lib/entitlements.ts:44-45 | a plan missing from the table is checked like an absent plan |
| Entitlements.UnlistedResourceDenied | packages/features/ash/src/lib/entitlements.ts:46-60 | a resource no plan lists is bounded at 0 and refused at any non-negative usage (names that every object inherits are an exception, under "Left out") |
| Entitlements.ProUnlimited | packages/features/ash/src/lib/entitlements.ts:48-51 | on the pro plan each listed resource is allowed at any usage, with no reason |
| Entitlements.FreeComposeConfigs | packages/features/ash/src/lib/entitlements.ts:53-62 | on the free plan (given or resolved), compose configurations are allowed exactly below 5 |
| Catalog.CategoryList | packages/features/ash/src/lib/catalog.ts:323 | `map(a => a.category)`: one category per template, in order |
| Catalog.CatalogPart1 | packages/features/ash/src/lib/catalog.ts:29-103 | the first five templates (nginx-proxy-manager to home-assistant) have the listed slugs and categories, and each has a slug, a name, distinct field ids, select defaults among the options and boolean toggle defaults |
| Catalog.CatalogPart2 | packages/features/ash/src/lib/catalog.ts:104-174 | the same for plex to jellyfin |
| Catalog.CatalogPart3 | packages/features/ash/src/lib/catalog.ts:175-249 | the same for immich to n8n |
| Catalog.CatalogPart4 | packages/features/ash/src/lib/catalog.ts:250-320 | the same for nocodb to homepage |
| Catalog.CatalogColumns | packages/features/ash/src/lib/catalog.ts:28-321 | the catalog has 20 templates, whose slugs and categories are the listed columns in catalog order |
| Catalog.SlugsUnique | packages/features/ash/src/lib/catalog.ts:31-309 | no slug is listed twice |
| Catalog.CatalogWellFormed | packages/features/ash/src/lib/catalog.ts:7-321 | 20 templates with pairwise distinct slugs, each with a slug, a name, distinct field ids and well-formed fields |
| Catalog.Categories | packages/features/ash/src/lib/catalog.ts:323 | the derived list is strictly sorted in character order and holds exactly the categories in use |
| Catalog.CategoryNamesSorted | packages/features/ash/src/lib/catalog.ts:323 | the ten category names are listed in strictly increasing character order (ASCII, so also JavaScript's code-unit order) |
| Catalog.CategoryColumnNames | packages/features/ash/src/lib/catalog.ts:323 | the category column uses exactly the ten category names: each entry is one of them and each of them occurs |
| Catalog.CategoriesByColumn | packages/features/ash/src/lib/catalog.ts:323 | when the category column uses exactly a strictly sorted list of names, the derived categories are that list |
| Catalog.CategoriesValue | packages/features/ash/src/lib/catalog.ts:323 | `CATEGORIES` is AI, Automation, Development, IoT, Management, Media, Monitoring, Networking, Productivity, Security |
| StringOrder.Sort | packages/features/ash/src/lib/catalog.ts:323 | `sort()` returns a sorted permutation of its input |
| StringOrder.Dedup | packages/features/ash/src/lib/catalog.ts:323 | `[...new Set(xs)]` has no duplicates and the same members |
| StringOrder.SortDistinct | packages/features/ash/src/lib/catalog.ts:323 | sorting a duplicate-free list sorts it strictly |
| StringOrder.StrictlySortedUnique | packages/features/ash/src/lib/catalog.ts:323 | two strictly sorted lists with the same members are equal |
| CatalogGrid.MatchesSearch | apps/web/app/home/ash/_components/catalog-grid.tsx:18-22 | an empty search matches every template, otherwise a case-folded substring of the name, the description or some tag; `CatalogGrid.FilterApps`, `CatalogGrid.FilterUnfiltered` and `CatalogGrid.SearchIgnoresCase` state its effect on the grid |
| CatalogGrid.MatchesCategory | apps/web/app/home/ash/_components/catalog-grid.tsx:24 | no category or an empty one matches every template, otherwise exactly the templates of that category; `CatalogGrid.CategoryExact` and `CatalogGrid.CategoryNarrows` state its effect on the grid |
| CatalogGrid.FilterApps | apps/web/app/home/ash/_components/catalog-grid.tsx:17-27 | exactly the matching templates are shown, each as often as in the list, as a subsequence of the list, in list order |
| CatalogGrid.FilterUnfiltered | apps/web/app/home/ash/_components/catalog-grid.tsx:19-24 | an empty search with no category shows the whole list, in order |
| CatalogGrid.CategoryExact | apps/web/app/home/ash/_components/catalog-grid.tsx:24 | with a category chosen, every template shown has exactly that category |
| CatalogGrid.CategoryNarrows | apps/web/app/home/ash/_components/catalog-grid.tsx:24-26 | a category's result is a subsequence of the "All" result for the same search |
| CatalogGrid.SearchIgnoresCase | apps/web/app/home/ash/_components/catalog-grid.tsx:18-22 | a query and its lower-case form show the same templates |
| CatalogGrid.ShownTags | apps/web/app/home/ash/_components/catalog-grid.tsx:73 | a card shows the first three tags, or all of them when there are at most three |
| CatalogGrid.CardsOf | apps/web/app/home/ash/_components/catalog-grid.tsx:60-82 | `filtered.map(...)`: one card per template, in order, each the card of that template |
| CatalogGrid.RenderGrid | apps/web/app/home/ash/_components/catalog-grid.tsx:60-89 | one card per matching template, linked at `/home/ash/catalog/<slug>` and showing its first tags; the empty-state message exactly when no card is shown |
| CatalogGrid.UnfilteredGrid | apps/web/app/home/ash/_components/catalog-grid.tsx:17-89 | the opening state shows a card for every template, and the empty-state message only for an empty list |
| ConfigureApp.Lookup | apps/web/app/home/ash/_components/configure-app.tsx:89 | a key is absent exactly when no entry has it; a found value is stored under that key |
| ConfigureApp.Assign | apps/web/app/home/ash/_components/configure-app.tsx:33 | the key now maps to the value and every other key is unchanged; an existing key keeps its position, a new one goes last |
| ConfigureApp.AssignKeepsKeysDistinct | apps/web/app/home/ash/_components/configure-app.tsx:33 | assigning keeps the keys distinct |
| ConfigureApp.DefaultValues | apps/web/app/home/ash/_components/configure-app.tsx:20-26 | the seeded values have distinct keys |
| ConfigureApp.DefaultValuesKeys | apps/web/app/home/ash/_components/configure-app.tsx:22-23 | every seeded key is the id of some field |
| ConfigureApp.DefaultValuesLookup | apps/web/app/home/ash/_components/configure-app.tsx:20-26 | with distinct ids, each field's id maps to its default exactly when that default is non-empty |
| ConfigureApp.DefaultValuesOrder | apps/web/app/home/ash/_components/configure-app.tsx:20-26 | with distinct ids, the seeded values are the fields with a non-empty default, in field order |
| ConfigureApp.SeedConfigValues | apps/web/app/home/ash/_components/configure-app.tsx:21-25 | the `forEach` loop computes the seeded values |
| ConfigureApp.RequestFor | apps/web/app/home/ash/_components/configure-app.tsx:39-44 | the request carries the template's slug, name and hints and the current values; `ConfigureApp.TemplateRequestsPass` states that it passes validation for every catalog template and `ConfigureApp.ConfigureForm.StartGenerate` that the form sends it |
| ConfigureApp.TemplateRequestsPass | apps/web/app/home/ash/_components/configure-app.tsx:39-44 | a well-formed template's request (every catalog template's) passes validation, whatever the values |
| ConfigureApp.ErrorMessage | apps/web/app/home/ash/_components/configure-app.tsx:49 | a failure shows its own message; a success without text shows "Generation failed." |
| ConfigureApp.InputType | apps/web/app/home/ash/_components/configure-app.tsx:87 | an input is a password input exactly for password fields, and a text input otherwise |
| ConfigureApp.FieldValue | apps/web/app/home/ash/_components/configure-app.tsx:89 | `configValues[field.id] ?? ''`; `ConfigureApp.FieldValues` states what it shows before and after an edit |
| ConfigureApp.FieldValues | apps/web/app/home/ash/_components/configure-app.tsx:20-89 | a fresh field shows its non-empty default or nothing; after an edit the edited field shows the new value and the others are unchanged |
| ConfigureApp.DownloadName | apps/web/app/home/ash/_components/configure-app.tsx:66 | the file name is `docker-compose-`, then the slug, then `.yml`, and the slug can be read back from it |
| ConfigureApp.DownloadNameInjective | apps/web/app/home/ash/_components/configure-app.tsx:66 | distinct slugs download under distinct names |
| ConfigureApp.ConfigureForm.constructor | apps/web/app/home/ash/_components/configure-app.tsx:19-29 | a fresh form holds the seeded values, no compose file and no error |
| ConfigureApp.ConfigureForm.SetField | apps/web/app/home/ash/_components/configure-app.tsx:32-34 | `handleFieldChange` assigns one value, keeps the keys distinct, and leaves compose and error alone |
| ConfigureApp.ConfigureForm.StartGenerate | apps/web/app/home/ash/_components/configure-app.tsx:37-44 | the error is cleared first; the request holds the template's slug, name and hints and the current values |
| ConfigureApp.ConfigureForm.ApplyResult | apps/web/app/home/ash/_components/configure-app.tsx:46-50 | a success with text replaces the compose file; any other result sets the error (with the fallback) and keeps the old compose file |
| ConfigureApp.ConfigureForm.Generate | apps/web/app/home/ash/_components/configure-app.tsx:36-52 | one generator run on the values at the click; then either the new compose file and no error, or the old compose file and an error |
| ConfigureApp.ConfigureForm.CopyText | apps/web/app/home/ash/_components/configure-app.tsx:54-58 | copying yields the compose text, and nothing while there is none |
| ConfigureApp.ConfigureForm.DownloadFile | apps/web/app/home/ash/_components/configure-app.tsx:60-69 | the download is the compose text as `text/yaml` under the slug's file name, and nothing while there is no compose file |
| Strings.Trim | packages/features/ash/src/actions/generate-compose.ts:83-94 | `trim()` leaves no whitespace at either end and leaves trimmed text unchanged |
| Strings.TrimSurrounded | packages/features/ash/src/actions/generate-compose.ts:83-94 | trimming removes exactly the whitespace around a trimmed text |
| Strings.TrimIdempotent | packages/features/ash/src/actions/generate-compose.ts:94 | trimming twice is trimming once |
| Strings.ToLowerAscii | apps/web/app/home/ash/_components/catalog-grid.tsx:20-22 | lower-casing maps each character to its lower-case form and leaves no capital |
| Strings.ToLowerAsciiIdempotent | apps/web/app/home/ash/_components/catalog-grid.tsx:20-22 | lower-casing twice is lower-casing once |
| Strings.SplitJoin | packages/features/ash/src/actions/generate-compose.ts:41 | splitting a newline-join of newline-free parts gives the parts back |
| Strings.ReplaceAll | packages/features/ash/src/lib/entitlements.ts:56 | `replace(/_/g, ' ')` keeps the length, puts a space at every position that held `_`, leaves no `_` and changes nothing else |
| Strings.IntToString | packages/features/ash/src/lib/entitlements.ts:56 | the rendered limit is a digit string, with a leading `-` exactly when negative, and its digits read back as the number's magnitude |
| Strings.ParseNatToString | packages/features/ash/src/lib/entitlements.ts:56 | reading a rendered natural number back gives the number |

## Left out

- The HTTP request to the chat endpoint, its headers and JSON body, and `response.text()`/`response.json()` are network I/O. The provider is a function from the request to a `Reply`, and the model records the request that would be sent.
- The request's `temperature: 0.3` is a floating-point constant of the JSON body, which is not modelled.
- `console.error` logging is not modelled.
- `process.env` reads are not modelled. The key and the model override are the `Env` parameter.
- The schema library's internals are not modelled. The schema is an explicit list of issues in field order, with the default messages of zod 3 ("Required", "Expected object, received …", "String must contain at least 1 character(s)") and its `err.errors` list. Numbers are not told apart, so NaN, which the library reports as "nan", is reported as "number".
- The `'Validation failed'` fallback is not reachable: a schema failure always has at least one issue. The model therefore returns the first issue.
- `Object.entries` lists integer-like keys first. This ordering is not modelled: configuration values are pairs in insertion order.
- The reply body is abstracted: a JSON body in which a step of `choices?.[0]?.message?.content` is missing or null, including a `choices` without a `0` entry (such as `{}` or `{"choices":5}`), is `ReplyJson(NoContent, …)` and gets the empty-response message, as the optional chain gives `''` for it. `UnparsableBody` stands for a body that is not JSON or is `null`, and `OtherContent` for a non-string `content`; on both the code throws and returns the unexpected-error message. The JSON parser itself is not modelled.
- `Strings.ToLowerAscii`: folds ASCII capitals only, where `toLowerCase` folds all of Unicode. Search matching is therefore exact for ASCII queries only.
- `GenerateCompose.VaultwardenScenario`: the provider's document is any trimmed text rather than one particular YAML document.
- `CatalogGrid.UnfilteredGrid`: stated for any list; that the catalog itself has 20 entries is `Catalog.CatalogColumns`.
- `Entitlements.CheckEntitlement` takes usage as an integer. JavaScript numbers that are fractional, NaN or infinite are not modelled.
- The `userId` argument is unused by the code, so it has no effect on the model.
- In the code, a plan name that is a property of every JavaScript object (such as `toString`) makes the lookup throw. The model treats every name outside the table as unknown.
- `Entitlements.UnlistedResourceDenied`, `Entitlements.ResourceLimit`: a resource name that every object inherits (`toString`, `valueOf`, `constructor`) reads an inherited function as its limit; both comparisons with it are false, so the code allows access, while the model bounds the name at 0 and refuses it. Typed callers pass only the two resource keys. Such a limit is a function value, which the model's integer limits cannot hold.
- The emoji and the `links` of each template are presentational.
- Strings are sequences of Unicode scalar values, where JavaScript uses UTF-16 code units. For characters outside the Basic Multilingual Plane (the emoji, for example) string length, indices and `sort()` order differ from JavaScript's: JavaScript puts "🌐" before "Ａ", the model after. Slugs, names and category names are ASCII, so `CATEGORIES` is unaffected.
- React rendering, hooks, `useTransition` and the `isPending` button state are not modelled. Field changes made while a generation is pending are outside the model, which runs `Generate` as one step.
- The category buttons and `Link` components are presentational and are not modelled.
- The clipboard, `Blob` and object-URL downloads are browser I/O. The model gives only what would be copied or saved.
- The deployments list and the catalog and deployments pages hold layout only.
- The template lookup on the slug page (`find` and `notFound`) is not modelled.
- The logo components are presentational.
