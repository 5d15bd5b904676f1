# Mission-control dashboard data layer, in Dafny

This project models the server-side data layer of a small agent "mission
control" dashboard. The data layer turns a directory of loosely-shaped JSON
task files, an optional agent status overlay, an optional feed-items file and
a settings file into the values the dashboard's data endpoint returns:

- the normalised task list (newest first);
- the agent roster with working/idle status;
- a bounded activity feed;
- status counters;
- token-usage statistics per agent, per model and per day;
- the coerced dashboard settings.

It also models the endpoint's per-client sliding-window rate limiter and the
way it derives the client key from the `x-forwarded-for` header.

Modules, by source file:

| module | models |
|---|---|
| `Json` | parsed JSON values and the JavaScript semantics applied to them: property access, truthiness, `??`, `String(v)`, `Number(v)` |
| `Text` | the string built-ins the code relies on: ASCII case mapping, `trim`, `startsWith`/`endsWith`, `replace`, `split(',')[0]`, decimal digits, code-unit order |
| `Normalize` | `mapStatus`, `mapPriority`, `parseDate`, `extractAssignee`, `extractTags`, `parseUsage` and the task record of `loadTasks` (src/lib/data.ts) |
| `Loader` | `loadTasks`: the `.json` filter, the path-traversal and size guards, the skipping of unreadable files, the newest-first sort |
| `Roster` | `sanitizeColor`, `AGENTS`, `getAgents` |
| `Feed` | `generateFeed` and `capitalize` |
| `Stats` | `getStats` |
| `Buckets`, `TokenStats`, `Calendar`, `Sorting` | `getTokenStats`: the `Record<string, {input, output}>` dictionaries, the ISO day key of a time value, and the sort of `dailyTokens` |
| `Settings` | `loadSettings` (src/lib/settings.ts) with its five-second cache |
| `RateLimit` | `isRateLimited` and the client-key expression of src/app/api/data/route.ts |

The world outside the code enters as parameters:

- the clock, `new Date(v).getTime()` on any value and `Number(v)` on strings or objects, as a `Json.Runtime` value;
- the task directory, as a `Loader.TaskDir` of entries with resolved path, size and parsed content;
- the overlay and feed-items files, as `Option` values: None when the file is missing or does not parse;
- the settings file, as a `Settings.SettingsFile`.

Module-level mutable state is modelled as classes with `modifies` clauses:

- `Settings.SettingsCache` holds `_cached` and `_cachedAt`;
- `RateLimit.RateLimiter` holds the `rateLimit` map.

The loops of `parseUsage`, `loadTasks`, `generateFeed` and `getTokenStats` are
methods with loop invariants. Each is proved against a specification
function, and the properties are proved about that function.

## Model

| member | source | states |
|---|---|---|
| `Text.Lower` | src/lib/data.ts:96 | `toLowerCase` keeps the length and lower-cases every character |
| `Text.LowerIdempotent` | src/lib/data.ts:96 | lower-casing twice gives what lower-casing once gives |
| `Text.TrimStart` | src/app/api/data/route.ts:34 | drops exactly the leading run of ECMAScript white space; the result does not start with a space |
| `Text.TrimEnd` | src/app/api/data/route.ts:34 | drops exactly the trailing run of ECMAScript white space; the result does not end with a space |
| `Text.FirstSegment` | src/app/api/data/route.ts:34 | `split(',')[0]` is the longest prefix without the separator, ended by the separator or by the end of the string |
| `Text.IndexOfFrom` | src/lib/data.ts:196 | the search behind `replace('.json', '')` finds the first occurrence at or after the start, and None only when there is none |
| `Text.NatToString` | src/lib/data.ts:282 | the decimal rendering is non-empty, made of digits, with no leading zero |
| `Text.NatToStringValue` | src/lib/data.ts:282 | the digits read back as the number |
| `Text.NatToStringInjective` | src/lib/data.ts:282 | two different counts never render alike |
| `Text.DigitsValueOf` | src/lib/data.ts:337 | a zero-padded field of fixed width reads back as its number |
| `Text.LexLeTotal` | src/lib/data.ts:337 | code-unit order, which the day-key lemmas use, relates any two strings |
| `Text.LexLeTransitive` | src/lib/data.ts:337 | code-unit order is transitive |
| `Text.LexLeAntisymmetric` | src/lib/data.ts:337 | two strings in both code-unit orders are equal |
| `Text.DigitsOrder` | src/lib/data.ts:337 | zero-padded numbers of one width compare as strings the way they compare as numbers |
| `Text.LexAppend` | src/lib/data.ts:337 | strings of equal length extended by one character compare by prefix first, then by that character |
| `Text.LexConcat` | src/lib/data.ts:337 | concatenations with equal-length heads compare by head first, then by tail |
| `Text.CollateLeTotal` | src/lib/data.ts:355 | the `localeCompare` order used to sort the days relates any two strings |
| `Text.CollateLeTransitive` | src/lib/data.ts:355 | the `localeCompare` order is transitive |
| `Text.CollateIsLexOnDigitsAndDashes` | src/lib/data.ts:355 | on strings of digits and dashes, `localeCompare` and code-unit order agree, both ways |
| `Text.MinusBeforePlus` | src/lib/data.ts:355 | for any two strings starting with `-` and `+` (such as the keys `-000001-01` and `+010000-01` of extended years), `localeCompare` puts the `-` one strictly first, and code-unit order the `+` one |
| `Normalize.MapStatus` | src/lib/data.ts:95-103 | an absent or null status is `inbox`; a value that is neither a string nor nullish throws (None) and nothing else does |
| `Normalize.MapStatusSynonyms` | src/lib/data.ts:97-102 | each canonical status is produced exactly by its synonym list, after lower-casing; any other string is `inbox` |
| `Normalize.SynonymTablesDisjoint` | src/lib/data.ts:97-101 | no word is a synonym of two statuses, so the order of the tests does not matter |
| `Normalize.MapStatusIgnoresCase` | src/lib/data.ts:96 | the status of a string equals the status of its lower-cased form |
| `Normalize.MapPriority` | src/lib/data.ts:106-111 | an absent or null priority is normal (2); a non-string non-nullish value throws (None) and nothing else does |
| `Normalize.MapPriorityLevels` | src/lib/data.ts:108-110 | 0 exactly for urgent/p0/critical, 1 exactly for high/p1, 2 for every other string |
| `Normalize.UpperCaseSynonyms` | src/lib/data.ts:96-108 | `APPROVED` is done and `P0` is urgent |
| `Normalize.FirstDeliverableAssignee` | src/lib/data.ts:127-130 | the assignee of the first deliverable when the list is a non-empty array, nothing when it is falsy |
| `Normalize.ExtractAssignee` | src/lib/data.ts:121-134 | `claimed_by` wins when truthy, then `assignee`, then the first deliverable's assignee, each converted with `String` |
| `Normalize.AssigneeFromDeliverables` | src/lib/data.ts:126-133 | with neither direct field set, the first deliverable decides: its truthy assignee, or no assignee |
| `Normalize.ExtractTags` | src/lib/data.ts:137-141 | an array of tags is converted element by element with `String`; otherwise a truthy `type` is the only tag; otherwise none |
| `Normalize.UsageOf` | src/lib/data.ts:144-164 | a non-array gives no usage; an array gives its surviving records, or no usage (never `[]`) when none survive |
| `Normalize.KeptUsageAppend` | src/lib/data.ts:147-162 | the filter distributes over concatenation, so survivors keep their input order |
| `Normalize.KeptUsageMembers` | src/lib/data.ts:147-162 | a record survives exactly when it decodes an object-like element with a non-zero count |
| `Normalize.KeptUsageNonZero` | src/lib/data.ts:152 | no surviving record has both counts zero |
| `Normalize.ParseUsage` | src/lib/data.ts:144-164 | the pushing loop computes the filtered value; any result is non-empty and has no all-zero record |
| `Normalize.Normalise` | src/lib/data.ts:192-206 | a file is dropped exactly when it is null or its status or priority throws; otherwise every field is its documented fallback: id, title, description, status, priority, assignee, tags and usage, `createdAt` the first truthy of `created_at`, `created` and `updatedAt` the first truthy of `completed_at`, `completed`, `updated_at`, each parsed, or the current instant when none is truthy or it does not parse |
| `Normalize.TaskDates` | src/lib/data.ts:114-118 | the `\|\|` chains of lines 203-204 followed by `parseDate` pick the first truthy date field, parsed, or the current instant |
| `Normalize.ExampleRecord` | src/lib/data.ts:192-206 | a done/urgent record normalises to status done, priority 0, title Untitled, its two dates, no assignee, no tags and no usage |
| `Normalize.ExamplePresent` | src/lib/data.ts:196-204 | in that record, the id, the creation date and the completion date are read from their first-choice fields |
| `Normalize.ExampleAbsent` | src/lib/data.ts:197-202 | that record has no title, no description, no assignee, no tags and no usage |
| `Normalize.DoneUrgent` | src/lib/data.ts:97-108 | `done` maps to done and `urgent` to priority 0 |
| `Loader.JsonEntries` | src/lib/data.ts:174 | the listing keeps exactly the names ending in `.json` |
| `Loader.Accept` | src/lib/data.ts:178-209 | a file yields a task only when it is inside the directory, within the size limit and parsed, and then it yields its normalised record |
| `Loader.AcceptedSound` | src/lib/data.ts:177-210 | every accepted task comes from a file that passed every guard |
| `Loader.AcceptedComplete` | src/lib/data.ts:177-210 | every file that passes the guards and normalises contributes its task |
| `Loader.LoadTasks` | src/lib/data.ts:167-216 | a missing directory loads nothing; the result is a newest-first permutation of the accepted tasks, each traced to its file |
| `Loader.AcceptAll` | src/lib/data.ts:177-210 | the loop over the listed files pushes exactly the accepted tasks, in listing order |
| `Loader.AcceptFile` | src/lib/data.ts:178-209 | one iteration yields the file's task exactly as the acceptance rule says |
| `Loader.SortNewestFirst` | src/lib/data.ts:213 | the sort leaves the tasks newest first and is a permutation |
| `Loader.LoadedTraced` | src/lib/data.ts:174-206 | any ordering of the loaded tasks traces each task back to a listed `.json` file that passed every guard |
| `Loader.MissingDirectory` | src/lib/data.ts:168-171 | a missing directory loads nothing |
| `Loader.RejectedNeverLoaded` | src/lib/data.ts:180-192 | a file outside the directory, above 1 MiB or unreadable is never loaded |
| `Loader.LoadedComplete` | src/lib/data.ts:174-206 | every listed `.json` file that passes the guards and normalises is loaded |
| `Roster.SanitizeColor` | src/lib/data.ts:64-66 | the result is always a six-digit hex colour; it is the input exactly when the input is one; otherwise it is gray |
| `Roster.DefaultAgentsShape` | src/lib/data.ts:69-76 | the default roster has six idle agents with distinct ids and valid colours |
| `Roster.GetAgents` | src/lib/data.ts:79-92 | the defaults when the overlay is missing, unparseable or null; otherwise the defaults with exactly the agents marked `working` working |
| `Roster.WorkingCount` | src/lib/data.ts:277 | the working count is the number of positions of the roster holding a working agent |
| `Roster.SparkWorking` | src/lib/data.ts:84-88 | the overlay `{"spark": "working"}` makes Spark the only working agent |
| `Feed.Capitalize` | src/lib/data.ts:292-294 | same length, first character upper-cased, rest unchanged |
| `Feed.TaskItem` | src/lib/data.ts:225-252 | a task yields an item exactly when it is done with an update time, in progress, or in review |
| `Feed.EventItem` | src/lib/data.ts:262-270 | an event becomes an info item with its id; it is a decision exactly when its type is `memory` |
| `Feed.CollectItems` | src/lib/data.ts:224-273 | the two pushing loops give the items of the first twenty tasks followed by those of the first ten events |
| `Feed.TakeNewest` | src/lib/data.ts:287-289 | sort-then-slice returns the n newest items, newest first |
| `Feed.PrefixIsNewest` | src/lib/data.ts:287-289 | the head of a newest-first permutation holds the newest items |
| `Feed.GenerateFeed` | src/lib/data.ts:219-290 | at most fifteen items: the newest of the status item, the task items and the event items, newest first |
| `Feed.TaskItemsFrom` | src/lib/data.ts:224-253 | every task item comes from one of the tasks |
| `Feed.EventItemsFrom` | src/lib/data.ts:262-271 | every event item comes from one of the events |
| `Feed.CandidatesFrom` | src/lib/data.ts:224-284 | the feed draws only on the status item, the first twenty tasks and the first ten events |
| `Feed.StatusAlwaysCandidate` | src/lib/data.ts:278-284 | the status item is always a candidate |
| `Feed.NothingCutWhenFits` | src/lib/data.ts:289 | when there are at most fifteen candidates, the feed holds all of them |
| `Feed.NewestLeads` | src/lib/data.ts:287-289 | a candidate strictly newer than all others comes first |
| `Feed.StatusWording` | src/lib/data.ts:282 | the status title says `project` (singular) exactly when one agent works |
| `Stats.GetStats` | src/lib/data.ts:297-307 | the total is the number of tasks, and each status counter is the number of positions holding that status |
| `Stats.CountsAddUp` | src/lib/data.ts:299-305 | the six status counts add up to the total |
| `Stats.CountStatusAppend` | src/lib/data.ts:300-305 | counting is additive over concatenation |
| `Stats.CountStatusIsMultiplicity` | src/lib/data.ts:300-305 | a count is the number of positions holding that status |
| `Buckets.Ensure` | src/lib/data.ts:322 | creating a bucket only appends |
| `Buckets.EnsureFacts` | src/lib/data.ts:322 | after creation the key has a bucket, no other key gained one, unique keys stay unique, the sums are unchanged |
| `Buckets.Credit` | src/lib/data.ts:328-329 | crediting keeps length and keys and touches only the bucket of its key |
| `Buckets.CreditFacts` | src/lib/data.ts:328-329 | crediting a key listed once adds exactly the amounts to the sums |
| `Buckets.AddFacts` | src/lib/data.ts:332-334 | create-then-credit gives the key a bucket, keeps keys unique and adds exactly the amounts |
| `Buckets.SumsPermutation` | src/lib/data.ts:354-356 | reordering buckets keeps their sums |
| `Buckets.PermutationKeepsUniqueKeys` | src/lib/data.ts:354-356 | reordering keeps keys unique |
| `TokenStats.WithUsage` | src/lib/data.ts:311 | the filter keeps exactly the tasks with non-empty usage |
| `TokenStats.OrUnknown` | src/lib/data.ts:321 | `s \|\| 'unknown'` is never empty and keeps a non-empty string |
| `TokenStats.GetTokenStats` | src/lib/data.ts:310-358 | null exactly when no task has usage; failure exactly when a day key throws; otherwise the totals, the per-agent and per-model tallies, the per-day tally as a permutation, with days strictly ascending, and each of the three breakdowns adding up to the totals with no key twice |
| `TokenStats.Aggregate` | src/lib/data.ts:314-357 | the same for any day-key function, including that the breakdowns balance |
| `TokenStats.TallyTasks` | src/lib/data.ts:320-343 | the outer loop succeeds exactly when the day tally does, and then holds every specified tally |
| `TokenStats.AddTask` | src/lib/data.ts:320-343 | one outer iteration keeps the loop invariant or shows that the day tally fails |
| `TokenStats.AddUsage` | src/lib/data.ts:324-342 | one inner iteration keeps the loop invariant or shows that the task's day fold fails |
| `TokenStats.FoldsStep` | src/lib/data.ts:324-342 | each fold over one more usage entry is the previous fold plus that entry |
| `TokenStats.ModelTallyConserves` | src/lib/data.ts:331-334 | the per-model tally has unique keys and sums to the totals |
| `TokenStats.AgentTallyConserves` | src/lib/data.ts:321-329 | the per-agent tally has unique keys and sums to the totals |
| `TokenStats.CreditAllConserves` | src/lib/data.ts:328-329 | crediting all of a task's entries to its agent adds its usage to the sums |
| `TokenStats.DayFoldConserves` | src/lib/data.ts:336-341 | a successful day fold keeps keys unique and adds the usage to the sums |
| `TokenStats.DayTallyConserves` | src/lib/data.ts:336-341 | a successful day tally has unique keys and sums to the totals |
| `TokenStats.SortDays` | src/lib/data.ts:354-356 | the sorted days are a permutation and, keys being unique, strictly ascending in `localeCompare` order |
| `TokenStats.KeyLeIsPreorder` | src/lib/data.ts:355 | the key comparison is total and transitive |
| `TokenStats.DayKeysCollateByDay` | src/lib/data.ts:355 | in years 0..9999, `localeCompare` orders day keys exactly as the days they name |
| `Calendar.FourDigitKeyChars` | src/lib/data.ts:337 | a key in years 0..9999 consists of digits and dashes |
| `TokenStats.DayTallyStopped` | src/lib/data.ts:336-338 | once a day key throws, the whole tally fails |
| `TokenStats.DayFoldStopped` | src/lib/data.ts:336-338 | once a day key throws, the task's fold fails |
| `TokenStats.EnsureAsWritten` | src/lib/data.ts:322 | the bucket test as written skips the inherited object member names |
| `TokenStats.AgentTallyAsWrittenAgrees` | src/lib/data.ts:320-329 | without inherited names among the agents, the as-written tally is the intended one |
| `TokenStats.ConstructorAgentLosesTokens` | src/lib/data.ts:321-329 | an agent named `constructor` keeps its tokens in the totals but gets no bucket as written |
| `Calendar.DayFromYearNext` | src/lib/data.ts:337 | consecutive years start one year length apart |
| `Calendar.YearFromDay` | src/lib/data.ts:337 | a day falls inside the year computed for it |
| `Calendar.YearsEqual` | src/lib/data.ts:337 | that year is unique |
| `Calendar.CivilFromDays` | src/lib/data.ts:337 | the date of a day number has the right year, a month in 1..12 and the day within that month |
| `Calendar.CivilIncreasing` | src/lib/data.ts:337 | later days have later dates |
| `Calendar.DayKey` | src/lib/data.ts:336-338 | the key is absent (RangeError) exactly outside the ECMAScript time range, and otherwise ten characters |
| `Calendar.KeyOfDayOrder` | src/lib/data.ts:337 | for four-digit years, later days have strictly greater keys |
| `Calendar.DayKeyOrder` | src/lib/data.ts:336-338 | in years 0..9999, keys compare in code-unit order as the days of their instants, and are equal exactly on the same day |
| `Calendar.EpochKey` | src/lib/data.ts:337 | instant 0 has key `1970-01-01` |
| `Calendar.EveOfEpochKey` | src/lib/data.ts:337 | instant -1 has key `1969-12-31` |
| `Sorting.SortBy` | src/lib/data.ts:213 | the array ends ordered by the comparison and is a permutation of what it held |
| `Settings.StringOr` | src/lib/settings.ts:97-100 | a string value is kept, anything else gives the default |
| `Settings.RepoUrlOf` | src/lib/settings.ts:99 | a URL exactly when the value is a string |
| `Settings.ThemeOf` | src/lib/settings.ts:101 | light exactly when the value is `"light"` |
| `Settings.DensityOf` | src/lib/settings.ts:107 | compact exactly when the value is `"compact"` |
| `Settings.ShownUnlessFalse` | src/lib/settings.ts:108-109 | a panel is hidden exactly when the value is `false` |
| `Settings.RefreshOf` | src/lib/settings.ts:110 | at least five seconds; a number of at least 5000 is kept, anything else gives 30000 |
| `Settings.TimeDisplayOf` | src/lib/settings.ts:111 | local exactly when the value is `"local"` |
| `Settings.AgentsOf` | src/lib/settings.ts:112 | a custom roster exactly when the value is an array |
| `Settings.Accent` | src/lib/settings.ts:102 | the accent is always a preset name; a preset name is kept; any other value gives `green` |
| `Settings.AccentAsWritten` | src/lib/settings.ts:102 | the check as written returns its input or `green`, and its input only when truthy |
| `Settings.ForeignAccents` | src/lib/settings.ts:102 | `"toString"` and `["blue"]` pass the check as written; the intended check gives `green` |
| `Settings.FromFields` | src/lib/settings.ts:96-113 | every coerced settings object has a preset accent and an interval of at least 5000 |
| `Settings.Read` | src/lib/settings.ts:86-120 | the defaults when the file is missing, unparseable or null; the coerced document otherwise; always well-formed |
| `Settings.ReadEncode` | src/lib/settings.ts:94-115 | well-formed settings written to the file load back unchanged |
| `Settings.ReadIdempotent` | src/lib/settings.ts:94-115 | loading what a load produced gives it again |
| `Settings.EmptyObjectIsDefaults` | src/lib/settings.ts:58-75 | an empty settings object loads as the defaults |
| `Settings.SettingsCache.constructor` | src/lib/settings.ts:78-79 | the cache starts empty at time 0 |
| `Settings.SettingsCache.Load` | src/lib/settings.ts:82-121 | a value younger than five seconds is served unchanged; otherwise the file is read again and the read time stored; the cache always holds well-formed settings |
| `RateLimit.Recent` | src/app/api/data/route.ts:18 | the window keeps exactly the times later than a minute ago |
| `RateLimit.RecentAppend` | src/app/api/data/route.ts:18 | the window filter keeps order |
| `RateLimit.RecentOfAscendingIsSuffix` | src/app/api/data/route.ts:18 | on ascending times the window is a suffix: only the oldest are dropped |
| `RateLimit.WindowStaysAscending` | src/app/api/data/route.ts:18-19 | requests arriving in time order stay in time order |
| `RateLimit.RateLimiter.constructor` | src/app/api/data/route.ts:11 | the table starts empty |
| `RateLimit.RateLimiter.IsRateLimited` | src/app/api/data/route.ts:15-22 | the key's times become its recent times plus now, other keys are unchanged, and the request is refused exactly when more than 60 remain |
| `RateLimit.LimitedMeansBusy` | src/app/api/data/route.ts:18-21 | a refusal means at least 60 earlier requests inside the window |
| `RateLimit.ClientKey` | src/app/api/data/route.ts:34 | `unknown` when the header is absent or its first address is blank; otherwise the first address, trimmed; so never empty, without comma and without space at either end |
| `RateLimit.TrimInside` | src/app/api/data/route.ts:34 | trimming keeps only characters of the input and leaves no space at either end |
| `RateLimit.FirstForwardedAddress` | src/app/api/data/route.ts:34 | the key of the chain `a,rest` is `a` |

## Left out

- The filesystem, `JSON.parse`, `Date.now()` and `console` logging are not modelled. The directory, the files and the clock are parameters.
- One `Json.Runtime.now` stands for every `Date.now()` call. The source reads the clock separately in each `parseDate` fallback (src/lib/data.ts:115, 117) and in `generateFeed` (src/lib/data.ts:221). So a task with no dates has `createdAt == updatedAt` exactly in the model, which the source does not promise.
- `new Date(v).getTime()` for every JSON value, and `Number(v)` for strings, arrays and objects, are functions of the `Json.Runtime` parameter. The model does not reproduce them; in particular it does not pin that a number `n` gives `n` itself within ±8.64e15 and NaN beyond.
- JSON numbers are integers. Fractions, NaN, Infinity and the exponent notation `String` uses from 1e21 on are not modelled.
- Token counts are integers. A count for which `Number` gives NaN passes the zero test of src/lib/data.ts:152 and is kept; the model cannot express that value.
- `String(v)` of an object is `[object Object]`. An object whose own `toString` would be called, or would throw, is not modelled.
- Dictionaries are insertion-ordered lists. `Object.entries` lists integer-like keys first in ascending order; that is not modelled.
- `localeCompare` is modelled by its primary root-collation weights for digits, `-` and `+`, the characters of day keys. Other characters keep their code-unit order, which the collation does not follow; no day key contains them.
- Case mapping (`toLowerCase`, `toUpperCase`) covers ASCII letters only.
- Feed.TakeNewest: items with equal timestamps may appear in any order. The source's stable sort keeps their push order.
- Loader.LoadTasks: tasks with equal `createdAt` may appear in any order. The source's stable sort keeps their listing order.
- Feed.EventItem: an event whose timestamp does not parse is dropped. The source keeps it with a NaN timestamp, whose place in the sort is unspecified.
- The feed-items file enters the model already decoded as a list of events, or as missing. Decoding it is not modelled, and a file that is not an array of event objects is treated as missing. The source differs (src/lib/data.ts:262-271): a null element among the first ten throws at `item.id`, and the items pushed before it are kept; a number, string or boolean element pushes an item with undefined fields and a NaN timestamp; a JSON string is iterated character by character over its first ten, pushing such items; any other non-array throws at `slice` and adds nothing.
- Writes through the keys `__proto__` or `constructor` into `Object.prototype` are not modelled beyond the loss of tokens shown under Findings.
- TokenStats.GetTokenStats: computes the corrected per-agent dictionary of the first Findings row. For an agent named after an inherited object member (`constructor`, `toString`, …) the source's `tokensByAgent` lacks that agent, and its breakdown then does not add up to the totals.
- TokenStats.Aggregate: the same corrected per-agent dictionary as TokenStats.GetTokenStats, with the same difference from the source for inherited member names.
- Settings.FromFields: applies the corrected accent check of the second Findings row. The source keeps an inherited member name (`"toString"`) or a value that `in` converts to a preset name (`["blue"]`) as the accent, so its result need not have a preset accent.
- Settings.Read: returns the settings of Settings.FromFields, so its "always well-formed" holds for the corrected accent check only, not for the source's.
- Settings.SettingsCache.Load: caches the settings of Settings.Read, so "the cache always holds well-formed settings" holds for the corrected accent check only.
- TokenStats.ModelTally: models the intended per-model dictionary. A model named after an inherited object member (line 332) loses its tokens the same way the agent does in the first Findings row. Only the agent case is modelled as written.
- `getDashboardConfig`, `getClientSettings`, the HTTP handling and API-key check of `GET`, the React components and `useSwarmData` are outside this model. They only copy or display the values modelled here.
- `updatedAt` is always a number, because `parseDate` falls back to `Date.now()` (src/lib/data.ts:114-118).
- A done task without an assignee is credited to `Someone` in its feed title (src/lib/data.ts:230).
- TokenStats.Aggregate takes the day-key function as a parameter. TokenStats.GetTokenStats fixes it to the ECMAScript `toISOString().slice(0, 10)` of Calendar.DayKey.

## Findings

| source | as written | input that shows it | evidently intended | confidence | as-written member | corrected member |
|---|---|---|---|---|---|---|
| src/lib/data.ts:322 | `if (!byAgent[agentId])` also sees the members every object inherits. For an agent named `constructor` no bucket is created, and lines 328-329 add to a property of `Object` instead. | a task assigned to `constructor` with one usage entry of 5 input tokens: `totalInputTokens` is 5 but `tokensByAgent` is empty | every agent gets its own bucket, and the per-agent buckets add up to the totals | medium; not executed | `TokenStats.AgentTallyAsWritten`, shown by `TokenStats.ConstructorAgentLosesTokens` | `TokenStats.AgentTally`, proved by `TokenStats.AgentTallyConserves` |
| src/lib/settings.ts:102 | `raw.accentColor in ACCENT_PRESETS` converts the value to a key with `String` and also finds inherited names | `"accentColor": "toString"` or `"accentColor": ["blue"]` is kept as the accent | only one of the eight preset names is kept; anything else becomes `green` | high; not executed | `Settings.AccentAsWritten`, shown by `Settings.ForeignAccents` | `Settings.Accent` |
