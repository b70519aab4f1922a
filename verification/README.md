# Growth OS core, modelled in Dafny

Growth OS is a small marketing dashboard. It has three parts:

- **Content handlers.** Three HTTP handlers (`content-get`, `content-create`, `content-update`) read and write documents in the `ContentMachine` container of the `XigusaGrowthOS` document database.
- **Task bridge.** Two handlers (`graph-tasks`, `graph-create-task`) forward a bearer token to an external task API.
- **Aggregating views.** Two pages summarise record lists: the Technical Tracker and the Outreach Pipeline.

This project models these parts as pure Dafny functions and proves properties about them. It also models the record shapes and enumerations of the shared configuration.

Modules:

- `Options` — an `Option` type usable with `:-`.
- `Json` — JSON values, documents (`map<string, Json>`) and JavaScript's object spread `{...v}`. It also defines decimal rendering and parsing of naturals, used for `content-<millis>` ids and for the index keys an array or string spreads to.
- `Http` — a response is a status and a body. The error body is `{error: msg}`.
- `Records` — the configuration module:
  - the database id;
  - the container table;
  - the four enumerations, with their exact spellings;
  - the five record shapes.

  Each record shape has an encoding to a document and a decoding back.
- `Content` — the three content handlers over a store `map<string, Doc>`:
  - The clock is a stream of millisecond readings.
  - ISO formatting is a parameter `iso: nat -> string`.
  - A store fault is a flag `available`.
  - An unparsable body is `None`.
- `Graph` — the token extraction `header?.replace('Bearer ', '')` and the falsy-token guard. The upstream task API is a function parameter. Every call made to it is recorded.
- `Lists` — `filter`, `map`, order-preserving subsequences, and distinct values in order of first occurrence.
- `Percent` — `Math.round(part / total * 100)` in exact arithmetic.
- `TechnicalTracker` — the page's three calculations:
  - the group-by-component-type reduce, with `Object.entries` order;
  - the three status counts;
  - the completion rate.
- `OutreachPipeline` — the page's board and stat tiles:
  - the five status columns;
  - the column counts and the "No items" marker;
  - the four stat tiles.

Behaviours of the code worth stating up front, all of which the model reproduces:

- **Timestamps on create.** The code reads the clock twice (`api/content.js:45-46`), so `createdAt` and `updatedAt` can differ (`Content.CreateTimestampsMayDiffer`); they are equal exactly when the clock did not move between the reads (`Content.CreateTimestampsEqualIff`). With a clock that never goes backwards, the readings are ordered (`Content.CreateTimestampsOrdered`).
- **Fields overwritten on update.** The code spreads the body over the stored document, so a body holding `id` or `createdAt` overwrites them. Only `updatedAt` is forced (`Content.ContentUpdate`, `Content.MergeDoc`).
- **`updatedAt` on update.** The code takes a fresh clock reading; two writes in the same millisecond give the same value. The model makes no ordering claim beyond the reading used.
- **Update of a missing id.** Reading a missing id yields `undefined`, which spreads to nothing, and the replace that follows fails. The handler then answers 500 `Failed to update content`.
- **Id collision on create.** The code does not retry with a new id: the create fails, and the handler answers 500 `Failed to create content`.

## Model

| member | source | states |
|---|---|---|
| Json.Decimal | api/content.js:44 | the `${Date.now()}` rendering is a canonical digit string with no leading zero, one digit exactly for readings below ten |
| Json.ParseDecimalOfDecimal | api/content.js:44 | parsing a rendered reading gives the reading back |
| Json.DecimalInjective | api/content.js:44 | different readings render to different strings |
| Json.DecimalOfParseDecimal | api/content.js:44 | every canonical digit string is the rendering of the number it denotes |
| Json.ParseDecimal | api/content.js:44 | a string parses as a number exactly when it is non-empty and all digits |
| Json.SpreadIndexed | api/content.js:43 | spreading an array or a string contributes the keys "0".."n-1", bound to the elements or to the one-character strings |
| Http.ErrorResponse | api/content.js:26-29 | a failure answer carries the given status and the body `{error: msg}`: its only field is `error`, holding the fixed message |
| Records.ContainerNamesDistinct | src/config/cosmosConfig.ts:10-16 | the five kinds map to five distinct container names, and a container name identifies its kind |
| Records.ContentStatusDomain | src/config/cosmosConfig.ts:21 | content status has exactly six values, whose spellings parse back to them and to nothing else |
| Records.TechnicalStatusDomain | src/config/cosmosConfig.ts:35 | technical status has exactly three values, with inverse spelling and parsing |
| Records.ComponentTypeDomain | src/config/cosmosConfig.ts:36 | component type has exactly four values, with inverse spelling and parsing |
| Records.OutreachStatusDomain | src/config/cosmosConfig.ts:49 | outreach status has exactly five values ("Follow-up" hyphenated), with inverse spelling and parsing |
| Records.TimestampFields | src/config/cosmosConfig.ts:18-77 | every stored record has `id` and `createdAt`; it has `updatedAt` exactly for content, technical and outreach records |
| Records.ContentRoundTrip | src/config/cosmosConfig.ts:18-30 | decoding the document of a content item gives the item back, optional fields included |
| Records.TechnicalRoundTrip | src/config/cosmosConfig.ts:32-41 | decoding the document of a technical item gives the item back |
| Records.OutreachRoundTrip | src/config/cosmosConfig.ts:43-54 | decoding the document of an outreach item, with its required `backlinkAcquired` boolean, gives the item back |
| Records.MetricsRoundTrip | src/config/cosmosConfig.ts:56-66 | decoding the document of a metrics item gives the item back |
| Records.MomentumRoundTrip | src/config/cosmosConfig.ts:68-77 | decoding the document of a momentum item gives the item back |
| Records.RecordRoundTrip | src/config/cosmosConfig.ts:18-77 | decoding any record's document as its own kind gives the record back |
| Records.DecodeSound | src/config/cosmosConfig.ts:18-77 | a document that decodes yields a record of the requested kind whose own document is contained in the input, so decoding drops only unnamed fields |
| Records.ContentDocStamp | api/content.js:42-47 | writing a new id and timestamps over a content item's document gives the document of the item with those three fields replaced |
| Records.ContentDocRestatus | api/content.js:77-81 | writing a status and `updatedAt` over a content item's document gives the document of the item with that status and time |
| Content.BackendMatchesConfig | api/content.js:9-16 | the handlers' database and container names are the configuration's `databaseId` and content container |
| Content.ContentIdRoundTrip | api/content.js:44 | a generated id `content-<millis>` names its reading exactly, so ids of different readings differ |
| Content.IdReading | api/content.js:44 | only strings starting with `content-` carry a reading |
| Content.NewDoc | api/content.js:42-47 | the created document has the body's keys plus `id`, `createdAt`, `updatedAt`; other body fields are unchanged; the three system fields hold the server's values |
| Content.NewDocIgnoresCallerSystemFields | api/content.js:42-47 | caller-supplied `id`, `createdAt` and `updatedAt` never reach the created document: bodies that agree elsewhere create the same document |
| Content.MergeDoc | api/content.js:77-81 | the merged document has the existing keys, the body keys and `updatedAt`; body fields win, including `id` and `createdAt`; fields absent from the body keep their value; `updatedAt` is the new time |
| Content.MergeIdempotent | api/content.js:77-81 | merging the same body twice equals merging it once at the later time |
| Content.ContentGet | api/content.js:11-32 | with the store reachable, 200 with an array of exactly the store's documents, each once, so an empty store gives `[]`; otherwise 500 `Failed to fetch content` |
| Content.ContentCreate | api/content.js:34-64 | 201 exactly when the body parses, the store is reachable and the new id is free; the store then gains only that id, bound to the returned document, whose `createdAt` and `updatedAt` come from the second and third clock reads; any failure is 500 `Failed to create content` with the store unchanged |
| Content.CreateTimestampsOrdered | api/content.js:44-46 | with a clock that never goes backwards, a successful create's id reading is no later than its `createdAt` reading, which is no later than its `updatedAt` reading |
| Content.CreateTimestampsEqualIff | api/content.js:45-46 | with a formatter that tells readings apart, a created document's `createdAt` equals its `updatedAt` exactly when the second and third clock reads agree |
| Content.CreateTimestampsMayDiffer | api/content.js:45-46 | a clock that advances between the two reads gives `createdAt` different from `updatedAt` |
| Content.NewDocOfScalar | api/content.js:43-47 | a `null`, boolean or numeric body spreads to nothing, so the created document holds only `id`, `createdAt` and `updatedAt` |
| Content.NewDocOfObject | api/content.js:42-47 | for an object body the created document is the body with the three system fields written over it |
| Content.CreateStoresNewDoc | api/content.js:42-49 | a successful create stores, under the new id, the document built from the body and the three clock reads |
| Content.StampedDocDecodes | api/content.js:42-47 | the document built from a content item's document decodes to that item with the server's id and timestamps |
| Content.CreateStoresRecord | api/content.js:42-49 | posting a content item's document stores the same item with the server's id and timestamps in place of its own |
| Content.ContentUpdate | api/content.js:66-98 | 200 exactly when the body parses, the store is reachable and the id is stored; then only that document changes, to the merge of the stored document and the body; any failure is 500 `Failed to update content` with the store unchanged |
| Content.UpdateIdempotent | api/content.js:76-83 | repeating a successful update with the same body succeeds and changes nothing but `updatedAt` |
| Content.UpdateRestatusesRecord | api/content.js:76-83 | updating a stored content item with `{status}` alone gives the same item with the new status and a new `updatedAt` |
| Graph.IndexOf | api/graph.js:24 | finds the leftmost occurrence of the pattern at or after a position, or reports that there is none |
| Graph.TokenWithoutBearer | api/graph.js:24 | a header without `Bearer ` in it becomes the token unchanged |
| Graph.FirstOccurrenceAfter | api/graph.js:24 | after a prefix free of `Bearer `, the first occurrence starts right after the prefix and cannot straddle it |
| Graph.TokenStripsFirstOccurrence | api/graph.js:24 | only the first `Bearer ` is removed, wherever it sits; text before and after it, later `Bearer `s included, is kept |
| Graph.TokenOfBearerHeader | api/graph.js:52 | `Bearer <t>` yields `<t>` |
| Graph.TokenFalsyExactly | api/graph.js:24-27 | the token is falsy exactly for a missing header, an empty header, or a header that is `Bearer ` and nothing more |
| Graph.GraphTasks | api/graph.js:19-45 | 401 `No access token provided` exactly when the token is falsy, with no upstream call; otherwise one GET of `/me/planner/tasks` with the token; 200 exactly when the upstream answers a non-null value, with its `value` field as body; every other outcome is 500 `Failed to fetch tasks` |
| Graph.GraphCreateTask | api/graph.js:47-75 | 401 exactly when the token is falsy, with no call; an unparsable body then gives 500 with no call; otherwise one POST of the body to `/planner/tasks`; 201 with the upstream's answer exactly when it does not throw, else 500 `Failed to create task` |
| Lists.Filter | src/pages/OutreachPipeline.tsx:62 | `filter` keeps only satisfying elements, taken from the input |
| Lists.FilterMultiset | src/pages/OutreachPipeline.tsx:62 | `filter` keeps every satisfying occurrence and no other |
| Lists.FilterIsSubseq | src/pages/OutreachPipeline.tsx:62 | `filter` preserves relative order |
| Lists.FilterLengthCountsIndices | src/pages/TechnicalTracker.tsx:77 | a filtered length counts the positions satisfying the predicate |
| Lists.FirstOccurrences | src/pages/TechnicalTracker.tsx:96 | lists each value of the input exactly once |
| Lists.FirstOccurrencesOrdered | src/pages/TechnicalTracker.tsx:96 | values are listed in the order of their first occurrence |
| Percent.RoundPercent | src/pages/TechnicalTracker.tsx:46-48 | undefined (NaN) exactly for an empty list; otherwise the integer within half a point of the exact percentage, halves rounded up |
| Percent.RoundPercentNearest | src/pages/TechnicalTracker.tsx:46-48 | the integer nearest the exact percentage (halves up) is the rounded value, so the rounding is unique |
| Percent.RoundPercentBounded | src/pages/OutreachPipeline.tsx:84-86 | a share of a non-empty list rounds to at most 100 |
| Percent.RoundPercentExtremes | src/pages/TechnicalTracker.tsx:46-48 | none of n rounds to 0 and all of n to 100 |
| Percent.RoundPercentMonotone | src/pages/OutreachPipeline.tsx:84-86 | a larger share never rounds lower |
| TechnicalTracker.GroupOf | src/pages/TechnicalTracker.tsx:39 | `acc[type]` is found exactly when a group of that type exists, and it has that type |
| TechnicalTracker.PushKeys | src/pages/TechnicalTracker.tsx:39-42 | one reduce step adds the item's type as a new last key exactly when it is unseen |
| TechnicalTracker.PushItems | src/pages/TechnicalTracker.tsx:39-42 | one reduce step appends the item to the group of its type only, or opens a new group holding just the item |
| TechnicalTracker.GroupedKeys | src/pages/TechnicalTracker.tsx:38-44 | groups are listed in the order in which each component type first occurs |
| TechnicalTracker.GroupedItemsSpec | src/pages/TechnicalTracker.tsx:38-44 | each group holds exactly the tasks of its type, in list order |
| TechnicalTracker.GroupKeysAreTypes | src/pages/TechnicalTracker.tsx:96 | group keys are distinct, and a type has a group exactly when some task has that type |
| TechnicalTracker.GroupsPartition | src/pages/TechnicalTracker.tsx:38-44 | every task lies in the group of its own type, as often as in the list, and in no other group |
| TechnicalTracker.GroupSizesTotal | src/pages/TechnicalTracker.tsx:38-44 | the group sizes sum to the number of tasks |
| TechnicalTracker.TypeHasGroup | src/pages/TechnicalTracker.tsx:38-44 | every task's type has a group |
| TechnicalTracker.StatusCount | src/pages/TechnicalTracker.tsx:76-88 | each status tile counts the tasks with that status |
| TechnicalTracker.StatusCountsTotal | src/pages/TechnicalTracker.tsx:76-88 | the Completed, In Progress and Not Started counts sum to the number of tasks |
| TechnicalTracker.CompletionRate | src/pages/TechnicalTracker.tsx:46-48 | NaN exactly for no tasks; otherwise at most 100, 100 when every task is completed, 0 when none is |
| TechnicalTracker.CompletionRateIsShare | src/pages/TechnicalTracker.tsx:46-48 | the rate is the completed share rounded half up |
| OutreachPipeline.BuildColumns | src/pages/OutreachPipeline.tsx:61-64 | the reduce creates one column per listed status, each the list filtered to that status |
| OutreachPipeline.StatusHasColumn | src/pages/OutreachPipeline.tsx:51 | there are five columns, and every status has one |
| OutreachPipeline.ColumnsComplete | src/pages/OutreachPipeline.tsx:61-64 | each status's column holds only items of that status, in list order, one entry per matching position |
| OutreachPipeline.ColumnsPartition | src/pages/OutreachPipeline.tsx:61-64 | every item is in the column of its status, as often as in the list, and in no other column |
| OutreachPipeline.ColumnsCoverAll | src/pages/OutreachPipeline.tsx:51-64 | the five column counts sum to the number of items |
| OutreachPipeline.StatusCountsTotal | src/pages/OutreachPipeline.tsx:61-64 | the five status filters split any list |
| OutreachPipeline.ColumnIsFilter | src/pages/OutreachPipeline.tsx:111 | a column header shows the number of items in that column's status |
| OutreachPipeline.NoItemsExactly | src/pages/OutreachPipeline.tsx:138-142 | "No items" shows exactly when no item has the column's status, which is exactly when its count is 0 |
| OutreachPipeline.PipelineStats | src/pages/OutreachPipeline.tsx:78-99 | total is the list length; success rate is NaN exactly for an empty list and otherwise at most 100; backlinks counts the items with `backlinkAcquired` and never exceeds the total |
| OutreachPipeline.StatsMatchBoard | src/pages/OutreachPipeline.tsx:84-97 | the pending tile equals the Follow-up column's count, and the success rate is the Success column's rounded share |

## Left out

- The document database client is not modelled. This covers `readAll`, `create`, `read`, `replace`, their system properties (`_rid`, `_etag`, `_ts`) and partition keys. The container is a map from key to document. Every fault the client can raise is one flag, `available`.
- The Azure Functions registration, routing and `authLevel` are left out, and so are the response headers.
- The Graph client, the credential object and the network are left out. The upstream is an uninterpreted function from a call to an answer.
- Content.ContentUpdate — the store does not tie a document's `id` field to its key. A body whose `id` differs from the route id is merged and stored under the route id, with the new `id` inside. The real replace passes the route id as item id and partition key, and the database's response to an `id` mismatch is not modelled.
- `JSON.stringify`, property order within a document, and serialising the response body are left out. Bodies are JSON values. A `JSON.stringify(undefined)` body is `None`.
- `request.json()` is not modelled as a parser. Its result is given: a JSON value, or `None` for a body that does not parse.
- `Date.now()`, `new Date()` and `toISOString()` are parameters. The clock is a function from read index to milliseconds. The formatter is any function; `Content.CreateTimestampsEqualIff` assumes it maps distinct readings to distinct strings.
- The clock has no bound: the millisecond count is unbounded.
- `Math.round` on floating point is not modelled. The percentages use exact integer round-half-up, `(200*c + n) / (2*n)`. For a ratio that floating point cannot represent exactly, `Math.round` can differ from this by one near a half.
- JSON numbers are exact reals. Integer ranges such as `energyLevel` in 1..5 are not enforced: the configuration types them only as `number`.
- `Headers.get` is left out: case-insensitive lookup and the joining of repeated headers. The header is a given optional string.
- Strings are sequences of characters, not UTF-16 code units.
- Concurrency is left out. The read-merge-write of `content-update` is one step here, with no race between requests.
- The views' rendering is left out: markup, icons, colours, the mobile list and the static sample data. So is the local `TechnicalItem`/`OutreachItem` interface each page declares. The views are modelled over the configuration's record types, and they read only `status`, `componentType` and `backlinkAcquired`.
- The Growth Metrics, Dashboard and Content Machine pages, the layout and the app shell are not part of this model. They are presentation, routing, sign-in and sample data.
- Server-side status checking is absent from the source and from the model. The handlers store any `status` string. Only the record decoders, which follow the configuration's closed enumerations, reject a document whose status is not one of the listed spellings.
