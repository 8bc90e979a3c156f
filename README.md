# Sensor ingestion server: a verified model

This project models the core of `index.js`, a restroom-sensor ingestion server. The server listens on a
publish/subscribe transport and keeps a per-tenant document store up to date. The model covers four parts:

- **The message handler.** It splits the topic on `/` into its positional segments. It gates on the prefix
  (`sensor` or `config`) and on the tenant; an unknown or deactivated tenant is ignored. It then takes one
  of two paths:
  - The **per-device path** applies when there is a 7th segment. It looks up the device's record and
    merge-upserts the payload's `;`-fields into it. It appends a log entry when the type's rule holds for
    the previous status. For a `vacant` occupancy message it deletes the location's reminders.
  - The **aggregate path** applies otherwise. It upserts the building container, then the location
    record, then appends a log entry.

  Every upsert and log append is metered as one write. The record lookup and the reminder query are
  metered by what they read. The tenant lookup and the reminder deletions are not metered.
- **The usage meter.** It holds per-tenant read and write counts in memory. A tenant is flushed and reset
  when its total reaches 2000. An hourly sweep flushes every tenant whose read count or write count is positive.
- **The key builders.** These are the device id `gedung_lokasi_gender_nomor`, the aggregate id
  `lokasi_gender` and the update topic `update/{company}/{mac}`. The model also covers `snakeToCapitalized`.
  The device id does not escape `_` in its segments. Two different devices of one building and gender can
  therefore share a record when a location or number holds `_` (`Router.SharedDeviceRecord`). The model
  keeps this behaviour.
- **The configuration publisher.** Every added or modified configuration change is republished on the
  device's update topic.

The modules follow that structure:

- `Strings` holds JavaScript's `split` and `join` on one separator.
- `Documents` holds field values, documents, the merge write, how the store treats `undefined`, and the
  reminder query.
- `Keys` holds the id templates.
- `Usage` holds the meter as a function on values (`Record`, `Sweep`) and as the class `UsageMeter`, whose
  methods update its `map` field in place and are proved equal to those functions.
- `Router` decides, as a pure function `Route`, the sequence of operations (`Effect`s) one message performs.
  It takes what the handler's lookups find as parameters.
- `Handler` gives each operation its effect on a `World`: the tenants, the documents, the logs, the
  reminders and the meter. `Handle` is a message's whole effect.
- `Server` is the handler as it runs: a class whose fields are the store and whose `OnMessage` method
  performs the operations one step at a time. It is proved to reach exactly the state `Handle` gives.
- `Labels` holds `snakeToCapitalized`.
- `Publisher` holds `publishConfigUpdate` and the snapshot listener's `added`/`modified` filter.

The model follows JavaScript's behaviour wherever the code depends on it:

- Destructuring past the end of a split yields `undefined`, and a template literal renders it as
  `"undefined"`.
- A store path segment that is `undefined` or empty makes the store throw. At the tenant lookup
  (index.js:95) that throw is outside the `try` block, so nothing has happened yet; the model records the
  outcome `Failed` with no effects. Inside the `try` block the throw abandons the rest of the message: the
  operations already performed stay, and the outcome is `Failed`.
- Whether the store rejects a field holding `undefined` is a parameter (`Policy`). By default it rejects
  such a write. With `ignoreUndefinedProperties` it drops the field.
- Clock readings are a parameter: one `now` stands for every separate `Date.now()` and `new Date()`
  reading made while one message or one sweep is handled.

Some facts about `index.js` itself that shape the model:

- It contains no re-provisioning migration of device records and no notification fan-out.
- The configuration branch is dead. It reads `gedung` (index.js:235) before the block-scoped
  `const [gedung, …]` that follows it is initialised. The branch therefore throws before any write, and
  the model gives it no effects.
- Soap and tissue log on a `bad` → `good` transition (index.js:186-190).
- The `bau` check and the `vacant` check compare the whole payload (index.js:143, 157), while the stored
  status is the payload's first `;`-field.

That last point matters with the store as configured. `index.js:11` creates the store with its default
settings, which reject a write holding `undefined`. A payload of exactly `vacant` or `good` has no `;`,
so the record's `nomor` is `undefined` (index.js:128, 133) and the upsert throws. Hence, with the default
store, no message ever deletes a reminder (`Handler.DefaultStoreKeepsReminders`), and no per-device
`bau` message is ever logged (`Handler.DefaultStoreNeverLogsOdour`).

## Model

| member | source | states |
|---|---|---|
| Strings.Split | index.js:88 | `split` never yields an empty array, no part holds the separator, and there is one more part than separators |
| Strings.JoinSplit | index.js:363-366 | joining the parts of a split with the same separator gives back the original string |
| Strings.SplitJoin | index.js:88 | splitting a join of separator-free parts gives back those parts |
| Strings.Join | index.js:366 | `join`: the parts with the separator between each two; `Strings.JoinSplit` and `Strings.SplitJoin` make it the inverse of `Split` |
| Documents.Write | index.js:130-138 | the store write under the `undefined` policy; its properties are `Router.RecordFieldsUndefined` (which payloads carry an `undefined` field) and `Router.DeviceMessage` (such a write fails under the rejecting policy, after the lookup alone) |
| Documents.Merge | index.js:174-183 | Firestore's merge write; its properties are `Handler.DeviceDocs` (only the device record changes) and `Handler.StoredRecord` (the record keeps every earlier field the message does not set) |
| Documents.CountMatching | index.js:158-164 | the reminder query's size is at most the number of reminders, and it is zero exactly when no reminder matches building, location and gender |
| Documents.RemoveMatching | index.js:166-168 | after the deletions, exactly the non-matching reminders remain, each as many times as before, no matching one remains, and the number removed is the query's size |
| Documents.DeleteMatching | index.js:158-168 | the loop over the query result leaves exactly `RemoveMatching`'s reminders and counts exactly `CountMatching` deletions |
| Keys.DeviceDocIdIsJoin | index.js:116 | the device id is the `_`-join of building, location, gender and number |
| Keys.DeviceDocId | index.js:116 | the per-device id template `gedung_lokasi_gender_nomor`; its properties are `Keys.DeviceDocIdIsJoin`, `Keys.DeviceDocIdRoundTrip` and `Keys.DeviceDocIdInjective` |
| Keys.AggregateDocId | index.js:205 | the aggregate id template `lokasi_gender`; its property is `Keys.AggregateDocIdRoundTrip` |
| Keys.UpdateTopic | index.js:372 | the update topic template `update/{companyId}/{macAddress}`; its property is `Keys.UpdateTopicRoundTrip` |
| Keys.DeviceDocIdRoundTrip | index.js:116 | an id built from underscore-free segments splits back on `_` into those four segments |
| Keys.DeviceDocIdInjective | index.js:116 | distinct devices whose segments hold no `_` get distinct ids; `Router.SharedDeviceRecord` shows that the precondition is needed |
| Keys.AggregateDocIdRoundTrip | index.js:205 | the aggregate id splits back into location and gender |
| Keys.UpdateTopicRoundTrip | index.js:372 | the update topic splits on `/` into `update`, the tenant and the MAC address |
| Usage.RecordIncrement | index.js:23-40 | metering raises only the given count of the given tenant, by `n`, from zero for a new tenant; other tenants are unchanged; at a total of 2000 or more, exactly one flush with the raised counts is recorded and the entry restarts from zero, otherwise nothing is flushed |
| Usage.Record | index.js:23-41 | `updateUsageCount` on the meter's value; its properties are `Usage.RecordIncrement`, `Usage.RecordKeepsInvariants` and `Usage.RecordAllBounded` |
| Usage.RecordKeepsInvariants | index.js:23-40 | metering keeps every tenant listed once in iteration order and, for a non-negative amount, every tenant below the threshold |
| Usage.RecordAll | index.js:23-41 | a run of `updateUsageCount` calls, in order; its property is `Usage.RecordAllBounded` |
| Usage.RecordAllBounded | index.js:23-40 | any run of non-negative `updateUsageCount` calls, for any tenants at any clock readings, keeps every tenant's total below 2000 and the iteration order well formed |
| Usage.SweepFlushes | index.js:67-69 | the sweep flushes only active tenants, each with its current counts, and flushes every active tenant |
| Usage.SweepBuffer | index.js:70-74 | a visited active tenant is reset to zero; every other tenant is kept |
| Usage.Sweep | index.js:66-77 | active tenants are flushed and reset, tenants at zero are neither flushed nor changed, no tenant stays active, and the invariants are kept |
| Usage.SweepFlushesOncePerTenant | index.js:67-76 | one sweep never flushes the same tenant twice |
| Usage.SweepStep | index.js:67-75 | one iteration of the sweep handles the next tenant in map order, while it still holds its original counts |
| Usage.SweepPrefixAll | index.js:66-77 | visiting every tenant in iteration order is the whole sweep |
| Usage.UsageMeter.constructor | index.js:21 | the buffer starts empty |
| Usage.UsageMeter.UpdateUsageCount | index.js:23-41 | the in-place update leaves the state `Record` gives, and keeps the meter valid for non-negative counts |
| Usage.UsageMeter.PeriodicFlush | index.js:66-77 | the loop over the map leaves the state `Sweep` gives; its invariant is the sweep of the visited prefix |
| Router.Route | index.js:84-107 | a prefix other than `sensor`/`config` is ignored with no effects; an inactive tenant and the config branch cause no effects; any effect needs a defined tenant segment |
| Router.SensorRoute | index.js:107-230 | the sensor branch: the gender and building gate, then the per-device or the aggregate path; its properties are `Router.RouteSteps`, `Router.RouteDeletes` and `Router.EveryWriteMetered` |
| Router.DeviceRoute | index.js:115-203 | the per-device path; its properties are `Router.DeviceMessage`, `Router.DeviceCounts`, `Router.DeviceRouteCount` and `Router.DeviceSteps` |
| Router.RecordFields | index.js:126-183 | the fields the per-device upsert lists, by type; its properties are `Router.RecordFieldsUndefined` and `Router.RecordFieldsStatus` |
| Router.PreviousStatus | index.js:122-124 | the previous record's `status`, `undefined` without one, `null` without a record; used by `Router.LogStepsCount` and `Handler.NoRepeatedLog` |
| Router.LogSteps | index.js:141-155 | the log append and its metered write; its properties are `Router.LogStepsCount` and `Router.LogStepsOwned` |
| Router.VacancySteps | index.js:157-168 | the reminder query's metered read and the deletion; its properties are `Router.VacancyStepsShape` and `Router.VacancyStepsCount` |
| Router.AggregateRoute | index.js:204-226 | the aggregate path; its properties are `Router.AggregateMessage`, `Router.AggregateCounts`, `Router.AggregateRouteCounts`, `Router.AggregateSteps` and `Router.AggregateIndependent` |
| Router.LogStepsOwned | index.js:141-155 | the log steps only append logs and meter, for the tenant alone |
| Router.VacancyStepsShape | index.js:157-168 | the vacancy steps are the query's metered read and the location's deletion, present exactly for a `vacant` occupancy message |
| Router.DeviceSteps | index.js:115-201 | every operation of a per-device message is the tenant's own or the deletion of its own location's reminders on `vacant` |
| Router.DoneSteps | index.js:130-200 | the operations of a completed per-device message are each the tenant's own or the vacancy deletion |
| Router.AggregateSteps | index.js:204-226 | the aggregate path's operations are the tenant's own and delete nothing |
| Router.RouteSteps | index.js:84-230 | tenant isolation: every operation of a message touches only the topic's tenant and meters a non-negative amount, apart from the vacancy deletion |
| Router.RouteDeletes | index.js:157-168 | only a completed `vacant` per-device occupancy message deletes reminders |
| Router.MeteredWriteCount | index.js:139 | each upsert or log append is followed by exactly one metered write and nothing else |
| Router.LogStepsCount | index.js:141-200 | the log steps append one entry and meter one write exactly when the type's log rule holds for the previous status |
| Router.VacancyStepsCount | index.js:157-164 | the vacancy steps delete once and meter the matched reminders as reads, only for `okupansi` with payload `vacant` |
| Router.RecordFieldsUndefined | index.js:127-183 | the upsert holds an `undefined` field exactly when the payload has fewer `;`-fields than the type's record lists |
| Router.RecordFieldsStatus | index.js:126-183 | the upsert always sets `lokasi` and, as `status`, the payload's first field |
| Router.DeviceMessage | index.js:119-139 | the lookup is metered as 1 read if the record exists, else 0; under the rejecting policy a short payload fails after the lookup alone, otherwise the record is upserted at its device key with the first field as status |
| Router.DeviceCounts | index.js:119-200 | a per-device message makes one upsert when it completes, one log per log-rule hit, one deletion per vacancy, and meters a read per found record plus the matched reminders, and a write per upsert and per log append |
| Router.DeviceRouteCount | index.js:119-200 | the count of each measure in a per-device message is the tally its status, log rule, vacancy and lookup decide |
| Router.DoneCount | index.js:130-200 | the counts of a completed per-device message's operations are its tally |
| Router.AggregateMessage | index.js:204-218 | without a 7th segment the container is upserted first; the message completes exactly when the type segment is defined and non-empty, and then upserts the location record at `lokasi_gender` |
| Router.AggregateCounts | index.js:204-226 | a completed aggregate message makes two upserts and one log append, metered as three writes, and reads and deletes nothing |
| Router.AggregateRouteCounts | index.js:204-226 | the same counts stated for the aggregate path itself |
| Router.AggregateIndependent | index.js:204-226 | the aggregate path depends neither on the previous record nor on reminders nor on the store's policy |
| Router.EveryWriteMetered | index.js:84-230 | every message meters one write per upsert and per log append (the tenant lookup and reminder deletions are unmetered), and a message failing a gate does nothing |
| Router.ExampleDeviceTopic | index.js:115-117 | topic `sensor/acme/b1/l2/pria/okupansi/7`, when the message completes, upserts document `b1_l2_pria_7` under `sensor/acme/pria/b1/okupansi` |
| Router.SharedDeviceRecord | index.js:116-139 | locations `l2_pria_3` and `l2` with numbers `7` and `3_pria_7` in building `b1` for `pria` get the same id `b1_l2_pria_3_pria_7`, so both devices upsert the same record |
| Handler.Lookup | index.js:119-124 | the previous-record lookup; its properties are `Router.DeviceMessage` (metered as 1 read exactly when a record exists) and `Handler.StoredRecord` (the earlier fields that survive the merge) |
| Handler.Appended | index.js:145-153 | a sequence of operations appends log entries exactly when it holds a log append |
| Handler.ApplyAll | index.js:107-230 | a message never changes the tenant directory, and the logs grow by the appended entries alone |
| Handler.Apply | index.js:107-230 | the effect of one store or meter operation on the world; its frame properties are `Handler.DocsFrame`, `Handler.RemindersFrame` and `Handler.MeterFrame` |
| Handler.Plan | index.js:84-233 | the operations a message performs, given what its lookups find in the world; `Server.Server.OnMessage` returns its status |
| Handler.Handle | index.js:84-233 | the world after a message; its properties are `Handler.HandleKeepsInvariants`, `Handler.GatedOut`, `Handler.StoredRecord`, `Handler.NoRepeatedLog` and `Handler.VacancyClearsReminders`, and `Server.Server.OnMessage` is proved to reach it |
| Handler.DocsFrame | index.js:107-230 | operations without an upsert leave the documents unchanged |
| Handler.RemindersFrame | index.js:157-168 | operations without a reminder deletion leave the reminders unchanged |
| Handler.MeterFrame | index.js:23-41 | operations that meter nothing leave the meter unchanged |
| Handler.ApplyAllKeepsMeter | index.js:23-40 | metering keeps the meter well formed and, for non-negative amounts, every tenant below the threshold |
| Handler.ApplyAllAppend | index.js:107-230 | applying the operations of a concatenation applies its parts in turn |
| Handler.ApplyOneUpsert | index.js:119-139 | an upsert between two meterings, followed only by non-upserts, is the only change to the documents |
| Handler.ApplyOneDelete | index.js:157-168 | a query and deletion after operations that delete nothing is the only change to the reminders |
| Handler.TenantOf | index.js:95-105 | the tenant lookup and its `is_deactivated` test; its properties are `Router.Route` and `Handler.GatedOut` (an unknown or deactivated tenant causes no effects and leaves the world as it was) |
| Handler.HandleKeepsInvariants | index.js:84-233 | a handled message keeps the tenant directory, the meter well formed, and every tenant below the threshold |
| Handler.GatedOut | index.js:91-115 | a message failing the prefix, tenant, gender or building gate leaves the world exactly as it was |
| Handler.DeviceDocs | index.js:130-138 | a completed per-device message changes the documents by merging its sent fields into the device's record alone |
| Handler.StoredRecord | index.js:122-183 | after a completed per-device message the record holds the location and the first field as status, every defined listed field, and every earlier field the message does not set |
| Handler.NoRepeatedLog | index.js:141-200 | repeating the same non-occupancy per-device message never appends a second log entry |
| Handler.SameStatus | index.js:130-138 | whether a gated per-device message completes does not depend on the world it meets |
| Handler.LogsKeptUnlessRule | index.js:141-200 | a per-device message appends no log when its type's rule does not hold for the previous status |
| Handler.OwnStatusNotLogged | index.js:141-190 | no rule but occupancy's logs a message whose previous status is its own first field |
| Handler.VacancyClearsReminders | index.js:157-168 | a completed `vacant` occupancy message deletes exactly the matching reminders and keeps every other; every other message leaves the reminders unchanged |
| Handler.VacancyTail | index.js:157-168 | a completed `vacant` occupancy message's deletion is its only change to the reminders |
| Handler.DefaultStoreKeepsReminders | index.js:11-168 | with the store's default rejection of `undefined`, no message changes the reminders, since a `vacant` payload makes the upsert throw first |
| Handler.DefaultStoreNeverLogsOdour | index.js:11-155 | with the store's default rejection of `undefined`, a per-device `bau` message never appends a log entry |
| Server.Server.constructor | index.js:20-21 | a fresh server holds the given store, no logs, and an empty meter |
| Server.Server.OnMessage | index.js:84-233 | the handler's step-by-step run leaves exactly the world `Handle` gives, returns the status `Plan` decides, and keeps the meter valid |
| Server.Server.HandleSensor | index.js:107-120 | the sensor branch performs exactly the operations `SensorRoute` decides |
| Server.Server.HandleDevice | index.js:115-203 | the per-device branch performs exactly the operations `DeviceRoute` decides, from the record and reminders it finds |
| Server.Server.LogMessage | index.js:141-200 | the log append runs exactly as `LogSteps` says, and leaves the reminders alone |
| Server.Server.ClearReminders | index.js:157-168 | the query, its metered read and the deletions run exactly as `VacancySteps` says |
| Server.Server.HandleAggregate | index.js:204-230 | the aggregate branch performs exactly the operations `AggregateRoute` decides |
| Server.Server.StoreMetered | index.js:130-139 | a merge write followed by its metered write |
| Server.Server.LogMetered | index.js:145-154 | a log append followed by its metered write |
| Server.Server.MeterUsage | index.js:120 | `updateUsageCount` on the server's meter is the `Metered` operation |
| Server.Server.HourlySweep | index.js:66-77 | the hourly sweep changes only the meter, as `Sweep` says, and keeps it valid |
| Labels.Upper | index.js:365 | `toUpperCase` on one character; its property is `Labels.SnakeToCapitalizedPointwise` (each word's first character is upper-cased) |
| Labels.Capitalize | index.js:365 | one word with its first character upper-cased; used through `Labels.CapitalizeAll` and `Labels.LabelCons` |
| Labels.CapitalizeAll | index.js:365 | the `map` over the words; its property is `Labels.SnakeToCapitalizedPointwise` |
| Labels.SnakeToCapitalized | index.js:362-367 | `snakeToCapitalized`; its properties are `Labels.SnakeToCapitalizedPointwise`, `Labels.NoUnderscores` and `Labels.PlainWordUnchanged` |
| Labels.SnakeToCapitalizedPointwise | index.js:362-367 | on ASCII input, the label has the identifier's length; each `_` becomes a space, each word's first character is upper-cased, and every other character is kept; `""` maps to `""` |
| Labels.PointwiseCons | index.js:362-367 | the pointwise description extends to an identifier with one more word in front |
| Labels.LabelCons | index.js:362-367 | a word and an underscore in front become the capitalized word and a space in front |
| Labels.NoUnderscores | index.js:362-367 | a label holds no underscore |
| Labels.PlainWordUnchanged | index.js:362-367 | an identifier with no underscore and no lower-case initial is its own label |
| Publisher.NatText | index.js:372 | a number renders as at least one decimal digit |
| Publisher.TemplateText | index.js:371-372 | every field value but a timestamp renders as text in the topic |
| Publisher.PublishConfigUpdate | index.js:370-373 | a configuration is published exactly when its MAC address renders, with the configuration unchanged |
| Publisher.Publications | index.js:393-399 | what one snapshot's changes publish, in order; its properties are `Publisher.PublishedIff`, `Publisher.PublicationsAppend` and `Publisher.RemovalsSilent` |
| Publisher.PublicationsAppend | index.js:394-399 | the changes of a snapshot publish in change order |
| Publisher.PublishedIff | index.js:393-399 | a publication goes out exactly when some added or modified change carries a configuration that renders to it |
| Publisher.RemovalsSilent | index.js:395 | removals publish nothing |
| Publisher.IntTextNoSlash | index.js:372 | a numeric MAC address renders without a slash |
| Publisher.PublicationTopic | index.js:372 | the publication's topic splits on `/` into `update`, the tenant and the rendered MAC address |

## Left out

- Transport and store I/O are not modelled: the Firebase and broker set-up, credentials, connecting,
  subscribing and the publish callback (index.js:1-18, 79-82, 330-331, 375-381). A publication is the
  topic and configuration handed to the transport.
- The flush transaction (index.js:43-63) is not modelled. A flush is recorded as the tenant's delta in
  `Meter.flushed`, and the date bucket `toISOString` is left out. `Date.now()` and `new Date()` are the
  parameter `now`.
- `console.log` output is left out.
- Unhandled failures are not modelled. These throws lie outside the `try` block:
  - the tenant lookup's (index.js:95);
  - the configuration branch's (index.js:235).

  These operations are not awaited:
  - the reminder deletions (index.js:166-168);
  - the flushes (index.js:34, 69).

  All of these failures become unhandled promise rejections of the `async` listener. With Node's default
  handling, such a rejection ends the process, and the in-memory usage buffer is lost with it. The model
  instead returns `Failed` and carries on with the same state.
- The model records every flush in `Meter.flushed` as committed. A flush that fails loses its delta,
  because the buffer entry was already reset.
- Not every store failure inside the `try` block is modelled. The previous-record lookup (index.js:119),
  the log appends (index.js:145, 191, 220), the reminder query (index.js:158-163) and the aggregate
  upserts (index.js:207, 210) are modelled as always succeeding. If one of them failed, the `catch` at
  index.js:231 would abandon the rest of the message. Only the per-device upsert's rejection of
  `undefined` fields and the path-segment throws are modelled.
- `sendNotification` (index.js:333-360) is left out. It is never called, it uses an undefined `company`,
  and it is push-service I/O.
- `attachConfigListener` and `monitorCompanies` (index.js:384-427) are listener wiring. Only the
  `added`/`modified` filter and the publication are modelled.
- Concurrency is not modelled. Each message is handled atomically, in order. The fire-and-forget
  `forEach(async …)` reminder deletions (index.js:166-168) are modelled as completed before the next
  operation.
- The configuration branch (index.js:234-327) throws at index.js:235 before any write, so it is modelled
  as no effects with status `Failed`. The mapping of its 20 payload fields is not modelled.
- Firestore semantics are not modelled beyond these: a merge write (listed fields overwrite, others are
  kept); the rejection of empty or `undefined` path segments; and the treatment of `undefined` field
  values, which is a parameter.
- The tenant lookup (index.js:95) and the reminder deletions (index.js:166-168) are not metered, since the
  source does not meter them. The model keeps this: `Router.EveryWriteMetered` counts metered writes as
  upserts plus log appends, and a completed `vacant` message's deletion adds none.
- The reminder query is not scoped to a tenant (index.js:158-163). The model keeps this, so a reminder
  deletion belongs to no tenant in `Router.BelongsTo`.
- Labels.Upper: `toUpperCase` is modelled on ASCII letters only. Other characters are kept, whereas
  JavaScript also maps non-ASCII letters, some to more than one character (`"ß".toUpperCase()` is
  `"SS"`). The length and pointwise description of `Labels.SnakeToCapitalizedPointwise` therefore hold for
  JavaScript on ASCII input only.
- Publisher.PublishConfigUpdate: a `mac_address` held as a store timestamp is rendered by the store
  library's `toString`, which is not modelled. For that case the model yields no publication.
- Publisher.TemplateText: numbers are modelled as integers. JavaScript's rendering of fractional and
  exponent-form numbers is left out.
- `JSON.stringify` of the configuration is not modelled. A publication carries the configuration document
  itself.
- Router.ExampleDeviceTopic: the example is stated on the topic's segments rather than on the topic string.
  `Strings.SplitJoin` relates the two.
