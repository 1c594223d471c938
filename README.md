# rtc-health reporter, modelled in Dafny

This project models the statistics reporter of rtc-health (`lib/reporter.js`). A `Reporter` is
built for one peer-to-peer connection. It takes a source endpoint id, a target endpoint id, a
room, and a snapshot of WebRTC statistics records. It can then:

- give the connection an order-independent key;
- find records by type or by id, keeping the first match;
- filter records by a list of types;
- say whether the connection is active;
- join each candidate pair to the channel record it names (a `ChannelReport`);
- serialise the snapshot, flattening each record into a plain object in which the integer
  fields are passed through `parseInt`.

Files:

- `wrappers.dfy`: `Option`, where `None` stands for `null` or an absent value.
- `js.dfy`: the JavaScript semantics the reporter relies on. This covers primitive values,
  truthiness, `<` on strings, `String(n)` and the global `parseInt`.
- `reporter.dfy`: statistics records, and the lookups and filter as specification functions.
  - The class `Reporter` has `const` fields, because the constructor sets them and nothing
    changes them. Its methods keep the source's loops and are proved against the
    specification functions.
  - `ChannelReport` is a datatype and `reportToObject` is `ReportToObject`.

Modelling choices:

- A statistics record is a datatype with these fields:
  - `id`;
  - `kind` (the record's `type`);
  - an optional timestamp in milliseconds;
  - the list of stat names that `names()` returns;
  - a map that gives what `stat(name)` returns (`undefined` when the name is missing).
- The collection is `Option<seq<Record>>`, so an absent collection (`null`/`undefined`) stays
  distinct from an empty one.
- The `fields.AS_INT` list is a `set<string>` parameter. `./fields` is not part of this model.
- The clock (`Date.now()`) is a parameter `now`.
- The `uuid.v4()` identifier is a constructor argument `instanceId`.

Three behaviours of the code a caller might not expect:

- `isActive()` on a present but empty collection returns `null`, not `false`.
  `getReport` returns `null`, and `report && …` passes that null through.
- With the `ths` typo corrected, `getChannelReports` is still not total. On an absent or empty
  collection it reads `.length` of `null` and throws a TypeError. The model returns that
  exception as a `Completion`. As written it throws a ReferenceError first (see Findings).
- `getReportsByType` throws on every call because of a typo (see Findings). The rest of the
  model uses the evidently intended `getReportsByTypes([t])`.

## Model

| member | source | states |
|---|---|---|
| `Js.LessTrichotomy` | lib/reporter.js:16 | `<` on strings is irreflexive and asymmetric, and orders any two different strings one way or the other |
| `Reporter.ConnectionKey` | lib/reporter.js:16-18 | the key is the id that is not larger, a colon, then the other id |
| `Reporter.ConnectionKeySymmetric` | lib/reporter.js:16-18 | swapping source and target gives the same connection key |
| `Reporter.Reporter.constructor` | lib/reporter.js:8-19 | the reporter keeps the source, the target (`opts.id`), the room, the collection and the fresh id, and its `connectionId` is the connection key of source and target |
| `Reporter.FirstMatch` | lib/reporter.js:34-36 | the index found is the least index of a matching record, or the length when no record matches |
| `Reporter.Lookup` | lib/reporter.js:31-52 | null for an absent collection; otherwise a record is found exactly when some record matches, and it is the matching record with no earlier match |
| `Reporter.Reporter.GetReport` | lib/reporter.js:31-39 | the loop with early return yields the first record of the given type, or null (absent, empty or no match) |
| `Reporter.Reporter.GetReportById` | lib/reporter.js:44-52 | the loop with early return yields the first record whose id is `===` the given value, or null |
| `Reporter.Select` | lib/reporter.js:64-71 | the filtered list is no longer than the collection, and every record in it is of a kept type |
| `Reporter.SelectEmbedded` | lib/reporter.js:64-71 | the filtered list is the collection read at strictly increasing positions (order is kept) |
| `Reporter.SelectCovers` | lib/reporter.js:64-71 | a position of the collection is among those positions exactly when its record is of a kept type (every match is taken, duplicates included, and nothing else) |
| `Reporter.SelectExactly` | lib/reporter.js:61-72 | some strictly increasing positions give the filtered list and are exactly the positions of the kept records |
| `Reporter.SelectCons` | lib/reporter.js:64-71 | filtering a collection with a record in front gives that record, when kept, followed by the filtered rest |
| `Reporter.SelectMembers` | lib/reporter.js:61-72 | a record is in the filtered list exactly when it is in the collection and of a kept type; the list is empty exactly when no record is |
| `Reporter.Reporter.GetReportsByTypes` | lib/reporter.js:61-72 | null for an absent or empty collection; otherwise the loop's result is the filtered list of the records whose type is in the list |
| `Reporter.Reporter.GetReportsByType` | lib/reporter.js:54-56 | with the `ths` typo corrected, the result is `getReportsByTypes([t])`: null for an absent or empty collection, otherwise the records of that type in order |
| `Reporter.FirstMatchHeadsSelect` | lib/reporter.js:31-72 | the first record of a type is the head of the records filtered by that type, and there is none exactly when the filtered list is empty |
| `Reporter.LookupIsHeadOfSelect` | lib/reporter.js:31-72 | on any present collection, `getReport(t)` is the head of the records of type `t`, or null when there are none |
| `Reporter.Reporter.IsActive` | lib/reporter.js:21-26 | false for an absent collection; null when no record is a candidate pair; otherwise truthy exactly when the first candidate pair's `googActiveConnection` stat is truthy |
| `Reporter.Reporter.GetChannelReports` | lib/reporter.js:78-91 | with the `ths` typo corrected: a TypeError exactly when the collection is absent or empty (`length` of null); otherwise one channel report per candidate pair, in order; each has that pair as its connection and, as its channel, the first record whose id is the pair's `googChannelId` (null when none) |
| `Reporter.IsActiveAgreesWithFirstChannelReport` | lib/reporter.js:21-26 | the reporter's `isActive()` is the `isActive()` of the channel report of its first candidate pair, or null when there is no pair |
| `Reporter.ChannelReport.IsActive` | lib/reporter.js:137-139 | null without a connection; truthy exactly when a connection is attached and its `googActiveConnection` stat is truthy |
| `Reporter.ChannelReport.ToJson` | lib/reporter.js:144-160 | `id` is the channel's id or ""; `room` is always undefined; `active` is `isActive()`; `connection` and `timestamp` are present exactly when a candidate pair is attached; the connection is the pair flattened by `reportToObject`; the timestamp is the pair's own, or the clock when it has none |
| `Reporter.Flattened` | lib/reporter.js:165-177 | the keys are exactly the record's stat names; a key in the integer list holds `parseInt` of the stat, which is a number or NaN; every other key holds the stat unchanged |
| `Reporter.ReportToObject` | lib/reporter.js:165-177 | null for null; otherwise the loop that fills and overwrites keys builds exactly the flattened object |
| `Reporter.Reporter.ToJson` | lib/reporter.js:96-124 | an empty array for an absent collection; otherwise the connection object, with the instance id, the connection key, the source and target ids, `mesh` equal to the room, the clock as its timestamp, and one entry per record whose type is not excluded, in order, each carrying that record's id, type, timestamp (or the clock) and flattened stats |
| `Js.ParseInt` | lib/reporter.js:174 | `parseInt` of any value is a number or NaN |
| `Js.ParseIntOfDecimal` | lib/reporter.js:174 | `parseInt` of an integer's decimal numeral followed by text that does not continue the numeral (for example "42", "42 packets", "-7ms") is that integer; exact here, while JavaScript rounds magnitudes above 2^53 to the nearest double |
| `Js.ParseIntOfNumber` | lib/reporter.js:174 | `parseInt` leaves every integer unchanged (exactly representable integers in JavaScript) |
| `Js.ParseIntNonNumeric` | lib/reporter.js:174 | a string that does not start with white space, a sign or a decimal digit (such as "abc") gives NaN, not an error |
| `Js.ParseIntNonNumber` | lib/reporter.js:174 | undefined, null, a boolean or NaN gives NaN |
| `Reporter.GetReportsByTypeAsWritten` | lib/reporter.js:54-56 | as written, every call throws a ReferenceError for the undefined name `ths` |
| `Reporter.ThsTypoLosesCandidatePairs` | lib/reporter.js:54-56 | on any snapshot with a candidate pair, the written `getReportsByType` throws while `getReportsByTypes([t])` returns a non-empty list |

`Reporter.ActivePairScenario` and `Reporter.ChannelJoinScenario` are client methods. They use
the contracts above on a two-record snapshot: one channel, and one active candidate pair that
names it.

## Left out

- `uuid.v4()` (line 15) is a foreign random generator. The instance id is a constructor
  argument.
- `Date.now()` and `Date.getTime()` (lines 101, 109, 155) are the wall clock. Timestamps are
  optional integers, and the clock is one reading `now`. The source reads the clock again for
  each record that has no timestamp (line 109), so those entries can carry a later time than
  the object's `timestamp`. The model uses the single reading `now` for all of them.
- The browser's `StatsReport` API (`names()`, `stat()`) is a foreign object. A record is a
  list of names with a map of values.
- The contents of `./fields` (`AS_INT`) are not part of this model. The list is a parameter.
- JSON text encoding is left out: the model stops at structured values. An undefined member is
  kept, not dropped. In a channel report, `room` is the value `Undefined`. In the connection
  object, an undefined room is `mesh: None`, because the room is an `Option<string>`.
- `Js.Less`: JavaScript compares strings by UTF-16 code unit. Dafny compares characters by
  Unicode scalar value. The two orders differ only between a character above U+FFFF and one in
  U+E000–U+FFFF.
- `Js.ParseInt`: numbers are integers here, so these cases are not modelled:
  - floating-point stat values;
  - `-0`;
  - the exponent notation `String(n)` uses from 10^21 upwards;
  - rounding: `parseInt` returns a double, so JavaScript rounds a magnitude above 2^53 to the
    nearest double (`parseInt("12345678901234567")` is 12345678901234568). Here every
    magnitude is exact.
  The `0x` prefix is modelled.
- Endpoint ids and the room are strings (the room may be undefined). Non-string ids compared
  with `<` are not modelled.

## Findings

| source | as written | input that shows it | evidently intended | confidence | as-written member | corrected member |
|---|---|---|---|---|---|---|
| lib/reporter.js:55 | `getReportsByType` calls `ths.getReportsByTypes(...)`, and no scope defines `ths`. Every call throws a ReferenceError, and so does `getChannelReports`, which calls it first (line 80). | `getReportsByType('googCandidatePair')` on a snapshot holding one candidate pair | `this.getReportsByTypes([reportType])` | high (not executed) | `Reporter.GetReportsByTypeAsWritten`, `Reporter.ThsTypoLosesCandidatePairs` | `Reporter.Reporter.GetReportsByType` |
