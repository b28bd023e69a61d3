# Structured logger façade — formatting and binding model

This project models the deterministic core of a structured logging façade written in
TypeScript over the winston logging engine. The model covers:

- **the two line formats.** `commonFormat` writes nine `|`-separated fields. `auditFormat`
  writes ten, plus an eleventh for truthy data. Both apply the same defaults:
  `buildVersion ?? '0'` and `traceId || defaultUUID()`.
- **the rule that picks a format.** The audit format is used when the level text contains
  `audit`, which also holds for a colourised level.
- **the level table.** It gives the five priorities, and a transport emits a record when the
  record's priority is at or below the transport's level.
- **the transport list.** The console transport is always present. The daily file transport
  follows it only when `directory` is truthy.
- **the five entry points of `getLogger`.**
- **the two progressive binders, `applyTraceId` and `applyFunctionName`.** Binding the trace
  id and then the function name gives the same call as the full call.

Files and modules:

| file | module | models |
|---|---|---|
| js.dfy | `Js` | the JavaScript built-ins the source relies on: `undefined`, truthiness, the logical-or default, the `??` default, `Array.prototype.join`, `String.prototype.split`, `String.prototype.includes` |
| utils.dfy | `Utils` | `repeat`, `defaultUUID`, `toString`, `appendWhen` of src/utils.ts |
| logging.dfy | `Logging` | src/index.ts, together with the parts of winston it relies on: merging metadata into a record, the per-transport level filter and the console's colourised level |
| binding.dfy | `Binding` | `applyTraceId` and `applyFunctionName` of src/utils.ts |

The binders live in their own module because they need the `Logger` of `Logging`, and
`Logging` already imports `Utils`. Dafny does not allow the import cycle that one module
per source file would create.

Representation choices:

- The timestamp is an opaque string parameter.
- An object passed as audit data is represented by the text `JSON.stringify` gives for it.
- A curried entry point is modelled as one function taking all of its arguments. It yields
  the `logger.log(level, message, meta)` call it makes, as an `Event`.
- A bound view (`ILoggerWithTraceId`, `ILoggerWithTraceIdAndFunctionName`) is a datatype.
  It holds the wrapped logger, the values it fixed and its exposed attributes.
- `Emit` gives the lines the transports write for an event, in transport order.

`applyTraceId` falls back to `defaultUUID()`, the Nil UUID, for the view's `traceId`
attribute (src/utils.ts:25), not to `generateTraceId()`. The entry points receive the trace
id unchanged.

## Model

| member | source | states |
|---|---|---|
| `Js.SplitJoin` | src/index.ts:28-44 | splitting a line joined with the pipe separator on the pipe recovers exactly its fields when no field contains a pipe, so the line has one field per element and no trailing pipe |
| `Js.JoinAppend` | src/index.ts:28-44 | joining two non-empty runs of fields is joining each run, with one separator between them |
| `Js.Includes` | src/index.ts:52 | `s.includes(t)` holds iff `t` occurs at some index of `s` |
| `Utils.Repeat` | src/utils.ts:6 | `'0'.repeat(count)` has length `count` and is all `'0'` |
| `Utils.DefaultUUID` | src/utils.ts:5 | the default id has length 36, dashes at 8, 13, 18 and 23 and `'0'` elsewhere, and equals `00000000-0000-0000-0000-000000000000` |
| `Utils.ToString` | src/utils.ts:7 | a string is returned unchanged; `null` gives "null", an object gives its JSON text; the result is undefined exactly for undefined |
| `Utils.AppendWhen` | src/utils.ts:47-51 | with a truthy condition the result is the array plus one new last element `itemFactory()`, with the original elements in order; otherwise it is the array unchanged |
| `Logging.ParseLevel` | src/index.ts:56-63 | a level name found in the table is the name of the level returned |
| `Logging.ParseLevelName` | src/index.ts:56-63 | every level's name is found in the table under that level |
| `Logging.PriorityOrder` | src/index.ts:56-63 | priorities are error 0 < warn 1 < audit 2 < info 3 < debug 4, and distinct levels have distinct priorities |
| `Logging.AdmitsByPriority` | src/index.ts:56-63 | a transport at a level emits a record iff the record's priority is at most that level's; `debug` is dropped at `info`; `audit` passes at `info` and `debug`; `error` always passes |
| `Logging.GetTransports` | src/index.ts:78-101 | the console transport is first, at `config.level` or else `'debug'`; a daily file transport follows, making two, iff `directory` is truthy, at `config.level` or else `'info'`, named `fileName` or else `'log.%DATE%'`, with the source's rotation options |
| `Logging.GetLogger` | src/index.ts:109-124 | the default metadata holds the configured hostname, serviceName (as service), environment and buildVersion, with an empty functionName; the transports are those of `getTransports` |
| `Logging.TransportsAtLevel` | src/index.ts:82-90 | a non-empty configured level is the level of every transport |
| `Logging.AuditFormat` | src/index.ts:12-29 | the line built by pushing onto the ten audit fields is the pipe-join of the audit fields |
| `Logging.CommonFormatFields` | src/index.ts:31-45 | a standard line has nine fields in order: timestamp, environment, hostname, buildVersion (`"0"` only when undefined, `""` kept), traceId (the Nil UUID when falsy), service, level, functionName and message; an attached error adds ` [<error.message>]`, or ` []` when the error has no message |
| `Logging.AuditFormatFields` | src/index.ts:12-29 | an audit line has the same seven header fields, then user, displayName and message, and an eleventh field, the data text, iff the data is truthy |
| `Logging.CustomFormat` | src/index.ts:54 | whichever format the level selects, the line opens with the same seven header fields and a pipe |
| `Logging.AuditSelection` | src/index.ts:52-54 | the audit format is chosen for a level, plain or colourised, iff it is `audit` |
| `Logging.WrappedAuditSelected` | src/index.ts:47-52 | any text around "audit", such as colour codes, still selects the audit format |
| `Logging.EmitTo` | src/index.ts:112-123 | never more lines than transports; when every transport admits the event's level, each writes its own formatted line, in transport order; when none does, nothing is written |
| `Logging.EmittedLineAdmitted` | src/index.ts:78-101 | every line written is the line of a transport whose level admits the event; no transport writes an event its level filters out |
| `Logging.EmitToOneOrTwo` | src/index.ts:78-101 | one transport writes its line iff it admits the event; two write the first's line, if admitted, then the second's |
| `Logging.GetLoggerEmits` | src/index.ts:78-124 | a call writes exactly the console's line when the console's level admits it, followed by the file's line when `directory` is truthy and the file's level admits it |
| `Logging.DefaultLevels` | src/index.ts:82-90 | with no level configured, a `debug` call writes exactly one line, the console's; every other level is admitted by every transport |
| `Logging.DebugDroppedAtInfo` | src/index.ts:78-101 | a logger configured at `info` writes nothing for a `debug` call |
| `Logging.AuditPassesAtInfoAndDebug` | src/index.ts:78-101 | a logger configured at `info` or `debug` writes an `audit` call to every transport |
| `Logging.StandardLineSplits` | src/index.ts:31-54 | the line of a non-audit event splits back into the standard fields on any transport |
| `Logging.AuditLineSplits` | src/index.ts:12-54 | the line of an audit event splits back into the audit fields on any transport |
| `Logging.FunctionLineFields` | src/index.ts:31-54 | on any transport, a standard event's line splits into the configured tags, buildVersion or "0", the trace id or the Nil UUID, the transport's level text, the function name and the final message |
| `Logging.AuditLineFields` | src/index.ts:12-54 | on any transport, an audit event's line splits into the header fields, user, displayName and message, and the data text iff the data is truthy |
| `Logging.EmittedLineTraceId` | src/index.ts:31-45 | every line a standard call writes has nine fields, the fifth being the call's trace id when truthy and the Nil UUID otherwise |
| `Logging.StandardCallLines` | src/index.ts:131-133 | on a logger all of whose transports admit the level, `debug`, `warn` and `info(T, F, M)` write on every transport nine fields: the configured tags, buildVersion or "0", T or the Nil UUID, the transport's level text, F and M |
| `Logging.ErrorCallLines` | src/index.ts:134 | on a logger all of whose transports admit errors, `error(T, F, M, E)` writes on every transport the same nine fields, ending with M followed by ` [<E.message or empty>]` |
| `Logging.AuditCallLines` | src/index.ts:135 | on a logger all of whose transports admit audits, `audit(T, U, D, M, X)` writes on every transport ten fields ending U, D and M, and the text of X as an eleventh field iff X is truthy |
| `Logging.InfoScenario` | src/__tests__/logger.spec.ts:30-58 | for the test configuration, `info('trace2', 'fn2', 'mess2')` writes the expected file fields, and a `debug` call writes nothing |
| `Logging.AuditScenario` | src/__tests__/logger.spec.ts:103-115 | `audit` with string data ends the file line with that text; with undefined data the line ends at the message |
| `Binding.ApplyTraceId` | src/utils.ts:18-27 | all five entry points receive the trace id exactly as given; the view's `traceId` is that id when truthy and the Nil UUID otherwise |
| `Binding.ApplyFunctionName` | src/utils.ts:34-43 | `debug`, `warn`, `info` and `error` receive the function name after the view's trace id; `traceId` is carried over and `functionName` is set; there is no audit entry |
| `Binding.Composition` | src/utils.ts:18-43 | binding T and then F, then calling `info(M)` or `error(M, E)`, makes the same call, and writes the same lines, as `info(T, F, M)` or `error(T, F, M, E)` |
| `Binding.ExposedTraceIdIsPrinted` | src/utils.ts:18-43 | whichever of `debug`, `warn`, `info` and `error` is called on a view bound by both binders, every line written has nine fields and its fifth is the `traceId` the view exposes |

## Left out

- winston itself: `createLogger`, `addColors`, the `format.timestamp`/`json` steps, the `logger.on('error')` handler and `exitOnError`. These are foreign library state and console I/O. The model keeps only the metadata merge, the level filter and the colourised console level.
- winston's handling of a message that contains printf-style tokens such as `%s`: the call's metadata is then not merged into the record. This is not modelled; `ToRecord` always merges.
- `Logging.Colourise` assumes the ANSI codes of the `colors` package, applied unconditionally. Whether the terminal supports colour is not modelled.
- the `DailyRotateFile` behaviour: rotation by date, zipping, 30-day retention, UTC day boundaries and directory creation. These are file-system work by an external package. Only the transport's presence and options are modelled.
- `generateTraceId`, which is `uuid.v4`. It is random and foreign.
- `JSON.stringify` internals, including its error on circular structures. An object is represented by its JSON text.
- currying: the `curry` helper, partial application at every arity and the overloaded call types. Each entry point and binder is modelled with all its arguments; the `fn(value)(logger)` form is the same function.
- `appendWhen` never calling its factory when the condition is falsy. A pure model cannot observe calls.
- string-typed arguments passed as `undefined` at run time. They are modelled as strings; `join` would print them as empty.
- `src/mocks.ts` (console output only) and the syslog configuration fields, which no code uses.
- the end-of-line terminator the transports add after each line.
- escaping of the separator: the source never escapes a `|` inside a field, so a field containing one splits into more pieces when a line is read back. The lemmas that read lines back therefore require every field to be free of `|`.
