# A Dafny model of the slog → zap logging adapter

This project models the logging library's bridge from Go's `log/slog` to
`go.uber.org/zap`, and the small components around it:

- **The zap handler** (`logger/zaphandler/handler.go`). This covers:
  - converting a kind-tagged slog attribute into a zap field, including nested groups through `groupObject`;
  - the slog → zap level table, where Go's missing-key lookup gives zap's zero level;
  - the per-call field pipeline of `Handle` and `WithAttrs`: redact, then resolve, then convert, with namespace markers placed before the first non-skip field;
  - the copy-on-derive handler record returned by `WithAttrs` and `WithGroup`.
- **Handler options** (`logger/v2/zaphandler/option.go`). Each option is a function applied to the handler record.
- **The line-buffering `LogWriter` and the fan-out `MultiLogWriter`** (`logger/writer.go`).
- **The field-carrying module logger** (`logger/module_logger.go`). This covers map merging, context-field extraction and map → zap field conversion.
- **The logger facade of `logger/logger.go` and `logger/v2/logger.go`.** This covers:
  - the defaults and the functional-option fold;
  - `With` and `Clone`;
  - the context round trip;
  - the configuration → handler wiring of `logger/handler.go`.
- **Encoder and zap-option selection** (`logger/formats.go`).

Everything is a pure function over immutable datatypes. Three of the source's loops are Dafny methods with loop invariants: the newline scan of `LogWriter.Write`, the merge of `WithFields` and the writer loop of `MultiLogWriter.Write`. The other loops are recursive functions: the attribute loops of `Handle` and `WithAttrs`, `appendGroups`, `MarshalLogObject`, the option folds, the secure-field loop and `fieldsToZapFields`.

Some collaborators are code this model cannot see. Each one becomes a parameter:

| collaborator | how it is modelled |
|---|---|
| the zap core | a free term (`Zap.Core`) |
| `core.Enabled` and `core.Check` | the functions `enabled` and `check` in `ZapHandler.Env` |
| the redaction hook | a named `Redactor`, interpreted by `Env.redact` |
| `LogValuer.LogValue` | `Env.logValue` |
| the runtime frame lookup | `Env.frame` |
| Go's map iteration order | an `order` sequence constrained by `ModuleLogger.Enumerates` |
| a fresh pointer | an `addr` parameter |

`Slog.Resolve` follows slog's own rule: at most 100 `LogValue` calls, and the value then degrades to an error value.

The model follows the code where it has quirks:

- **Group branches are reversed.** A *keyed* group is inlined, so its key is lost. A group with the *empty* key becomes an object keyed `""`.
- **Skip fields are kept.** They stay in the field list.
- **One marker per group.** `WithAttrs` and `Handle` emit one `zap.Namespace` per open group. A single nested marker would be the alternative.
- **WithAttrs drops its groups.** It clears its group stack once it has emitted them.
- **WithAttrs has no empty-input shortcut.** `WithAttrs([])` still re-binds the core and is not the identity.
- **LogWriter logs whole prefixes.** Each newline logs the *whole* buffer prefix before it, not just the line.

These are what the code does, and they differ from what a reader of slog's conventions would expect. The lemmas `GroupBranchesReversed`, `MarkersOncePerGroup`, `WithAttrsOfNothing` and `WithAttrsConsumesGroups` state them.

## Model

| member | source | states |
|---|---|---|
| ZapHandler.New | logger/zaphandler/handler.go:24-35 | with no options the handler has only the core set and the Error stack-trace level |
| ZapHandler.Convert | logger/zaphandler/handler.go:46-81 | the result is Skip exactly when the resolved attribute is the zero attribute; conversion never yields a namespace marker; an inline field only comes from a keyed group, and a keyed group becomes the inline object of its own members |
| ZapHandler.MarshalLogObject | logger/zaphandler/handler.go:39-44 | a group object adds one converted field per member, in member order |
| ZapHandler.ZapLevelOf | logger/zaphandler/handler.go:83-88 | Debug, Info, Warn and Error map to the zap level of the same name; every other slog level gives zap's zero level, Info |
| ZapHandler.AppendGroups | logger/zaphandler/handler.go:90-95 | the result is the input followed by one namespace marker per open group, in stack order |
| ZapHandler.PrepareAttr | logger/zaphandler/handler.go:131-135 | the attribute handed to conversion is never a LogValuer; without a hook it is the resolved input; with a hook it is the hook's output, given the open groups and the input, with its value resolved |
| ZapHandler.ConvertAll | logger/zaphandler/handler.go:130-144 | one converted field per attribute, in record order, skips included |
| ZapHandler.BuildFields | logger/zaphandler/handler.go:127-144 | the left-to-right fold with the addedNamespace flag builds exactly the reference placement `Placed`: the converted fields, with the markers inserted before the first non-skip field when there are groups |
| ZapHandler.Enabled | logger/zaphandler/handler.go:97-100 | the core's verdict at the mapped level; an unmapped level is asked as Info |
| ZapHandler.CallerFor | logger/zaphandler/handler.go:114-125 | the caller is defined iff caller capture is on, the record has a pc and the frame has a pc; it then carries that frame's pc, file, line and function |
| ZapHandler.EntryFor | logger/zaphandler/handler.go:103-108 | the entry has the mapped level, the record's time and message, and the handler's name |
| ZapHandler.Handle | logger/zaphandler/handler.go:102-148 | always returns nil; writes iff Check admits the entry; the write carries the mapped level, time, message, handler name, caller and the placed fields |
| ZapHandler.WithAttrs | logger/zaphandler/handler.go:150-174 | the clone's core is the old core bound to the placed fields; its groups are cleared iff the markers were emitted; every other field is the receiver's |
| ZapHandler.WithGroup | logger/zaphandler/handler.go:176-183 | the clone's groups are the old groups with the new name pushed on top; nothing else changes |
| ZapHandler.FoldBeforeNamespace | logger/zaphandler/handler.go:138-142 | before any marker is emitted, folding the converted fields onto an accumulator appends exactly their reference placement |
| ZapHandler.FoldAfterNamespace | logger/zaphandler/handler.go:138-142 | once the markers are out, the fold only appends the remaining fields |
| ZapHandlerProofs.ConvertSeesThroughLogValuer | logger/zaphandler/handler.go:73-77 | every attribute converts to the same field as its resolved form |
| ZapHandlerProofs.LogValuerOfString | logger/zaphandler/handler.go:73-77 | a LogValuer yielding a string becomes a string field under the attribute's key |
| ZapHandlerProofs.ConvertRoundTrip | logger/zaphandler/handler.go:51-67 | a non-zero attribute of a named scalar kind, or an unkeyed group, reads back from its field unchanged |
| ZapHandlerProofs.GroupBranchesReversed | logger/zaphandler/handler.go:68-72 | keyed groups with different keys give the same inline field of the group's members, which does not read back; the empty-key group becomes an object keyed "" |
| ZapHandlerProofs.GroupMembersAreMarshalled | logger/zaphandler/handler.go:37-44 | for any key, a group's field hands the encoder one converted field per member in member order; the key only chooses inline (non-empty) or object (empty) |
| ZapHandlerProofs.NestedGroupMembersReachEncoder | logger/zaphandler/handler.go:39-44 | a keyed group inside a keyed group is written as the inner inline field, whose own encoded fields are the inner member converted |
| ZapHandlerProofs.UnknownKindIsAny | logger/zaphandler/handler.go:78-79 | an unrecognised kind becomes an Any field with the same key and payload |
| ZapHandlerProofs.LevelMappingMonotone | logger/zaphandler/handler.go:83-88 | the table preserves the order of the four named levels, in both directions |
| ZapHandlerProofs.UnmappedLevelIsInfo | logger/zaphandler/handler.go:97-108 | an unmapped level behaves as Info in both Enabled and Handle's entry |
| ZapHandlerProofs.NamespaceEmittedIff | logger/zaphandler/handler.go:138-141 | markers are emitted iff there are open groups and some attribute converts to a non-skip field |
| ZapHandlerProofs.MarkersOncePerGroup | logger/zaphandler/handler.go:90-95 | a call carries no markers or exactly one per open group; removing them leaves every converted field in order, skips included |
| ZapHandlerProofs.MarkersBeforeFirstField | logger/zaphandler/handler.go:138-142 | only skips precede the markers, which sit in stack order immediately before the first non-skip field |
| ZapHandlerProofs.WithAttrsOfNothing | logger/zaphandler/handler.go:150-174 | WithAttrs of no attributes still re-binds the core, with no fields, and keeps the groups |
| ZapHandlerProofs.WithAttrsConsumesGroups | logger/zaphandler/handler.go:170-172 | after a WithAttrs that emitted the markers, records through the clone carry no markers |
| ZapHandlerProofs.RedactedAttrIsWritten | logger/zaphandler/handler.go:130-143 | with a hook set, every attribute of a written record reaches the fields as the hook rewrote it, the hook being given the open groups |
| ZapHandlerProofs.RedactedAttrIsBound | logger/zaphandler/handler.go:153-169 | the same for WithAttrs: every attribute is bound to the new core as the hook rewrote it |
| ZapHandlerProofs.IdentityHookIsNoHook | logger/zaphandler/handler.go:131-135 | a hook that returns its input is the same as no hook |
| ZapHandlerProofs.DisabledMeansNoWrite | logger/zaphandler/handler.go:97-112 | with a core whose Check only admits enabled levels, a disabled level is never written |
| ZapHandlerProofs.NestedGroupsScenario | logger/zaphandler/handler.go:127-183 | two nested groups and one attribute yield the two markers in order, then the field |
| ZapHandlerProofs.GateScenario | logger/zaphandler/handler.go:102-148 | behind an Info gate a Debug record is dropped and a Warn record writes exactly its two fields |
| Slog.Resolve | logger/zaphandler/handler.go:73-77 | resolution never yields a LogValuer and leaves any other value unchanged |
| Slog.SelfReferentialValueDegrades | logger/zaphandler/handler.go:135 | a LogValuer returning itself resolves to the too-many-LogValue-calls error value |
| Slog.ChainResolves | logger/zaphandler/handler.go:135 | a chain of LogValuers that reaches a concrete value within the budget resolves to that value |
| Slog.BudgetExhaustedFails | logger/zaphandler/handler.go:135 | when the first `n` values of a chain are all LogValuers, resolving with `n` calls left gives the error value, even if the next value is concrete |
| Slog.ExactBudgetChainFails | logger/zaphandler/handler.go:135 | a chain of exactly MaxLogValues LogValuers ending in a concrete value still resolves to the error value |
| HandlerOptions.WithName | logger/v2/zaphandler/option.go:16-20 | sets the name and leaves every other field as it was |
| HandlerOptions.WithAddCaller | logger/v2/zaphandler/option.go:23-27 | sets the caller flag and leaves every other field as it was |
| HandlerOptions.WithAddStackTraceAt | logger/v2/zaphandler/option.go:30-34 | sets the stack-trace level and leaves every other field as it was |
| HandlerOptions.WithCallerSkipCount | logger/v2/zaphandler/option.go:37-41 | sets the skip count and leaves every other field as it was |
| HandlerOptions.WithReplaceAttr | logger/v2/zaphandler/option.go:44-48 | sets the redaction hook and leaves every other field as it was |
| HandlerOptions.ApplyLast | logger/v2/zaphandler/option.go:11-13 | applying a list of options then one more equals applying the extra option to the result |
| HandlerOptions.LastStackLevelWins | logger/zaphandler/handler.go:25-32 | the last stack-trace setter passed to New decides the level, both when it is the final option and when only options that keep the level follow it |
| HandlerOptions.LastNameWins | logger/zaphandler/handler.go:25-32 | the last name setter passed to New decides the name, both when it is the final option and when only options that keep the name follow it |
| HandlerOptions.NameSurvivesLaterOption | logger/zaphandler/handler.go:25-32 | New(core, WithName(n), WithAddCaller(true)) has name n |
| HandlerOptions.StackLevelDefaultsToError | logger/zaphandler/handler.go:25-28 | with no option touching it, the stack-trace level stays at Error |
| Writer.LogLine | logger/writer.go:63-78 | Debug, Info, Warn and Error go to the method of that name; Fatal goes to Error; any other level goes to Info; the line is passed unchanged |
| Writer.ScanLines | logger/writer.go:34-41 | the scan ends just past the last newline (0 with none) and issues one log call per newline, in position order |
| Writer.NewlinesBeforeExact | logger/writer.go:35-36 | the scan positions are exactly the newline positions, strictly increasing, one per newline byte |
| Writer.Write | logger/writer.go:26-49 | returns the input length and no error; one call per newline in buffer ++ p in position order, each logging the whole prefix before it; the kept buffer is the suffix after the last newline and holds no newline; with no newline nothing is logged and the buffer is buffer ++ p |
| Writer.Flush | logger/writer.go:52-60 | a non-empty buffer is logged once, whole, and emptied; an empty one changes nothing |
| Writer.FlushTwiceIsFlushOnce | logger/writer.go:52-60 | a second Flush logs nothing and changes nothing |
| Writer.MultiWrite | logger/writer.go:91-99 | writers are called in order up to the first failure, whose reply is returned; otherwise all are called and the input length is reported, including for no writers |
| ModuleLogger.EnumerationLength | logger/module_logger.go:28 | an iteration order visits exactly as many keys as the map has |
| ModuleLogger.WithFields | logger/module_logger.go:10-34 | the new field map is the old one overridden by the new fields; name, zap logger and level are carried over; the sugared logger gains one With per new key in iteration order |
| ModuleLogger.WithField | logger/module_logger.go:37-39 | the one-entry case: the field map gains that entry and the sugared logger one With |
| ModuleLogger.ExtractContextFields | logger/module_logger.go:146-172 | a key is present iff it is one of the six known keys and the context holds a string under it; it then holds that string |
| ModuleLogger.WithContext | logger/module_logger.go:42-50 | equal to the receiver when nothing is extracted; otherwise the fields overridden by the extracted ones, and a sugared logger rebuilt with one With per extracted field in enumeration order |
| ModuleLogger.FieldsToZapFields | logger/module_logger.go:175-181 | exactly one Any field per map entry, each with that entry's key and value, no key twice |
| ModuleLogger.LogWithFields | logger/module_logger.go:116-141 | a write happens iff Check at the given level admits the message, and carries one Any field per map entry with its key and value, no key twice |
| ModuleLogger.DebugWithFields | logger/module_logger.go:116-120 | writes iff Check at Debug admits the message; the write is one Any field per map entry with its key and value, no key twice |
| ModuleLogger.InfoWithFields | logger/module_logger.go:123-127 | writes iff Check at Info admits the message; the write is one Any field per map entry with its key and value, no key twice |
| ModuleLogger.WarnWithFields | logger/module_logger.go:130-134 | writes iff Check at Warn admits the message; the write is one Any field per map entry with its key and value, no key twice |
| ModuleLogger.ErrorWithFields | logger/module_logger.go:137-141 | writes iff Check at Error admits the message; the write is one Any field per map entry with its key and value, no key twice |
| Masq.FieldPrefixes | logger/logger.go:120-126 | one field-prefix mask option per key, in key order |
| Ctx.Lookup | logger/logger.go:145 | a key bound by the outermost WithValue is found there; an empty context holds nothing |
| Logger.KindString | logger/handler.go:16-18 | the string recovers the kind |
| Logger.DefaultConfig | logger/logger.go:42-55 | kind ZapHandler, level Info, source on, stack traces at Error, skip 1, no output path, one field-prefix mask per PII key in key order |
| Logger.WithKind | logger/logger.go:90-94 | sets the kind and nothing else |
| Logger.WithLevel | logger/logger.go:96-100 | sets the level and nothing else |
| Logger.WithAddSource | logger/logger.go:102-106 | sets the source flag and nothing else |
| Logger.WithAddStackTraceAt | logger/logger.go:108-112 | sets the stack-trace level and nothing else |
| Logger.WithCallerSkipCount | logger/logger.go:114-118 | sets the skip count and nothing else |
| Logger.WithSecureFields | logger/logger.go:120-126 | keeps the existing mask options and appends one field-prefix option per name, in order |
| Logger.WithMaskOptions | logger/logger.go:128-132 | keeps the existing mask options and appends the given ones |
| Logger.WithOutfile | logger/logger.go:134-138 | sets the output path and nothing else |
| Logger.ApplyLast | logger/logger.go:59-61 | options run left to right: one more option runs on the result of the others |
| Logger.LastSetterWins | logger/logger.go:59-61 | for every scalar field, a setter appended last to New's options decides its value |
| Logger.LastKindWins | logger/logger.go:59-61 | the last setter of `kind` decides it, whatever ran before, also when only options that keep `kind` run after it |
| Logger.LastLevelWins | logger/logger.go:59-61 | the last setter of `level` decides it, whatever ran before, also when only options that keep `level` run after it |
| Logger.LastAddSourceWins | logger/logger.go:59-61 | the last setter of `addSource` decides it, whatever ran before, also when only options that keep `addSource` run after it |
| Logger.LastStackLevelWins | logger/logger.go:59-61 | the last setter of `addStackTraceAt` decides it, whatever ran before, also when only options that keep `addStackTraceAt` run after it |
| Logger.LastSkipCountWins | logger/logger.go:59-61 | the last setter of `callerSkipCount` decides it, whatever ran before, also when only options that keep `callerSkipCount` run after it |
| Logger.LastOutputWins | logger/logger.go:59-61 | the last setter of `output` decides it, whatever ran before, also when only options that keep `output` run after it |
| Logger.KindSurvivesLaterLevel | logger/logger.go:59-61 | New(WithKind(k), WithLevel(l)) has kind k and level l |
| Logger.SettersKeepMasks | logger/logger.go:90-138 | no option of the package removes a mask option already collected |
| Logger.PiiMasksSurvive | logger/logger.go:53-61 | with options that only append masks, the PII prefixes stay at the front, in key order |
| Logger.NewZapSlogHandler | logger/handler.go:20-45 | a JSON core at the mapped level (Info when unmapped); name, caller flag, stack-trace level, skip count and masq hook taken from the configuration; no groups |
| Logger.HandlerOptionsFor | logger/handler.go:37-44 | the five handler options newZapSlogHandler passes |
| Logger.HandlerOptionsSetFields | logger/handler.go:37-44 | on any handler, the options set name, caller flag, stack level, skip count and the masq hook from the configuration and leave core and groups alone |
| Logger.WiringSetsEachField | logger/handler.go:37-44 | the five options run on New's defaults yield the configured handler, each field set once |
| Logger.New | logger/logger.go:41-88 | the configuration is the defaults folded through the options; the slog logger is built on the zap handler for every kind |
| Logger.KindOnlyNamesHandler | logger/logger.go:77-80 | configurations differing only in kind get handlers differing only in name |
| Logger.Clone | logger/logger.go:167-170 | a different pointer to an identical struct, sharing the configuration |
| Logger.With | logger/logger.go:156-165 | no arguments gives the receiver itself; otherwise a distinct clone whose slog logger carries the arguments, with the configuration shared |
| Logger.ToContext | logger/logger.go:140-142 | the context now yields the logger under the logger key and is unchanged for every other key |
| Logger.FromContext | logger/logger.go:144-150 | succeeds iff the logger key holds a *Logger, nil included, returning it; otherwise fails with "logger not found in context" |
| Logger.ContextRoundTrip | logger/logger.go:140-150 | reading back a stored logger pointer gives it back; the empty context has none |
| Logger.StoredNilIsFound | logger/logger.go:140-150 | a stored nil pointer is found: success with nil and no error |
| Logger.OtherKeysDoNotHide | logger/logger.go:144-150 | values stored later under other keys do not hide the logger |
| LoggerV2.DefaultConfig | logger/v2/logger.go:33-45 | kind ZapHandler, level Info, source on, stack traces at Error, skip 1, one field-prefix mask per PII key in key order |
| LoggerV2.WithKind | logger/v2/logger.go:72-76 | sets the kind and nothing else |
| LoggerV2.WithLevel | logger/v2/logger.go:78-82 | sets the level and nothing else |
| LoggerV2.WithAddSource | logger/v2/logger.go:84-88 | sets the source flag and nothing else |
| LoggerV2.WithAddStackTraceAt | logger/v2/logger.go:90-94 | sets the stack-trace level and nothing else |
| LoggerV2.WithCallerSkipCount | logger/v2/logger.go:96-100 | sets the skip count and nothing else |
| LoggerV2.WithSecureFields | logger/v2/logger.go:102-108 | keeps the existing mask options and appends one field-prefix option per name, in order |
| LoggerV2.WithMaskOptions | logger/v2/logger.go:110-114 | keeps the existing mask options and appends the given ones |
| LoggerV2.ApplyLast | logger/v2/logger.go:49-51 | options run left to right: one more option runs on the result of the others |
| LoggerV2.LastSetterWins | logger/v2/logger.go:49-51 | for every scalar field, a setter appended last to New's options decides its value |
| LoggerV2.LastKindWins | logger/v2/logger.go:49-51 | the last setter of `kind` decides it, whatever ran before, also when only options that keep `kind` run after it |
| LoggerV2.LastLevelWins | logger/v2/logger.go:49-51 | the last setter of `level` decides it, whatever ran before, also when only options that keep `level` run after it |
| LoggerV2.LastAddSourceWins | logger/v2/logger.go:49-51 | the last setter of `addSource` decides it, whatever ran before, also when only options that keep `addSource` run after it |
| LoggerV2.LastStackLevelWins | logger/v2/logger.go:49-51 | the last setter of `addStackTraceAt` decides it, whatever ran before, also when only options that keep `addStackTraceAt` run after it |
| LoggerV2.LastSkipCountWins | logger/v2/logger.go:49-51 | the last setter of `callerSkipCount` decides it, whatever ran before, also when only options that keep `callerSkipCount` run after it |
| LoggerV2.KindSurvivesLaterLevel | logger/v2/logger.go:49-51 | New(WithKind(k), WithLevel(l)) has kind k and level l |
| LoggerV2.SettersKeepMasks | logger/v2/logger.go:72-114 | no option of the package removes a mask option already collected |
| LoggerV2.PiiMasksSurvive | logger/v2/logger.go:43-51 | with options that only append masks, the PII prefixes stay at the front, in key order |
| LoggerV2.New | logger/v2/logger.go:33-70 | the configuration is the defaults folded through the options, and the slog logger is built from it |
| LoggerV2.Clone | logger/v2/logger.go:143-146 | a different pointer to an identical struct, sharing the configuration |
| LoggerV2.With | logger/v2/logger.go:132-141 | no arguments gives the receiver itself; otherwise a distinct clone whose slog logger carries the arguments |
| LoggerV2.ToContext | logger/v2/logger.go:116-118 | the context now yields the logger under the logger key and is unchanged for every other key |
| LoggerV2.FromContext | logger/v2/logger.go:120-126 | succeeds iff the logger key holds a *Logger, nil included, returning it; otherwise fails with "logger not found in context" |
| LoggerV2.ContextRoundTrip | logger/v2/logger.go:116-126 | reading back a stored logger pointer gives it back; the empty context has none |
| LoggerV2.StoredNilIsFound | logger/v2/logger.go:116-126 | a stored nil pointer is found: success with nil and no error |
| LoggerV2.OtherKeysDoNotHide | logger/v2/logger.go:120-126 | values stored later under other keys do not hide the logger |
| Formats.EncoderConfigFor | logger/formats.go:12-34 | fixed keys and line ending; lowercase, ISO8601, seconds and short encoders, or in development the colour, layout, string and full encoders |
| Formats.GetEncoder | logger/formats.go:11-45 | the console encoder iff the format is "console", JSON otherwise; fixed keys and line ending; lowercase, ISO8601, seconds and short encoders, or in development the colour, layout, string and full encoders |
| Formats.FormatOnlyPicksEncoder | logger/formats.go:37-44 | in the same mode the format changes only the choice of encoder |
| Formats.DevelopmentSwapsOnlyEncoders | logger/formats.go:27-34 | development mode replaces exactly the four encoders and no key |
| Formats.CreateZapOptions | logger/formats.go:48-52 | the list is never empty and starts with caller skip 1 |
| Formats.CreateZapOptionsMembers | logger/formats.go:54-76 | each of caller, stack trace at Error, development and the one-second sampler is present iff its flag is set |
| Formats.CreateZapOptionsOrder | logger/formats.go:48-79 | length one plus the enabled flags; fixed order caller skip, caller, stack trace, development, sampler, so no option twice |
| Formats.OptionsRoundTrip | logger/formats.go:48-79 | reading the option list back recovers every flag and the sampler's initial and thereafter counts |
| Formats.SameOptionsIff | logger/formats.go:48-79 | two configurations get the same options iff they ask for the same flags and sampler |

## Left out

- Output plumbing. This covers:
  - opening the output file and the panic when that fails (logger/logger.go:63-69);
  - `Logger.WithOutputFile` (logger/logger.go:172-185);
  - `zapcore.AddSync`;
  - what the JSON and console encoders write.

  These are I/O and library behaviour. Encoders, cores and options are tags, and `output` is kept only as the configured path.
- The mutexes of `module_logger.go` and `writer.go`. Every method is modelled as one sequential step.
- The internals of masq redaction and of slog's LogValuer. The redaction hook is a named `Redactor` that the environment interprets. `LogValue` is a function from a reference to a value.
- The caller frame lookup (`runtime.CallersFrames`). It is the environment function `frame`.
- Payload values:
  - float, time and duration payloads are opaque values;
  - integers are unbounded, so int64 and uint64 widths are not modelled.
- `addStackAt` and `callerSkipCount`. The handler stores them but never reads them, so no stack-trace or skip behaviour is modelled.
- The sugared pass-through methods (`Debug` … `Fatalf`) and `SetLevel` of `module_logger.go`. `getZapLevel` is not part of this model. `Fatal` exits the process.
- The loggers' `slog.Logger` methods. The slog logger is only recorded by how it was built (`SlogNew`, then `SlogWith` per `With`).
- Pointer identity and allocation. A fresh pointer is an `addr` parameter; `Clone` and `With` ask for one different from the receiver's.
- Methods called on a nil `*Logger`. In Go, `Clone`, and `With` with arguments, would panic on nil; `With()` with no arguments returns the nil receiver without dereferencing it. The model's `Clone` and `With` take a `Logger` value, so that nil case of `With()` is not modelled. Only `ToContext` and `FromContext` carry a possibly nil pointer (`LoggerRef`).
- The configuration pointer. Clones share it, and nothing in the model mutates it afterwards, so it is kept as a value.
- `logger/v1/config.go`, a process-wide singleton, and the example programs.
- The v2 package's own `Kind` type and `newZapSlogHandler` are not part of this model. `LoggerV2` reuses the same named-string `Kind`, and its slog logger records the configuration its handler is built from.
- The constants behind `LogWriter`'s level strings and `PIIFieldKeys` are not part of this model:
  - the writer levels are a datatype of distinct levels plus any other string;
  - the PII keys are a parameter.
- Writer.MultiWrite: each writer's reply to `p` is given by a function, so a writer's own side effects are not modelled.
- ModuleLogger.WithFields: the merge order over the new map is the `order` parameter. Only the sugared logger's `With` chain depends on it.
- Slog.Resolve: a LogValue method that panics is not modelled. Slog would turn the panic into an error value.
