# Coco MCP: verified model

A model of the parts of Coco MCP, a client, debugger and gateway for Model Context Protocol servers,
whose correctness depends on more than one function, and proofs about them. What the program does in
place is a class or a method here, proved against a function or a relation; what it promises is proved
about that function or relation, for all inputs, all runs and all interleavings.

- **Schema comparison** (`Json`, `Changes`, `Pointer`, `SchemaDiff`): how two JSON Schemas are compared
  and their differences classified, by direction. `SchemaMeaning` says what a schema accepts, after
  JSON Schema 2020-12, Validation, sections 6.1 to 6.5, and Core, sections 10.2.1.1, 10.2.1.2, 10.3.1.2,
  10.3.2.1 and 10.3.2.3. `SchemaSoundness` proves that a comparison without a breaking change keeps what
  was accepted; `SchemaRules` what each rule reports, told without the table of directions, and why;
  `SchemaDuality` exactly when the two directions agree; `SchemaUses` exactly when a change is reported
  at a place that uses it; `SchemaExamples` shows changes that are missed, and proves of each which
  hypothesis of the soundness theorems it does not meet.
- **Snapshots** (`Canonical`, `Snapshots`, `SnapshotDiff`, `DiffReport`, `DiffPlaces`, `DiffMeaning`): the
  canonical form behind the digest, the comparison of two snapshots, where every difference is reported
  and when none is, and what a report without a breaking change promises a caller.
- **Session lifecycle** (`Lifecycle`): a session's start arrives as a result, its end as an event, and
  nothing orders the two.
- **Streams and timers** (`Listen`, `Inflight`, `Keepalive`, `Stderr`, `Pagination`): the subscription
  stream, the requests in flight and the keepalive over them, stderr framing, and lists read by page.
- **The window's state** (`ItemList`, `ItemCache`, `Log`, `Responses`): structures that must agree with
  a simple specification whatever happens to them.
- **The gateway** (`Namespaces`, `PendingCalls`): which path each server has, and calls waiting for
  their answers in a table keyed by text.
- **Configuration** (`Config`, `Import`): the `mcpServers` block written and read back, and the import
  into keyring and database.

## What was found

Where the code does not do what it promises, the exact condition under which it does is proved, or a
concrete case is given:

- A change inside a definition, where the walk finds it at a use, is reported if and only if the
  resolved texts differ at every schema above the use, `SchemaUses.EveryUseIsReported`:
  crates/mcp-diff/src/schema.rs:153 stops at equal texts, although crates/mcp-diff/src/lib.rs:9-11
  promises every use. It finds a change there only with the references it follows at that depth, 32 less
  one for every level down, and none at all at the 32nd: `SchemaUses.NoHopsAtTheLimit`.
  `SchemaExamples.AReferenceUnderEqualText` is a use that is missed. The other `SchemaExamples` are
  changes that break a value and are not reported as breaking.
- Input and output comparison are duals only for mirrored schemas, `SchemaDuality.DirectionDuality`: an
  optional property that appears has no dual.
- A refused request carries no generation: when the request was of an older session, it ends the session
  connected now if that signs in with OAuth, and only then, `Lifecycle.OlderAttemptsChangeNothing`;
  `Lifecycle.ALateRefusalEndsTheNext` is a run that comes to it.
- Connecting clears change marks and subscriptions without moving the revision on, so a list that showed
  one keeps showing it until something else changes: `ItemCache.ConnectKeepsTheCacheGood`,
  `ItemCache.AConnectKeepsOldMarks`.
- A subscription answered with success is lost if and only if the last answer about its URI is an
  unsubscription or a refusal, `Listen.WhenASubscriptionIsLost`: subscribing again and being refused
  forgets the first, `Listen.ARefusedRepeatForgetsTheFirst`.
- The early exit on equal digests, when they are no collision, hides changes if and only if, in a list
  that is compared, two items of one name differ, `DiffReport.WhatEqualDigestsFind`; identical
  duplicates do not: `DiffReport.ARepeatedNameDiffers` has two that do.
- The mark for agents' rows (apps/desktop/src/state.rs:620) is wrong if and only if one was pushed since
  the last clear and the last of these has left the log, `Log.TheMarkIsRight`;
  `Log.TheMarkOutlivesTheRow` is a log where it is not.
- A path made unique by a number can be longer than a path may be, and then is not kept in the settings.
  Switching such a server on or off moves it if and only if that path is not the one its name gives
  anyway, `Namespaces.WhatSwitchingKeeps`; `Namespaces.ASwitchMovesALongPath` is one that moves.
- A carriage return where a long stderr line is cut is neither shown nor counted:
  `Stderr.ShownOrCounted`.
- A server with an `Authorization` header of its own does not survive export and import, and the export
  has no note that says so: `Config.RoundTrip`, `Config.WhatIsLostIsNoted`.

## Model

| member | source | states |
|---|---|---|
| Pointer.Resolve | crates/mcp-diff/src/schema.rs:81-93 | Following `$ref`s by hand, one hop at a time and at most 32 minus the depth of them, ends at the schema the hop-by-hop reading names, whatever cycle the references form. |
| Pointer.ResolvedIsTheEnd | crates/mcp-diff/src/schema.rs:81-93 | The schema reached is the one a whole number of references leads to, and either none can be followed from it or the bound is met. |
| Pointer.HopsRunOut | crates/mcp-diff/src/schema.rs:81-93 | The bound is 32 references at the root, one fewer at every level down, and none from the 32nd on. |
| Pointer.PointersFollowTheirKeys | crates/mcp-diff/src/schema.rs:81-93 | A pointer written from keys, whatever characters they have, leads to what is under those keys one inside the other: section 4 of RFC 6901. |
| Pointer.IndexIsItsDigits | crates/mcp-diff/src/schema.rs:81-93 | An array index is read from its decimal digits without a leading zero, and from no other text. |
| SchemaDiff.Compare | crates/mcp-diff/src/schema.rs:59-78 | Appends to the report exactly the changes the comparison is specified to find, and nothing when the two schemas are equal. |
| SchemaDiff.Walk | crates/mcp-diff/src/schema.rs:147-168 | The recursion stops below 32 levels and at schemas that read equal; two schemas that are not both objects are one breaking change. |
| SchemaDiff.WalkNode | crates/mcp-diff/src/schema.rs:169-516 | The rules of one node, in the order the code goes through them, with every keyword no rule handled reported by the last one. |
| SchemaDiff.WalkKeywords | crates/mcp-diff/src/schema.rs:170-350 | The keywords before `properties`; returns the set of keywords it handled, which the last rule leaves alone. |
| SchemaDiff.WalkProperties | crates/mcp-diff/src/schema.rs:352-409 | Each property of the old schema in turn: gone, required or not any more, and its own comparison. |
| SchemaDiff.WalkAdded | crates/mcp-diff/src/schema.rs:411-432 | Each property only the new schema declares, breaking only for an input that requires it. |
| SchemaDiff.WalkBranchKeys | crates/mcp-diff/src/schema.rs:450-496 | `anyOf`, `oneOf` and `allOf`: branch by branch when the lists have one length, otherwise one change whose severity depends on the keyword and on which list is longer. |
| SchemaDiff.WalkUnknown | crates/mcp-diff/src/schema.rs:502-515 | Any keyword without a rule that differs is one breaking change. |
| SchemaRules.TypeRule | crates/mcp-diff/src/schema.rs:186-208 | In both directions, with the source the schema whose values must go on being accepted: `type` is one change where the sets of types differ, breaking unless both list types and the target lists all of the source. |
| SchemaRules.EnumRule | crates/mcp-diff/src/schema.rs:210-252 | `enum` is one breaking change where the target lost a value and one compatible change where it gained one, and none else. |
| SchemaRules.BoundRule | crates/mcp-diff/src/schema.rs:265-302 | A bound is one change where it differs, breaking unless the target bound is no stricter. |
| SchemaRules.BoundIsExact | crates/mcp-diff/src/schema.rs:265-302 | No stricter means exactly that every number the source bound lets through the target bound does. |
| SchemaRules.FixedRule | crates/mcp-diff/src/schema.rs:304-324 | `pattern` and its like are one change where they differ, breaking unless the target has none. |
| SchemaRules.ConstRule | crates/mcp-diff/src/schema.rs:253-263 | `const` that differs is one breaking change. |
| SchemaRules.AdditionalRule | crates/mcp-diff/src/schema.rs:326-350 | `additionalProperties` is one change where one side forbids and the other does not, breaking exactly when the target forbids. |
| SchemaRules.RequiredRule | crates/mcp-diff/src/schema.rs:376-400 | A property both sides declare is one change where one side requires it, breaking exactly when the target does. |
| SchemaRules.UnknownRule | crates/mcp-diff/src/schema.rs:502-515 | A keyword without a rule that differs is one breaking change, and no other keyword is. |
| SchemaRules.MetadataRule | crates/mcp-diff/src/schema.rs:170-184 | What says nothing about values is cosmetic where it differs. |
| SchemaRules.EveryRuleIsReported | crates/mcp-diff/src/schema.rs:169-350 | No rule is left out: what any of them finds is reported by the node. |
| SchemaRules.BranchCountRule | crates/mcp-diff/src/schema.rs:463-484 | For every pair of objects and both directions: where both have a list of schemas under a keyword, of different lengths, the node reports one change there, breaking exactly when the target list is shorter (`anyOf`, `oneOf`) or longer (`allOf`). |
| SchemaRules.BranchesAppearRule | crates/mcp-diff/src/schema.rs:485-496 | A list of schemas on one side alone is one breaking change. |
| SchemaRules.MoreAlternativesKeepValues | crates/mcp-diff/src/schema.rs:463-484 | The reason for `anyOf`: where the source list is a prefix of the target list, every value stays accepted by the list. |
| SchemaRules.FewerDemandsKeepValues | crates/mcp-diff/src/schema.rs:463-484 | The reason for `allOf`: where the target list is a prefix of the source list, every value stays accepted by the list. |
| SchemaRules.StricterListsAreBreaking | crates/mcp-diff/src/schema.rs:463-484 | A whole comparison is never without a breaking change when the target list is a proper prefix (`anyOf`, `oneOf`) of the source list, or the source list of the target list (`allOf`). |
| SchemaSoundness.EscapeInjective | crates/mcp-diff/src/schema.rs:137-141 | No two names print alike, so sets of printed elements compare as sets of values. |
| SchemaSoundness.PlainNameIsFound | crates/mcp-diff/src/schema.rs:354-385 | A name that prints as it is, is found in the printed `required` set exactly when it is listed. |
| SchemaSoundness.OnlyPlainNamesAreFound | crates/mcp-diff/src/schema.rs:354-385 | And no other name is: a name is found exactly when it is listed, for every schema, if and only if it prints as it is. |
| SchemaSoundness.WhatIsPlain | crates/mcp-diff/src/schema.rs:137-141 | The names that print as they are, are those without quotes, backslashes and control characters. |
| SchemaSoundness.TypeLoosens | crates/mcp-diff/src/schema.rs:186-208 | When the types are not reported as breaking, every value of a type the source schema allows is of a type the target allows, in both directions. |
| SchemaSoundness.TypeIsQuiet | crates/mcp-diff/src/schema.rs:186-208 | `type` is not reported as breaking if and only if it stays as it is, or both sides list types and the target lists all of the source. |
| SchemaSoundness.TypeIsExact | crates/mcp-diff/src/schema.rs:186-208 | A change of `type` keeps every value if and only if the target includes each type of the source, `number` including `integer`, and where the source has no `type` the target has none or names them all; what is reported beyond that breaks nothing. |
| SchemaSoundness.EnumLoosens | crates/mcp-diff/src/schema.rs:210-252 | When `enum` is not reported as breaking, and does not appear, every value the source admits by `enum` the target does. |
| SchemaSoundness.EnumIsExact | crates/mcp-diff/src/schema.rs:210-252 | With `enum` on both sides or neither, it is not reported as breaking if and only if it keeps every value; in general an `enum` that is not reported keeps every value if and only if it does not appear. |
| SchemaSoundness.BoundsLoosen | crates/mcp-diff/src/schema.rs:265-302 | When a numeric or length bound is not reported as breaking, the target bound admits whatever the source bound does. |
| SchemaSoundness.ExtrasStayOk | crates/mcp-diff/src/schema.rs:326-350 | Values whose undeclared properties the source admits have undeclared properties the target admits, although dropping a declared property makes it an undeclared one. |
| SchemaSoundness.PropertiesStayOk | crates/mcp-diff/src/schema.rs:365-409 | Properties stay accepted, each through the comparison of its own schema one level down. |
| SchemaSoundness.Sound | crates/mcp-diff/src/schema.rs:147-516 | Induction over all keywords together, in both directions: a walk that reports nothing breaking at a node, on well-formed schemas that refer to nothing and nest no deeper than the walk goes, means acceptance carries over at that node. |
| SchemaSoundness.InputIsSound | crates/mcp-diff/src/schema.rs:147-516 | An input comparison without a breaking change, of schemas that refer to nothing: every value the old schema accepts, and that uses no property the new one newly declares, is accepted by the new schema. |
| SchemaSoundness.DeclaredInputIsSound | crates/mcp-diff/src/schema.rs:147-516 | The same for every value that uses only properties the old schema declares, at each level. |
| SchemaSoundness.OutputIsSound | crates/mcp-diff/src/schema.rs:147-516 | An output comparison without a breaking change: every value the new schema accepts is accepted by the old one, read by a client that ignores properties it does not declare. |
| SchemaExamples.AnEnumThatAppears | crates/mcp-diff/src/schema.rs:137-252 | `enum` on one side only is read as an empty list: a change that breaks a value is not reported as breaking. |
| SchemaExamples.AnEmptyTypeList | crates/mcp-diff/src/schema.rs:115-124 | A `type` that lists nothing reads like no `type`: the change to it is missed. |
| SchemaExamples.ASchemaForOtherProperties | crates/mcp-diff/src/schema.rs:327-329 | `additionalProperties` that is a schema is read as allowed: the change to it is missed. |
| SchemaExamples.ARequiredNameNotDeclared | crates/mcp-diff/src/schema.rs:354-432 | A name that is required but not declared is never looked at. |
| SchemaExamples.ARequiredNameThatIsEscaped | crates/mcp-diff/src/schema.rs:364-385 | A declared name that prints escaped is never found in `required`, so requiring it is missed. |
| SchemaExamples.AShorterAllOf | crates/mcp-diff/src/schema.rs:463-484 | Lists of different lengths are not compared branch by branch: an `allOf` that gets shorter and stricter passes as loosened. |
| SchemaExamples.ANullAlternative | crates/mcp-diff/src/schema.rs:125-133 | A null alternative counts as a type of the schema around it, so a `type` that appears beside it passes. |
| SchemaExamples.ANewlyDeclaredProperty | crates/mcp-diff/src/schema.rs:411-432 | A value that already uses a property the new schema newly declares can be broken by it. |
| SchemaExamples.AnUnevaluatedProperty | crates/mcp-diff/src/schema.rs:352-409 | `unevaluatedProperties` depends on the keywords beside it: a property that goes from `properties` turns away values that use it, which is not reported, although the keywords without a rule are the same on both sides. |
| SchemaExamples.ANewOutputProperty | crates/mcp-diff/src/schema.rs:411-432 | A client that turns away properties it does not know is broken by an output property that is reported as compatible. |
| SchemaExamples.AOneOfThatLoosens | crates/mcp-diff/src/schema.rs:450-496 | Loosening one branch of a `oneOf` can leave a value accepted by two, which no breaking change reports. |
| SchemaExamples.AReferenceUnderEqualText | crates/mcp-diff/src/schema.rs:147-155 | Such a use: a definition changes under text that stays the same. The use holds a breaking change, the schema above it reads equal, and the comparison reports nothing breaking. |
| SchemaUses.UseIsReported | crates/mcp-diff/src/schema.rs:147-155 | For every pair of schemas, at any depth: a change the walk finds at a place reached by properties, items and branches, following there and on the way as many references as it follows at that depth, is reported if and only if the resolved texts differ at every schema above it. |
| SchemaUses.ComparedUseIsReported | crates/mcp-diff/src/schema.rs:59-78 | The same for a whole comparison of two roots. |
| SchemaUses.EveryUseIsReported | crates/mcp-diff/src/lib.rs:9-11 | So the promise that a change is reported at every use is kept, for a pair of roots, if and only if no schema above a use with a change reads equal on both sides. |
| SchemaUses.NoHopsAtTheLimit | crates/mcp-diff/src/schema.rs:81-93 | At the 32nd level no reference is followed any more: a use there that reads the same on both sides shows no change. |
| SchemaExamples.AChangeTooDeep | crates/mcp-diff/src/schema.rs:148-150 | A change below the 33rd level is not reported at all. |
| SchemaExamples.AnOptionalPropertyHasNoDual | crates/mcp-diff/src/schema.rs:411-432 | An optional property that appears is compatible on an input but, read backwards, a breaking removal on an output. |
| SchemaDuality.NameDuality | crates/mcp-diff/src/schema.rs:352-432 | For one property name, the old-to-new input report and the new-to-old output report agree exactly when the name is mirrored: declared by both sides with mirrored schemas, or dropped where the rest is allowed, or added as required. |
| SchemaDuality.ItemsDuality | crates/mcp-diff/src/schema.rs:434-448 | The same for `items`. |
| SchemaDuality.BranchKeyDuality | crates/mcp-diff/src/schema.rs:450-496 | The same for one list of branches. |
| SchemaDuality.DirectionDuality | crates/mcp-diff/src/schema.rs:20-33 | Comparing a to b as input and b to a as output report the same severities at the same places, counted with multiplicity, if and only if the two schemas are mirrored at every level. |
| SchemaDuality.SameNamesDuality | crates/mcp-diff/src/schema.rs:20-33 | In particular they do for schemas that declare the same property names at every level. |
| Canonical.CanonicalIsOrdered | crates/mcp-core/src/snapshot.rs:283-298 | However a value is written, its canonical form is its meaning written with every object in key order. |
| Canonical.CanonicalizeIsIdempotent | crates/mcp-core/src/snapshot.rs:283-298 | Canonicalizing twice is canonicalizing once, and keeps a value well formed. |
| Canonical.CanonicalTellsMeaning | crates/mcp-core/src/snapshot.rs:283-298 | Two values have one canonical form if and only if they are equal up to the order of object keys, at every depth. |
| Canonical.MeaningOfOrdered | crates/mcp-core/src/snapshot.rs:283-298 | Writing a meaning in order and reading it gives the meaning back. |
| Snapshots.FieldOfBuild | crates/mcp-core/src/snapshot.rs:247-254 | Each field of the digest content reads back as the value it was written with, or as absent, beside whatever unknown fields the server sent. |
| Snapshots.ContentMeans | crates/mcp-core/src/snapshot.rs:247-254 | The contents of two snapshots mean the same if and only if everything in them does: the server, the capabilities, and item by item all four lists, with the fields no comparison looks at and those the server made up. |
| SnapshotDiff.DiffServer | crates/mcp-diff/src/lib.rs:251-318 | Appends the differences of the server itself: version, info, instructions, and each capability gone or new. |
| SnapshotDiff.DiffTools | crates/mcp-diff/src/lib.rs:320-409 | Appends, for each old tool, its removal or the differences to its new self, schemas included, then each tool that is new. |
| SnapshotDiff.DiffResources | crates/mcp-diff/src/lib.rs:411-464 | The same for resources, by URI. |
| SnapshotDiff.DiffTemplates | crates/mcp-diff/src/lib.rs:466-529 | The same for resource templates, by URI template. |
| SnapshotDiff.DiffPrompts | crates/mcp-diff/src/lib.rs:531-640 | The same for prompts, with their arguments compared one by one. |
| DiffReport.SortSorts | crates/mcp-diff/src/lib.rs:170-176 | The report lists the most severe changes first and then by item name, is a permutation of what was found, and keeps changes of one item and severity in the order they were found. |
| DiffReport.SeverestFirst | crates/mcp-diff/src/lib.rs:170-176 | Breaking changes are listed first, then compatible ones, then cosmetic ones, and those of one severity by item name. |
| DiffReport.ReportCounts | crates/mcp-diff/src/lib.rs:170-188 | Each count is the number of changes of that severity that were found; there is a breaking one exactly when the breaking count is positive, and then the first change listed is breaking; the report says unchanged exactly when nothing was found. |
| DiffReport.RunComparisons | crates/mcp-diff/src/lib.rs:210-228 | Reports the server, then each list both sides could read, in the order of the lists; a list that failed on either side adds nothing. |
| DiffReport.DigestsTell | crates/mcp-core/src/snapshot.rs:257-262 | So two snapshots that do not collide have one digest if and only if all of their content is the same. |
| DiffReport.WhatEqualDigestsFind | crates/mcp-diff/src/lib.rs:208-210 | For two well-formed snapshots of equal digests, whatever the hash, if that is no collision of these two: the comparisons would find nothing if and only if, in every list that both could read, each item agrees with the first of its name on all that is compared. |
| DiffReport.AgainstItself | crates/mcp-diff/src/lib.rs:208-210 | In particular a snapshot compared with itself shows changes exactly when two items of one name, in a list that was read, differ. |
| DiffReport.UniqueNamesAgree | crates/mcp-diff/src/lib.rs:208-210 | So it shows none when no name is repeated. |
| DiffReport.DiffSnapshots | crates/mcp-diff/src/lib.rs:192-229 | Whatever the hash: with unequal digests the report is that of every comparison. With equal digests, unless these two snapshots collide, the early exit gives that very report if and only if, in the lists compared, items of one name agree. |
| DiffReport.ARepeatedNameDiffers | crates/mcp-diff/src/lib.rs:411-444 | There are such snapshots: two resources of one URI and different types. |
| DiffReport.SkippedListsDoNotMatter | crates/mcp-diff/src/lib.rs:200-228 | What any of the four lists holds has no influence on the report when one side could not read that list. |
| DiffMeaning.ListIsQuiet | crates/mcp-diff/src/lib.rs:320-409 | A list of items reports nothing breaking if and only if every old item is still there and breaks nothing; new items never break. |
| DiffPlaces.ServerReports | crates/mcp-diff/src/lib.rs:251-318 | Of the server, each part that differs is reported, at its own place and with its own severity, and nothing else is: the version compatible, info and instructions cosmetic, a capability gone breaking and one new compatible. |
| DiffPlaces.NoServerChanges | crates/mcp-diff/src/lib.rs:251-318 | Nothing is reported of the server if and only if version, meaning of the info, instructions and the set of capabilities agree. |
| DiffPlaces.ListReports | crates/mcp-diff/src/lib.rs:320-409 | Of a list, each item gone is reported as breaking and each item new as compatible, under its name; the others have what their pair has, and nothing else is reported. |
| DiffPlaces.ToolReports | crates/mcp-diff/src/lib.rs:329-393 | Of two tools of one name: a text or an annotation that differs is cosmetic, an output schema that goes breaking and one that appears compatible, and both comparisons of schemas are there; nothing else is. |
| DiffPlaces.ResourceReports | crates/mcp-diff/src/lib.rs:411-464 | Of two resources of one URI: a MIME type that differs is breaking, a name, title or description cosmetic; nothing else is reported. |
| DiffPlaces.TemplateReports | crates/mcp-diff/src/lib.rs:466-529 | The same for resource templates. |
| DiffPlaces.PromptReports | crates/mcp-diff/src/lib.rs:531-640 | Of two prompts of one name: an argument that must be given now, or is new and must be, is breaking; one that need not be now, is gone, or is new and need not be, compatible; a text that differs cosmetic; nothing else is reported. |
| DiffPlaces.NothingIsFound | crates/mcp-diff/src/lib.rs:210-228 | All comparisons together find nothing if and only if the server agrees and, in every list both sides could read, each old item has a new self that agrees and no new item is without an old one. |
| DiffPlaces.UnchangedMeans | crates/mcp-diff/src/lib.rs:192-229 | With unequal digests the report says unchanged if and only if that is so. |
| DiffMeaning.ResourcesAreQuiet | crates/mcp-diff/src/lib.rs:411-464 | Resources report nothing breaking if and only if each is still there under its URI with its MIME type. |
| DiffMeaning.TemplatesAreQuiet | crates/mcp-diff/src/lib.rs:466-529 | The same for resource templates. |
| DiffMeaning.ServerIsQuiet | crates/mcp-diff/src/lib.rs:251-318 | The server itself reports nothing breaking if and only if it keeps every capability. |
| DiffMeaning.PromptIsQuiet | crates/mcp-diff/src/lib.rs:531-640 | A prompt reports nothing breaking if and only if every argument it must be given now is one it had to be given before. |
| DiffMeaning.ToolIsQuiet | crates/mcp-diff/src/lib.rs:329-393 | A tool reports nothing breaking if and only if neither of its schema comparisons does and no output schema is withdrawn. |
| DiffMeaning.CallsStayValid | crates/mcp-diff/src/lib.rs:192-229 | End to end, from the breaking count of the report: when it is zero, every compared tool is still there, and accepts every call its old input schema accepted that uses no property the new one newly declares. |
| DiffMeaning.ResultsStayReadable | crates/mcp-diff/src/lib.rs:192-229 | End to end: and every result its new output schema allows is one its old output schema allows, to a client that ignores unknown properties. |
| Lifecycle.ServerEntry.StartConnect | apps/desktop/src/state.rs:2419-2434 | Starting a connect takes the stored session out, moves the generation on and shows connecting. |
| Lifecycle.ServerEntry.Close | apps/desktop/src/state.rs:2680-2688 | Disconnecting moves the generation on, takes the session out and shows off. |
| Lifecycle.ServerEntry.SessionRefused | apps/desktop/src/state.rs:360-377 | Refused credentials end the session of a connected OAuth server, and change nothing of any other. |
| Lifecycle.ServerEntry.ConnectLanded | apps/desktop/src/state.rs:2543-2585 | A connect result of the current generation stores the session only if its state is still connected when the result lands; an older result changes nothing. |
| Lifecycle.ServerEntry.ApplyEvents | apps/desktop/src/state.rs:2964-3022 | A batch of the current generation files its events in order; an older batch changes nothing. |
| Lifecycle.TheFirstEndDecides | apps/desktop/src/state.rs:3004-3018 | The first end of its session lets go of a connected server, however events are batched, and shows it failed or off as that end says. |
| Lifecycle.NextKeepsInv | crates/mcp-core/src/session.rs:511-520 | Every step of the window, of the connect task, of the wait task and of the keepalive keeps the invariant that ties the shown status to the session, its cell and its queue. |
| Lifecycle.RunKeepsInv | apps/desktop/src/state.rs:2543-2585 | Every world of every run has that invariant. |
| Lifecycle.ConnectingMeansUnderway | apps/desktop/src/state.rs:2419-2585 | In every run a server is shown connecting if and only if the attempt of its generation has not landed: none is left connecting. |
| Lifecycle.WhatALandingShows | apps/desktop/src/state.rs:2543-2585 | In every run a result of the current generation shows the server connected to its session if that opened and its cell still says so, and failed otherwise, also when the session ended while the result was on its way. |
| Lifecycle.WhatTheOthersShow | apps/desktop/src/state.rs:2419-2688 | In every run connecting, disconnecting and a refusal show what they say, and no other step but a landing or a filed end changes what is shown. |
| Lifecycle.CellIsUp | crates/mcp-core/src/session.rs:500-520 | In every run a cell says that the session is up exactly from its start until an end is written. |
| Lifecycle.EndsAreCaused | crates/mcp-core/src/session.rs:500-540 | In every run, whatever end a cell, a task or a queued event tells of has its cause: a start or a ping that failed, or the service that ended just so. |
| Lifecycle.FailureIsKept | crates/mcp-core/src/session.rs:511-520 | A failure written before the wait task has decided is not overwritten, however the service ended. |
| Lifecycle.NoLostEnd | apps/desktop/src/state.rs:2543-2585 | No lost end: in every interleaving, when a server is shown connected and its current session is over, an end event is queued or a task is about to emit one. |
| Lifecycle.SessionMeansConnected | apps/desktop/src/state.rs:2543-2585 | A session is stored exactly while the server is shown connected, and it is the one of the current generation. |
| Lifecycle.NoFalseEnd | apps/desktop/src/state.rs:3004-3018 | Filing events ends only a session that did end, and only the current one. |
| Lifecycle.OlderAttemptsChangeNothing | apps/desktop/src/calls.rs:707-714 | A step of an older generation changes what is shown if and only if it is a refused request, which carries no generation, and the server connected now signs in with OAuth. |
| Lifecycle.ALateRefusalEndsTheNext | apps/desktop/src/calls.rs:707-714 | A run that comes to it, from a server just added: it is connected, connected again, and the late refusal of a request of the first session ends the second. |
| Lifecycle.EndReachesTheWindow | crates/mcp-core/src/session.rs:511-520 | From any such state, letting those that watch it finish and filing the queue, in at most five steps, shows the server connected no more. |
| Lifecycle.ConnectingEnds | apps/desktop/src/state.rs:2543-2585 | From any state that shows connecting, at most two steps lead to connected or failed. |
| Listen.Listener.Apply | crates/mcp-core/src/listen.rs:228-242 | A change taken updates the set of URIs at once and joins those that wait for an answer. |
| Listen.Listener.Settle | crates/mcp-core/src/listen.rs:246-257 | All that wait are answered in order: a subscription refused and forgotten when the stream did not open, everything else done. |
| Listen.Listener.SettleAccepted | crates/mcp-core/src/listen.rs:261-283 | All that wait are answered in order: a subscription the acknowledgement leaves out is refused and forgotten. |
| Listen.Listener.Run | crates/mcp-core/src/listen.rs:122-217 | The nested loops of the listener, driven by any sequence of happenings, end in the state the step relation gives. |
| Listen.RunKeepsInv | crates/mcp-core/src/listen.rs:129-217 | In every reachable state at most one change waits, only while a stream is being opened or the listener has stopped, and the URIs are those of the answers with that change applied. |
| Listen.PhaseHasAReason | crates/mcp-core/src/listen.rs:129-217 | In every run the listener reads only a stream that opened last, pauses only for one that broke or did not open, and waits for a change only where no list is wanted and no URI held, or the server closed the stream. |
| Listen.ABrokenStreamIsOpenedAgain | crates/mcp-core/src/listen.rs:174-209 | After a stream that broke or did not open, whatever is sent meanwhile, the end of the pause opens it again with the delay doubled and capped, whenever a list is wanted or a URI held. |
| Listen.StopsWhenCancelled | crates/mcp-core/src/listen.rs:129-217 | The listener stops exactly when the session is over. |
| Listen.AnsweredInOrder | crates/mcp-core/src/listen.rs:129-283 | No change is lost, answered twice or answered out of order: what was sent is what was answered, then at most one that waits, then what was not taken yet. |
| Listen.TheNextStreamAnswers | crates/mcp-core/src/listen.rs:135-155 | A change that waits is answered by the very next attempt to open a stream, a subscription with success exactly when that stream opens and keeps its URI. |
| Listen.OkMeansAcknowledged | crates/mcp-core/src/listen.rs:135-155 | A subscription answered with success was kept by a stream opened after the change was taken, with no other attempt in between. |
| Listen.ListensForItsAnswers | crates/mcp-core/src/listen.rs:228-283 | Whenever nothing waits, the URIs are the replay of the answers: successes added, refusals and unsubscriptions removed. |
| Listen.ListensForWhatSucceededLast | crates/mcp-core/src/listen.rs:228-283 | Whenever nothing waits, a URI is held for the stream, the open one or the next, if and only if the last answer about it is the success of a subscription. |
| Listen.WhenASubscriptionIsLost | crates/mcp-core/src/listen.rs:246-283 | So a URI whose subscription was answered with success is no longer held if and only if the last answer about it is an unsubscription or a refusal. |
| Listen.ARefusedRepeatForgetsTheFirst | crates/mcp-core/src/listen.rs:246-257 | That happens: a repeated subscription that is refused drops what the first one had added. |
| Listen.RetryBacksOff | crates/mcp-core/src/listen.rs:129-217 | The wait is the first delay doubled once for every pause since the last notification, capped, and nothing but a notification resets it. |
| Listen.DelayDoubles | crates/mcp-core/src/listen.rs:25-26 | That delay is the smaller of 250 times two to the k, and 30000 milliseconds. |
| Inflight.Traced.Record | crates/mcp-core/src/transport.rs:334-412 | A request is kept under the side that answers it; an answer takes out its own and says which method it answers. |
| Inflight.Traced.Forget | crates/mcp-core/src/transport.rs:285-291 | Giving up strikes our own request only. |
| Inflight.TableIsWhatIsOpen | crates/mcp-core/src/transport.rs:334-412 | A request is in the table exactly while it is neither answered nor given up on, under the method of the last such request, whatever ids the other side uses. |
| Inflight.AwaitsWhatIsOpen | crates/mcp-core/src/transport.rs:293-302 | The server has something of ours in hand if and only if some request of ours is open. |
| Inflight.AnswersNameTheirRequest | crates/mcp-core/src/transport.rs:334-412 | An answer is said to be to the method of the last open request under its id, and to none when there is no such request. |
| Keepalive.Loop.Check | crates/mcp-core/src/session.rs:1254-1262 | At its head the loop sleeps until the interval since the last message is over, but at least a quarter of it, while the server was heard or has work of ours; otherwise it pings. |
| Keepalive.Loop.Run | crates/mcp-core/src/session.rs:1246-1286 | The loop, driven by any sequence of happenings under ideal timers, ends in the state the step relation gives. |
| Keepalive.RunKeepsInv | crates/mcp-core/src/session.rs:1246-1286 | Every timer the loop waits on ends within five quarters, or for a ping nine quarters, of the interval after the server was last heard or known at work. |
| Keepalive.NoticedInTime | crates/mcp-core/src/session.rs:1246-1286 | A loop that still runs has heard from the server, or known it at work for us, within nine quarters of the interval. |
| Keepalive.IdleCovers | crates/mcp-core/src/session.rs:1255-1258 | The moment that bound counts from is no earlier than any message heard, and than any moment something of ours was in hand. |
| Keepalive.PingsOnlyInSilence | crates/mcp-core/src/session.rs:1255-1263 | A ping goes out only when no message has arrived for the whole interval and no request of ours is open. |
| Keepalive.FailsOnlyUnanswered | crates/mcp-core/src/session.rs:1263-1282 | The session is failed only for a ping that was out for exactly one interval without an answer. |
| Keepalive.SleepsLongEnough | crates/mcp-core/src/session.rs:1254-1262 | In every run a loop that does not ping sleeps until the interval since the last message is over, and a quarter of it at least, to the moment. |
| Keepalive.HowItEnds | crates/mcp-core/src/session.rs:1263-1282 | A ping that times out fails the session, a cancel or a lost transport stops the loop, and of what is heard only the answer to the ping ends it. |
| Keepalive.WhatIsNoted | crates/mcp-core/src/session.rs:1246-1286 | The requests it counts are of what went by, all of it, and its own pings. |
| Stderr.Forward | crates/mcp-core/src/transport.rs:116-159 | What is emitted is the whole stream split on newlines, each line cut at 64 KiB, whatever chunks the reader hands out. |
| Stderr.ChunkingDoesNotMatter | crates/mcp-core/src/transport.rs:116-159 | Two ways to cut one stream into reads emit the same lines. |
| Stderr.NothingAfterTheEnd | crates/mcp-core/src/transport.rs:116-159 | Nothing counts after the read of nothing that ends the stream. |
| Stderr.LinesGiveBackTheStream | crates/mcp-core/src/transport.rs:126-158 | The lines are the stream cut at its newlines and nowhere else; a last piece without a newline counts exactly when it is not empty. |
| Stderr.ShownOrCounted | crates/mcp-core/src/transport.rs:162-171 | Every byte of a line is shown or counted as dropped, but for one carriage return at the end of what is kept, even where it stood in the middle of a cut line. |
| Pagination.ListAll | crates/mcp-core/src/session.rs:754-780 | Reading a list succeeds if and only if its pages end within 1000, with the pages in order; otherwise it fails after at most 1000 requests. |
| Pagination.ItemsHoldEveryPage | crates/mcp-core/src/session.rs:754-780 | The items of a list hold those of every page, each after those of the pages before it. |
| Pagination.EndingNeverRepeats | crates/mcp-core/src/session.rs:754-780 | A list that ends never hands out a cursor twice. |
| Pagination.OwnCursorNeverEnds | crates/mcp-core/src/session.rs:768-773 | Giving up on a page answered with its own cursor gives up on no list that would have ended. |
| ItemList.RelistReplacesItsKinds | apps/desktop/src/state.rs:463-512 | A relist replaces exactly the lists of its kinds and, for each of them, marks exactly the items that are new or not as they were, a resource among resources and a template among templates. |
| ItemList.WhatChangesLeave | apps/desktop/src/state.rs:433-571 | Seeing an item takes away its mark alone; subscribing changes that URI alone; a call recorded becomes the newest, once, and the oldest beyond 500 go; a snapshot or a history is replaced whole. |
| ItemList.WhatRowsShow | apps/desktop/src/state.rs:1280-1340 | One row for every item declared, templates after resources, under the identifier a request names and the title asked for, marked exactly when the server changed it and watched exactly when it is a resource subscribed to. |
| ItemList.WhatHistoryShows | apps/desktop/src/state.rs:537-553 | One row for every call, in order, with its name, failure, agent and text. |
| ItemList.WhatSectionsThereAre | apps/desktop/src/state.rs:3228-3246 | The sections of a server: its settings always, its instructions where it gave some, the others once it was read. |
| ItemList.AlsoAreTheOtherNames | apps/desktop/src/state.rs:1299-1318 | A row is found besides by its other names in lower case, each once, and by nothing else. |
| ItemList.KeptAreThoseThatMatch | apps/desktop/src/state.rs:1345-1388 | The filter keeps every row that matches, in order. |
| ItemList.KeptAreItems | apps/desktop/src/state.rs:1345-1388 | And no other. |
| ItemList.SameRowsEitherWay | apps/desktop/src/state.rs:1299-1318 | A search finds the same rows, in the same order, whether lists show identifiers or display names. |
| ItemCache.ChangesAdvance | apps/desktop/src/state.rs:433-571 | Whatever changes something the rows are made of moves the revision on. |
| ItemCache.OpsKeepTheCacheGood | apps/desktop/src/state.rs:1345-1388 | No selection, mode, filter, naming, change, new server or deletion can leave cached rows wrong under a key that still matches. |
| ItemCache.AppState.Items | apps/desktop/src/state.rs:1345-1388 | The rows and the total read are those a fresh build would give. |
| ItemCache.AppState.HistoryItems | apps/desktop/src/state.rs:537-553 | History rows built with kept search texts are those built without. |
| ItemCache.AppState.ApplyRelisted | apps/desktop/src/state.rs:463-512 | Going through the kinds in place, lists moved out of the new snapshot one after another, ends in the relist whose effect ItemList.RelistReplacesItsKinds states. |
| ItemCache.AppState.FinishDelete | apps/desktop/src/state.rs:2362-2393 | A deletion, in place, is the specified one. |
| ItemCache.DeletingKeepsTheSelection | apps/desktop/src/state.rs:2362-2393 | For every view with distinct ids: a deletion leaves exactly the other servers, in order; the server shown stays shown unless it is the one deleted, and then the one after it is, else the one before, else none. |
| ItemCache.WhatOpsShow | apps/desktop/src/state.rs:1472-1490 | Another server or mode starts without a filter; nothing else changes which server is shown, or how. |
| ItemCache.AppState.Run | apps/desktop/src/state.rs:1276-1388 | Over any run of these operations, every read shows what it would without any cache. |
| ItemCache.AppState.Connect | apps/desktop/src/state.rs:2436-2437 | What a connect clears leaves the state good exactly when no cached row of that server at its revision is marked. |
| ItemCache.ConnectKeepsTheCacheGood | apps/desktop/src/state.rs:2436-2437 | The exact condition: the cache stays right if and only if none of those rows shows a change mark or a subscription. |
| ItemCache.AConnectKeepsOldMarks | apps/desktop/src/state.rs:2436-2437 | The list on screen still counts as current after a connect, and is wrong exactly when it showed such a mark. |
| ItemCache.AWatchedRow | apps/desktop/src/state.rs:1293-1298 | There is such a list: a subscribed resource. |
| Log.LogBuffer.Push | apps/desktop/src/state.rs:594-611 | A row is logged under the next id, and the oldest rows beyond the caps dropped and counted. |
| Log.LogBuffer.Break | apps/desktop/src/state.rs:629-635 | A new session is marked once, and not when the last one logged nothing; returns how many rows left. |
| Log.LogBuffer.Find | apps/desktop/src/state.rs:1156-1160 | Binary search finds an id if and only if it is live, at its place. |
| Log.PushDropsTheFewest | apps/desktop/src/state.rs:586-611 | The new log is the old one and the new row less the fewest oldest rows that bring it within both caps; the new row always stays. |
| Log.PushKeepsTheRest | apps/desktop/src/state.rs:579-611 | After a push the live ids are the old ones and the new one, from the first that stayed. |
| Log.RunKeepsInv | apps/desktop/src/state.rs:579-635 | Over any pushes, clears and breaks: the byte count is the sum of the rows, ids are consecutive, both caps hold, and no two separators are adjacent. |
| Log.IdsCarryOn | apps/desktop/src/state.rs:579-618 | Over any run ids only go up, across clears too: none is handed out twice. |
| Log.BreakMarksTheSession | apps/desktop/src/state.rs:629-635 | After a session break the log ends with a separator unless it is empty, and one is added only where the last row is none. |
| Log.AgentsMark | apps/desktop/src/state.rs:594-624 | Over any run the mark for agents is set exactly when an agent row was pushed since the last clear, and the log holds an agent row exactly when the last of these has not left it. |
| Log.TheMarkIsRight | apps/desktop/src/state.rs:620-624 | The mark says whether the log holds rows of an agent, as it promises, if and only if none was pushed since the last clear or the id of the last one is not below the first id in the log. |
| Log.TheMarkOutlivesTheRow | apps/desktop/src/state.rs:620-624 | It does not always: after a row of an agent and as many others as the log holds, of any size, the mark is set and no such row is left. |
| Log.Drawer.Append | apps/desktop/src/state.rs:1693-1709 | Appending to a log lets go of the open rows that left it, and names the first id that stayed exactly when some row left. |
| Log.Drawer.OpenSession | apps/desktop/src/state.rs:2668-2677 | The same when a session starts and its separator pushes rows out. |
| Log.OpenRowsAreLive | apps/desktop/src/state.rs:1615-1709 | However rows come and go, if only live rows are toggled every open row is a row of the selected server. |
| Log.WhatActsOpen | apps/desktop/src/state.rs:1156-1176 | A toggle turns one row over, another filter or server closes all, clearing empties the log of the server selected and of no other. |
| Log.RemovingAnother | apps/desktop/src/state.rs:2362-2393 | Taking out another server leaves the one selected and its open rows; taking out that one selects its neighbour with no row open. |
| Log.OpenRowsStay | apps/desktop/src/state.rs:1693-1709 | An open row stays open exactly while its row is logged; rows leaving another log close nothing. |
| Namespaces.DefaultNamespace | apps/desktop/src/gateway.rs:133-147 | Gone through once, a name becomes its namespace: lower case, every other run of characters a single dash, trimmed, cut at 64, and `server` when nothing is left. |
| Namespaces.DefaultIsValid | apps/desktop/src/gateway.rs:133-147 | Whatever the name, it is a valid namespace, in lower case, with no two dashes in a row. |
| Namespaces.DefaultKeepsNamespaces | apps/desktop/src/gateway.rs:133-147 | A name that is such a namespace is its own. |
| Namespaces.NamelessIsServer | apps/desktop/src/gateway.rs:133-147 | A name makes an empty slug if and only if it has no letter, digit or `_`, and then its namespace is `server`. |
| Namespaces.UniqueNamespace | apps/desktop/src/gateway.rs:149-158 | Terminates, by counting candidates against what is taken, with the name itself or the first numbered one that is free. |
| Namespaces.NumberedInjective | apps/desktop/src/gateway.rs:149-158 | No two numbers make one candidate. |
| Namespaces.Plan | apps/desktop/src/gateway.rs:110-130 | Each server in order is switched as chosen, under its wanted namespace made unique among those before it. |
| Namespaces.ServedUnlessSwitchedOff | apps/desktop/src/gateway.rs:110-130 | In every plan a server is served unless it was switched off. |
| Namespaces.NamespacesDiffer | apps/desktop/src/gateway.rs:106-109 | Two servers never share a path. |
| Namespaces.PlansAgree | apps/desktop/src/gateway.rs:110-130 | There is one plan, and what a server gets depends on the servers before it alone. |
| Namespaces.Gateway.SetServer | apps/desktop/src/gateway.rs:703-739 | A choice is refused for an unknown server, an invalid path or a held one, and otherwise kept unless the plan has it already. |
| Namespaces.WhenAChoiceIsTaken | apps/desktop/src/gateway.rs:703-739 | A choice is taken if and only if the server is in the plan and the path, if one is named, is valid and no other server has it; it changes what it names and keeps the rest. |
| Namespaces.TheNextPlan | apps/desktop/src/gateway.rs:703-739 | After an accepted choice the next plan leaves the earlier servers as they were and gives the server exactly what was chosen, unless that is a switch under a path too long to be kept: then it gets the one made from its name. |
| Namespaces.WhatSwitchingKeeps | apps/desktop/src/gateway.rs:703-739 | A server that is switched on or off keeps its path if and only if the path may be chosen or is what its name gives beside the servers before it; and then, and only then, every server keeps its path. |
| Namespaces.SwitchingADefaultKeepsIt | apps/desktop/src/gateway.rs:703-739 | So a server for which nothing was chosen keeps its path, however long. |
| Namespaces.ASwitchMovesALongPath | apps/desktop/src/gateway.rs:703-739 | One whose chosen path of 63 characters or more got a number, because the name of an earlier server now makes it too, is moved by a switch. |
| Namespaces.SuchNames | apps/desktop/src/gateway.rs:133-147 | There are such names. |
| Namespaces.ALaterServerMoves | apps/desktop/src/gateway.rs:703-739 | A later server can move: it takes the path its name asks for once that is free. |
| PendingCalls.KeysInjective | apps/desktop/src/gateway.rs:285-287 | Connections and their requests have keys of their own, when a namespace has no `/` or `#` and a session no `#`. |
| PendingCalls.PrefixIsExact | apps/desktop/src/gateway.rs:1011-1015 | A pending key starts with a connection key and `#` exactly when the request is of that connection. |
| PendingCalls.AHashInASessionConfuses | apps/desktop/src/gateway.rs:615-617 | Without that, a session with a `#` passes for another. |
| PendingCalls.StepKeepsInv | apps/desktop/src/gateway.rs:1019-1072 | Never more than 4096 calls wait, each under its own number, and what was recorded waits no more. |
| PendingCalls.WhatIsACall | apps/desktop/src/gateway.rs:196-222 | A request is a call if and only if it is a tool call or a prompt with a name, with its arguments, or a resource read by URI. |
| PendingCalls.WhatEventsLeave | apps/desktop/src/gateway.rs:937-1061 | A connection opened reaches its server, one closed takes its own requests with it and no others, a request given up on waits no more, and nothing does once the gateway is gone. |
| PendingCalls.EvictsTheOldest | apps/desktop/src/gateway.rs:1032-1043 | By the step relation, a full table lets go of exactly the request asked first; GatewayState.Ask proves that the table keyed by text takes that step. |
| PendingCalls.AnswersTakeTheirOwn | apps/desktop/src/gateway.rs:1062-1085 | By the step relation, an answer consumes only the request of the same agent and id; GatewayState.Answer proves that the table keyed by text takes that step, although it tells requests apart by their text. |
| PendingCalls.AgentWasOpened | apps/desktop/src/gateway.rs:937-957 | A connection that is known was opened to the server it reaches. |
| PendingCalls.RecordedWasAsked | apps/desktop/src/gateway.rs:1019-1098 | Every recorded call was asked by that agent, with that call, is recorded once, and is recorded for a server the agent had connected to. |
| PendingCalls.PathsLeadToTheirServers | apps/desktop/src/gateway.rs:937-957 | By the plan, the server found for a path is the one that has it. |
| PendingCalls.GatewayState.Open | apps/desktop/src/gateway.rs:937-957 | A connection is taken in under the server its path is of, no other is taken for it, and one to a path no server has is not taken in. |
| PendingCalls.GatewayState.Ask | apps/desktop/src/gateway.rs:1023-1050 | A request that is a call, by its method and parameters, takes the table keyed by text through a step of the table keyed by agent and request; any other changes nothing. |
| PendingCalls.GatewayState.Answer | apps/desktop/src/gateway.rs:1062-1098 | The same for an answer, which returns what to record: the call and its server, if the request waits, the agent is known and the server is still there. |
| PendingCalls.GatewayState.Cancel | apps/desktop/src/gateway.rs:1051-1061 | The same for a request given up on. |
| PendingCalls.GatewayState.Close | apps/desktop/src/gateway.rs:1003-1015 | The same for a connection closed, chosen by key prefix: its own requests go and no others. |
| Responses.ResponseTable.Begin | apps/desktop/src/calls.rs:121-158 | A second request under a key is refused while the first is in flight; otherwise a new stamp is handed out. |
| Responses.ResponseTable.Finish | apps/desktop/src/calls.rs:193-203 | An answer is written exactly when its key still waits for that stamp. |
| Responses.ResponseTable.Cancel | apps/desktop/src/calls.rs:165-175 | A request in flight is told to stop. |
| Responses.ResponseTable.Progress | apps/desktop/src/calls.rs:177-191 | A progress is filed under a request sent with its token, if one waits. |
| Responses.ResponseTable.Forget | apps/desktop/src/calls.rs:205-245 | Responses of a mode, a call or a server are dropped with the requests they wait for. |
| Responses.PendingMeansWaiting | apps/desktop/src/calls.rs:91-105 | Over any run, a key shows as pending if and only if it waits, and both carry one stamp. |
| Responses.StampsAreNew | apps/desktop/src/calls.rs:130-157 | No stamp is handed out twice. |
| Responses.OneAnswerEach | apps/desktop/src/calls.rs:193-203 | Each request is answered at most once. |
| Responses.ShownWasAnswered | apps/desktop/src/calls.rs:193-203 | Over any run what is shown as an answer is the body that came under that key and stamp while it was waited for. |
| Responses.AnswersAreShown | apps/desktop/src/calls.rs:193-203 | An answer that is expected is shown, its key is free again, and no other key changes. |
| Responses.CancelStopsItsOwn | apps/desktop/src/calls.rs:165-175 | Cancelling stops the request under the key and no other. |
| Responses.WhereProgressGoes | apps/desktop/src/calls.rs:160-191 | A token is kept with its request, and a progress filed with exactly one request sent under its token. |
| Responses.ForgottenStampsChangeNothing | apps/desktop/src/calls.rs:205-245 | The answer to a forgotten request changes nothing, and the request was told to stop. |
| Responses.ForgetsWhatItNames | apps/desktop/src/calls.rs:205-245 | Forgetting removes and stops exactly the responses of a server in one mode, of one recorded call, or of a server; ResponseTable.Forget proves that going through the table takes that step. |
| Config.ClientConfig | crates/mcp-exchange/src/config.rs:30-83 | Writes one entry per server under its name, in order, a repeated name taking the place of the first; a bearer server carries a placeholder, never its token. Returns a note for each server whose authorization is left out. |
| Config.TheLastOfANameIsWritten | crates/mcp-exchange/src/config.rs:30-83 | Every name has one entry, that of the last server with the name. |
| Config.NotesNameThem | crates/mcp-exchange/src/config.rs:56-68 | The notes name exactly the servers with a bearer token and those that sign in with OAuth. |
| Config.ComesBackAsWritten | crates/mcp-exchange/src/config.rs:30-232 | An entry reads back as the very server it was written for if and only if that has no `Authorization` header of its own, no OAuth, and no bearer token but one kept under its own name. |
| Config.WhatIsLostIsNoted | crates/mcp-exchange/src/config.rs:30-232 | So a server without a note reads back as it was written if and only if it has no `Authorization` header of its own. |
| Config.ReadClientConfig | crates/mcp-exchange/src/config.rs:155-177 | Reading finds the block under either key or bare, and reads or skips every entry in order. |
| Config.WhereServersAre | crates/mcp-exchange/src/config.rs:155-177 | The servers are looked for under `mcpServers`, else under `servers`, else in the object itself. |
| Config.EveryEntryIsAccountedFor | crates/mcp-exchange/src/config.rs:155-177 | Every entry is read or skipped, each kind in order, and each note is kept. |
| Config.WhatAnEntryIs | crates/mcp-exchange/src/config.rs:179-232 | An entry is an HTTP server by the text under `url` or else `serverUrl`, a local one by its `command`, and nothing else; a header makes it a bearer server, with a note exactly when no token can be read from it. |
| Config.StringsAreTheTexts | crates/mcp-exchange/src/config.rs:204-232 | Arguments that are texts are read in order. |
| Config.StringsAreRead | crates/mcp-exchange/src/config.rs:204-232 | And nothing else is read as one. |
| Config.EntryComesBack | crates/mcp-exchange/src/config.rs:179-232 | One entry read back is the server as expected if and only if it carries no `Authorization` header of its own. |
| Config.RoundTrip | crates/mcp-exchange/src/config.rs:30-177 | Reading back the export of uniquely named servers gives the same servers in the same order, none skipped, if and only if none carries an `Authorization` header of its own. |
| Config.TokensMeanBearer | crates/mcp-exchange/src/config.rs:184-202 | A server read with a token is a bearer server, in any file. |
| Config.TokenComesBack | crates/mcp-exchange/src/config.rs:236-255 | What follows `Bearer` is read as the token if and only if it has no space around it and is none of the placeholders. |
| Config.UnprefixedIsTheRest | crates/mcp-exchange/src/config.rs:236-255 | What is read as the token is what follows all of the prefixes. |
| Import.Importer.Save | apps/cli/src/import.rs:61-102 | Tokens are written under ids of their own, then all rows at once; when that fails the entries written are exactly those of the servers gone through. |
| Import.Importer.TakeBack | apps/cli/src/import.rs:48-55 | Entries written are deleted again, but for those that could not be. |
| Import.Importer.Import | apps/cli/src/import.rs:23-57 | All or nothing: whatever fails, the rows are as before, and so is the keyring but for entries that could not be deleted again. |
| Import.NoTokenIsLost | apps/cli/src/import.rs:61-102 | On success a token sits in the keyring under the id its row names, an id that is new and that no other row names. |
| Import.NewOnesAreAll | apps/cli/src/import.rs:23-57 | No server read whose name is free is left out, and they keep their order. |
| Import.EveryNewServerHasItsRow | apps/cli/src/import.rs:61-102 | Every such server has its row, as it was read but for the keyring id. |
| Import.FileTokensAreSaved | apps/cli/src/import.rs:23-102 | So no token a file carried is lost. |

## Left out

- SchemaSoundness.InputIsSound: on schemas whose keywords have the shapes the standard gives them, whose `type` lists at least one type, whose `required` names are declared and print as they are, with `enum` on both sides or neither, boolean `additionalProperties`, no `$ref`, `$dynamicRef` or `$recursiveRef` at any depth, also not inside `oneOf` and the keywords that are not looked into, no `unevaluatedProperties` or `unevaluatedItems` at a level the walk reaches, a `oneOf` that does not change, `anyOf` and `allOf` lists that keep their length, no null alternative, and nesting of at most 32 levels below the root; `SchemaExamples` has a missed change for the hypotheses that valid or nearly valid schemas break. Every schema is read as 2020-12, whatever its `$schema` says.
- SchemaSoundness.OutputIsSound: on the same schemas.
- SchemaDiff.Compare: the summary, before and after texts of a change are left out, a place is a list of steps rather than dotted text, and object keys are gone through in alphabetical order rather than in the order they were written.
- SnapshotDiff.DiffTools: the texts of changes are left out here too.
- What opaque keywords mean: `pattern`, `format`, `multipleOf`, `uniqueItems`, `const` under equality of values, and unknown keywords are opaque predicates fixed by their value; numbers are reals, so rounding, and the difference between 1 and 1.0, are not modelled.
- DiffMeaning.CallsStayValid: on the schemas `SchemaSoundness.InputIsSound` is about; of equal digests, for snapshots that do not collide, are well formed and whose items of one name agree.
- DiffReport.DiffSnapshots: what the report says of two snapshots whose digests collide is only that nothing changed; the text hashed stands as the canonical form it prints.
- Lifecycle.NoLostEnd: assumes that no event is lagged out of the broadcast (apps/desktop/src/bridge.rs:87).
- Listen.Listener.Run: notes in the log, the events made of notifications, and the acknowledgement of the three list flags are left out; replies nobody waits for count as sent.
- Keepalive.NoticedInTime: timers fire on time, and ids of our requests are not reused while they are open; requests sent without being given up on (crates/mcp-core/src/session.rs:599-610) stay open and keep the loop from pinging.
- Stderr.Forward: bytes are not decoded to text.
- Pagination.ListAll: the server is a function from cursor to page.
- ItemCache.AppState.Run: a call keeps what it was recorded with and new servers have new ids; the clock, the list failures and the selected row are left out, and servers are values rather than objects.
- Log.LogBuffer.Push: a row is its id, its size and its two marks; its texts are left out.
- Namespaces.UniqueNamespace: numbers are unbounded.
- PendingCalls.GatewayState.Answer: what an answer says, what an agent says it is called, the write to the database, and the dropping of what an earlier run of the gateway reports, are left out; a request id stands as its JSON text, and two ids have two texts.
- Responses.ResponseTable.Finish: the status, the time taken and the issues of a response are one value.
- Config.RoundTrip: text to JSON and back is assumed to be the identity, and notes stand for their wording.
- Import.Importer.Import: the database adds servers atomically and a failed keyring write has no effect; new ids are assumed never to repeat.
- Answering a server that asks for input, round by round (crates/mcp-core/src/session.rs:680-750), and relisting.
- The relay itself, OAuth, update checks, argument parsing, terminal styling, views, menus and themes.
- How the wait task words the end of a session, and every other message text.
