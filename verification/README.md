# Verified model of the gateway's protocol and resource logic

This project models the parts of the subscription gateway whose correctness spans many
functions, many steps or many threads, and proves what they promise.

- **JSON bytes** (`Utf8`, `JsonString`, `JsonMarshal`, `JsonTree`, `JsonScan`, `FieldEdits`,
  `FieldOrder`, `JsonDoc`, `JsonObject`, `JsonLookup`, `Buffers`, `StringRepair`,
  `CopilotHistory`). The raw scanner, the in-place editor and printer, path lookup, and the
  repair of string interiors before they are joined (sections 2, 4, 5, 7 and 8.2 of RFC 8259,
  section 4 of RFC 3629, section 2.2 of RFC 2781). Trees of values carry their own whitespace,
  so every statement holds for every layout. `FieldEdits` is generic in keys and values.
- **Tool schemas** (`SchemaPointer`, `SchemaFlatten`, `SchemaResolver`, `SchemaAccept`,
  `SchemaShapes`, `SchemaMeaning`, `SchemaReferences`, `SchemaExample`). Flattening of root
  unions: exactly which roots are flattened and into what, and that the result accepts the same
  instances. A meaning is any function from schema and instance to a verdict that satisfies the
  keyword equations of JSON Schema Core 2020-12 (sections 8.2.3.1 and 10.2.1.3) and Validation
  2020-12 (sections 6.1 and 6.5.3), so recursive references need no bound.
- **Responses sessions** (`SessionModel`, `SessionInvariant`, `SessionSteps`, `SessionSafety`,
  `SessionLeases`, `SessionSystem`, `SessionTheorems`, `SessionSeen`, `SessionContinuation`,
  `SessionObjects`). Turns, leases, failover and close as atomic steps at lock boundaries, for
  any number of threads, sessions and accounts, and the session and the hub as objects.
- **Reset redemption** (`ResetModel`, `ResetSafety`, `ResetTheorems`, `ResetObjects`). Guarded
  row updates, leases in time, several workers that may crash at any point.
- **Compaction** (`CompactParts`, `CompactRun`, `CompactBound`, `CompactCalls`, `CompactPlan`,
  `CompactWindow`, `CompactSummary`, `CompactStable`, `CompactBalance`, `CompactState`,
  `CompactSeal`, `CompactStream`). Chunking, split-and-retry, the pending-tool tail, the window
  and its restoration, the size check, and the accept or reject race of the streaming job.
- **Antigravity history** (`AntigravityHistory`, `AntigravityStream`, `AntigravityContents`,
  `AntigravityRequest`, `AntigravityTold`, `AntigravityRoundTrip`, `AntigravityCache`).
  Flattening native parts for clients, saving what is lost, rebuilding it later, and the
  conversation that is sent: exactly which messages are accepted, and what each contributes.
- **Copilot streams** (`CopilotEvents`, `CopilotProtocol`, `CopilotFinish`, `CopilotHeard`,
  `CopilotBatch`, `CopilotSame`, `CopilotIds`, `CopilotKnown`, `CopilotEnd`, `CopilotOutput`,
  `CopilotEnding`, `CopilotConverter`). The event machine, two clients that read its events (one
  goes by output and content indexes, one also checks item ids), and the batch converter.
- **Budgets and routing** (`BudgetModel`, `BodyBudget`, `QuotaModel`, `QuotaRouting`). The byte
  budget under every interleaving, buffered reading, and the choice of an account by quota.

`Collections` holds the option type, counting and summing over maps, and picking from lists.
Code that updates state in place is a class or a method with loops, each proved against a
function on values; the theorems are lemmas about those functions and about runs.

## Findings

Properties that the code does not have in full, each with an input that shows it and the exact
condition under which it holds.

- **Lookup and Parse disagree on broken keys.** The key of the single byte FF: Lookup compares
  the raw byte, Parse stores the replacement character
  (`JsonLookup.LookupDiffersOnBrokenKey`). They read a key alike if and only if it holds a
  backslash, when both decode it, or is valid UTF-8 (`JsonLookup.LookupKeyIsKey`), and the
  same map if and only if they read every key alike (`JsonLookup.LookupAgreesWithParse`).
- **A key can be printed twice.** Set, Delete, Set of a key that the source lacks prints it
  twice with the same value (`FieldEdits.SetDeleteSetPrintsTwice`). Exactly, for every list of
  calls: a key whose last call was Delete is not printed, a key of the source is printed once,
  and any other key once for each Set that found it not standing, that is at first and again
  after each Delete (`FieldEdits.PrintedAfterEdits`). The meaning of the object is right in
  every case (`FieldEdits.PrintedMeaning`).
- **A reference into the rewritten union moves.** A root whose one alternative refers to
  `#/$defs/A`, itself a union: it is flattened, and `#/oneOf/0` finds the leaf where it found
  the reference (`SchemaExample.PointerIntoUnionMoves`). After a successful flattening all
  references find what they found if and only if no root alternative was a reference or a
  union (`SchemaReferences.ReferencesStayExactly`); references that do not point into the root
  union never move (`SchemaMeaning.OthersStillFind`).
- **A window may not prepare to itself.** A call kept as an instruction because its role is
  system, with a result that is not kept (`CompactStable.UnbalancedExample`). Exactly: a window
  is stable if and only if no call before the tail is separated from its result, both retained
  or neither (`CompactBalance.WindowStableExactly`).
- **Without history the window is not always the request.** A user message with an instruction
  behind it comes out the other way round (`CompactStable.ReorderedExample`). Kept items
  between the latest request and the tail move in front of it; the window is the request
  unchanged if and only if there are none (`CompactStable.ShortWindow`).
- **The statement that marks a reset attempt does not report whether it changed a row.** Two
  workers awake with the same unattempted job would both call
  (`ResetTheorems.OverlapWouldCallTwice`). In no run are there two such workers, because the
  lease of ten minutes outlives the cycle of eight (`ResetTheorems.NeverOverlap`).
- **Shrinking a released reservation would give its bytes back twice.** Shrinking keeps the
  budget exact if and only if the reservation has not been released
  (`BudgetModel.ShrinkExactlyWhileHeld`).
- **The stream and the batch converter differ on streams out of order.** A call and then text:
  the stream puts the call first, the batch converter the message
  (`CopilotOutput.CallBeforeTextDiffers`). The ways to be out of order are a call before the
  message, text after a refusal began, a call without id or name, or arguments before the
  whole name. The outputs are equal if and only if none of these happens, where a name that is
  not whole counts only if it means another tool (`CopilotOutput.StreamIsBatch`).
- **A call's id may change under a client's eyes.** A first chunk with name `f` and arguments
  `{` and no id, a second with id `call_abc` and arguments `}`: the item is added as `call_0`
  and finished as `call_abc` (`CopilotOutput.LateIdIsRefused`). A client that checks ids
  accepts the ended stream if and only if each call was shown under one id: at its end and,
  unless its arguments are held back as a custom tool's, at each arguments delta
  (`CopilotOutput.AcceptedIfSteady`). First and last id alone do not decide it, since a delta
  between them can carry a third.

## Model

| member | source | states |
|---|---|---|
| Utf8.DecodeAllEncodeAll | internal/adapter/protocol/copilot_policy.go:322-358 | Encoding any character list and decoding the bytes gives the characters back, so no two lists share an encoding. |
| Utf8.EncodeAllDecodeAll | internal/adapter/protocol/copilot_policy.go:322-358 | Valid UTF-8 decoded and encoded again is the same bytes; together with the row above, decoding is a bijection on valid text. |
| StringRepair.AppendJsonStringText | internal/adapter/protocol/copilot_policy.go:322-358 | The byte loop appends exactly the repaired interior: runs are copied, and each unpaired surrogate escape or broken UTF-8 byte is replaced. |
| StringRepair.RepairIsolates | internal/adapter/protocol/copilot_policy.go:309-358 | A repaired interior decodes to what the interior decodes to on its own, whatever valid text follows it. |
| StringRepair.JoinedPartsDecode | internal/adapter/protocol/copilot_policy.go:309-318 | For any list of JSON string interiors the concatenated repairs are one valid interior that decodes to the concatenation of the separate decodings. |
| StringRepair.PlainJoinCombines | internal/adapter/protocol/copilot_policy.go:309-366 | Why the repair is needed: two interiors that are each a lone surrogate would, joined plainly, decode to one character. |
| CopilotHistory.WriteAssistantText | internal/adapter/protocol/copilot_policy.go:309-318 | From the raw bytes of a part array one JSON string is written that decodes to the texts of the parts, each decoded on its own. |
| JsonMarshal.MarshalRoundTrip | internal/adapter/copilotcompact/state.go:45-63 | A marshalled string decodes to the text it was made from. |
| JsonMarshal.ZerosExpandSixfold | internal/adapter/copilotcompact/state.go:45-63 | Zero bytes expand exactly sixfold; this is the text ValidateStateSize measures with. |
| JsonTree.PassesTree | internal/jsonobject/jsonobject.go:226-281 | The depth, string and escape scan runs over any rendered JSON value, in any whitespace layout, without stopping inside it. |
| JsonTree.ScanStopsAtDelimiter | internal/jsonobject/jsonobject.go:246-281 | The scan stops exactly at the delimiter after the value. |
| JsonScan.SkipSpace | internal/jsonobject/jsonobject.go:214-224 | Skips exactly the whitespace ahead. |
| JsonScan.ScanString | internal/jsonobject/jsonobject.go:226-244 | Finds the end of a string token: the loop agrees with the recursive length of a string. |
| JsonScan.ScanValueEnd | internal/jsonobject/jsonobject.go:246-281 | The loop stops where the recursive scan does: at the first delimiter outside strings at depth zero. |
| FieldEdits.SetMeaning | internal/jsonobject/jsonobject.go:118-128 | Set changes one key of the last-wins map and nothing else. |
| FieldEdits.DeleteMeaning | internal/jsonobject/jsonobject.go:130-133 | Delete removes one key of the last-wins map and nothing else. |
| FieldEdits.ParsedMeaning | internal/jsonobject/jsonobject.go:28-83 | A parsed member list means its last-wins map. |
| FieldEdits.PrintedMeaning | internal/jsonobject/jsonobject.go:162-201 | After any edits the printed members, read last-wins, are exactly what Value answers. |
| FieldEdits.PrintedAfterEdits | internal/jsonobject/jsonobject.go:118-201 | After any list of calls of Set and Delete on a parsed document, exactly how often each key is printed: never if its last call was Delete, once if the source has it, otherwise once for each Set that found it not standing. |
| FieldEdits.SetDeleteSetPrintsTwice | internal/jsonobject/jsonobject.go:118-133 | Set, Delete, Set of a key that the source lacks prints it twice with one value. |
| FieldOrder.PrintedInOrder | internal/jsonobject/jsonobject.go:162-201 | After any calls of Set and Delete the keys of the source are printed first, each where it occurs last, unless deleted last; then the others, in the order in which Set entered them. |
| JsonDoc.PrintIsObject | internal/jsonobject/jsonobject.go:162-212 | What is printed is a well-formed JSON object with the printed members. |
| JsonDoc.PrintKeepsMeaning | internal/jsonobject/jsonobject.go:162-212 | Parsing the printed bytes gives the edited last-wins map again. |
| JsonObject.Parse | internal/jsonobject/jsonobject.go:28-83 | Parsing any layout of a JSON object recovers its member list; anything else is refused. |
| JsonObject.ParseMembers | internal/jsonobject/jsonobject.go:43-83 | The member loop recovers keys, raw values, last positions and counts in order. |
| JsonObject.Object.Duplicate | internal/jsonobject/jsonobject.go:85-87 | True exactly for keys that occur more than once in the source. |
| JsonObject.Object.HasOnlyFields | internal/jsonobject/jsonobject.go:90-102 | True exactly if the last-wins map after the edits has no other keys. |
| JsonObject.Object.Value | internal/jsonobject/jsonobject.go:104-116 | Answers the last-wins map after the edits. |
| JsonObject.Object.Set | internal/jsonobject/jsonobject.go:118-128 | The object becomes the edited document, so SetMeaning applies to it. |
| JsonObject.Object.Delete | internal/jsonobject/jsonobject.go:130-133 | The object becomes the edited document, so DeleteMeaning applies to it. |
| JsonObject.Object.AppendTo | internal/jsonobject/jsonobject.go:153-201 | Appends exactly the printed document to the buffer. |
| JsonObject.PrintThenParse | internal/jsonobject/jsonobject.go:28-201 | Printing any edited object and parsing the bytes gives an object with the same last-wins map. |
| JsonLookup.Lookup | internal/jsonobject/values.go:11-50 | Reads one key from the raw bytes: the value of the last member whose key, as Lookup reads it, is the one given; nothing for anything but an object. |
| JsonLookup.LookupKeyIsKey | internal/jsonobject/values.go:28-40 | Lookup and Parse read a key as the same bytes exactly if it holds a backslash or is valid UTF-8. |
| JsonLookup.LookupAgreesWithParse | internal/jsonobject/values.go:28-46 | Lookup and Parse followed by Value read the same last-wins map exactly if they agree on every key of the object. |
| JsonLookup.LookupDiffersOnBrokenKey | internal/jsonobject/values.go:28-40 | On a key that is not valid UTF-8 Lookup compares raw bytes where Parse has replacement characters. |
| JsonLookup.VisitArray | internal/jsonobject/values.go:53-73 | Visits the raw elements in order up to the first that is rejected, and reports whether all were accepted. |
| SchemaPointer.Lookup | internal/adapter/toolschema/references.go:72-108 | The segment loop finds exactly the schema at the end of the walk over the decoded tokens, or nothing. |
| SchemaPointer.UnescapeEscape | internal/adapter/toolschema/references.go:82-93 | Unescaping a pointer token inverts escaping it (section 4 of RFC 6901). |
| SchemaPointer.EveryPathIsReferable | internal/adapter/toolschema/references.go:72-108 | For every non-empty token list there is a reference that lookup follows token by token. |
| SchemaPointer.UnescapedExactly | internal/adapter/toolschema/references.go:76-79 | Percent-decoding reads exactly the texts in which some characters, and the percent sign always, are written as two hexadecimal digits. |
| SchemaPointer.PathExactly | internal/adapter/toolschema/references.go:80-107 | A path finds what its steps lead to one after the other: the field of an object, not past a nested identifier, or the element of an array by its decimal index. |
| SchemaFlatten.FlattenLeaves | internal/adapter/toolschema/union.go:59-101 | Every result of a successful expansion is a plain leaf, neither a reference nor a union, and there are at most 256. |
| SchemaFlatten.FlattenIsIdempotent | internal/adapter/toolschema/union.go:12-101 | Flattening a flattened schema changes nothing. |
| SchemaAccept.AnnotationsNamed | internal/adapter/toolschema/references.go:130-139 | The eight keywords that never validate. |
| SchemaAccept.ResolveExactly | internal/adapter/toolschema/references.go:27-70 | Resolving succeeds exactly for a chain of at most 64 distinct references whose siblings may be moved, and gives the last target with all siblings. |
| SchemaAccept.DisjointExactly | internal/adapter/toolschema/union.go:124-184 | Two schemas count as disjoint exactly if both demand a property that each gives a constant text or an enumeration of texts, directly or over references, without a text in common. |
| SchemaAccept.FlattenExactly | internal/adapter/toolschema/union.go:12-141 | A root with a reference or a union among its alternatives is flattened exactly if they grow into trees of plain object schemas under pure unions, within the limits on depth, weight and number, without conflicting annotations, and pairwise apart where there is a union; the new alternatives are the plain schemas in order, with the annotations of the unions above them. |
| SchemaAccept.OthersUnchanged | internal/adapter/toolschema/union.go:12-57 | Anything else is returned as it is. |
| SchemaAccept.LongTextRefused | internal/adapter/toolschema/references.go:141-169 | A plain schema with a text or number of a megabyte is refused. |
| SchemaShapes.KindsFlatten | internal/adapter/toolschema/union.go:12-184 | A root that refers to a union of two kinds of objects, told apart by a constant text, is flattened into them, whatever the two texts are, and both keep the description of the union. |
| SchemaResolver.Resolver.Charge | internal/adapter/toolschema/references.go:141-169 | Charges exactly the weight of a value, and refuses what is too deep or too heavy. |
| SchemaResolver.Resolver.InheritAnnotations | internal/adapter/toolschema/references.go:110-128 | The child gets exactly the parent annotations it lacks, is charged for them, and conflicts are refused. |
| SchemaResolver.Resolver.FlattenBranches | internal/adapter/toolschema/union.go:59-101 | Expands the branches in order, with the same counters and the same refusals as the recursive definition. |
| SchemaResolver.FlattenRootObjectUnion | internal/adapter/toolschema/union.go:12-41 | The whole rewrite computes the flattened root, of which FlattenExactly says when there is one and what it is. |
| SchemaMeaning.ResolveKeepsMeaning | internal/adapter/toolschema/references.go:27-70 | A resolved schema accepts what the unresolved one does, on every reference graph, for every meaning of the document. |
| SchemaMeaning.MergedMeaning | internal/adapter/toolschema/references.go:44-69 | A reference with only type, required and annotation siblings is the conjunction of its target and the siblings. |
| SchemaMeaning.DisjointSound | internal/adapter/toolschema/union.go:124-184 | Two leaves that the test calls disjoint never both accept an instance. |
| SchemaMeaning.AtMostOneLeaf | internal/adapter/toolschema/union.go:30-38 | Of pairwise disjoint leaves at most one accepts an instance, so nested exclusive unions may collapse. |
| SchemaMeaning.FlatteningKeepsMeaning | internal/adapter/toolschema/union.go:12-101 | Whenever flattening succeeds, the new root accepts exactly the instances of the old one, under every meaning of the old document. |
| SchemaMeaning.FlattenedDocumentHasSameMeaning | internal/adapter/toolschema/union.go:12-41 | The old meaning is a meaning of the new document too, for every schema whose own reference still finds what it found. |
| SchemaMeaning.OthersStillFind | internal/adapter/toolschema/references.go:72-108 | A reference that does not point into the root union finds the same schema in the new root. |
| SchemaReferences.ReferencesStayExactly | internal/adapter/toolschema/union.go:12-57 | After a successful flattening all references find what they found exactly if no root alternative was a reference or a union. |
| SchemaReferences.DocumentMeansSame | internal/adapter/toolschema/union.go:12-41 | A meaning of the old document is a meaning of the new one exactly if every reference means in it what it meant before. |
| SchemaExample.PointerIntoUnionMoves | internal/adapter/toolschema/union.go:12-41 | One document that is flattened: the reference to its first alternative found a pointer and finds a leaf afterwards. |
| SchemaExample.DocumentHasMeaning | internal/adapter/toolschema/union.go:12-141 | The same document, with its reference and its nested union, has a meaning, so the theorems about meanings speak of it. |
| SessionInvariant.FinishQueued | internal/gateway/responsesws/session.go:845-890 | Taking a finished turn off its queue keeps every queue in arrival order with exactly the unfinished turns. |
| SessionInvariant.ReaderStable | internal/gateway/responsesws/session.go:478-531 | What the client reader relies on between two locked sections survives any section of another thread. |
| SessionInvariant.OtherStable | internal/gateway/responsesws/session.go:586-671 | The same for the native upstream reader, the bridge runners and the closer. |
| SessionSteps.StepHolds | internal/gateway/responsesws/session.go:478-968 | Every locked section of every thread keeps the session state sound and leaves the thread where it may go on. |
| SessionSafety.StepSession | internal/gateway/responsesws/session.go:478-968 | One section of any thread keeps the whole session invariant, for all threads at once. |
| SessionSafety.CloseSession | internal/gateway/responsesws/session.go:949-968 | Closing keeps the invariant whatever turns it collects. |
| SessionLeases.StepLeases | internal/gateway/responsesws/session.go:586-747 | A section changes the leases that turns and threads hold by exactly the reservation or release it makes. |
| SessionLeases.StepHands | internal/gateway/responsesws/session.go:845-890 | A section hands each body reservation on to exactly one holder. |
| SessionSystem.CountersExact | internal/gateway/responsesws/hub.go:165-183 | In every state of every run every account counter equals the leases held in all sessions, at most 16. |
| SessionSystem.DrainedHoldsNothing | internal/gateway/responsesws/session.go:949-968 | A closed session with no thread left holds no lease, has no turn in flight, and released each body exactly once. |
| SessionTheorems.QueueIsArrivalOrder | internal/gateway/responsesws/session.go:758-799 | The queue of a stream is in arrival order. |
| SessionTheorems.OldestServed | internal/gateway/responsesws/session.go:775-799 | The turn being served is the oldest unfinished turn of its stream. |
| SessionTheorems.EveryRun | internal/gateway/responsesws/session.go:478-968 | Over every run: exact account counters, at most 16 pending turns, one runner for each stream serving its oldest turn, no stranded queue, and each body in one pair of hands. |
| SessionTheorems.RehomedUnseen | internal/gateway/responsesws/session.go:586-671 | A step changes a turn's account only while it is in flight, none of its events was observed for the client, and the session is open; the thread holds the new lease and owes the old one. |
| SessionTheorems.EveryRunRehomesUnseen | internal/gateway/responsesws/session.go:586-747 | The same of every step of every run, whatever other sessions do. |
| SessionSeen.StepForgetsNone | internal/gateway/responsesws/protocol.go:198-229 | No section of any thread forgets that an event of a turn has been shown. |
| SessionSeen.ShownTurnsStay | internal/gateway/responsesws/session.go:586-671 | Over every run: once the native reader or a bridge runner has passed an event of an unfinished turn to the client, no later step gives the turn another account. |
| SessionContinuation.RehomedAlone | internal/gateway/responsesws/session.go:586-747 | A step gives a turn another account only when no other turn of the session is in flight. |
| SessionContinuation.EveryRunRehomesFresh | internal/gateway/responsesws/session.go:586-747 | Over every run: a turn that gets another account continues no earlier response, and is the only one of its session in flight. |
| SessionObjects.Hub.ReserveConnection | internal/gateway/responsesws/hub.go:108-133 | Raises the connection counters of key and hub only below their limits. |
| SessionObjects.Hub.ReleaseConnection | internal/gateway/responsesws/hub.go:145-156 | Gives one connection back and drops empty counters. |
| SessionObjects.Hub.ReserveAccountTurn | internal/gateway/responsesws/hub.go:165-173 | Raises an account's counter by one, only below 16. |
| SessionObjects.Hub.ReleaseAccountTurn | internal/gateway/responsesws/hub.go:175-183 | Lowers an account's counter by one and drops it at zero. |
| SessionObjects.Hub.AddSession | internal/gateway/responsesws/hub.go:135-143 | A session is added only while the hub is not closing. |
| SessionObjects.Hub.RemoveSession | internal/gateway/responsesws/hub.go:158-163 | Removes one session. |
| SessionObjects.Hub.StartClosing | internal/gateway/responsesws/hub.go:185-199 | Closing takes a snapshot of all sessions and lets no further one in. |
| SessionObjects.ResponsesSession.CheckTurn | internal/gateway/responsesws/session.go:478-498 | The first section of reserveTurn: refused when closed, switching, or full. |
| SessionObjects.ResponsesSession.AttachTurn | internal/gateway/responsesws/session.go:499-531 | The second section: the turn joins its queue with its lease, or the lease is given back. |
| SessionObjects.ResponsesSession.FinishOnce | internal/gateway/responsesws/session.go:845-890 | A turn is finished at most once, and gives up its lease and its body then. |
| SessionObjects.ResponsesSession.Observe | internal/gateway/responsesws/protocol.go:198-229 | Afterwards an unfinished turn is marked as shown, and nothing else has changed. |
| SessionObjects.ResponsesSession.BeginSwitch | internal/gateway/responsesws/session.go:586-595 | The first limit of the live connection starts a switch; the turn may be retried exactly if it is the only one in flight, continues nothing and was not shown. |
| SessionObjects.ResponsesSession.FinishSwitch | internal/gateway/responsesws/session.go:673-677 | After a switch that succeeded new turns are admitted again. |
| SessionObjects.ResponsesSession.TransferNative | internal/gateway/responsesws/session.go:658-671 | The replacement connection takes over only while nothing of the turn was shown. |
| SessionObjects.ResponsesSession.TransferBridge | internal/gateway/responsesws/session.go:731-747 | The turn moves to the replacement account only while open, pinned to the bridge and unfinished. |
| SessionObjects.ResponsesSession.ResetBridgePin | internal/gateway/responsesws/session.go:749-756 | The pin is dropped only when nothing is pending. |
| SessionObjects.ResponsesSession.RaiseRunning | internal/gateway/responsesws/session.go:758-773 | Raises a stream's running flag at most once. |
| SessionObjects.ResponsesSession.NextTurn | internal/gateway/responsesws/session.go:775-799 | Takes the head of the queue, or lowers the running flag when there is none, in one section. |
| SessionObjects.ResponsesSession.BeginClose | internal/gateway/responsesws/session.go:949-968 | Closes once and collects exactly the queued turns. |
| ResetSafety.ClaimOldOk | internal/store/auto_resets.go:44-109 | Reclaiming an expired batch keeps the invariant although its last worker may still be around: that worker has run out of time. |
| ResetSafety.CallOk | internal/control/auto_resets.go:247-303 | A redemption call keeps at most one call for a job, after its durable mark. |
| ResetSafety.RunsOk | internal/control/auto_resets.go:126-303 | The invariant holds in every state of every run with crashes, lease expiries and several workers. |
| ResetTheorems.AtMostOneCall | internal/control/auto_resets.go:203-303 | Each account and credit has at most one redemption call, and then its attempt is on record. |
| ResetTheorems.CallsFollowMarks | internal/control/auto_resets.go:247-265 | At a call the attempt is already durable, nobody called before, and the caller's lease is running. |
| ResetTheorems.WrittenOnce | internal/store/auto_resets.go:111-131 | Claims, attempts, outcomes and payloads are written once and never change. |
| ResetTheorems.ReconcileSpares | internal/store/auto_resets.go:36-42 | Reconciliation retires exactly the unclaimed, unattempted jobs of the account whose credit is gone. |
| ResetTheorems.OnePayloadPerBatch | internal/control/auto_resets.go:160-201 | All mails of a batch, whoever sent them, carry the same payload. |
| ResetTheorems.ReportsAreComplete | internal/control/auto_resets.go:126-201 | A payload is frozen and a mail sent only when every job of the batch has its final outcome. |
| ResetTheorems.OverlapWouldCallTwice | internal/store/auto_resets.go:111-114 | Were two workers awake with the same unattempted job, both marks would succeed and both would call. |
| ResetTheorems.NeverOverlap | internal/control/auto_resets.go:46-46 | In no run are two workers awake with the same batch: the lease of 600 seconds outlives the cycle of 480. |
| ResetObjects.ResetStore.PlanReset | internal/store/auto_resets.go:26-32 | Inserts a job or moves its time, only while it is unclaimed and without outcome. |
| ResetObjects.ResetStore.ReconcilePendingResets | internal/store/auto_resets.go:36-42 | Updates exactly the rows its guard selects. |
| ResetObjects.ResetStore.ClaimResetBatch | internal/store/auto_resets.go:44-109 | Takes an expired batch over if there is one; otherwise, if wanted, makes one of at most twenty due unclaimed jobs; nothing is claimed exactly if neither exists. |
| ResetObjects.ResetStore.StartResetAttempt | internal/store/auto_resets.go:111-114 | Marks the attempt, once. |
| ResetObjects.ResetStore.FinishResetJob | internal/store/auto_resets.go:116-120 | Writes an outcome only where there is none. |
| ResetObjects.ResetStore.FreezeResetReport | internal/store/auto_resets.go:122-126 | Keeps the payload that is already there and returns the stored one. |
| ResetObjects.ResetStore.FinishResetReport | internal/store/auto_resets.go:128-131 | Marks the batch reported. |
| ResetObjects.ResetStore.RetryResetBatch | internal/store/auto_resets.go:133-136 | Shortens the lease of an unreported batch to a minute. |
| ResetObjects.Redeem | internal/control/auto_resets.go:247-298 | The redemption of one credit: marked first, called once, and the outcome is what the answer says or else what the credit says afterwards; all of it a sequence of steps of the model. |
| ResetObjects.RunResetJob | internal/control/auto_resets.go:203-303 | The whole job is a sequence of steps of the model; the credit is called for exactly when everything that must hold does, and the outcome, which is also the one stored, is the one that the answers decide. |
| CompactParts.CutValid | internal/adapter/copilotcompact/run.go:148-165 | Cutting valid UTF-8 at the start of a character gives two valid halves. |
| CompactParts.NearestStart | internal/adapter/copilotcompact/run.go:156-160 | A character starts at most three bytes before any position, so the search for a cut ends. |
| CompactRun.SplitParts | internal/adapter/copilotcompact/run.go:148-165 | Splits exactly what can be split, a list in its middle and a text at most three bytes before its middle, into two halves that join to the whole, each strictly smaller. |
| CompactRun.HalvesOfText | internal/adapter/copilotcompact/run.go:148-165 | The two halves of a text are non-empty, valid, and join to it. |
| CompactRun.Chunks | internal/adapter/copilotcompact/run.go:101-146 | At most 128 chunks, each within the limit, that join to the parts with texts cut at character boundaries only; refused exactly for an image that is too large or when filling chunks in order takes more than 128. |
| CompactBound.ChunksBounded | internal/adapter/copilotcompact/run.go:128-137 | Two neighbouring chunks of text are together more than one chunk's worth, cuts included, which bounds their number. |
| CompactBound.TextNeverRefused | internal/adapter/copilotcompact/run.go:101-146 | A transcript of text of at most sixty chunks' worth of bytes is never refused for its size, however it is divided into parts. |
| CompactRun.LongTextSplits | internal/adapter/copilotcompact/run.go:101-146 | A text too long for a chunk is long enough to be cut. |
| CompactCalls.Turn | internal/adapter/copilotcompact/run.go:44-80 | One call and what becomes of the queue: accepted, split into two smaller segments, or a reason to stop. |
| CompactCalls.CallAll | internal/adapter/copilotcompact/run.go:33-81 | The loop ends for every sequence of answers within 128 calls and keeps the transcript covered throughout. |
| CompactCalls.Run | internal/adapter/copilotcompact/run.go:33-81 | On success the successful calls, concatenated, are the transcript with nothing lost, repeated or reordered, and token totals are their sums; a refusal without asking means that chunking refuses the transcript, the calls are used up, or the very request at hand does not fit; every rejected body is closed once unless it is returned. |
| CompactCalls.BlankExactly | internal/adapter/copilotcompact/run.go:73-75 | A summary counts as empty exactly if all its characters are white space. |
| CompactSeal.FinishedTotals | internal/adapter/copilotcompact/run.go:73-80 | The summary of a finished run is the text of the last answered call, with the input and output tokens of all answered calls. |
| CompactPlan.PendingTail | internal/adapter/copilotcompact/plan.go:131-157 | The tail starts at the last position where no call is unanswered; refused exactly for inconsistent calls. |
| CompactPlan.NoPairCrosses | internal/adapter/copilotcompact/plan.go:131-157 | No call and its result lie on different sides of the cut. |
| CompactWindow.Prepare | internal/adapter/copilotcompact/plan.go:35-101 | Gives the plan of the request, and fails only where there is none. |
| CompactWindow.PlanUnique | internal/adapter/copilotcompact/plan.go:35-101 | A request has at most one plan. |
| CompactWindow.NoPlan | internal/adapter/copilotcompact/plan.go:35-101 | An unsupported item, no user message, inconsistent calls or an item that cannot be shown: then there is no plan. |
| CompactSummary.SupportedKinds | internal/adapter/copilotcompact/plan.go:116-127 | What can be planned: messages of users, assistants, systems and developers, calls and results of both sorts, reasoning, and tool inventories. |
| CompactSummary.PlanKeeps | internal/adapter/copilotcompact/plan.go:62-101 | The plan of a request item by item: which items before the tail are retained word for word, in order; the latest request; and the transcript, what each of those items shows, exactly if something is neither. |
| CompactSummary.BuildWindow | internal/adapter/copilotcompact/run.go:167-182 | The window is built item after item. |
| CompactSummary.SummaryBeforeTail | internal/adapter/copilotcompact/run.go:167-182 | A summary is in the window exactly once more than without it, right before the tail; without it the window is the retained items, the latest request and the tail. |
| CompactStable.LatestStaysLast | internal/adapter/copilotcompact/run.go:167-182 | The last user message of the window is the last user message of the request. |
| CompactStable.WindowStable | internal/adapter/copilotcompact/run.go:167-182 | Compacting a window again keeps retained items, request and tail, for every summary, exactly if the retained items answer their own calls. |
| CompactBalance.WindowStableExactly | internal/adapter/copilotcompact/plan.go:81-99 | The same in terms of the request: exactly if no call before the tail is separated from its result, both retained or neither. |
| CompactBalance.RolelessPairs | internal/adapter/copilotcompact/plan.go:81-99 | Calls and results without a role meet the condition. |
| CompactStable.UnbalancedExample | internal/adapter/copilotcompact/plan.go:81-99 | A call kept because its role is system, while its result is not, makes a window that does not prepare to the same plan. |
| CompactStable.ShortWindow | internal/adapter/copilotcompact/plan.go:81-99 | Without history the window is the request unchanged exactly if no kept item follows the latest request before the tail; otherwise those move in front of it. |
| CompactStable.ReorderedExample | internal/adapter/copilotcompact/plan.go:81-99 | A request with an instruction behind it and no history: the window turns them round. |
| CompactState.RemoveCovered | internal/adapter/copilotcompact/state.go:143-158 | Removes the covered items in order, each as often as it was covered. |
| CompactState.MultiplicityLeft | internal/adapter/copilotcompact/state.go:143-158 | Of each item exactly max(0, seen minus covered) copies are left. |
| CompactState.RemainingPositions | internal/adapter/copilotcompact/state.go:143-158 | What is left is a part of the input in its order: exactly the items that come after the covered copies of theirs are used up. |
| CompactState.ReplayedPrefix | internal/adapter/copilotcompact/inband.go:28-44 | Replaying exactly what was covered leaves nothing over. |
| CompactState.Restore | internal/adapter/copilotcompact/inband.go:49-88 | Succeeds exactly for no compaction item or for a single one that opens; the result is the window, what was not covered, and everything later. |
| CompactState.RestoreTwice | internal/adapter/copilotcompact/inband.go:49-88 | Restoring a restored input changes nothing. |
| CompactState.SealRestores | internal/adapter/copilotcompact/state.go:65-119 | A sealed item restores to its own window in its own scope, and opens nothing else. |
| CompactState.SealAlwaysFits | internal/adapter/copilotcompact/state.go:45-63 | If the check before inference passes, sealing cannot fail on size for any summary of at most 32 KiB. |
| CompactSeal.FinishedSummary | internal/adapter/copilotcompact/run.go:33-81 | The summary of a finished run is at most 32 KiB, and empty exactly if there was nothing to summarise. |
| CompactSeal.FinishedRunSeals | internal/adapter/copilotcompact/state.go:45-63 | If the check before inference passes, sealing the summary of a finished run cannot fail on size. |
| CompactSummary.WindowSizesAre | internal/adapter/copilotcompact/state.go:45-63 | The sizes that the check counts are those of the items of the window. |
| CompactSummary.FinishedWindowSeals | internal/adapter/copilotcompact/state.go:45-63 | If the check passes on a plan before any request is sent, the window that the finished run produces can be sealed. |
| CompactState.CheckIsExact | internal/adapter/copilotcompact/state.go:45-63 | The check passes exactly if every admissible summary fits. |
| CompactStream.StepOk | internal/adapter/copilotcompact/stream.go:37-126 | Every step of job, caller and writer keeps the invariant of the streaming job. |
| CompactStream.ChannelNeverBlocks | internal/adapter/copilotcompact/stream.go:83-96 | The single-slot channel has room whenever the job sends, and a result whenever the caller has been told of one. |
| CompactStream.FailureMeansNotAccepted | internal/adapter/copilotcompact/stream.go:37-81 | A result other than a cancellation is returned as a retryable failure only if no summary request was accepted, ever. |
| CompactStream.OneTerminal | internal/adapter/copilotcompact/stream.go:98-126 | At most one terminal event is written, and it tells how the job ended. |
| CompactStream.StreamTells | internal/adapter/copilotcompact/stream.go:98-126 | A stream that is written out without a cancellation or a failed write has told the client how the job ended. |
| CompactStream.RejectionClosedOnce | internal/adapter/copilotcompact/stream.go:128-149 | A rejected body left in the result is closed exactly once. |
| AntigravityHistory.NativeParts | internal/adapter/antigravitywire/request.go:210-245 | The loops compute the rebuilt parts, or fail exactly if the covered text was changed or a part is neither text nor a call. |
| AntigravityHistory.SegmentFlat | internal/adapter/antigravitywire/stream.go:224-283 | Cutting native parts after each call loses nothing. |
| AntigravityHistory.RebuildsNative | internal/adapter/antigravitywire/request.go:210-245 | From the visible text in any pieces and the saved prefixes the native parts come back through the last call, then the rest of the text as one part. |
| AntigravityHistory.RebuildKeepsText | internal/adapter/antigravitywire/request.go:210-245 | What is accepted shows exactly the text the client sent. |
| AntigravityStream.StreamState.TakeText | internal/adapter/antigravitywire/stream.go:224-249 | Text is accumulated or sent on and kept as native prefix; only the size limit refuses it. |
| AntigravityStream.StreamState.TakeBare | internal/adapter/antigravitywire/stream.go:224-229 | A part without text or call is kept as native prefix only. |
| AntigravityStream.StreamState.TakeCall | internal/adapter/antigravitywire/stream.go:250-278 | A call is saved with the native parts before it, and the deltas add up to what the native parts say. |
| AntigravityStream.StreamState.TakeBlock | internal/adapter/antigravitywire/stream.go:189-191 | A blocked prompt ends as filtered. |
| AntigravityStream.StreamState.TakeFinish | internal/adapter/antigravitywire/stream.go:198-211 | The reason for ending that the client is given: tool calls if there were any before a stop, length, or filtered; an unknown reason is an error. |
| AntigravityStream.StreamState.End | internal/adapter/antigravitywire/stream.go:142-145 | A stream without a reason for ending is an error. |
| AntigravityRoundTrip.TurnRebuilt | internal/adapter/antigravitywire/request.go:94-245 | A turn of assistant messages in any shape is accepted exactly if its text starts with what the saved prefixes show, and becomes one model entry. |
| AntigravityRoundTrip.PlaysBack | internal/adapter/antigravitywire/request.go:94-245 | From the converter's memory of a response, through a client that repeats it, to the request: one model entry, the native parts through the last call and the remaining text; edited covered text is refused. |
| AntigravityRoundTrip.TurnThenRest | internal/adapter/antigravitywire/request.go:94-208 | Whatever follows a turn of assistant messages goes on from the collected turn. |
| AntigravityRoundTrip.MissingEntryRefusesAll | internal/adapter/antigravitywire/request.go:179-190 | A call whose needed entry is missing refuses the whole request, wherever it stands. |
| AntigravityRoundTrip.SavedIsSound | internal/adapter/antigravitywire/stream.go:269-272 | A lookup that returns only what converters saved never returns a prefix with calls or answers in it. |
| AntigravityRoundTrip.CacheServes | internal/adapter/antigravitywire/signatures.go:79-95 | A cache that still has the entries of a turn serves its calls with their signatures and prefixes. |
| AntigravityContents.AppendModel | internal/adapter/antigravitywire/request.go:80-92 | New model parts keep the conversation in order with their calls pending. |
| AntigravityContents.AppendAnswer | internal/adapter/antigravitywire/request.go:101-112 | An answer joins the user entry and takes its call out of the pending ones. |
| AntigravityContents.AppendUser | internal/adapter/antigravitywire/request.go:152-157 | A user message after all answers keeps the conversation in order. |
| AntigravityContents.AcceptedIsPaired | internal/adapter/antigravitywire/request.go:80-157 | In an orderly conversation roles alternate and each call is answered exactly once at the start of the next user entry. |
| AntigravityRequest.RequestBuilder.FlushAssistant | internal/adapter/antigravitywire/request.go:195-208 | Flushes the collected messages as the specification does. |
| AntigravityRequest.RequestBuilder.TakeCall | internal/adapter/antigravitywire/request.go:159-193 | Records and resolves a call, or refuses it. |
| AntigravityRequest.RequestBuilder.Message | internal/adapter/antigravitywire/request.go:94-157 | One message changes the builder as the specification of which RequestExactly speaks, or refuses the request. |
| AntigravityRequest.AcceptedIsOrderly | internal/adapter/antigravitywire/request.go:94-208 | Every accepted message list gives an orderly conversation. |
| AntigravityRequest.Request | internal/adapter/antigravitywire/request.go:32-78 | The whole loop: accepted exactly as specified, with the contents and system parts of which RequestExactly speaks, and in order. |
| AntigravityTold.RequestExactly | internal/adapter/antigravitywire/request.go:32-208 | From the messages alone: a request is accepted exactly if every message and the last turn are in order, no call is left open and something is said; its contents are then the conversation line by line, and its system parts those of the system messages. |
| AntigravityTold.MessageByMessage | internal/adapter/antigravitywire/request.go:80-193 | Unless the model is Claude, the conversation is what each message says, in order: text, saved parts and calls of the assistant, answers and texts of the client. |
| AntigravityTold.ClientInOrder | internal/adapter/antigravitywire/request.go:101-157 | For every model the user entries hold, in order, the parts of the user messages and for each tool message its id and output under the name of its call. |
| AntigravityTold.NamedAsCalled | internal/adapter/antigravitywire/request.go:101-112 | In an accepted request an id belongs to one call, whose name the answer carries. |
| AntigravityCache.Evict | internal/adapter/antigravitywire/signatures.go:64-69 | After the eviction loop there is room for the new entry; where there was room to begin with only expired entries are gone. |
| AntigravityCache.Signatures.Remember | internal/adapter/antigravitywire/signatures.go:57-72 | The new entry is in, both bounds hold, the byte counter is exact, and everything else that stays is unchanged. |
| AntigravityCache.Signatures.Save | internal/adapter/antigravitywire/signatures.go:36-55 | Entries over the size limits are refused and change nothing. |
| AntigravityCache.Signatures.History | internal/adapter/antigravitywire/signatures.go:79-95 | Returns what was saved for this very call and has not expired. |
| CopilotProtocol.WriteTextLinked | internal/adapter/protocol/copilot_stream.go:177-190 | After a text delta the client has put together what the converter holds. |
| CopilotProtocol.WriteCallLinked | internal/adapter/protocol/copilot_stream.go:220-251 | The same after a tool delta, shown or not. |
| CopilotProtocol.StreamUnderstood | internal/adapter/protocol/copilot_stream.go:106-144 | At any point of any stream the client that goes by slots has understood every event. |
| CopilotFinish.FinishUnderstood | internal/adapter/protocol/copilot_stream.go:274-333 | The end finishes every slot once, and the terminal response is what the client has put together. |
| CopilotIds.StrictIsBoth | internal/adapter/protocol/copilot_stream.go:186-280 | The client that checks ids accepts exactly the streams that the other client accepts and whose ids are right. |
| CopilotEnd.EndTags | internal/adapter/protocol/copilot_stream.go:274-311 | At the end the ids are right exactly if they were right before and no call ends with another id than it was first shown with. |
| CopilotOutput.EveryStream | internal/adapter/protocol/copilot_stream.go:106-339 | For every run of chunks: consecutive numbers, slots without gaps, done events that repeat the deltas, one final event, and a terminal output that is what the client has put together. |
| CopilotOutput.ReadsWhileSteady | internal/adapter/protocol/copilot_stream.go:220-251 | A client that checks ids reads an unfinished stream exactly if no passed-on arguments came under another id than their call was first shown with. |
| CopilotOutput.AcceptedIfSteady | internal/adapter/protocol/copilot_stream.go:220-311 | A client that checks ids accepts an ended stream exactly if each call was shown under one id throughout; its items are then the response's, ids included. |
| CopilotOutput.GivenOnceIsSteady | internal/adapter/protocol/copilot_stream.go:233-235 | One id for each call, given no later than its first arguments, is enough. |
| CopilotOutput.LateIdIsRefused | internal/adapter/protocol/copilot_stream.go:228-250 | An id that comes after the first arguments: the stream is refused by a client that checks ids, although its output is the batch converter's. |
| CopilotBatch.ChatMessageToOutput | internal/adapter/protocol/copilot_response.go:67-110 | The loops compute the batch output, or nothing if a call lacks its id or name. |
| CopilotBatch.BatchCallItem | internal/adapter/protocol/copilot_response.go:80-108 | The calls come last and in order, a known name as the client's tool, with its input if that is a custom one, and any other name as it is. |
| CopilotBatch.ResponseIdNamed | internal/adapter/protocol/copilot_response.go:173-182 | What a response is called after the usual chat ids, and without one. |
| CopilotBatch.Renaming | internal/adapter/protocol/copilot_response.go:173-182 | A blank chat id leaves the response id as it was; any other names the response whatever it was named before. |
| CopilotOutput.StreamIsBatch | internal/adapter/protocol/copilot_response.go:35-110 | The stream's output, response id included, is the batch converter's for the accumulated completion exactly if nothing came out of order. |
| CopilotEnding.EndsAsFinished | internal/adapter/protocol/copilot_stream.go:274-311 | From the chunks: a stream without errors in which some chunk gives a reason ends, as incomplete exactly if the last reason is the length or the content filter, and as completed otherwise. |
| CopilotEnding.NoReasonNoEnd | internal/adapter/protocol/copilot_stream.go:274-277 | Without a reason a stream without errors does not end. |
| CopilotEnding.ErrorIsLast | internal/adapter/protocol/copilot_stream.go:106-110 | The first error is the last event, whatever comes after it. |
| CopilotEnding.ChatCompletionToResponse | internal/adapter/protocol/copilot_response.go:35-65 | The batch response: an error exactly without a choice, without a message or for an incomplete call, and the status that the reason decides. |
| CopilotEnding.ResponseIsBatch | internal/adapter/protocol/copilot_response.go:35-110 | The response of the terminal event, id, status and output, is the batch converter's for the accumulated completion exactly if nothing came out of order. |
| CopilotOutput.CallBeforeTextDiffers | internal/adapter/protocol/copilot_response.go:67-110 | A call before the message: the batch converter succeeds, with another order than the stream. |
| CopilotConverter.Converter.WriteTextDelta | internal/adapter/protocol/copilot_stream.go:177-190 | The fields become what the specification says. |
| CopilotConverter.Converter.WriteRefusalDelta | internal/adapter/protocol/copilot_stream.go:192-205 | The same for refusals. |
| CopilotConverter.Converter.NeedMessage | internal/adapter/protocol/copilot_stream.go:207-218 | The same for the message's slot. |
| CopilotConverter.Converter.ShowCall | internal/adapter/protocol/copilot_stream.go:253-272 | The same for showing a tool. |
| CopilotConverter.Converter.WriteToolDeltas | internal/adapter/protocol/copilot_stream.go:220-251 | The same for a list of tool deltas. |
| CopilotConverter.Converter.Take | internal/adapter/protocol/copilot_stream.go:106-144 | The same for a chunk. |
| CopilotConverter.Converter.End | internal/adapter/protocol/copilot_stream.go:274-311 | The same for the end: the output it collects slot by slot is the response's, under the status of which EndsAsFinished speaks. |
| CopilotConverter.Stream | internal/adapter/protocol/copilot_stream.go:70-104 | All chunks up to an error, then the end; a stream without an end is an error. |
| BudgetModel.StepExact | internal/gateway/request_body.go:48-102 | Each atomic operation moves the counter by exactly what its own reservation gains or loses. |
| BudgetModel.EveryRun | internal/gateway/request_body.go:48-102 | Over every interleaving the counter is the sum of what is held, never negative; an acquisition leaves it within its own request's limit; nothing overflows; and it is zero when all is released. |
| BudgetModel.ReleasedOnce | internal/gateway/request_body.go:98-102 | Releasing a reservation again changes nothing. |
| BudgetModel.ShrinkExactlyWhileHeld | internal/gateway/request_body.go:79-85 | Shrinking keeps the account exact if and only if the reservation has not been released. |
| BodyBudget.CostIsProduct | internal/gateway/request_body.go:104-109 | The guard admits exactly the products that fit in 64 bits. |
| BodyBudget.ReadBufferedBody | internal/gateway/request_body.go:179-253 | Ends for every reader, with the whole body and a reservation of exactly its cost, or with a stated reason and nothing held, whatever others take meanwhile. |
| BodyBudget.ReserveTranscript | internal/gateway/request_body_compact.go:39-50 | Grows to eight copies of the body exactly if there is room. |
| BodyBudget.TranscriptThenRelease | internal/gateway/request_body_compact.go:39-50 | Grown for a transcript and shrunk before release, the reservation is as before, and released it holds nothing. |
| QuotaModel.RatingExact | internal/store/quota_routing.go:112-145 | A rating exists exactly for fresh, allowed quota with at least one window, each complete and not used up; it is the least that a window leaves free. |
| QuotaModel.RatedExactly | internal/store/quota_routing.go:112-145 | There is a rating exactly for an account without an error whose quota was read within fifteen minutes, names a plan, allows requests and has a window, each of them unfull and resetting later. |
| QuotaModel.LoadIs | internal/store/quota_routing.go:81-84 | The load is the number of bound keys for each unit of weight. |
| QuotaModel.QuotaRoutingScore | internal/store/quota_routing.go:112-145 | The loop computes the rating. |
| QuotaModel.ChosenOnce | internal/store/quota_routing.go:46-85 | The choice is determined. |
| QuotaRouting.Select | internal/store/quota_routing.go:46-85 | One pass finds the lexicographic optimum of tier, score and load over the eligible accounts, or keeps the present one. |
| QuotaRouting.SelectExactly | internal/store/quota_routing.go:46-85 | The key stays exactly if there is no account with room that is of a better tier or more than five points better on the same plan; otherwise it moves to the first of those that none is better than, by tier, then what is free, then load. |
| QuotaRouting.MovesOnlyUp | internal/store/quota_routing.go:61-84 | A move is never to a worse tier, and within a tier only on the same plan and for more than five points. |
| QuotaRouting.SecondLookKeeps | internal/store/quota_routing.go:46-98 | After a move a second look at the same data keeps the account, although the move made room at one account and took it at another. |
| QuotaRouting.Router.PreferQuotaAccount | internal/store/quota_routing.go:24-105 | Rebinds the key to the choice, counts the switch, and moves exactly one key between two accounts. |

## Left out

- I/O, HTTP, SQL, clocks, timers, randomness and cryptography: statements are atomic guarded updates, time is a parameter or a step, sealing is an authenticated map keyed by scope and id, and fingerprints are abstract.
- JsonScan.Trim: bytes.TrimSpace also removes U+0085, U+00A0 and other Unicode spaces; the model trims the ASCII ones only.
- The nesting limit of the standard decoder's validity check: a value tree of any depth counts as valid here.
- JSON callbacks: BytesWithValue and AppendWithValue, which splice a value while printing, are not modelled.
- SchemaMeaning.FlattenedDocumentHasSameMeaning: a verdict depends on the schema's text alone, so a meaning that changes with the base URI of a nested $id, anchors, and dynamic references are outside it; drafts in which siblings of a reference are ignored are not considered.
- SchemaPointer.UnescapeEscape: only that unescaping inverts escaping; the source accepts some malformed segments, and no exact acceptance is claimed.
- The wording of errors and the order in which conflicting annotations are reported: a refusal is one value.
- Sessions: account health, the model pin, remembered response ids and the bound on dial attempts; a dial is an answer that may come or not.
- Sessions: that the session's account is the one of the live upstream, and that upstream writes happen exactly once, are not claimed; `resolveRoute` writes back an account that it read before the lock was dropped.
- SessionObjects.Hub.StartClosing: the sessions of the snapshot are closed by the caller one by one; each close is the session's own step.
- Resets: the order of jobs in a batch and the limit of two at a time; any interleaving is allowed, which is more than the code does. A worker is taken to return when its context ends. The claim of a new batch while an expired one waits is allowed in the runs, because a locked row is skipped.
- Compaction: whether a request body is small enough is a parameter, as are the JSON checks of the request around the items; the summary's label is abstract bytes.
- CompactStream.StepOk: the job, the caller and the writer are a state machine over their steps, not goroutines and channels.
- AntigravityHistory.SegmentFlat: a native part is text, a call, or neither; a single part with both text and a functionCall, which `part` would handle in turn, is not modelled.
- AntigravityRoundTrip.CacheServes: saved prefixes are taken to decode to what was encoded; saved state that cannot be decoded, which refuses the request, does not occur.
- Antigravity: image parts of responses, errors while emitting, usage, generation settings and tool declarations; sizes of JSON values are lengths of strings.
- Copilot streams: usage, model, creation time, the details of error events and of incomplete responses; tool deltas that are not objects.
- CopilotEnding.ChatCompletionToResponse: a completion with several choices is its first one; the shape checks on the JSON values are one error.
- CopilotConverter.Stream: lines that are not JSON are skipped before the chunks reach the model.
- BodyBudget.ByteBudget.TryAcquireWithin: here the load and the swap meet no other thread; the loop with interference is in BudgetModel.
- BudgetModel.EveryRun: each reservation has one owner at a time, as in the code; two threads shrinking the same reservation are not modelled.
- QuotaModel.RatingExact: percentages are reals, not floating point.
- QuotaRouting.SecondLookKeeps: the second look must offer no account that the first did not; an account that joins later can be better.
- QuotaRouting.Router.PreferQuotaAccount: the candidate query, the capacity query and the final read of the account are parameters or left out.
- HTTP handlers, login flows, the web console, mail senders and templates, account health, throttling, model caches and cursors: I/O, presentation, or easy members.
