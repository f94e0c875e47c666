# Verification models for the AI-request bridge

Arlopass lets web apps use AI providers whose credentials stay on the user's machine. Between the page and a provider
stand several small concurrent programs: queues, multiplexers, framers, supervisors and tables that other parties change
while a call is suspended. These Dafny modules model those programs and prove what they promise for all inputs and all
ways in which their steps can interleave, over runs of any length.

Stateful components appear twice: as a step function over a record of their fields, which the theorems quantify over
whole runs of, and as a class whose methods change the fields in place. Every method is proved to take exactly its step,
or its part of one: the value that the object stands for afterwards is the step function's at the value before. A step
runs from one `await` to the next, and whatever comes from outside may come between any two steps.

What a step function does is not taken from its own text. For each there are laws that say, field by field and in terms
of the inputs or of the list of events alone, what it changes: what arrived, what was posted, which error is reported
first, which key is stored under which id.

| file | models |
|---|---|
| `Wrappers.dfy`, `Text.dfy`, `OrderedChecks.dfy` | optional values and results; the string operations the other files share: trim, split, join, decimal numbers; tests made in a fixed order, of which the first that fails decides |
| `CanonicalJson.dfy`, `CanonicalDecoding.dfy`, `CanonicalMeaning.dfy`, `CanonicalOrder.dfy` | canonical JSON text: the printer, a reader of JSON that gets back what was printed, what the text identifies, and when property order matters |
| `JsonObjects.dfy` | property lookup, assignment and filtering on objects with JavaScript's property order |
| `ConnectionCompletion.dfy`, `RequestIdentity.dfy` | the identity key and fingerprint of connection completion requests, and exactly when they identify a request |
| `ContractAgreement.dfy` | parsing connection methods and comparing a manifest with a contract |
| `Framing.dfy`, `NativeHost.dfy` | length-prefixed frames, and the bridge's loop that reads them while more bytes arrive |
| `VaultProxy.dfy` | the extension's requests and streams over one port, with the tags the host puts on replies |
| `StreamDispatcher.dfy` | the page's stream queue, its waiter and its terminals |
| `InFlight.dfy` | operations in flight, listed by grant, and what a revoked grant does to them |
| `PolicyKeys.dfy` | policy keys, their rotation and revocation |
| `AdapterHost.dfy` | the host that watches, restarts and stops adapters |
| `CliBridge.dfy` | requests and streams over one CLI process, a JSON line each |
| `ConnectionHandle.dfy` | the cloud connection handle parser |
| `ConvertStream.dfy` | the AI SDK stream converter |
| `PolicyEvaluator.dfy` | the policy evaluator |

`dafny verify dfyconfig.toml` checks the whole project.

## What the code does not promise

Some expected properties fail for some inputs. Each is proved exactly, as an if-and-only-if over a condition that can be
checked beforehand, or shown by a witness.

- Canonical text depends on property order when `localeCompare` calls two different keys of one object equal and
  neither is an array index, which would fix their order (`CanonicalOrder.OrderIndependentIffTieFree`); a manifest can
  then disagree with a contract that declares the same methods (`ContractAgreement.AgreementIffTieFree`), and a repeated
  completion request get another fingerprint, if and only if copied fields tie (`RequestIdentity.RequestIdentityIff`).
  Equal text always means equal values.
- A message field named `__proto__` is lost when the completion request is copied, since assigning it runs a setter
  (`ConnectionCompletion.ProtoFieldIsLost`).
- Identifiers that contain NUL can share an identity key (`ConnectionCompletion.AmbiguousIdentityKey`).
- A zero-length frame is a clean shutdown, but bytes behind it are discarded or kept depending on the chunking; the
  outcome is determined by the bytes if and only if there are none (`NativeHost.OutcomeIsDeterminedIff`).
- An overflowing stream stays registered, so its queue can reach 514 entries (`StreamDispatcher.BoundIsReached`).
- A CLI line holding the JSON value `null`, or a chunk whose callback throws, makes the data event throw and hides the
  rest of its lines; what callers get depends on the chunking if and only if a line completed behind the first such
  line would reach a waiting caller (`CliBridge.ChunkIndependentIff`).
- A failed or stopped adapter comes back when a call, restart, activation or check that was still awaited ends late
  (`AdapterHost.DownForGoodIffQuiet`, `AdapterHost.FailedUntilStoppedIffQuiet`).
- An operation stays in the in-flight table for ever if and only if it is abandoned
  (`InFlight.StaysForEverIffAbandoned`), which happens exactly when no iterator can be got from its stream, its stream is
  closed before the first pull, or its source fails to close (`InFlight.AbandonedExactly`).
- A grant revoked between the permission check and the registration does not mark the operation, whose response is
  handed out (`InFlight.EarlyRevocationIsNotSeen`); of the revocations after the permission check exactly those after
  the registration count (`InFlight.OperationsAreAuthorizedFirst`, `InFlight.ResponseIsHandedIffNotRevoked`).
- A health listener that throws ends the marking of a revoked grant's operations: one in flight stays unmarked if and
  only if a listener throws for one of the same grant that was registered before it
  (`InFlight.MarkedIffRevokedInFlight`, `InFlight.MissedRevocationIsNotSeen`).
- When provider or method ids hold dots, one connection handle is accepted under several bindings
  (`ConnectionHandle.AcceptedUnderBothIff`).

## Model

| member | source | states |
|---|---|---|
| CanonicalJson.CanonicalTextIsPrintedNormalForm | apps/bridge/src/bridge-handler.ts:114-141 | The recursive printer writes exactly the text of the value's normal form: fields sorted by the collation, undefined, function and symbol fields dropped, what JSON cannot say nulled |
| CanonicalDecoding.PrintDecodes | apps/bridge/src/bridge-handler.ts:120-141 | Two printed trees with more text behind them that read the same are the same tree with the same text behind it, so nesting is never ambiguous |
| CanonicalDecoding.PrintIsRead | apps/bridge/src/bridge-handler.ts:114-141 | A reader of JSON, with its strings, escapes, numbers, lists and objects, gets a printed tree back from its text, whatever follows it |
| CanonicalDecoding.CanonicalTextIsRead | apps/bridge/src/bridge-handler.ts:114-141 | From the canonical text of any value the reader gets the value's normal form, and nothing is left over |
| CanonicalDecoding.SameTextIffSameNormalForm | apps/bridge/src/bridge-handler.ts:114-141 | Two values have the same canonical text if and only if they have the same normal form, for every collation |
| CanonicalMeaning.EqualTextMeansEqualMeaning | apps/bridge/src/bridge-handler.ts:114-141 | Equal text means equal values after ignoring key order, dropping omitted fields and reading non-JSON values as null, whatever the collation |
| CanonicalMeaning.NormalFormIsSorted | apps/bridge/src/bridge-handler.ts:126-138 | An object's normal form has exactly the keys of the fields that are not undefined, functions or symbols, in the collation's order |
| CanonicalMeaning.CanonicalTextTellsTheMeaning | apps/bridge/src/bridge-handler.ts:114-141 | The tree that the reader gets from a value's canonical text means what the value means |
| CanonicalMeaning.CanonicalTextIdentifiesMeaning | apps/bridge/src/bridge-handler.ts:114-141 | For a value in which no object has two printed keys that tie, equal text if and only if equal meaning |
| CanonicalOrder.TiesHaveTwins | apps/bridge/src/bridge-handler.ts:126-138 | Every value with a tie somewhere inside has a twin of the same meaning and a different normal form, in a property order that an object can have |
| CanonicalOrder.OrderIndependentIffTieFree | apps/bridge/src/bridge-handler.ts:126-138 | A value's text depends on its meaning only, among all objects with array indices first and in ascending order, if and only if no object in it has two printed keys that tie and are not fixed in order |
| CanonicalOrder.TiedKeysWitness | apps/bridge/src/bridge-handler.ts:128 | Any two distinct keys that compare equal, neither an array index, give an object with two canonical texts |
| ConnectionCompletion.Complete | apps/bridge/src/bridge-handler.ts:1496-1570 | From the raw message: which requests are refused and why, and otherwise the identity key and the fields that are fingerprinted |
| ConnectionCompletion.NonEmptyIff | apps/bridge/src/bridge-handler.ts:80-86 | Normalising gives a text if and only if the value is that text with nothing but white space around it, and the text is not empty and has none around it |
| ConnectionCompletion.VerdictMeans | apps/bridge/src/bridge-handler.ts:1496-1570 | The refusal is that of the first gate test that fails, and otherwise the identity key consists of the messages' own texts, without the white space around them, in order |
| ConnectionCompletion.CopyFields | apps/bridge/src/bridge-handler.ts:1547-1560 | For any choice of keys, the loop of assignments puts the chosen fields behind what was there, in order, but array indices in front of it and no `__proto__` at all |
| ConnectionCompletion.RequestIsPrescribed | apps/bridge/src/bridge-handler.ts:1529-1560 | Under every key the request says the normalised text, the copied value, or nothing, as the message prescribes |
| ConnectionCompletion.SameFieldsIffSameCompletion | apps/bridge/src/bridge-handler.ts:302-380 | The requests built for two messages have the same fields up to order if and only if, under every normalised key, both messages have a text that is the same up to white space around it or neither has one that is not blank, and they agree on the meaning of every other field but type, correlationId, the routing tag, the gate token and `__proto__` |
| RequestIdentity.SameTextIffSameCompletion | apps/bridge/src/bridge-handler.ts:143-147 | Same text under the fingerprint means asking for the same completion, which is said of the messages' own texts up to white space around them, whatever the collation; and conversely unless copied fields tie |
| RequestIdentity.SameCompletionSameVerdict | apps/bridge/src/bridge-handler.ts:1496-1570 | Messages that ask for the same completion are accepted alike, and then have the same identity key |
| RequestIdentity.RequestIdentityIff | apps/bridge/src/bridge-handler.ts:1496-1570 | For an accepted message, same identity key and text is the same as asking for the same completion, for every other accepted message, if and only if none of its copied fields tie nor anything inside them; ties with or among the normalised fields do no harm |
| ConnectionCompletion.IdentityKeyIdentifies | apps/bridge/src/bridge-handler.ts:1562-1569 | The key and the number of NULs in each part determine the identifiers, and only they do; NUL-free identifiers are the case of all zeros |
| ConnectionCompletion.AmbiguousIdentityKey | apps/bridge/src/bridge-handler.ts:1562-1569 | A NUL inside an identifier can make two requests share one identity key |
| ConnectionCompletion.ProtoFieldIsLost | apps/bridge/src/bridge-handler.ts:1547-1560 | An own `__proto__` field, wherever it stands, passes the gate and is chosen for copying, yet the request is the same without it |
| ContractAgreement.ParseConnectionMethods | adapters/runtime/src/cloud-contract.ts:222-253 | Succeeds if and only if the input is an array of valid descriptors with distinct ids, returns them in order, and otherwise reports the first fault and, for a duplicate, both indices |
| ContractAgreement.TokenIffMatches | adapters/runtime/src/cloud-contract.ts:10 | A token is what the pattern matches: words of lower-case letters and digits joined by single separators |
| ContractAgreement.DescriptorIff | adapters/runtime/src/cloud-contract.ts:150-215 | An item is a descriptor if and only if it is an object whose `id` and `authFlow` are tokens up to white space around them |
| ContractAgreement.DescriptorIsParsedInPlace | adapters/runtime/src/cloud-contract.ts:215-219 | A parsed descriptor has the input's fields in their order, each as it was but for the two tokens, which lose the white space around them |
| ContractAgreement.ParsedListIsComparable | adapters/runtime/src/cloud-contract.ts:201-253 | What the parsing loop accepts has the distinct ids that the comparison relies on |
| ContractAgreement.NoDifferenceIffSameMethods | adapters/runtime/src/cloud-contract.ts:293-312 | No difference means both lists declare the same methods up to order of methods and fields; and conversely unless keys of an expected descriptor tie |
| ContractAgreement.DifferenceNamesTheIds | adapters/runtime/src/cloud-contract.ts:293-312 | A reported difference names exactly the ids that only one list has, each on its side, and those whose methods have different texts |
| ContractAgreement.AgreementIffTieFree | adapters/runtime/src/cloud-contract.ts:264-312 | A list agrees with every list that declares the same methods if and only if none of its descriptors has tied keys |
| ContractAgreement.ValidateStrict | adapters/runtime/src/cloud-contract.ts:331-398 | Strict validation succeeds only for a full contract whose listed methods are well-formed, distinct and the manifest's; and always then, unless manifest keys tie |
| Framing.HeaderRoundTrip | apps/bridge/src/native-host.ts:186-189 | Reading a written 32-bit little-endian header returns the length, for every length below 2^32 |
| Framing.FrontMeans | apps/bridge/src/native-host.ts:120-145 | What is done with the front of the bytes is decided by the length in its first four, lowest first: waiting, shutdown, too long, unparsable, or a whole body |
| Framing.ReadIsInverse | apps/bridge/src/native-host.ts:120-162 | Reading a stream of encoded accepted bodies returns those bodies and leaves nothing |
| Framing.ReadIsStable | apps/bridge/src/native-host.ts:120-143 | More bytes never change what was read before, nor a stop that was decided |
| Framing.WholeStreamIffNothingLeft | apps/bridge/src/native-host.ts:120-162 | A stream is a concatenation of accepted frames if and only if reading it leaves nothing over |
| Framing.FramesAndShutdownIff | apps/bridge/src/native-host.ts:120-143 | A stream is accepted frames with or without one shutdown frame at its end if and only if reading it leaves nothing over or exactly that frame |
| NativeHost.HandlerSeesTheSequentialReading | apps/bridge/src/native-host.ts:90-162 | Unless bytes come behind a zero-length frame, under any chunking and interleaving the handler gets the bodies of the sequential reading in order, once each, and the bytes received are the handled frames, then the shutdown frame or the refused frame, then the buffer |
| NativeHost.ReceivedIsWhatArrived | apps/bridge/src/native-host.ts:90-113 | What the host has received are the chunks of the data events before the end of the input, in order |
| NativeHost.HandlerProtocol | apps/bridge/src/native-host.ts:145-162 | One frame at a time: the handler is called for the frame in front, the loop goes on when it returned and what it returned, if anything, was written, and a failure or a bad frame breaks the chain with its cause |
| NativeHost.SettledOnce | apps/bridge/src/native-host.ts:66-118 | The promise is settled once: rejected by a break or an input error, or as the check behind the last drain says |
| NativeHost.FramingRoundTrip | apps/bridge/src/native-host.ts:90-190 | For frames the host accepts, every chunking and interleaving delivers exactly the bodies sent |
| NativeHost.TerminationVerdict | apps/bridge/src/native-host.ts:66-118 | Unless bytes come behind a zero-length frame, and without failing handlers, writes or input, `run` resolves if and only if the input is a concatenation of accepted frames, with or without a shutdown frame at its end, and rejects otherwise |
| NativeHost.QuietBufferIsBounded | apps/bridge/src/native-host.ts:120-140 | After every completed drain the buffer holds at most maxFrameBytes + 3 bytes |
| NativeHost.OutcomeIsDeterminedIff | apps/bridge/src/native-host.ts:90-143 | All finished runs over the same bytes make the same calls and reach the same verdict if and only if nothing comes behind a zero-length frame |
| NativeHost.NativeHost.OnData | apps/bridge/src/native-host.ts:90-96 | The data listener appends the chunk and schedules one drain |
| NativeHost.NativeHost.OnEnd | apps/bridge/src/native-host.ts:98-113 | The end listener schedules the final check behind the drains |
| NativeHost.NativeHost.RunNextJob | apps/bridge/src/native-host.ts:90-113 | The promise chain runs drains in order, skips them once rejected, and settles the verdict last and once |
| NativeHost.NativeHost.DrainTurn | apps/bridge/src/native-host.ts:120-157 | One turn of the drain loop up to its await: all six ways it can go |
| VaultProxy.RequestIdsDiffer | apps/extension/src/vault-proxy.ts:90 | Request ids made from different counter values differ, whatever the clock says |
| VaultProxy.PostedFramesAreTheRequests | apps/extension/src/vault-proxy.ts:88-138 | After any run the frames posted are the messages of the sends that got a port and whose post did not throw, in order, each with its own new id under the tag and otherwise the caller's message without its tag; and the ids given out are those of the sends that got a port |
| VaultProxy.ReactionMeans | apps/extension/src/vault-proxy.ts:59-75 | A caller sees the non-empty text of a chunk, if it asked for chunks, and any other message as its answer, with every field but the tag |
| VaultProxy.DemultiplexingIsProjection | apps/extension/src/vault-proxy.ts:52-83 | Whatever else happens on the port, a waiting request sees the non-empty deltas and the first answer that carry its id, or the disconnect if that comes first, and waits exactly until then |
| VaultProxy.SentRequestSeesItsProjection | apps/extension/src/vault-proxy.ts:49-138 | A request sent at any point of any run gets a new id and then sees its projection, or only its failed post |
| VaultProxy.DisconnectRejectsAll | apps/extension/src/vault-proxy.ts:76-83 | After any run a disconnect empties the map and rejects every waiting request, which then sees nothing more whatever follows |
| VaultProxy.RequestSeesItsOwnHandler | apps/bridge/src/native-host.ts:146-159 | Sent at any point of any run, with any sends, disconnects and writes for others in between, a request sees the replies its own handler call wrote before the first disconnect, without their tags, and then the disconnect if they hold no answer |
| VaultProxy.CompletedCall | apps/extension/src/vault-proxy.ts:59-75 | Chunks followed by a response reach a streaming caller as all non-empty deltas and the response, and later messages are ignored |
| VaultProxy.EveryFrameReachesItsCaller | apps/bridge/src/native-host.ts:145-160 | In a run without a disconnect in which the host handles every posted frame, and writes nothing for a frame before it is posted, the request of each frame sees exactly its own call's replies |
| VaultProxy.VaultPort.Send | apps/extension/src/vault-proxy.ts:88-138 | Connecting, taking the next id, waiting, posting the tagged message, and undoing the wait when the post throws |
| VaultProxy.VaultPort.OnMessage | apps/extension/src/vault-proxy.ts:52-75 | The message listener ignores foreign messages, forwards chunks and settles on answers |
| VaultProxy.VaultPort.OnDisconnect | apps/extension/src/vault-proxy.ts:76-83 | The rejecting loop reaches every waiting request once, in whatever order |
| StreamDispatcher.DeliveryRefinesFifo | apps/extension/src/inpage-provider.ts:333-473 | In every run the consumer sees the values that the events bring, up to the event that takes the stream off the table, in order without gaps, then at most one terminal; after `done` none of them is missing and nothing overflowed, and while the stream is live all of them are consumed, held or queued |
| StreamDispatcher.EveryEventIsServed | apps/extension/src/inpage-provider.ts:320-732 | In every run each event of the producing side adds the values it brings, as far as there is room, then an overflow if there is not, then its own terminal, and tells exactly when the stream completes, leaves the table, loses its timer and sends a cancel; each event of the consuming side takes from the front |
| StreamDispatcher.WaiterIsServed | apps/extension/src/inpage-provider.ts:333-368 | The first value that an event brings while the generator waits, or its terminal if it brings none, is what the generator then holds |
| StreamDispatcher.CancelledAtMostTwice | apps/extension/src/inpage-provider.ts:338-345 | In every run at most two cancels are sent, one of them for an overflow; none while the stream is live and none for a stream that the consumer sees done |
| StreamDispatcher.NoLostWakeUp | apps/extension/src/inpage-provider.ts:593-732 | A waiting consumer has an empty queue and a registered, incomplete stream with its timer armed; a completed stream always has something to read |
| StreamDispatcher.QueueIsBounded | apps/extension/src/inpage-provider.ts:320-368 | The queue never holds more than 512 values nor more than 514 entries, the last of which are terminals |
| StreamDispatcher.BoundIsReached | apps/extension/src/inpage-provider.ts:338-356 | A run in which the queue holds 514 entries |
| StreamDispatcher.PendingStream.DetachPendingStream | apps/extension/src/inpage-provider.ts:320-331 | Removing a registered stream clears its timer, once |
| StreamDispatcher.PendingStream.EnqueueStreamEntry | apps/extension/src/inpage-provider.ts:333-368 | Dropping, overflowing, completing, waking the waiter or queueing |
| StreamDispatcher.PendingStream.ConsumeBufferedStreamResponse | apps/extension/src/inpage-provider.ts:370-399 | A buffered response queues its values and `done`, or its error |
| StreamDispatcher.PendingStream.ConsumeChunk | apps/extension/src/inpage-provider.ts:401-431 | A live chunk is queued, dropped after completion, or ends the stream when malformed |
| StreamDispatcher.PendingStream.ConsumeDone | apps/extension/src/inpage-provider.ts:433-451 | A live `done` queues its own value and then the terminal |
| StreamDispatcher.PendingStream.ConsumeFailure | apps/extension/src/inpage-provider.ts:453-472 | A remote cancellation or error detaches the stream and queues its error |
| StreamDispatcher.PendingStream.OnTimeoutOrAbort | apps/extension/src/inpage-provider.ts:621-658 | A timeout or abort detaches, completes, queues its error and sends one cancel |
| StreamDispatcher.PendingStream.NextEntry | apps/extension/src/inpage-provider.ts:694-702 | The generator takes the oldest entry or starts waiting |
| StreamDispatcher.PendingStream.ResumeGenerator | apps/extension/src/inpage-provider.ts:704-732 | The generator yields a value, or ends and cleans up on a terminal |
| StreamDispatcher.PendingStream.ReturnEarly | apps/extension/src/inpage-provider.ts:704-732 | An early return cleans up and cancels, unless the generator never ran |
| InFlight.MarkedIffRevokedInFlight | apps/extension/src/background.ts:888-953 | With distinct ids in flight, the index is exactly the inverse image of the table, in the order of registration and with no empty sets; and an operation is marked if and only if its grant was revoked between its registration and its finalisation and no listener threw for an earlier operation of the grant then in flight |
| InFlight.MarkIsTheLastReason | apps/extension/src/background.ts:928-953 | An operation's mark is the reason of the last revocation of its grant that reached it in flight |
| InFlight.CallsAndRevocations | apps/extension/src/background.ts:888-953 | An authorised call begins once, as an operation with its own fields; a revocation is logged, and marks those it reaches with its reason and no others |
| InFlight.OperationsAreServed | apps/extension/src/background.ts:708-800 | After any run an event about an operation moves it to the phase that its record tells, hands out what arrives unless it is revoked, and logs exactly that, a found expiry and its finalisation |
| InFlight.RunListsOnce | apps/extension/src/background.ts:888-926 | In every run, even when ids are used again, each grant lists each of its requests once and no grant is listed without one |
| InFlight.NothingIsHandedOutAfterRevocation | apps/extension/src/background.ts:697-800 | Nothing is handed out for an operation after a revocation of its grant reached it in flight |
| InFlight.ItemIsHandedIffNotRevoked | apps/extension/src/background.ts:773-797 | An item that arrives for a stream is handed out if and only if no revocation reached it since its registration; otherwise the stream ends with the revocation error |
| InFlight.ResponseIsHandedIffNotRevoked | apps/extension/src/background.ts:708-728 | A response is handed out if and only if no revocation reached its operation since registration and its grant, if for one time, is consumed; after a revocation it ends with the revocation error |
| InFlight.OperationsAreAuthorizedFirst | apps/extension/src/background.ts:700-706 | In every run each operation passed the permission check before it was registered |
| InFlight.EarlyRevocationIsNotSeen | apps/extension/src/background.ts:700-719 | A run in which a response is handed out although the grant was revoked after the permission check |
| InFlight.MissedRevocationIsNotSeen | apps/extension/src/background.ts:934-952 | A run with two requests of one grant in flight, in which a listener throws at the first and the response of the second is handed out although the grant was revoked |
| InFlight.AbandonedExactly | apps/extension/src/background.ts:744-797 | An operation becomes abandoned exactly when no iterator can be got from its stream, its stream is closed before the first pull or its source fails to close, and stays so |
| InFlight.StaysForEverIffAbandoned | apps/extension/src/background.ts:744-800 | After any run an operation is in the table after every continuation if and only if it is abandoned |
| InFlight.RegisterKeepsIndexIff | apps/extension/src/background.ts:888-908 | Registering keeps the index if and only if the id is not in flight under another grant |
| InFlight.InFlightTable.RegisterInFlight | apps/extension/src/background.ts:888-908 | A fresh unrevoked operation replaces what the table had under its id, and its id is put last in the grant's set, unless it was there |
| InFlight.InFlightTable.FinalizeInFlight | apps/extension/src/background.ts:910-926 | Removes the operation and its id, and the grant's set once empty |
| InFlight.InFlightTable.MarkGrantRevoked | apps/extension/src/background.ts:928-953 | The loop over the grant's set marks its operations, with the reason, in the order of insertion up to and including the first whose listener throws, leaves all others alone, and throws exactly if there is such a one |
| PolicyKeys.KeysFormDisjointPaths | packages/policy/src/key-management.ts:213-332 | After any run every link leads to a stored key, no two links meet, and the keys lie on disjoint paths on which only the last key can be active |
| PolicyKeys.PathsAreSimple | packages/policy/src/key-management.ts:236-299 | Following links from any key ends at a key without a successor and never meets a key twice |
| PolicyKeys.KeysOnlyDevelop | packages/policy/src/key-management.ts:213-332 | In every run keys never vanish, never change their material, and their status only moves on |
| PolicyKeys.RetiredKeysStayUnresolved | packages/policy/src/key-management.ts:345-363 | A key that has left active is never again returned by default, and always on request |
| PolicyKeys.ThrowsIffUnchanged | packages/policy/src/key-management.ts:213-332 | An operation throws if and only if it leaves the store unchanged |
| PolicyKeys.HookFailureIsLast | packages/policy/src/key-management.ts:232-330 | A failing hook spoils exactly the operations that would have succeeded and hides no other error |
| PolicyKeys.ErrorsMean | packages/policy/src/key-management.ts:213-332 | An operation succeeds if and only if it passes all its tests, and otherwise throws the error of the first that fails |
| PolicyKeys.StoredKeyIsTheCallers | packages/policy/src/key-management.ts:213-299 | A key that a create or a rotate stored has, then and after any later calls, exactly the id, key text, date and metadata that were passed, and resolves by default to that text if and only if it is still active |
| PolicyKeys.KeysComeFromCalls | packages/policy/src/key-management.ts:213-299 | Every stored key was asked for under its id by a create or rotate of the run |
| PolicyKeys.RotateMeans | packages/policy/src/key-management.ts:236-299 | A rotation stores the successor as a new key and changes of the old one only status, date and link; all other keys are as before |
| PolicyKeys.RevokeMeans | packages/policy/src/key-management.ts:301-332 | A revocation changes of its key only status, date and, if one is given, the reason; all other keys are as before |
| PolicyKeys.ResolveMeans | packages/policy/src/key-management.ts:345-363 | Who asks for an id, with or without white space around it, gets the text of its key if its status is among those asked for |
| PolicyKeys.PemMeans | packages/policy/src/key-management.ts:140-152 | A key text is accepted if and only if, without the white space around it, it begins and ends with the markers of a public key |
| PolicyKeys.MetadataMeans | packages/policy/src/key-management.ts:154-187 | Metadata are refused if they are no record or have an entry that is no text or blank, and otherwise become their trimmed entries but for one under `__proto__` |
| PolicyKeys.KeyManager.Create | packages/policy/src/key-management.ts:213-234 | The checks in order, and the new active key |
| PolicyKeys.KeyManager.Rotate | packages/policy/src/key-management.ts:236-299 | The checks in order, the rotated key linked to its successor, and the new active key |
| PolicyKeys.KeyManager.Revoke | packages/policy/src/key-management.ts:301-332 | The checks in order, and the revoked key with its link kept |
| PolicyKeys.KeyManager.ResolvePublicKey | packages/policy/src/key-management.ts:345-363 | The key's material, if its status is included; an empty id is an error |
| AdapterHost.RestartBudget | adapters/runtime/src/adapter-host.ts:238-285 | Under any overlap a registration's restart count never goes down, never exceeds the limit, and equals the restarts begun for it |
| AdapterHost.DownForGoodIffQuiet | adapters/runtime/src/adapter-host.ts:157-299 | A failed or stopped registration stays so in every continuation if and only if no call, restart or activation is still awaited for it, nor a check while it has restarts left |
| AdapterHost.FailedUntilStoppedIffQuiet | adapters/runtime/src/adapter-host.ts:127-299 | A failed registration stays failed until its provider is deregistered or the host shut down, under the same condition exactly |
| AdapterHost.SequentialRunsFailAtTheLimit | adapters/runtime/src/adapter-host.ts:238-285 | When checks and calls do not overlap, whenever a deregistration or shutdown comes: every failing check begins a restart until the budget is spent, one more takes the registration down for good, failed is for good and left only by deregistration or shutdown, and stopped is for good exactly unless something reviving was awaited |
| AdapterHost.OverlapCanRevive | adapters/runtime/src/adapter-host.ts:170-176 | A reachable failed registration that a late failing call brings back |
| AdapterHost.SettlingMeans | adapters/runtime/src/adapter-host.ts:157-285 | How a registration stands after a check, restart, activation, call or stop awaited for it has ended, by its outcome: state, restart count and timer |
| AdapterHost.RecordsChange | adapters/runtime/src/adapter-host.ts:100-299 | An event changes a registration only by settling something awaited for it, or by stopping it as a deregistration of its provider or the shutdown of the running host does |
| AdapterHost.RecordsEnter | adapters/runtime/src/adapter-host.ts:100-195 | A registration is entered, starting, if and only if the host runs and its provider leads to none or to one that is down; and each provider leads to what was entered last until a stop or the shutdown has ended |
| AdapterHost.TasksChange | adapters/runtime/src/adapter-host.ts:127-285 | An event ends at most the one thing it names and begins at most one: a call, check, stop or restart, exactly under the conditions of its operation |
| AdapterHost.ManagedAdapter.OnProbe | adapters/runtime/src/adapter-host.ts:243-259 | What a settled periodic check does to the registration, and whether a restart follows |
| AdapterHost.ManagedAdapter.AttemptRestart | adapters/runtime/src/adapter-host.ts:262-274 | A restart is counted and begun, or the spent budget fails the registration and clears its timer |
| AdapterHost.ManagedAdapter.OnRestart | adapters/runtime/src/adapter-host.ts:275-284 | What a settled restart does |
| AdapterHost.ManagedAdapter.OnActivation | adapters/runtime/src/adapter-host.ts:197-215 | What a settled activation does |
| AdapterHost.ManagedAdapter.OnCall | adapters/runtime/src/adapter-host.ts:170-176 | A failing call degrades the registration |
| AdapterHost.Host.Register | adapters/runtime/src/adapter-host.ts:100-125 | A fresh starting registration replaces a failed or stopped one and its activation is awaited, or the reason why not |
| AdapterHost.Host.BeginDeregister | adapters/runtime/src/adapter-host.ts:127-130 | Stops the registration that is current for the provider |
| AdapterHost.Host.BeginCall | adapters/runtime/src/adapter-host.ts:157-169 | A call goes to the current registration if it is running or degraded |
| AdapterHost.Host.Tick | adapters/runtime/src/adapter-host.ts:238-244 | A firing timer checks the current registration of its provider, unless that is down or the host shut down |
| AdapterHost.Host.Settle | adapters/runtime/src/adapter-host.ts:127-131 | What is awaited for a registration ends and its call goes on with that registration, current or not; a stop removes whatever the table then has for the provider |
| AdapterHost.Host.Shutdown | adapters/runtime/src/adapter-host.ts:179-187 | The loop stops every registration in the table and no other, and a second shutdown does nothing |
| CliBridge.ChunkIndependentIff | adapters/adapter-local-cli-bridge/src/index.ts:276-318 | Every chunking of a text leaves the buffer, the tables and every caller with the same if and only if, after the first completed line that faults, reading `null` or bringing a chunk to a callback that throws on it, no completed line reaches a waiting caller |
| CliBridge.AdapterIsChunkIndependentIff | adapters/adapter-local-cli-bridge/src/index.ts:276-289 | The same with the adapter's own trimming and parsing and callbacks that never throw, where only a line whose trimmed text is the JSON value `null` faults |
| CliBridge.BufferIsTail | adapters/adapter-local-cli-bridge/src/index.ts:277-279 | Whatever the chunking and whatever threw, the retained buffer is the text after the last newline |
| CliBridge.LineReaderMeans | adapters/adapter-local-cli-bridge/src/index.ts:280-289 | A line is read by its text without the white space around it, and not at all if that is empty or no JSON |
| CliBridge.NoFaultIff | adapters/adapter-local-cli-bridge/src/index.ts:280-316 | A data event does not throw if and only if no line faults in the state that the lines before it leave |
| CliBridge.FaultsMean | adapters/adapter-local-cli-bridge/src/index.ts:289-295 | A line faults if and only if it is `null`, or a chunk with some text for a waiting stream whose callback throws on it |
| CliBridge.IdsAreCounted | adapters/adapter-local-cli-bridge/src/index.ts:333-335 | In every run one id is spent on each request and on each farewell, and none on anything else |
| CliBridge.EveryCallerSettlesOnce | adapters/adapter-local-cli-bridge/src/index.ts:133-335 | In every run an id is in at most one table, and a caller gets chunks and then at most one settlement, exactly when it leaves its table |
| CliBridge.CallerSeesItsRun | adapters/adapter-local-cli-bridge/src/index.ts:133-335 | A request made at any point of any run gets a new id, and then its caller sees exactly what the handled lines with its id say, or that it was given up, whatever requests, data events, faults, timeouts and lost processes come in between |
| CliBridge.SettledSeesNothing | adapters/adapter-local-cli-bridge/src/index.ts:280-331 | A caller that has settled sees nothing more in any continuation |
| CliBridge.Adapter.OnMessage | adapters/adapter-local-cli-bridge/src/index.ts:291-316 | Where a message with an id goes, and that it throws exactly when the chunk callback does |
| CliBridge.Adapter.OnData | adapters/adapter-local-cli-bridge/src/index.ts:276-318 | The loop handles the completed lines in order, up to the first that faults, and throws exactly then |
| CliBridge.Adapter.BeginRequest | adapters/adapter-local-cli-bridge/src/index.ts:252-262 | A new id enters one table |
| CliBridge.Adapter.RejectAllPending | adapters/adapter-local-cli-bridge/src/index.ts:320-331 | Both loops reject every waiting caller once and empty the tables |
| ConnectionHandle.ParseAcceptsIff | packages/protocol/src/cloud-connection.ts:109-199 | A record is accepted if and only if its fields are non-blank texts and its handle is the printed form of its ids with a canonical uuid, an all-digit epoch below 2^53 and a token signature |
| ConnectionHandle.ErrorsMean | packages/protocol/src/cloud-connection.ts:78-199 | The fault that is reported is that of the first test that fails: each field present, a text and not blank in order, then binding, format, uuid, epoch, its range and signature |
| ConnectionHandle.UuidIffMatches | packages/protocol/src/cloud-connection.ts:8-9 | The uuid test accepts exactly five groups of hexadecimal digits joined by dashes, with a version from 1 to 5 and a variant of 8, 9, a or b |
| ConnectionHandle.ParseUndoesPrint | packages/protocol/src/cloud-connection.ts:109-199 | Parsing a printed handle returns the epoch and signature it was built from, for ids with or without dots, and an epoch of 2^53 or more is refused |
| ConnectionHandle.PrintedHandleComesBack | packages/protocol/src/cloud-connection.ts:109-199 | For trimmed non-empty ids and any number, a record with the handle printed from them parses to that number and signature, or is refused if and only if the number is 2^53 or more |
| ConnectionHandle.SegmentsAreUnique | packages/protocol/src/cloud-connection.ts:128-139 | A handle's text determines its three segments |
| ConnectionHandle.AcceptedUnderBothIff | packages/protocol/src/cloud-connection.ts:118-126 | A handle accepted under one binding is accepted under another if and only if the ids, joined by a dot, read the same |
| ConnectionHandle.RoundingIsHarmless | packages/protocol/src/cloud-connection.ts:165-176 | Converting the epoch to a double changes neither which epochs are accepted nor an accepted value |
| ConvertStream.Convert | packages/ai-sdk-transport/src/convert-stream.ts:26-71 | For every source, failure and abort point: a start, at most one text part around the deltas converted, and exactly one terminal |
| ConvertStream.FinishMeansComplete | packages/ai-sdk-transport/src/convert-stream.ts:33-60 | Only the last part is terminal; it is `finish` if and only if the source came to its first `done` or its end with nothing aborted by then, and the text is then all the source's chunks up to there and always a prefix of them |
| ConvertStream.TerminalMeans | packages/ai-sdk-transport/src/convert-stream.ts:33-71 | The last part is `abort` if and only if an event at or before the source's end was looked at after the abort or the source failed after it, and an error with the failure's text if and only if it failed before |
| ConvertStream.TextIsBracketed | packages/ai-sdk-transport/src/convert-stream.ts:42-60 | The text, if there is any, is started before its first delta and ended behind its last, all under one part id, with nothing in between |
| PolicyEvaluator.AllowIff | packages/policy/src/evaluator.ts:92-346 | Allowed if and only if origin and capability are acceptable, the bundle is there and verified when required, its expiry cannot be read or is not before a readable now, no deny list names the request, some allow list exists and every existing one names it |
| PolicyEvaluator.NormalizesIff | packages/policy/src/evaluator.ts:92-155 | A context is accepted if and only if its origin and capability are acceptable, and then each of its fields is the field of the same name without the white space around it |
| PolicyEvaluator.DecisionMeans | packages/policy/src/evaluator.ts:196-346 | The code of the decision is that of the first test that fails, from the input to each deny and allow list, and it carries the bundle's version and the correlation id |
| PolicyEvaluator.EvaluationIsMonotone | packages/policy/src/evaluator.ts:157-194 | Extending a deny list never turns deny into allow, and extending an existing allow list never turns allow into deny |
| PolicyEvaluator.AddedAllowListGoesEitherWay | packages/policy/src/evaluator.ts:184-194 | Adding an allow list where there was none can turn deny into allow or allow into deny |

## Left out

- Hashing and signatures: fingerprints are stated on the canonical text, and signature checks are inputs.
- Exotic JavaScript values: lone surrogates, sparse array holes, getters and cyclic values; a finite number stands for its rendering, so 0 and -0 are one value.
- Collation: `localeCompare` is any total preorder on strings, and where nothing is required of it, any relation.
- Decoding: UTF-8, JSON parsing of frames and lines, and URL parsing are abstract checks or functions; a multi-byte character cut by a chunk is not modelled.
- Around connection completion: session checks, rollout rules and the idempotency store are inputs; the `cloud.chat.execute` fingerprint uses the same printer and is not modelled.
- Around the vault proxy: pairing, session tokens and the retry on an expired session.
- Around the stream dispatcher: its plain requests, the validation of envelopes and calls queued on a running generator; streams are modelled one at a time, since they share only the map that holds them.
- InFlight.MarkedIffRevokedInFlight: ids in flight are assumed distinct, as `RegisterKeepsIndexIff` shows is needed.
- Around operations in flight: the grant store, consent and events to listeners are inputs; `forwardRequest`, `forwardStream` and the guarded stream are steps on values, and only the tables and operation records are objects.
- Around the adapter supervisor: a timer may fire at any time, even when none is armed; sandbox policy and telemetry.
- Around the CLI bridge: spawning processes; since the buffer is kept when a process exits, a new process continues its last half line.
- The request proof parser, which checks the same kind of fields as the handle parser.
- A reader that cancels a converted stream, and a source that fails while it is closed after the terminal.
- Hooks, listeners and callbacks that call back into the object that calls them; a chunk callback of the vault proxy that throws, which changes nothing there.
- Error texts, error details, log lines, metrics and the order of listings.
- Provider adapters, model catalogues, pages, the content script and the wiring in `main.ts`.
