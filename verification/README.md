# A verified model of a FIDO Device Onboard stack

This project models one implementation of FIDO Device Onboard: how the bytes of a device's
credentials are parsed and kept, how its ownership voucher is built, sold and verified, how device
and owner prove themselves to each other in TO2 (section 5.5 of the FIDO Device Onboard
Specification 1.1), how a configuration travels to the device and takes effect there, and how the
owner keeps its devices registered until they call.

The parts build on each other, and end in four theorems about the whole stack.

* `FactoryToOwner.DeviceIsOnboarded`: a device initialised by its manufacturer, sold any number of
  times up to 256, the last time to this owner, and onboarded with any applicable configuration
  that its machine can carry out, ends after exactly (number of entries) + 6 exchanges with exactly the
  configured effects, its marker written and its credential deactivated. Header bytes, hash chain,
  voucher transfer, key agreement and the ServiceInfo pipeline all meet in it.
* `FactoryToOwner.OnboardedIffSoldAtMost256`: under the same premises, with any number of sales, the
  device is ever onboarded if and only if there were at most 256.
* `SharedServers.CompletesAmongOthers`: whatever others do at the owner's server meanwhile, short of using the token of its
  session, an honest device is onboarded as if it were alone, and the server marks it.
* `ClientRuns.NothingBeforeAuthentication`: whatever a network answers, nothing at all happens to
  the machine unless the whole chain of checks has succeeded and the session keys come from the
  verified header.

What the layers below say:

| Files | Contents |
|---|---|
| `Outcome`, `Hex` | results with a panic as the third outcome; bytes, big-endian numbers, hexadecimal |
| `CborGrammar`, `ParsedArray`, `CborRefinement`, `CborRoundTrip`, `ManyReader`, `HugeMaps`, `ArrayObjects` | the array parser with its stack of counts against the grammar of definite-length items (section 3 of RFC 8949); printing and parsing |
| `Primitives`, `Voucher`, `VoucherChain`, `VoucherObjects` | ownership vouchers: the hash and signature chain |
| `KeyExchange` | the TO2 key exchange |
| `ServiceInfo`, `ServiceInfoApi`, `DeviceInterpreter`, `InterpreterSafety`, `OnboardingEffects`, `InterpreterMeaning` | ServiceInfo: compiled, rewritten, interpreted |
| `To2Messages`, `OwnerServer`, `OwnerHandlers`, `ServerRuns` | TO2 at the owner server, over every run |
| `DeviceClient`, `ClientRuns`, `ClientTranscript`, `DeviceObject` | TO2 at the device, against every network |
| `To2Run`, `VoucherTransfer`, `To2Completion`, `SharedServer` | both ends together, alone and among other devices |
| `DeviceInit`, `FactoryToOwner` | device initialisation, and the whole way |
| `Registration`, `RegistrationObjects` | registration with the rendezvous server |
| `Consistency`, `Scenario` | the laws required of the libraries hold of a toy, and the premises of the end-to-end theorems can all be met at once, for every number of sales from 1 to 65535 |

Code that computes is modelled by functions, code that changes things in place by classes and by
methods with loops; the latter are proved to do what the functions say. Cryptography and leaf
encodings are function-valued fields of `Crypto.Primitives`, `KeyExchanges.Curve` and
`To2Messages.Platform`. What is expected of them (a signature verifies, a leaf decodes back,
Diffie-Hellman commutes) is stated as predicates that a lemma requires by name; nothing is assumed
otherwise, and `Consistency.LawsAreConsistent` shows that they do not contradict each other. Hash
collisions are not assumed away: two vouchers with the same last entry agree unless an entry of
theirs carries the same hash of two different predecessors, and `VoucherChain.ChainBinding` says
which. Randomness, clocks, the voucher store and the network are parameters.

## What turned out not to hold

* A voucher of more than 256 entries cannot be transferred: the device's index is cut to eight bits
  (client-linuxapp/src/main.rs:346). It then fails, with nothing done
  (`VoucherTransfers.LongVouchersFail`); up to 256 entries the transfer is exact, and the device is
  onboarded exactly then (`FactoryToOwner.OnboardedIffSoldAtMost256`).
* A release build multiplies the number of pairs of a map by two without a check
  (data-formats/src/cborparser.rs:343). It accepts inputs that are not well-formed
  (`HugeMaps.WrappingAcceptsHugeMap`). The two builds agree exactly on the inputs in which, head by
  head, no map of 2^63 pairs or more comes up while items are pending (`HugeMaps.BuildsAgreeIff`), and
  the release build keeps to the grammar exactly on the inputs that it does not read to the end past
  such a map (`HugeMaps.ReleaseKeepsToGrammarIff`).
* The printer can only print tags and lengths up to 65535, its buffers for longer numbers being one
  byte (or four) too short (data-formats/src/cborparser.rs:158, 162): `CborRoundTrip.SerializeSucceedsIff`.
  Therefore the 65536th entry makes `extend` panic (`VoucherChain.ExtendSucceedsIff`).
* A registration can lapse with the default settings. The server accepts any re-registration window
  above the sixty seconds between its checks, and its default is 61; but a check is later than sixty
  seconds after the last, a grant takes time to be written down, and times are stored in whole
  seconds. `Registrations.NoLapseIff` gives the exact condition for every window, grant, gap and lag, fractions
  of seconds included; `Registrations.DefaultsCanLapse` applies it.
* The log message at owner-onboarding-server/src/main.rs:193-196, that re-registration "won't be
  triggered" when the window is not smaller than the time granted, says the opposite of what the
  query does: such a voucher is due at every windowed pass, except in the very second in which a
  grant as long as the window was written down (`Registrations.ShortGrantIsDue`).
* A file is not always written beneath the configured prefix: when its path begins with two slashes the prefix is
  dropped (client-linuxapp/src/serviceinfo.rs:256-258), and only then (`InterpreterMeaning.BeneathPrefixIff`).
* A login that names neither a password nor keys ends onboarding with an error after everything else
  has been done; an empty list of keys, or a key with a semicolon, installs other keys than configured
  (`OnboardingEffects.EveryConfiguration`, `OnboardingEffects.TakesEffectIffUsable`).

## Model

| member | source | states |
|---|---|---|
| ParsedArrays.DeserializeFromReader | data-formats/src/cborparser.rs:235-388 | The parser equals the recursive reading of the input, for every input, error and panic; in a checked build its "should not happen" branches are dead, in a release build only "0 items left" is live |
| ParsedArrays.ReadArray | data-formats/src/cborparser.rs:272-388 | From the array's own initial byte on: type, length and static size checked in this order, then the items |
| ParsedArrays.ReadItems | data-formats/src/cborparser.rs:293-374 | The loop with the stack of counts reads exactly the announced number of items, each with all it contains |
| ParsedArrays.StackStep | data-formats/src/cborparser.rs:293-374 | One round keeps every stack entry at least 1 and the stack sum equal to the data items still to be read |
| ParsedArrays.LoopStep | data-formats/src/cborparser.rs:293-374 | One round keeps what is finished plus what the stack still stands for equal to the recursive reading of the body |
| ParsedArrays.LoopTag | data-formats/src/cborparser.rs:307-312 | A nested tag announces one item and leaves the stack as it is |
| CborRefinement.ParserRefinesGrammar | data-formats/src/cborparser.rs:235-388 | Ok with array and rest if and only if the input is an optional tag, an array header and that many well-formed definite-length items, contents[i] being exactly the i-th item's bytes, followed by the rest |
| CborRefinement.ParseAcceptsGrammar | data-formats/src/cborparser.rs:235-388 | Both builds accept every spelling in the grammar, whatever follows it |
| CborRefinement.ParseStaysInGrammar | data-formats/src/cborparser.rs:235-388 | Whatever is accepted has a derivation, and header plus contents are the consumed bytes |
| CborRefinement.OtherSizeIff | data-formats/src/cborparser.rs:276-285 | The number of elements is refused, with the announced and the expected number, if and only if the input announces another one than the static size |
| CborRefinement.OtherTypeIff | data-formats/src/cborparser.rs:253-274 | Another type than an array is refused, and named, if and only if it stands where the array should, after at most one tag |
| CborRoundTrip.SerializeToWriter | data-formats/src/cborparser.rs:213-232 | Printing writes the optional tag, the length and the concatenated contents |
| CborRoundTrip.SerializeSucceedsIff | data-formats/src/cborparser.rs:148-166 | An array can be printed if and only if tag and length are at most 65535; otherwise a panic |
| CborRoundTrip.SerializeThenParse | data-formats/src/cborparser.rs:148-388 | Parsing a printed array followed by anything returns it and leaves what followed |
| CborRoundTrip.ParseThenSerialize | data-formats/src/cborparser.rs:213-388 | Printing what was parsed gives the consumed bytes if and only if tag and length were in shortest form |
| CborRoundTrip.NormalForm | data-formats/src/cborparser.rs:213-388 | The printed form of whatever was parsed parses as the same array |
| CborRoundTrip.ParseIgnoresWhatFollows | data-formats/src/cborparser.rs:235-388 | Bytes after an array do not influence how it is read |
| ManyReader.NoDataIffEmpty | data-formats/src/cborparser.rs:239-251 | No-data is reported if and only if the input is empty |
| ManyReader.DeserializeMany | data-formats/src/serializable.rs:30-65 | The reading loop returns all arrays up to the end of the input, or the first failure |
| ManyReader.ManyInvertsConcatenation | data-formats/src/serializable.rs:52-65 | Reading the concatenated prints of any list of arrays returns the list |
| ManyReader.ManyConsumesEverything | data-formats/src/serializable.rs:30-65 | Ok with a list if and only if the input can be cut without remainder into the spellings of the list |
| HugeMaps.OverflowIff | data-formats/src/cborparser.rs:335-345 | The checked build stops for an overflow if and only if, head by head, the input meets a map of 2^63 pairs or more while items are pending |
| HugeMaps.BuildsAgreeIff | data-formats/src/cborparser.rs:335-345 | The release build gives the checked build's result if and only if the input meets no such map |
| HugeMaps.ReleaseKeepsToGrammarIff | data-formats/src/cborparser.rs:235-388 | Everything the release build returns is derived from the input by the grammar if and only if the input is not read to the end past such a map |
| HugeMaps.ItemsEnd | data-formats/src/cborparser.rs:293-374 | Cutting the items one by one ends, or fails, where counting heads does, in both builds |
| HugeMaps.WrappingAcceptsHugeMap | data-formats/src/cborparser.rs:335-345 | A concrete input that the release build accepts and the grammar does not spell |
| ArrayObjects.RawArray.Push | data-formats/src/cborparser.rs:410-416 | One more element at the end, or nothing changed on an error |
| ArrayObjects.RawArray.Set | data-formats/src/cborparser.rs:471-478 | Exactly that element replaced, an error or a panic leaving the array as it was |
| ArrayObjects.ArrayBuilder.Build | data-formats/src/cborparser.rs:452-464 | The slots in order if and only if all have been set, otherwise a panic |
| ArrayObjects.BuiltReadsBack | data-formats/src/cborparser.rs:418-465 | What was set, printed and read by a reader of that size, is read back slot by slot |
| ArrayObjects.PushedReadsBack | data-formats/src/cborparser.rs:391-416 | An array with one more item reads back, up to 65535 items |
| VoucherChain.HeaderRoundTrip | data-formats/src/ownershipvoucher.rs:573-615 | A good header prints to bytes that parse to it |
| VoucherChain.NewHeaderIsGood | data-formats/src/ownershipvoucher.rs:452-496 | A fresh header with printable device information and a chain hash decodes to its own fields |
| VoucherChain.NewIsGood | data-formats/src/ownershipvoucher.rs:143-175 | A new voucher's cached fields are the parse of its raw elements |
| VoucherChain.ExtendIsGood | data-formats/src/ownershipvoucher.rs:265-316 | Extending keeps the cached fields equal to the parse of the raw elements |
| VoucherChain.ExtendVerifies | data-formats/src/ownershipvoucher.rs:265-427 | A successful extend adds one verifying entry for the next party and disturbs none |
| VoucherChain.BuiltVouchersVerify | data-formats/src/ownershipvoucher.rs:143-175 | A voucher made by new and any successful extends verifies completely, one payload per extend, the i-th naming the i-th next party |
| VoucherChain.ExtendSucceedsIff | data-formats/src/ownershipvoucher.rs:265-316 | Extending a verifying voucher succeeds if and only if it is the last owner's key, below 65535 entries, without extra data on version 1.0; which error, or the panic, in every other case |
| VoucherChain.VerifiedIffEntryWise | data-formats/src/ownershipvoucher.rs:350-427 | The entries verify if and only if every one spells a tagged array of four items that verifies under the key named before it, starting with the manufacturer's, carries exactly this payload, and hashes what precedes it and the header information to the values it names |
| VoucherChain.VerifyEntryIff | data-formats/src/ownershipvoucher.rs:382-426 | The same for one entry: parsed by the grammar, signature, previous hash and header information, both digests written out |
| VoucherChain.EntryPinsPrevious | data-formats/src/ownershipvoucher.rs:382-426 | The hash in a verified entry is that of the bytes of the entry before it, or of header and HMAC |
| VoucherChain.ChainBinding | data-formats/src/ownershipvoucher.rs:382-427 | Two verifying vouchers with the same entries from some index on agree on every entry and on header and HMAC if and only if no entry up to there carries the same hash of two different predecessors |
| VoucherChain.LastEntryBindsVoucher | data-formats/src/ownershipvoucher.rs:251-263 | The same for vouchers of equal length that share only their last entry |
| VoucherChain.SignedRoundTrip | data-formats/src/ownershipvoucher.rs:617-631 | An entry that parses prints to bytes that parse to the same signed message |
| VoucherChain.VoucherRoundTrip | data-formats/src/ownershipvoucher.rs:48-94 | A good voucher with a certificate chain reads back from its bytes |
| VoucherChain.UnsupportedVersionIff | data-formats/src/ownershipvoucher.rs:71-83 | A voucher is of an unsupported version if and only if its bytes announce four elements |
| VoucherObjects.OwnershipVoucher.Extend | data-formats/src/ownershipvoucher.rs:265-316 | In place: the extended voucher, or on an error the voucher as it was |
| VoucherObjects.EntryIter.Next | data-formats/src/ownershipvoucher.rs:350-380 | The first of the remaining results, good exactly for an entry that verifies as `VoucherChain.VerifyEntryIff` says; nothing after a failure |
| VoucherObjects.EntryIter.Last | data-formats/src/ownershipvoucher.rs:350-427 | Draining the iterator yields its last result |
| VoucherObjects.LastIsOkIffVerified | data-formats/src/ownershipvoucher.rs:350-427 | The last result is good if and only if there are entries and every one verifies |
| KeyExchanges.DecodeInvertsEncode | data-formats/src/types.rs:1056-1093 | Decoding gives the three fields back if and only if each is shorter than 65536 bytes |
| KeyExchanges.EncodeInvertsDecode | data-formats/src/types.rs:1056-1093 | Whatever decodes re-encodes to the same bytes |
| KeyExchanges.LayoutIff | data-formats/src/types.rs:1056-1093 | A parameter decodes to three fields if and only if it is these fields, each after its length in two bytes, higher byte first, and nothing else |
| KeyExchanges.SecretOf | data-formats/src/types.rs:1110-1172 | The secret is the shared coordinate, the device's random, then the owner's, at both ends |
| KeyExchanges.KeysAgree | data-formats/src/types.rs:1110-1233 | Over honestly exchanged parameters and headers both ends derive the same keys, or both fail alike |
| KeyExchanges.DerivedKeyIs | data-formats/src/types.rs:1174-1233 | What both ends derive: 32 bytes for A256GCM, 16 for A128GCM, from the coordinate, the device's random and the owner's, by the interoperable derivation if and only if both ends have it |
| KeyExchanges.PeerChecked | data-formats/src/types.rs:1110-1172 | A peer's parameter is used if and only if it decodes, brings 16 or 48 random bytes by its curve, lies on the curve and gives a result |
| ServiceInfos.TriplesAreLongestPrefix | data-formats/src/types.rs:805-834 | The iterator yields exactly the longest prefix of well-formed entries |
| ServiceInfos.ReadAddedIff | data-formats/src/types.rs:739-756 | An added entry is read back if and only if its module's name has no colon and reads as that module |
| ServiceInfos.TriplesOfAdded | data-formats/src/types.rs:739-834 | What was added under such modules is what the iterator yields, in order |
| DeviceInterpreter.ProcessServiceInfo | client-linuxapp/src/serviceinfo.rs:449-757 | The loop and what follows it perform the effects of the step function, in order, and end as it does |
| InterpreterSafety.StepsAreSafe | client-linuxapp/src/serviceinfo.rs:468-700 | One message causes at most one effect, of its own active module: a file with the name, mode, length and digest declared and the data since the last deploy, or a command or disk exactly as described since the last execute |
| InterpreterSafety.EveryEffectIsJustified | client-linuxapp/src/serviceinfo.rs:449-757 | For any input whatsoever: every effect comes from a module active at that point; every file deployed is all the data since the previous deploy, with declared length, name, mode and digest; every command and disk is the one described since the previous execute; and every login or subscription effect is of the login or subscription described by all messages |
| InterpreterMeaning.FailsForAnEffectIff | client-linuxapp/src/serviceinfo.rs:403-447 | For any input: every effect but the last worked, or was a command that may fail or a registration and exited with an error; and onboarding fails for an effect if and only if the last one did neither |
| InterpreterMeaning.SucceedsIff | client-linuxapp/src/serviceinfo.rs:449-757 | The exact meaning of the interpreter, for any input: success if and only if every message is admitted by those before it, login and subscription are complete and all effects go on; then exactly the effects that the messages describe have happened, in order, and a reboot is asked for as declared |
| InterpreterMeaning.BeneathPrefixIff | client-linuxapp/src/serviceinfo.rs:248-262 | A file is written at its path beneath the configured prefix, if this is not empty, if and only if its path does not begin with two slashes |
| Hexadecimal.HexRoundTrip | owner-onboarding-server/src/handlers.rs:559-567 | Hexadecimal text decodes to the bytes it was made from |
| Hexadecimal.DecodesIff | owner-onboarding-server/src/handlers.rs:559-564 | A text decodes to some bytes if and only if it spells them, two digits a byte in either case |
| ServiceInfoApi.ReplyBuilder.AddExtra | serviceinfo-api-server/src/main.rs:104-130 | The first command of a module is preceded by its activation, no other is |
| ServiceInfoApi.ServiceInfoHandler | serviceinfo-api-server/src/main.rs:207-393 | The reply holds, module by module, all that is configured for each module the device has, in order, after one activation, and nothing for any other module |
| ServiceInfoApi.ModulesDecide | serviceinfo-api-server/src/main.rs:233-374 | The same of the compiled reply: every command is for a module of the device, and the commands of each module are those configured for it |
| ServiceInfoApi.AddRewritten | owner-onboarding-server/src/handlers.rs:557-572 | The loop adds every command, hexadecimal ones decoded and renamed, or fails at the first bad one |
| ServiceInfoApi.RemovesEveryHex | owner-onboarding-server/src/handlers.rs:566 | What is left of a rewritten key is its parts between the occurrences of the suffix, none of which contains another |
| ServiceInfoApi.PerformServiceInfo | owner-onboarding-server/src/handlers.rs:476-584 | The device's messages are those of the login, the rewritten commands and the reboot, in that order |
| OnboardingEffects.SplitInvertsJoin | client-linuxapp/src/serviceinfo.rs:720-735 | The device recovers the SSH keys if and only if there is at least one and none contains a semicolon |
| OnboardingEffects.MessagesOfCompiled | owner-onboarding-server/src/handlers.rs:532-583 | Rewriting undoes the hexadecimal transport of every compiled command, and cannot fail |
| OnboardingEffects.EveryConfiguration | client-linuxapp/src/serviceinfo.rs:700-757 | For any login: files, commands and disks in order up to the first failure, then an error if there is no credential, else the login with the keys as the device cuts them |
| OnboardingEffects.TakesEffectIffUsable | client-linuxapp/src/serviceinfo.rs:704-740 | Where every effect works the device does what is configured and succeeds if and only if the login has a password or keys, at least one key if any, and none with a semicolon |
| OnboardingEffects.ConfigurationTakesEffect | client-linuxapp/src/serviceinfo.rs:449-757 | Compiling, rewriting and interpreting any applicable configuration performs exactly the configured effects in order, up to the first that fails, and fails if and only if one does |
| InterpreterMeaning.ConfigurationUpToFirstFailure | client-linuxapp/src/serviceinfo.rs:403-757 | For any applicable configuration, from the exit statuses alone: if all configured effects go on exactly these have happened, otherwise those up to the first that does not |
| OwnerHandlers.LiveSession.HelloDevice | owner-onboarding-server/src/handlers.rs:23-119 | The session receives GUID, nonce, cipher and key exchange; the reply is the signed header |
| OwnerHandlers.HelloIff | owner-onboarding-server/src/handlers.rs:23-119 | When the hello is answered; the signed header carries the voucher's header bytes, HMAC and number of entries cut to sixteen bits, the device's nonce and the owner's share |
| OwnerHandlers.LiveSession.GetOvNextEntry | owner-onboarding-server/src/handlers.rs:121-162 | A reply if and only if the session's voucher has that entry and it parses; the reply carries its number and bytes that parse to the same signed message as the stored ones |
| OwnerHandlers.LiveSession.ProveDevice | owner-onboarding-server/src/handlers.rs:164-355 | In place: the session and the reply of an accepted token; the reply, signed with the second owner's key, carries the new GUID and the nonce of the token |
| OwnerHandlers.ProofAcceptedIff | owner-onboarding-server/src/handlers.rs:164-355 | A token is accepted if and only if it verifies under the leaf key, answers the session's nonce and its share gives keys; the reply, signed by the second owner, returns the device's nonce, and the session has these keys |
| OwnerHandlers.LiveSession.DeviceServiceInfo | owner-onboarding-server/src/handlers.rs:389-474 | Up to 1001 rounds of a proven device: the first delivers, the others say that the owner is done; only the counter changes |
| OwnerHandlers.LiveSession.Done | owner-onboarding-server/src/handlers.rs:586-664 | Granted if and only if the device is proven and gives back the first nonce; the second nonce is returned and leaves the session |
| ServerRuns.SequenceCheckImpliesEncryption | http-wrapper/src/server.rs:182-219 | In a reachable session passing the sequence check implies both encryption checks, so no session is stored for a refused request |
| ServerRuns.AcceptedFields | http-wrapper/src/server.rs:259-298 | An accepted request leaves exactly the fields its reply calls for |
| ServerRuns.AcceptedIsGood | owner-onboarding-server/src/handlers.rs:23-664 | One accepted request extends the session's word and keeps the session invariant |
| ServerRuns.EveryRunIsGood | owner-onboarding-server/src/handlers.rs:93-664 | In every run every stored session has keys and proof iff the last reply is 65, 67, 69 or 71, key exchange and cipher iff 61 or 63, the second nonce iff 65, 67 or 69, and a counter up to 1001 iff 69 or 71 |
| ServerRuns.OnboardedMeansProved | owner-onboarding-server/src/handlers.rs:184-350 | A device is marked as onboarded only by a session whose accepted requests are the word 60 62+ 64 66 68+ 70, with a token over that session's nonce verified under the leaf key of the device's voucher |
| ServerRuns.DoneMarks | owner-onboarding-server/src/handlers.rs:586-664 | An accepted Done marks its session's device as onboarded, and records the completion |
| ServerRuns.MarkedIff | owner-onboarding-server/src/handlers.rs:650-658 | In every run a device is marked if and only if a Done was accepted in a session of that device |
| ServerRuns.NothingBeforeProof | owner-onboarding-server/src/handlers.rs:357-404 | In every run, readiness, ServiceInfo and Done are granted only in a session in which a token over its nonce has verified under the leaf key of the device's voucher |
| ServerRuns.OnlySealedIsServed | http-wrapper/src/server.rs:198-363 | In every run a served request from 66 on was sealed with its session's keys and an earlier one not at all, the reply from 65 on is sealed with them, and its number is the request's plus one |
| ServerRuns.CompletedSessionsAreClosed | http-wrapper/src/server.rs:182-195 | After Done2 no further request is ever accepted in the session |
| ServerRuns.Answer | http-wrapper/src/server.rs:175-363 | Checks, decryption, handler and response in order: the session to store and the reply, or neither |
| ServerRuns.OwnerServer.Receive | http-wrapper/src/server.rs:372-494 | One request is one step of the server: an error or a panic leaves all sessions as they were |
| ServerRuns.OwnerServer.StoreSession | http-wrapper/src/server.rs:259-298 | The session and, at a finished Done, the mark of the device, and nothing else |
| DeviceObjects.To2Device.SendRequest | http-wrapper/src/client.rs:168-304 | Sequence and encryption checks, the request under the old keys, the response under the new ones, the KDF flag from the first response only |
| DeviceObjects.To2Device.ReadReply | http-wrapper/src/client.rs:230-300 | KDF flag, type header, token, success, decryption and type, in this order |
| DeviceObjects.To2Device.Ask | http-wrapper/src/client.rs:168-304 | One exchange is one step of the device's machine |
| DeviceObjects.To2Device.PerformHello | client-linuxapp/src/main.rs:382-548 | A hello is returned only if nonce, signature information, HMAC and manufacturer key hash match, before anything else is asked for |
| DeviceObjects.To2Device.GetOvEntries | client-linuxapp/src/main.rs:337-368 | The loop collects the entries under ascending numbers or stops at the first wrong one |
| DeviceObjects.To2Device.GetVerifiedPayload | client-linuxapp/src/main.rs:550-654 | The payload only if the rebuilt voucher verifies and its last owner signed both header and address |
| DeviceObjects.To2Device.Authenticate | client-linuxapp/src/main.rs:850-1000 | Hello, entries, verification, key derivation, proof and readiness in order, ending before the first ServiceInfo message |
| DeviceObjects.To2Device.PerformServiceInfos | client-linuxapp/src/serviceinfo.rs:760-830 | The loop of at most 1000 rounds |
| DeviceObjects.To2Device.PerformTo2 | client-linuxapp/src/main.rs:850-1060 | The whole program is the machine; any effect, marker, deactivation or success implies full authentication |
| ClientRuns.VerifiedOwner | client-linuxapp/src/main.rs:575-654 | What passes has a complete, entry by entry verified chain whose last key verified header and address |
| ClientRuns.StepKeepsInv | client-linuxapp/src/main.rs:382-1060 | Every step against any response keeps the phase invariant |
| ClientRuns.NothingBeforeAuthentication | client-linuxapp/src/main.rs:850-1045 | In every run: an effect, the marker, the deactivation or success implies matching nonce, HMAC and manufacturer key hash, a verified voucher, header and address signed by its last owner, session keys from that header, and effects only from messages read under these keys, in order |
| ClientTranscripts.EveryRequest | client-linuxapp/src/main.rs:337-1060 | In every run, against any network, request i is the planned one: the hello, entry numbers cut to eight bits, the signed token, readiness, the device's description in the first ServiceInfo round and nothing in the at most 999 others, Done when the owner is; sealed with the session keys from readiness on, each with the latest authorization token |
| ClientTranscripts.EveryOutcome | client-linuxapp/src/main.rs:955-1060 | In every run the replies decide what happens: the effects are those of the rounds in order, the marker is written if and only if the owner is done, the credential is deactivated if and only if then the marker worked, success is reported if and only if Done2 brings the device's nonce, and the reboot is the one some round asked for |
| ClientTranscripts.EveryEffectGoesOn | client-linuxapp/src/serviceinfo.rs:760-826 | In every run, over all its rounds: every effect worked, or was a command that may fail or a registration and exited with an error, but for the last, and that if and only if the run has ended for it |
| ClientRuns.NoSelfRefusal | http-wrapper/src/client.rs:177-215 | The client's own checks never stop `perform_to2` |
| To2Runs.ServesProof | owner-onboarding-server/src/handlers.rs:164-355 | The server accepts an honest proof if and only if voucher, leaf key and key derivation are in order, and answers under the derived keys with the second owner's signature over the device's nonce |
| To2Runs.SameKeys | owner-onboarding-server/src/handlers.rs:312-334 | The keys the device derived are those the server will derive |
| To2Runs.AcceptedIsUnderstood | http-wrapper/src/server.rs:259-363 | What the server accepts the device can read: expected type, same keys |
| To2Runs.EveryRunInStep | http-wrapper/src/client.rs:177-304 | In every joint run both ends agree on the last message, on the keys, and on what was negotiated |
| To2Runs.Lockstep | http-wrapper/src/client.rs:217-300 | Every request and every accepted reply is opened under the keys it was sealed with, or both under none; an exchange fails only where a handler reports an error |
| VoucherTransfers.Transfer | client-linuxapp/src/main.rs:337-368 | After k of the entries, k up to 256, the device holds exactly the first k of the server's voucher, in order |
| VoucherTransfers.EntryExchanged | owner-onboarding-server/src/handlers.rs:121-162 | One exchange brings the entry at the eight-bit index, which the device takes only below 256 |
| VoucherTransfers.LongVouchersFail | client-linuxapp/src/main.rs:343-360 | With more than 256 entries the device fails at entry 256, with nothing done |
| VoucherTransfers.ReprintTwice | owner-onboarding-server/src/handlers.rs:140-162 | Printing an entry twice is printing it once, so both ends hold the same bytes |
| To2Completion.OwnerIsVerified | client-linuxapp/src/main.rs:575-654 | The device accepts the rebuilt voucher of its owner |
| To2Completion.HonestRunCompletes | client-linuxapp/src/main.rs:850-1060 | An honest run with n entries succeeds after n + 6 exchanges with exactly the delivered effects |
| SharedServers.AsIfAlone | http-wrapper/src/server.rs:430-494 | Among any other requests that do not name its token, and ends of other sessions, a device and its session are, tokens aside, what they are in the run of the two alone; and once it has succeeded the server has marked it |
| SharedServers.StepForgets | http-wrapper/src/client.rs:228-285 | No step of the device depends on its tokens |
| SharedServers.CompletesAmongOthers | http-wrapper/src/server.rs:60-75 | An honest device is onboarded with exactly the delivered effects, and marked by the server, whatever others do meanwhile without its token |
| DeviceInits.ManufacturingSession.AppStart | manufacturing-server/src/handlers/di.rs:51-158 | The bytes kept in the session are the bytes sent to the device |
| DeviceInits.ManufacturingSession.SetHmac | manufacturing-server/src/handlers/di.rs:200-264 | The voucher of that header is stored under its GUID if and only if header, chain and extension are in order; otherwise nothing is |
| DeviceInits.HeaderSentIff | manufacturing-server/src/handlers/di.rs:95-158 | A header is sent if and only if its device information is printable; what is sent names the GUID, the rendezvous information, the device information, the manufacturer's certificate and the SHA-384 digest of the device certificates |
| DeviceInits.StoredVoucher | manufacturing-server/src/handlers/di.rs:236-258 | The stored voucher has that header and HMAC; with a key at hand it is stored if and only if this is the manufacturer's, and is then sold to the owner in exactly one verified entry |
| DeviceInits.DeviceHashesWhatWasSent | manufacturing-client/src/main.rs:228-246 | The device takes its HMAC of exactly the bytes sent, and the server parses them to the header it made |
| DeviceInits.ExtendsStayPristine | data-formats/src/ownershipvoucher.rs:265-316 | No number of extends changes header bytes, HMAC or chain, and every entry prints as it is |
| DeviceInits.PristineIsStored | data-formats/src/ownershipvoucher.rs:71-93 | The stored voucher is read back as it was written |
| DeviceInits.HonestDeviceAccepts | client-linuxapp/src/main.rs:463-520 | An honest device accepts HMAC and manufacturer key hash, however often the voucher was extended |
| FactoryToOwner.DeviceIsOnboarded | client-linuxapp/src/main.rs:850-1060 | The whole way from initialisation to a configured, deactivated device |
| FactoryToOwner.OnboardedIffSoldAtMost256 | client-linuxapp/src/main.rs:337-368 | The device ever succeeds if and only if it was sold at most 256 times; otherwise it gives up untouched |
| Registrations.StepKeeps | owner-onboarding-server/src/main.rs:161-208 | Each step, of overlapping passes too, keeps the rendezvous entry ahead of the next chance to renew it |
| Registrations.NeverLapses | owner-onboarding-server/src/main.rs:161-208 | In every attentive run a voucher once registered is registered at every moment until TO2, through any loads, maintenance and overlapping passes |
| Registrations.NoLapseIff | owner-onboarding-server/src/main.rs:317-349 | No attentive run lapses if and only if the gap, the lag rounded up to whole seconds and one second fit into the window, or, where grants are shorter than the window, the gap and one second fit into a grant; for every window and grant, every real lag from 0 and every positive real gap |
| Registrations.LongGrantLapses | store/src/directory.rs:406-421 | Otherwise, for grants not shorter than the window, a run in which maintenance deletes a waiting voucher's entry |
| Registrations.ShortGrantLapses | rendezvous-server/src/handlers_to0.rs:183-187 | The same for grants cut by the rendezvous server |
| Registrations.ShortGrantIsDue | owner-onboarding-server/src/main.rs:188-200 | In every run, a grant not longer than the window is due at every windowed pass except in the second in which it was written down, and that only if it is as long as the window |
| Registrations.DefaultsCanLapse | owner-onboarding-server/src/main.rs:440-474 | The default settings pass the validation and can lapse for any gap above a minute, whatever the rendezvous server's maximum |
| Registrations.CheckSettings | owner-onboarding-server/src/main.rs:440-474 | Settings are accepted if and only if the window is longer than 60 seconds and shorter than the period, with 61 and 600 as defaults; every refusal has its condition |
| RegistrationObjects.DirectoryStore.OwnerSign | rendezvous-server/src/handlers_to0.rs:183-214 | The entry is overwritten and lives for the requested time or the maximum, whichever is less |
| RegistrationObjects.DirectoryStore.LoadData | store/src/directory.rs:231-258 | Found unless expired; an expired entry is deleted, no other is touched |
| RegistrationObjects.DirectoryStore.PerformMaintenance | store/src/directory.rs:373-425 | Exactly the expired entries are deleted |
| RegistrationObjects.OwnerDaemon.Report | owner-onboarding-server/src/main.rs:172-206 | One report sets this voucher's times in both stores, or changes neither store, and nothing else in either |
| RegistrationObjects.OwnerDaemon.Pass | owner-onboarding-server/src/main.rs:161-208 | Exactly the due and reachable vouchers are registered anew, in both stores, as steps of a valid run |

## Left out

- OpenSSL, TPM, certificates, COSE and the KDF: function-valued parameters with the laws named in `Crypto.Laws`, `KeyExchanges.CurveLaws` and `To2Messages.PlatformLaws`.
- Encryption: ideal. A message on the wire carries the keys it was sealed with and opens under these only; attacks that decrypt, replay within one session key or forge are not represented.
- Leaf values: each encodes to one well-formed item and decodes back. Null and booleans inside an array are refused by the parser, so a header without a chain hash is outside the round trip.
- Vouchers are parsed with checked arithmetic; the difference to a release build is stated for the array parser alone.
- Memory: an allocation fails only when it exceeds the address space.
- The `header` field of `ParsedArray` (unused in the source), `many_from_pem` and PEM.
- Surrounding white space of the device information is trimmed before the model's `DeviceHeader`.
- Finite-field Diffie-Hellman suites, and split (non-AEAD) session keys: only the elliptic-curve suites and one key.
- TO1 and the choice of a rendezvous server; the signed address from TO1 is a parameter.
- Error messages that the device sends after a failure; retries.
- What the device reports in ServiceInfo: command output and the module list. The module list that the owner passes to the API server is a parameter.
- Configuration entries kept per device in a store, `additional_serviceinfo`, and subscription-manager settings at the API server; the device's side of the latter is modelled.
- The owner's answer to HelloDevice for an unknown GUID is an error, as with the directory store; with a database the handler panics. Both refuse the request.
- Store failures, concurrent requests of one session, and the destruction of a finished session: the model keeps it, with Done2 as its last reply, which accepts nothing either. An expired or unknown token starts a fresh session under an identifier never used before.
- A file name that is the root directory makes the device panic for want of a parent directory; here writing it is an effect that may fail.
- ServerRuns.OwnerServer.Receive: the handler's session is a copy that is stored on success only, as in the source; the partial changes of a failed handler are not described because nobody sees them.
- Registrations.NoLapseIff: owner and rendezvous server share one clock, and the rendezvous server never fails for the voucher; passes may overlap, as the report endpoint (owner-onboarding-server/src/handlers.rs:671-682) makes possible where it is enabled; with a directory store at the owner there is no window check at all, which the source documents.
- Deleting vouchers from the owner's store, and the per-voucher errors that end a pass early.
- SQL is taken as the predicate of its filter (db/src/sqlite.rs:153-172).
