# Verified models of the CHERIoT demos

A Dafny model of the logic in two of the demos, with proofs about it.

* **The configuration broker and its clients.** `Machine.dfy` is one interleaved state machine: any number
  of threads run `set_config`, `get_config` and `set_parser` one access to shared state at a time, and
  between calls follow the consumer loop, `update_status`, or no pattern at all. Locks, the version futex,
  the item list, the heap with its claims and ephemeral claims, and the clock are part of the state.
  Allocation and parsing may fail, the parser may write anything into its buffer before it returns or
  faults, heap_claim may return 0 or a negative error, and the allocator may reclaim unowned memory at any
  moment. `values`, `passes`, `frozen` and the fields named as history where clients are declared
  influence nothing. `Invariant.dfy` to `Runs.dfy` prove an invariant over every run; `Adoption.dfy`,
  `Scans.dfy`, `Theorems.dfy`, `Causes.dfy`, `Rate.dfy`, `Clock.dfy`, `Progress.dfy` and `Refinement.dfy`
  draw the conclusions. `Scenarios.dfy` plays whole calls step by step, and `Extremes.dfy` uses it to show
  runs that reach the limits. `Atomic.dfy` is the broker as its callers should see it, an atomic book from
  names to published values.
* **The same broker code for one thread**, as a class over a linked list of structures updated in place
  (`ConfigBroker.dfy`), held to the same atomic effect as the interleaved machine, and the two clients
  that keep a configuration (`Handlers.dfy`), whose methods are shown to do what the machine's steps do
  when nobody intervenes.
* **The parsers the broker trusts** (`Parsers.dfy`, `Numbers.dfy`), byte by byte, including sources that
  are too short, and in terms of the text and numbers they carry (`Layouts.dfy`). `Demo.dfy` puts them
  into the broker and follows their guarantees to the consumers.
* **The capability register machine** that the JavaScript demo exposes (`Capabilities.dfy`), for every
  program and every architecture that never adds authority; the laws of single functions assume that loads
  and stores change no more than tag and permissions. The eight virtual registers live in memory, found
  through the pointer near the top of the stack, so programs may overwrite them.
* **Two decoders**: the UART hex loader (`HexLoader.dfy`) and the MQTT topic handling (`Topics.dfy`,
  against the matching rules of section 4.7 of MQTT 3.1.1).

## Assumptions

* Shared accesses are sequentially consistent, and locks, futexes and the allocator behave as the
  operations in `Machine.dfy` say. An object freed by its last owner may linger until it is reclaimed; a
  claim on it may then succeed or, for an ephemeral claim, fail. An ephemeral claim does not time out
  while somebody owns the object, and lasts until the handler's first call out of its compartment.
  `free` of an object that the caller does not own changes nothing.
* A wait on a null futex returns at once with unspecified event values; a futex signalled more than
  once before the waiter runs stays signalled.
* There is one parser capability per name, and it cannot change. Each consumer loop and each
  `update_status` has its own compartment. Claims are labelled with the handler that makes them; the
  allocator counts them per compartment.
* The source passed to `set_config` keeps its contents while the call is in progress: the parser reads
  the caller's memory, which the caller could change meanwhile.
* The malloc'd buffer is zero-filled. A `bool` is copied as the byte it is stored in.

## Findings

* `get_config` results are exact, but versions are 32 bits: a consumer that is blocked with quiet
  setters has the latest value if fewer than 2^32 values were published since it last read
  (`Theorems.CaughtUpExactly`), and there are runs in which it sleeps on: exactly for the pairs of values
  read and values published that agree modulo 2^32 (`Extremes.SleepsExactly`).
* `update_status` records a version before it claims the value. When the claim fails, that value is not
  taken up: the provider keeps the older one (`Adoption.TakenExactly`) until it reads a count that
  differs from the recorded one modulo 2^32, and exactly until then (`Adoption.NoticedExactly`,
  `Adoption.StaleUntil`). The recorded version starts as 0, so the same holds for a first value whose
  version has come round to 0. Such runs exist, for every pair of an older and a newer value
  (`Extremes.StaleExactly`).
* `logger_handler` takes every result of `heap_claim` but 0 for success, where `update_status` tests for
  `<= 0`. After a negative result its pointer names an object it does not own: it owns what it names if
  and only if the result was not negative (`Handlers.Consumer.LoggerHandler`), in every interleaving
  (`Theorems.ClaimBalance`); only the claim of another object repairs this. Without negative results it
  always owns it (`Theorems.SoundWithoutErrors`).
* An accepted system configuration may fill its 16-character id without a NUL, and `generate_topics`
  then reads on into the switches. The topics name the id alone exactly when the field is not full or the
  first switch is off, and the read stays inside the structure exactly when it holds a NUL
  (`Topics.IdReadExactly`; `Topics.FullIdOverruns` and `Topics.FullIdFaults` are the inputs). Names of
  incoming messages are all extracted correctly exactly when what is read makes no level `+`
  (`Topics.RightForAllExactly`), which takes switch bytes other than 0 and 1 (`Topics.FullIdWildcard`,
  `Topics.BooleansArePlain`).
* `config_broker.h` (lines 119-121) says that a null futex means no access. It means exactly that the
  capability is no read capability, or that there is no such item yet and no memory for one
  (`ConfigBroker.Broker.GetConfig`).
* The README of the demo speaks of JSON sources, but the logger and system parsers read a structure.

## Model

| member | source | states |
|---|---|---|
| Machine.FindItem | configuration_broker/common/config_broker/config_broker.cc:108-114 | the search returns an item of that name, and fails exactly when there is none |
| Preservation.SetKeeps | configuration_broker/common/config_broker/config_broker.cc:164-249 | every step of a locked set_config keeps the lock discipline, the published object, the parser-accepted state of buffers and the exact account of the broker's allocations |
| Preservation.GetKeeps | configuration_broker/common/config_broker/config_broker.cc:282-308 | the same for the locked part of get_config: what was read stays current while the lock is held |
| Preservation.FindKeeps | configuration_broker/common/config_broker/config_broker.cc:103-134 | the same for the search and insertion under the list lock; names stay distinct |
| Preservation.RegisterKeeps | configuration_broker/common/config_broker/config_broker.cc:337-341 | the same for the three unlocked stores of set_parser, interleaved with setters |
| Growth.SnapshotStable | configuration_broker/common/config_broker/config_broker.h:106-129 | a get_config result stays true of the state after exactly that many updates, however others go on |
| ClientSteps.LoopInv | configuration_broker/common/config_consumer/config_consumer.cc:60-147 | every step of the read, claim, handle, re-arm and wait loop keeps the whole-system invariant |
| Scans.ScanAsksExactly | configuration_broker/common/config_consumer/config_consumer.cc:63-120 | from the start of a scan of any list to its end, get_config is called for exactly the items whose event has fired |
| Scans.DeliveredWasHandled | configuration_broker/common/config_consumer/config_consumer.cc:109-118 | whatever counts as delivered was: a handler of that slot was called with that value |
| Scans.WaitsExactly | configuration_broker/common/config_consumer/config_consumer.cc:122-132 | the wait blocks exactly when no version has moved; otherwise the next scan is for exactly those that have |
| Scans.WakesExactly | configuration_broker/common/config_consumer/config_consumer.cc:131-146 | a woken consumer scans for exactly the items it was woken for, none after a timeout |
| Scans.NotifiesExactly | configuration_broker/common/config_broker/config_broker.cc:240 | notify_all wakes exactly those that wait on that item, for that item |
| ClientSteps.EphemeralInv | configuration_broker/common/config_consumer/config_consumer.cc:94-107 | a failed ephemeral claim leaves the item marked as overtaken |
| ClientSteps.WaitInv | configuration_broker/common/config_consumer/config_consumer.cc:122-146 | the wait blocks only when every futex still has the recorded version |
| ClientSteps.StatusInv | configuration_broker/sonata/provider/mqtt.cc:117-159 | every step of the version guard and claim handover of update_status keeps the invariant |
| Runs.RunInv | configuration_broker/common/config_broker/config_broker.cc:142-342 | the whole invariant holds in every state of every run |
| Runs.RunGrows | configuration_broker/common/config_broker/config_broker.cc:39-47 | over any stretch of a run no item moves, is renamed or vanishes, no published value is withdrawn, no finished object changes |
| Refinement.SetSucceeds | configuration_broker/common/config_broker/config_broker.cc:231-233 | the version bump is the one atomic effect of a set_config that returns 0: it appends a parse of the source given to that call |
| Refinement.SetFails | configuration_broker/common/config_broker/config_broker.cc:167-219 | every failing return leaves the book unchanged and reports what held at that instant |
| Refinement.GetEffect | configuration_broker/common/config_broker/config_broker.cc:295-299 | get_config answers with the count modulo 2^32 and the last published value at one instant inside the call |
| Refinement.NextRefines | configuration_broker/common/config_broker/config_broker.cc:142-342 | every step is invisible or starts, performs or ends exactly one atomic call |
| Refinement.RunRefines | configuration_broker/common/config_broker/config_broker.cc:142-342 | linearisability: each run of the interleaved broker is a run of the atomic book |
| Refinement.ReplyCarries | configuration_broker/common/config_broker/config_broker.h:106-129 | the pointer handed out is null exactly when nothing was published and, while live, holds the atomic answer |
| Causes.CameFrom | configuration_broker/common/config_broker/config_broker.cc:164-249 | in every run a thread in set_config came to its program point, each return code included, from the one place that leads there, in the same call and under the same lock |
| Causes.OnlyWriters | configuration_broker/README.md:232 | a value is only ever published by a call with the write capability for that name, and is a parse of its source |
| Causes.OnlyRegistrars | configuration_broker/common/config_broker/config_broker.cc:321-339 | a parser is only ever registered by a call with the parser capability for that name |
| Causes.OnlyReaders | configuration_broker/README.md:228 | a value is only ever handed to a call with the read capability for that name |
| Causes.FreshBuffer | configuration_broker/common/config_broker/config_broker.cc:186-199 | the buffer a parser is first given is new, of the item's size, and all zero |
| Theorems.NoLostUpdate | configuration_broker/common/config_consumer/config_consumer.cc:122-146 | a consumer blocked on an outdated version has a setter between bump and notify |
| Theorems.CaughtUpExactly | configuration_broker/common/config_consumer/config_consumer.cc:60-147 | with quiet setters a blocked consumer has read, and its handler has been given, the latest value, when fewer than 2^32 were published since its read |
| Extremes.SleepsExactly | configuration_broker/common/config_consumer/config_consumer.cc:60-146 | for any list of items, a run ends with a consumer blocked, its setters quiet, and ms[i] of ks[i] values read and handled, exactly when for every item ms[i] <= ks[i] and they agree modulo 2^32 |
| Extremes.PlayScan | configuration_broker/common/config_consumer/config_consumer.cc:63-120 | a first scan of any list can be played to its end, every item read and every value given to its handler, which keeps it if it is one that keeps |
| Scenarios.PlayPublish | configuration_broker/common/config_broker/config_broker.cc:142-250 | from every reachable quiet state a set_config with a source that parses can be played to its return, publishing that value and no other, and waking who waits |
| Theorems.UndeliveredIsReread | configuration_broker/common/config_consumer/config_consumer.cc:96-107 | an item read but not handled makes the next wait return at once with that item marked |
| Theorems.RefusedMeansSuperseded | configuration_broker/common/config_broker/config_broker.cc:231-247 | a claim can be refused only after a newer value was counted, because the bump precedes the free |
| Theorems.HandlerSafe | configuration_broker/common/config_consumer/config_consumer.cc:94-117 | a handler is called on a live object that is the parsed value it was read as |
| Theorems.HandlerUndisturbed | configuration_broker/common/config_consumer/config_consumer.cc:94-117 | the object stays live and unchanged while the ephemeral claim is held |
| Theorems.ClaimBalance | configuration_broker/ibex-safe-simulator/consumers/consumer1.cc:34-68 | outside its handover a keeping handler owns the object its static pointer names exactly once and nothing else, unless heap_claim returned a negative error for it, in which case nothing; what it owns is live and is the value delivered when the pointer was last stored |
| Theorems.KeeperHasLatest | configuration_broker/ibex-safe-simulator/consumers/consumer1.cc:34-68 | with quiet setters a blocked keeper whose last claim was granted keeps the latest value |
| Theorems.SoundWithoutErrors | configuration_broker/ibex-safe-simulator/consumers/consumer1.cc:44-48 | in runs without negative claim results every keeping handler owns what its pointer names |
| Theorems.HandoverBalance | configuration_broker/ibex-safe-simulator/consumers/consumer1.cc:44-65 | during the swap both objects are claimed, one object twice when delivered again, as far as the claims were granted |
| Theorems.StatusBalance | configuration_broker/sonata/provider/mqtt.cc:119-159 | both ids compared by update_status are live, the old one in the last value taken up, and between calls exactly the adopted configuration is claimed |
| Adoption.TakenExactly | configuration_broker/sonata/provider/mqtt.cc:119-159 | in every run the kept configuration is a known value of its item; between calls it is the one whose version is recorded if and only if the claim made for that version was granted |
| Adoption.NoticedExactly | configuration_broker/sonata/provider/mqtt.cc:124-137 | an answer is taken further exactly when its count is not 0 and differs modulo 2^32 from the recorded one, which is 0 at the start |
| Adoption.StaleUntil | configuration_broker/sonata/provider/mqtt.cc:131-143 | until such an answer, pointer, version and history stay as they are, whatever is published |
| Extremes.StaleExactly | configuration_broker/sonata/provider/mqtt.cc:136-143 | a run ends with value a kept, the version of the newest value b recorded and nothing on its way, exactly when a < b |
| Theorems.HeapConserved | configuration_broker/common/config_broker/config_broker.cc:186-247 | the broker's allocations for an item are the published object and the one its setter holds, each owned once |
| Theorems.TwiceTheSize | configuration_broker/README.md:240 | at most two objects per item, each of the registered size |
| Theorems.SetterNeverFaults | configuration_broker/common/config_broker/config_broker.cc:213-249 | a setter never frees what the broker does not own and never reads a missing buffer |
| Theorems.RegisteredBeforeUse | configuration_broker/common/config_broker/config_broker.cc:167-187 | a setter that saw a parser uses the registered size and interval |
| Theorems.OnlyValidatedVisible | configuration_broker/README.md:234-237 | every live object anyone can name was accepted by the parser of its item |
| Progress.EveryCallServed | configuration_broker/README.md:216 | any call in progress can be brought to its return in at most 20 steps per thread, none of them by a thread at work on another item, so other items' parsers and the broker's locks hold nobody up for ever, provided the parser of its own item returns |
| Progress.RunListOwned | configuration_broker/common/config_broker/config_broker.cc:105-106 | a taken list lock is always held by a thread inside the search or the insertion |
| Progress.BlockerReady | configuration_broker/common/config_broker/config_broker.cc:105-165 | whoever a call waits for can take a step and is not at work on any other item: no deadlock |
| Theorems.OneItemPerName | configuration_broker/common/config_broker/config_broker.cc:97-134 | two calls work on the same structure exactly when they name the same item |
| Theorems.OthersUntouched | configuration_broker/common/config_broker/config_broker.cc:142-342 | a step of a call on one name leaves every other item as it was |
| Rate.RunRate | configuration_broker/common/config_broker/config_broker.cc:174-184 | in every run the deadline is the last reading on record plus the interval, and readings on record are spaced by it |
| Clock.RecordedIsClock | configuration_broker/common/config_broker/config_broker.cc:175-184 | whenever an attempt is recorded, what is recorded is the clock as that attempt read it, in one call and under one hold of the item lock |
| Clock.ReadInCall | configuration_broker/common/config_broker/config_broker.cc:174-249 | in every run a thread at or past the rate check has read the clock in this very call, with the lock held ever since |
| Clock.PassesCount | configuration_broker/common/config_broker/config_broker.cc:178-184 | the record is as long as the number of attempts let through, counted step by step |
| Clock.RateLimit | configuration_broker/README.md:242 | n attempts let through between two states of a run satisfy (n-1) * interval <= the last clock minus the clock when the first of them read it |
| Clock.ParserIsAdmitted | configuration_broker/README.md:242 | a parser is called only for an attempt that was let through in the same call |
| Clock.RejectedExactly | configuration_broker/common/config_broker/config_broker.cc:174-184 | an attempt is turned away exactly when it reads the clock less than one interval after the last one let through did |
| ConfigBroker.Broker.Search | configuration_broker/common/config_broker/config_broker.cc:108-114 | the loop finds an item of that name, or there is none |
| ConfigBroker.Broker.FindOrCreate | configuration_broker/common/config_broker/config_broker.cc:103-134 | an existing item is returned and the list kept; otherwise a fresh one is prepended; the book does not change |
| ConfigBroker.Broker.GetConfig | configuration_broker/common/config_broker/config_broker.cc:256-309 | the atomic effect of get_config, with the buffer's contents as the value; the futex is that of the item of that name, and null exactly without a read capability or without an item and memory for one |
| ConfigBroker.Broker.SetParser | configuration_broker/common/config_broker/config_broker.cc:314-342 | the atomic effect of set_parser, and the size, interval and callback that later attempts go by |
| ConfigBroker.Broker.SetConfig | configuration_broker/common/config_broker/config_broker.cc:142-250 | the atomic effect of set_config, which of its returns is taken, when the deadline moves, and that nothing allocated is left unpublished |
| ConfigBroker.VerdictExactly | configuration_broker/common/config_broker/config_broker.cc:167-219 | each return behind the item lock has its own reason, and there is no other |
| ConfigBroker.UntilExactly | configuration_broker/common/config_broker/config_broker.cc:184 | the deadline is one interval after the attempt, in 64 bits |
| ConfigBroker.Broker.Renew | configuration_broker/common/config_broker/config_broker.cc:186-247 | a buffer is allocated and parsed into; on success it is published and the previous one freed, otherwise it is freed itself |
| ConfigBroker.Broker.ParseInto | configuration_broker/common/config_broker/config_broker.cc:186-214 | while the parser writes, the new buffer is owned and in flight, and visible in no item |
| ConfigBroker.ListPut | configuration_broker/common/config_broker/config_broker.cc:39-47 | updating one structure of the list shows at its name only |
| Handlers.Consumer.LoggerHandler | configuration_broker/ibex-safe-simulator/consumers/consumer1.cc:39-68 | what one delivery does to the pointer and the claims for every result of heap_claim, also on redelivery; one claim, on the object it names, remains if and only if the result was not negative; nobody else's claims change |
| Handlers.Provider.TakeConfig | configuration_broker/sonata/provider/mqtt.cc:117-159 | the version guard, the recorded version, the claim handover for every result of heap_claim, and the id comparison |
| Handlers.CompareIds | configuration_broker/sonata/provider/mqtt.cc:153-155 | the bounded comparison finds ids equal exactly when their texts are |
| Handlers.StepsAreHandler | configuration_broker/ibex-safe-simulator/consumers/consumer1.cc:44-65 | the interleaved machine's handler steps, taken in a row, meet that contract for a granted, a refused and a failed claim |
| Handlers.StepsAreTakeConfig | configuration_broker/sonata/provider/mqtt.cc:124-159 | the same for update_status from the answer of get_config on, with the version guard |
| Parsers.CopyText | configuration_broker/config/parsers/system_config/parser.cc:58-78 | the loop copies exactly up to a NUL, a character not allowed, or the end of the source |
| Parsers.ParseLogger | configuration_broker/config/parsers/logger/parser.cc:50-109 | faults, accepts or rejects exactly as specified; an accepted zero-filled buffer holds the normalised value; only bytes of the source are ever written |
| Parsers.ParseSystem | configuration_broker/config/parsers/system_config/parser.cc:52-87 | the same for the system configuration, which may fault part way |
| Layouts.LoggerExactly | configuration_broker/config/parsers/logger/parser.cc:41-108 | accepted are exactly an address of digits and dots, a port other than 0 and one of four levels, and published are exactly those |
| Layouts.DottedAccepted | configuration_broker/config/parsers/logger/parser.cc:41-108 | every dotted decimal address that fits the field is accepted as it is |
| Layouts.SystemExactly | configuration_broker/config/parsers/system_config/parser.cc:41-86 | accepted is exactly an id of letters, digits, '-' and '_', and published are that id and the switches |
| Layouts.EveryStructure | configuration_broker/config/parsers/logger/parser.cc:75-94 | every field holds exactly one text |
| Parsers.LoggerNormalises | configuration_broker/config/parsers/logger/parser.cc:56-108 | the publishable logger values are exactly the fixed points of the parser |
| Parsers.SystemNormalises | configuration_broker/config/parsers/system_config/parser.cc:58-86 | the publishable system values are exactly the fixed points of the parser |
| Parsers.TailIgnored | configuration_broker/config/parsers/logger/parser.cc:74-94 | nothing after the first NUL of the field reaches the value |
| Numbers.GetNumber | configuration_broker/config/parser_helper.h:62-93 | succeeds exactly on digits whose value is at most 255, stores that value, truncates before refusing |
| Numbers.ReadsBack | configuration_broker/config/parser_helper.h:62-77 | the digit loop inverts decimal printing with any number of leading zeros |
| Demo.ParsersMeetTokens | configuration_broker/config/parsers/logger/parser.cc:120-131 | the parsers do to a fresh buffer exactly what their registered tokens promise |
| Demo.LoggerHandlerSeesValid | configuration_broker/ibex-safe-simulator/consumers/consumer1.cc:39-57 | in every run a logger handler is called with a well-formed, normalised value |
| Demo.TopicsFollowTheId | configuration_broker/sonata/provider/mqtt.cc:145-180 | in every run, for the configuration about to be adopted: when strlen stays inside it, when the topics name its id alone, and when all names are extracted from matching topics, each as an if and only if |
| Capabilities.ExecConfined | compartmentalisation/microvium-ffi.hh:256-528 | no exported function puts authority beyond the initial closure where it can be loaded |
| Capabilities.NoNewAuthority | compartmentalisation/README.md:66-78 | after any program every reachable capability is bounded by one reachable before |
| Capabilities.WordsFromClosure | compartmentalisation/microvium-ffi.hh:280-285 | load_int returns only words under an initially reachable load capability |
| Capabilities.Integrity | compartmentalisation/microvium-ffi.hh:293-298 | no program changes memory outside the initial store closure, but for the secret that check_secret renews |
| Capabilities.NonInterference | compartmentalisation/README.md:56-80 | memory outside the initial load closure influences nothing a program sees, whatever it computes |
| Capabilities.Obtainable | compartmentalisation/microvium-ffi.hh:256-272 | on every architecture, what can be found by following capabilities with the losses of that architecture, some program loads into a register |
| Capabilities.LosslessPath | compartmentalisation/microvium-ffi.hh:256-272 | where loads and stores drop nothing, these are all reachable capabilities, unchanged: the closure is tight |
| Capabilities.WriteRead | compartmentalisation/microvium-ffi.hh:69-120 | what is written to a register is read back, up to what the architecture drops; the other seven and all other memory are as they were |
| Capabilities.MachineRegisters | compartmentalisation/microvium-ffi.hh:89-120 | registers 8, 9 and 10 are csp, cgp and pcc; nothing else can be read or written |
| Capabilities.StateFound | compartmentalisation/microvium-ffi.hh:57-76 | state finds what state_set put near the top of the stack |
| Capabilities.Moves | compartmentalisation/microvium-ffi.hh:256-259 | the destination holds what the source held, and nothing else changes |
| Capabilities.Loads | compartmentalisation/microvium-ffi.hh:267-272 | the destination holds what is at register plus offset, and nothing else changes |
| Capabilities.Stores | compartmentalisation/microvium-ffi.hh:293-298 | what the value register held is at register plus offset, and nothing else changes |
| Capabilities.StoreThenLoad | compartmentalisation/microvium-ffi.hh:267-298 | storing a register and loading from there gives back the same address and bounds, and the same capability where nothing is dropped |
| Capabilities.IntLoads | compartmentalisation/microvium-ffi.hh:280-285 | load_int gives the addressed half of the granule at register plus offset |
| Capabilities.Gets | compartmentalisation/microvium-ffi.hh:306-353 | address, base, length and permissions of any register, as signed 32-bit numbers |
| Capabilities.SetThenGet | compartmentalisation/microvium-ffi.hh:306-323 | get_address after set_address gives that address; a capability that stays valid keeps its bounds |
| Capabilities.Renews | compartmentalisation/secret.cc:34-42 | check_secret replaces the secret and nothing else |
| Capabilities.RegisterMachine.ReadRegister | compartmentalisation/microvium-ffi.hh:69-120 | reads the file through the stack pointer, csp, cgp, pcc, or null |
| Capabilities.RegisterMachine.WriteRegister | compartmentalisation/microvium-ffi.hh:78-87 | writes one of eight slots of the file and ignores other numbers |
| Capabilities.RegisterMachine.ExportMove | compartmentalisation/microvium-ffi.hh:256-259 | does what the register-machine semantics says of move |
| Capabilities.RegisterMachine.ExportLoad | compartmentalisation/microvium-ffi.hh:267-272 | the same for load |
| Capabilities.RegisterMachine.ExportLoadInt | compartmentalisation/microvium-ffi.hh:280-285 | the same for load_int, changing nothing |
| Capabilities.RegisterMachine.ExportStore | compartmentalisation/microvium-ffi.hh:293-298 | the same for store |
| Capabilities.RegisterMachine.ExportSetAddress | compartmentalisation/microvium-ffi.hh:318-323 | the same for set_address |
| HexLoader.LoadScript | compartmentalisation/js.cc:106-163 | one turn of the loader is the recursive reading of its input |
| HexLoader.LoadsExactly | compartmentalisation/js.cc:123-163 | accepted inputs are exactly text without a brace, a brace, and an encoding of the returned bytes, consumed to the closing brace |
| HexLoader.EncodesExactly | compartmentalisation/js.cc:79-104 | the encodings of some bytes are exactly what can be written for them with sixteen digits in either case |
| HexLoader.HexTables | compartmentalisation/js.cc:81-104 | the n-th digit of either table is a digit with value n |
| HexLoader.HexDigitsExactly | compartmentalisation/js.cc:94-104 | and there are no others |
| HexLoader.BodyRejects | compartmentalisation/js.cc:125-161 | after any bytes, five characters that are no byte end the script right behind them |
| HexLoader.Serve | compartmentalisation/js.cc:106-179 | the endless loop, up to where the input ends, kills and starts what the recursive reading of the input says |
| HexLoader.SessionRunsAll | compartmentalisation/js.cc:106-179 | of whole and broken scripts sent in any number, in any digit case and with noise between, the whole ones are started with exactly their bytes, each stops what was running, and reading goes on right behind it |
| Topics.Subscription.GenerateTopics | configuration_broker/sonata/provider/mqtt.cc:64-80 | the two topics rebuilt in place from what strlen reads of the structure; without a NUL in it, a fault half way |
| Topics.Subscription.ConfigName | configuration_broker/sonata/provider/mqtt.cc:94-111 | for a subscribed topic, the name is what follows the part that stands for the base, exactly when that part is as long as the base; without wildcard levels, x is handed on exactly when it is not empty and the topic is the base, a slash and x; nothing before topics were generated |
| Topics.SubtopicsExactly | configuration_broker/sonata/provider/mqtt.cc:68-73 | without wildcard levels the filter matches exactly the base topic and what continues it with a slash |
| Topics.ExtractsExactly | configuration_broker/sonata/provider/mqtt.cc:94-111 | for every base and every matching topic, exactly when the offset finds the name |
| Topics.RightForAllExactly | configuration_broker/sonata/provider/mqtt.cc:64-111 | all names are found exactly when no level of the base is a wildcard |
| Topics.ExtractsTheRest | configuration_broker/sonata/provider/mqtt.cc:94-111 | then extraction returns exactly what follows the prefix, and rejects exactly the parent topic and the empty name |
| Topics.IdReadExactly | configuration_broker/sonata/provider/mqtt.cc:72 | when strlen on the id field reads the id and no more, and when it stays inside the structure |
| Topics.BooleansArePlain | configuration_broker/sonata/provider/mqtt.cc:72 | with boolean switches what is read has no wildcard and no slash |
| Topics.FullIdOverruns | configuration_broker/sonata/provider/mqtt.cc:72 | an accepted configuration whose topics name another system |
| Topics.FullIdFaults | configuration_broker/sonata/provider/mqtt.cc:72 | an accepted configuration on which strlen leaves the structure |
| Topics.FullIdWildcard | configuration_broker/sonata/provider/mqtt.cc:72 | an accepted configuration whose topics have a wildcard level |

## Left out

- JSON search and validation, enum parsing, TLS, MQTT transport, SNTP, Microvium, LCD, LEDs, GPIO: libraries or devices whose code is not part of this model.
- Fairness and timing: the proofs say what is true in every state and which steps can be taken, not that a runnable thread eventually runs; waits may time out at any moment.
- ConfigConsumer::run is steps of the state machine rather than a method with a loop, because it never returns and only makes sense under interference; the event array is the list of recorded versions at the wait.
- The count of consecutive timeouts: a timed-out consumer may leave its loop at any timeout.
- update_status after the claim handover: subscriptions and their failures, which leave the handover unaffected.
- Numbers.GetNumber: requires the digits read to stay within INT_MAX, because beyond it the source overflows a signed int.
- Clock.RateLimit: requires the clock to be at least 2^32 ticks short of 2^64, because deadlines wrap there.
- Capabilities.NoNewAuthority: the interpreter's own loads and stores between exported calls are not steps of the machine, and print, LEDs, buttons and switches are a result that comes from outside.
- Capabilities.Obtainable: for paths that do not read register 0 itself, which the program uses to follow them.
- Device memory behind capabilities: reads of memory-mapped registers are not functions of memory.
- Alignment faults of parser sources, and pointers to the middle of a structure.
- js_sandbox.cc: killing, ticking and crash recovery depend on Microvium and fault unwinding.
- The LED parsers, which are instances of the decimal and enumeration readers over JSON.
