# Verification model of the wallet R2PS back end

A Dafny model of the protocol that runs between a client, the wallet BFF, a message transport that may
duplicate, delay, reorder or lose messages, and any number of HSM workers, with proofs of what every run keeps.
`dafny verify dfyconfig.toml` checks it all.

The worker keeps sessions in an in-memory cache with a time to live and keeps no device data: a client's keys
and credentials travel with each request as a token the workers signed, and a new token comes back after every
change. The BFF stores the latest token per client, correlates responses with waiting requests, parks late
responses for polling, and admits each client nonce once per window.

## How the model is laid out

| file | what it holds |
|---|---|
| `Wrappers`, `Protocol`, `Channels` | results, wire types, symbolic tokens, one-shot channels |
| `Sessions` | the session state machine and its cache, as a class over a map |
| `DeviceState` | the device state, its in-place updates, and the value functions they refine |
| `Operations` | the operation handlers and the dispatcher |
| `Worker`, `Wire` | the request pipeline and the service class; error routing, atomicity, keys; every field of what goes over the wire |
| `Fleet`, `SessionTheorems` | any number of workers: the run invariant and what follows for sessions |
| `StateInitService`, `StateChains`, `TokenTheorems` | the first state, chains of issued states, every token of a run |
| `Responses`, `Delivery` | the BFF's response service, first method by method, then every interleaving |
| `EndToEnd`, `Provenance` | client, BFF, transport, workers and store in one transition system; the stored token traced back to the workers' history |
| `StateInitCorrelation` | the BFF's correlation of state-init responses, methods and interleavings |
| `RedisRetry`, `NonceStore`, `ReplayProtection` | the retry loop, SET with NX and EX, the nonce gate |
| `CompactJws`, `Envelope` | base64url and the compact form, concretely; the client's builders and parsers |
| `Witnesses`, `Redelivery`, `FullSession` | concrete requests and whole runs that show where a promise stops |

Keys are ideal: a token remembers which key signed or sealed it and opens under that key only, and every
library call (PAKE, HSM, JOSE, JSON serialisation, sending) may fail at will. The PAKE and HSM ports are arbitrary
functions of what they are asked, so the model says which key, message, password file and pending state go in. JSON
is an invertible codec, except at the nonce gate, where the readers' treatment of missing, repeated, null and
positional fields is modelled. Session ids and request ids are fresh when drawn. Clocks are readings supplied with
each step. A worker handles one request at a time.

A run is a sequence of steps; a step whose guard does not hold changes nothing. Requests are arbitrary values, so
redelivery, reordering and loss need no steps of their own in `Fleet`; in `EndToEnd` requests and replies are kept for
ever and may be delivered any number of times, late or never.

## What the proofs found

* One session, one HSM answer. A handler decides from a snapshot and the transition is checked against the cache
  afterwards; the promise holds across expiry, eviction and restarts because ids are never drawn twice and never move
  between workers.
* Every write restarts the 600 s time to live, but a session can be written at most four times, so no session
  outlives 2400 s.
* A handling that does not commit leaves no trace in the session cache, and one that answers with an outer or inner
  error neither commits nor issues a state (`Worker.FailureAtomicity`). The same need not hold of the request: handled
  again, a successful HSM request is refused by its own guard (`Worker.SecondHandlingRefused`), and the refusal may
  arrive first. A request whose first answer is an error left no trace exactly when no other handling of it did
  (`Provenance.ErrorAnsweredRequest`); a request that is handled once always qualifies.
* A committed request can go unanswered: its success goes out exactly when encoding and sending both succeed
  (`Worker.CommitWithoutAnswer`); `Witnesses.UnsentCommit` is a login that is committed and never heard of.
* The stored token is the fold of the client's successful operations, one per request: the one whose answer was the
  first to arrive (`Provenance.StoredStateIsTheHistory`). If a request is handled twice, the second time with an error,
  and the error arrives first, the success is parked, where a poll still finds it, and its state is never saved
  (`Witnesses.LostSuccess`). No fault but redelivery is needed: `FullSession.KeyLostToRedelivery` loses a new HSM key
  although every library call works. The success of an answered request is missing exactly when another answer to it
  arrived first (`Provenance.MissingExactly`). Where no request is handled twice and no save is under way, the token is
  the fold of all answered successes (`Provenance.StoredStateIsAllAnswered`).
* The authorization code is one-shot along a chain of issued states and only there
  (`StateChains.ForkedStatesReuseTheCode`).
* Nonce keys join client id and nonce with a colon. They are injective for client ids without one; the exact
  collisions are `NonceStore.KeysCollideExactly`.
* "Any body the handler accepts is one the gate can read" holds exactly for bodies that are not positional arrays of
  three elements. The handler's body type has a third, optional field, and derived readers also take arrays by
  position, each of its own length. `ReplayProtection.AskedBeforeServed` states the condition both ways.
* A 409 can answer a request whose nonce was set by itself, in an attempt whose reply was lost
  (`ReplayProtection.MeetsItself`). For a request alone on its key, which is free at the start, with its last attempt
  answered and all attempts within one time to live, that happens exactly when an earlier attempt of it ran
  (`NonceStore.AloneConflictExactly`); among others, exactly when such an attempt set the key and still holds it
  (`NonceStore.SelfConflictExactly`). What never happens is that one pair is forwarded twice in a window.
* The window is one per client id. The gate takes the client id from the body, so one token under two client ids is two
  pairs, and both are forwarded (`ReplayProtection.OneWindowPerClient`, `ReplayProtection.SameTokenSameNonce`).

## Model

| member | source | states |
|---|---|---|
| `Sessions.TransitionLowersRank` | hsm-worker/src/infrastructure/adapters/outgoing/session_state_memory_cache.rs:71-124 | every accepted transition of a live session strictly lowers a rank in 4, 3, 2, 1 (pending, active, HSM operation done, changing PIN), leaves from the ranks it is allowed at, keeps the purpose, sets the key to the one authenticated with, and keeps it from then on |
| `Sessions.RemainingTtl` | hsm-worker/src/infrastructure/adapters/outgoing/session_state_memory_cache.rs:156-162 | the remaining time is at most 600 s, present exactly when the session is readable, and says exactly how much longer it will be |
| `Sessions.SessionStateMemoryCache.Get` | hsm-worker/src/infrastructure/adapters/outgoing/session_state_memory_cache.rs:128-132 | a read returns the unexpired state of the id or nothing |
| `Sessions.SessionStateMemoryCache.Insert` | hsm-worker/src/infrastructure/adapters/outgoing/session_state_memory_cache.rs:41-49 | every write restarts the time to live of its id |
| `Sessions.SessionStateMemoryCache.ApplyTransition` | hsm-worker/src/infrastructure/adapters/outgoing/session_state_memory_cache.rs:134-154 | the transition is checked against the state now in the cache: exactly the allowed ones are accepted, each leaves the state named field by field under its own id, a refused one changes nothing |
| `Sessions.SessionStateMemoryCache.GetRemainingTtl` | hsm-worker/src/infrastructure/adapters/outgoing/session_state_memory_cache.rs:156-162 | the method computes the remaining time specified by the function of that name |
| `Sessions.TransitionedExactly` | hsm-worker/src/infrastructure/adapters/outgoing/session_state_memory_cache.rs:71-154 | exactly the allowed transitions are accepted; what is read afterwards, until the time to live is over, is the state the transition leaves field by field, an authenticated session under the key it was given; no other id is touched |
| `SessionTheorems.EachKindOnce` | hsm-worker/src/infrastructure/adapters/outgoing/session_state_memory_cache.rs:71-124 | no session id ever sees two committed transitions of one kind, in any run |
| `SessionTheorems.AtMostOneHsmAnswer` | hsm-worker/src/application/service/operations/hsm.rs:28-148 | in every run, with any number of workers, redelivery, expiry, eviction and restarts, an id gets at most one successful sign, generate or delete answer |
| `SessionTheorems.OneHome` | hsm-worker/src/infrastructure/adapters/outgoing/session_state_memory_cache.rs:134-154 | an id is readable on one worker only |
| `SessionTheorems.WritesAreFew` | hsm-worker/src/infrastructure/adapters/outgoing/session_state_memory_cache.rs:41-49 | a session is written at most four times, the k-th time within (k - 1) times 600 s of its creation |
| `SessionTheorems.LifetimeBound` | hsm-worker/src/infrastructure/adapters/outgoing/session_state_memory_cache.rs:14-49 | no id is readable 2400 s after its creation, on any worker of any run |
| `SessionTheorems.LifetimeIsTight` | hsm-worker/src/infrastructure/adapters/outgoing/session_state_memory_cache.rs:71-124 | the bound is nearly met: four transitions keep an id readable for 2 399 996 ms |
| `SessionTheorems.EndedStaysEnded` | hsm-worker/src/infrastructure/adapters/outgoing/session_state_memory_cache.rs:115-120 | an ended id never comes back and never answers again |
| `SessionTheorems.SessionConstant` | hsm-worker/src/infrastructure/adapters/outgoing/session_state_memory_cache.rs:88-120 | while a session lives its purpose, and once active its key, stay what they were |
| `SessionTheorems.PinChangeTraceInRuns` | hsm-worker/src/application/service/operations/authentication.rs:287-367 | the same for every run of the fleet |
| `SessionTheorems.Ledger` | hsm-worker/src/infrastructure/adapters/outgoing/session_state_memory_cache.rs:75-117 | successful HSM answers are at most the marks, these at most the authentications, these at most the logins started |
| `SessionTheorems.LedgerInRuns` | hsm-worker/src/application/service/operations/hsm.rs:83-148 | the same for every run of the fleet |
| `Fleet.RunKeepsInvariant` | hsm-worker/src/application/service/worker_service/mod.rs:114-198 | every step of every run, with any number of workers, keeps the caches in agreement with a legal history |
| `Worker.WorkerService.ProcessRequest` | hsm-worker/src/application/service/worker_service/mod.rs:114-198 | the phases in order compute the specified result and leave the specified cache |
| `Worker.WorkerService.Execute` | hsm-worker/src/application/service/worker_service/mod.rs:67-110 | at most one response goes out, to the request's topic, success or built from the error; a response that cannot be built or sent is reported |
| `Worker.CommitThenSuccessOrEncodeFailure` | hsm-worker/src/application/service/worker_service/mod.rs:114-198 | the cache changes by committed transitions only, and after a commit the request succeeds or fails to encode |
| `Worker.FailureAtomicity` | hsm-worker/src/application/service/worker_service/mod.rs:70-198 | whenever a handling answers with an outer or inner error, that handling changed neither the cache nor the device state |
| `Worker.DispatchedUnderItsKey` | hsm-worker/src/application/protocol.rs:44-88 | a session-class operation is dispatched only on an active snapshot and an inner request sealed under that session's key, a device-class one only from a request sealed for the server |
| `Worker.ReplyUnderItsKey` | hsm-worker/src/application/service/worker_service/response.rs:111-168 | any inner reply, even to end-session, is sealed under the key its request used or for the device that signed it |
| `Worker.UnreachableErrors` | hsm-worker/src/application/service/worker_service/response.rs:111-168 | the missing-session-key encode failure and an inner error without context never happen; a reply is missing only when a library call failed |
| `Worker.ReportedTtl` | hsm-worker/src/application/service/worker_service/mod.rs:160-198 | the time to live in a success is at most 600 s, present exactly when the session is still readable, and exact |
| `Worker.CommitWithoutAnswer` | hsm-worker/src/application/service/worker_service/mod.rs:70-198 | a committed request's success goes out exactly when its answer is serialised, encrypted and signed, with its state if there is one, and the send succeeds; otherwise an upstream error goes out, or nothing when the send fails |
| `Worker.CommitChangesCache` | hsm-worker/src/infrastructure/adapters/outgoing/session_state_memory_cache.rs:134-154 | handling a request changes the session cache exactly when it commits a transition |
| `Worker.SecondHandlingRefused` | hsm-worker/src/application/service/operations/hsm.rs:28-148 | a successful HSM request handled again while its session lives commits nothing and is answered with an inner error, every library call working |
| `Wire.EncryptionClass` | hsm-common/src/protocol.rs:185-205 | exactly the four operations before a session are of the device class |
| `Wire.OuterExactly` | hsm-worker/src/application/service/worker_service/decode.rs:42-97 | decoding the outer part, by the first check that fails: a request must name the worker's own key id, or none in legacy mode; what is handed on |
| `Wire.InnerExactly` | hsm-worker/src/application/protocol.rs:44-88 | opening the inner part: which key, when it opens, and which error otherwise |
| `Wire.SuccessOnTheWire` | hsm-worker/src/application/service/worker_service/response.rs:38-94 | every field of a successful answer: data and remaining time sealed under the right key, session id, new state, both signed under the server's key id |
| `Wire.ErrorOnTheWire` | hsm-worker/src/application/service/worker_service/response.rs:96-186 | every field of an error answer, by who may see it; it names its own error and request |
| `Wire.ErrorExactly` | hsm-worker/src/application/service/worker_service/mod.rs:114-198 | which error a handling ends with: decoding, the operation, a refused transition, or the first encoding step that fails |
| `Wire.EnrolmentCodeRegisters` | hsm-worker/src/application/service/state_init_service.rs:78-131 | the code the client is handed registers it on its first state, and no other code does |
| `Operations.RegisterFinish` | hsm-worker/src/application/service/operations/authentication.rs:214-270 | updating the working copy in place gives the specified result |
| `Operations.PinChangeFinish` | hsm-worker/src/application/service/operations/authentication.rs:327-367 | updating the working copy in place gives the specified result |
| `Operations.GenerateKey` | hsm-worker/src/application/service/operations/hsm.rs:83-115 | updating the working copy in place gives the specified result |
| `Operations.DeleteKey` | hsm-worker/src/application/service/operations/hsm.rs:120-147 | updating the working copy in place gives the specified result |
| `Operations.TransitionOf` | hsm-worker/src/application/service/operations/mod.rs:126-163 | each operation asks for one fixed transition; only authenticate-start names a new session |
| `Operations.SnapshotGuards` | hsm-worker/src/application/service/operations/hsm.rs:28-148 | a success saw a snapshot without a used HSM operation, changing its PIN, or pending, as its kind demands |
| `Operations.SucceedsExactly` | hsm-worker/src/application/service/operations/mod.rs:126-163 | every operation succeeds exactly under its stated condition on request, state, snapshot and ports |
| `Operations.ResultsExactly` | hsm-worker/src/application/service/operations/authentication.rs:64-367 | what each successful operation answers, hands on and keeps: the PAKE response goes to the client, the pending state to the cache, the derived key to the session, and a listing has each key's own public key and creation time in order |
| `Operations.HsmResultsExactly` | hsm-worker/src/application/service/operations/hsm.rs:28-148 | a signature is the HSM's by the named key over the message, a created key the HSM's for the named curve, a deletion names its kid |
| `Operations.NewPasswordFile` | hsm-worker/src/application/service/operations/authentication.rs:214-367 | the password file a registration or PIN change leaves is the PAKE library's, with its domain separator, stamped now |
| `Operations.PakeErrorsExactly` | hsm-worker/src/application/service/operations/authentication.rs:16-367 | the error of every refused PAKE operation, by the first check that fails |
| `Operations.HsmErrorsExactly` | hsm-worker/src/application/service/operations/hsm.rs:28-173 | the error of every other refused operation |
| `Operations.GuardsExactly` | hsm-worker/src/application/service/operations/hsm.rs:28-36 | an active session has used its operation, or is changing its PIN, exactly as its fields say; a pending or missing one has done neither |
| `DeviceState.Position` | hsm-worker/src/domain/value_objects/client_metadata.rs:98-106 | a search returns the first entry of the kid, and fails only if there is none |
| `DeviceState.DeviceHsmState.AddHsmKey` | hsm-worker/src/domain/value_objects/client_metadata.rs:142-156 | appends, unless the kid is empty or taken; a refusal changes nothing |
| `DeviceState.DeviceHsmState.RemoveHsmKey` | hsm-worker/src/domain/value_objects/client_metadata.rs:158-166 | takes out the first key of the kid, nothing else; fails exactly when there is none |
| `DeviceState.DeviceHsmState.AddDeviceKey` | hsm-worker/src/domain/value_objects/client_metadata.rs:108-122 | appends, unless the kid is empty or taken; a refusal changes nothing |
| `DeviceState.DeviceHsmState.RemoveDeviceKey` | hsm-worker/src/domain/value_objects/client_metadata.rs:124-134 | takes out the first entry of the kid, nothing else; fails exactly when there is none |
| `DeviceState.DeviceHsmState.SetPasswordFile` | hsm-worker/src/domain/value_objects/client_metadata.rs:186-205 | replaces one entry's password files; a given code must match and is consumed |
| `DeviceState.RemoveRefinesExcept` | hsm-worker/src/domain/value_objects/client_metadata.rs:158-166 | removing drops exactly the kid's entry, keeps the order of the rest, makes find fail and keeps kids unique |
| `DeviceState.AddKeepsWellformed` | hsm-worker/src/domain/value_objects/client_metadata.rs:142-156 | adding succeeds exactly for a new non-empty kid, makes find succeed and keeps kids unique |
| `DeviceState.AddThenRemove` | hsm-worker/src/domain/value_objects/client_metadata.rs:142-166 | adding a key and removing it again is the identity |
| `DeviceState.RemoveKeepsOthers` | hsm-worker/src/domain/value_objects/client_metadata.rs:137-166 | removing one kid does not change what find answers for any other |
| `DeviceState.SetPasswordFileEvolves` | hsm-worker/src/domain/value_objects/client_metadata.rs:186-205 | one entry changes, its code at most disappears, the new file is the latest, HSM keys and other entries stay |
| `DeviceState.LookupsExactly` | hsm-worker/src/domain/value_objects/client_metadata.rs:98-182 | lookups return the first entry of the kid and the last of its password files |
| `DeviceState.PasswordFileRefused` | hsm-worker/src/domain/value_objects/client_metadata.rs:186-205 | a password file is refused for an unknown device, or for another code |
| `StateChains.EffectOf` | hsm-worker/src/application/service/operations/mod.rs:126-163 | exactly four operations issue a new state, each by its own update |
| `StateChains.OperationRefines` | hsm-worker/src/application/service/operations/hsm.rs:83-148 | every success refines its abstract command, keeps kids unique, and touches either the keys or the credentials |
| `StateChains.AnswersTellTheEffect` | hsm-worker/src/application/service/operations/hsm.rs:28-173 | what a success reports is what happened to the device: a created key is there, a deleted one is gone, a signature is by the named key, a listing pairs each key with its own creation time |
| `StateChains.ChainRefinesFold` | hsm-worker/src/application/service/operations/hsm.rs:83-173 | at every point of a chain of issued states the state is the fold of the commands so far |
| `StateChains.ListReplaysHistory` | hsm-worker/src/application/service/operations/hsm.rs:152-173 | list-keys answers with the keys the whole history left, in insertion order, each with its own public key and creation time |
| `StateChains.ChainEvolves` | hsm-worker/src/domain/value_objects/client_metadata.rs:186-205 | along a chain codes only disappear and password lists only become one entry long |
| `StateChains.CodeOnlyDisappears` | hsm-worker/src/domain/value_objects/client_metadata.rs:186-205 | an authorization code once gone never returns and never changes into another |
| `StateChains.RegisteringSpendsTheCode` | hsm-worker/src/application/service/operations/authentication.rs:214-270 | a successful register-finish had a code and leaves none |
| `StateChains.RegistersOnce` | hsm-worker/src/application/service/operations/authentication.rs:164-265 | after a register-finish no later registration step on that device key succeeds |
| `StateChains.AtMostOneRegistration` | hsm-worker/src/application/service/operations/authentication.rs:214-270 | register-finish succeeds at most once per device key along any chain |
| `StateChains.PasswordListStaysSingle` | hsm-worker/src/domain/value_objects/client_metadata.rs:186-205 | a password list stays at most one long and never empties again |
| `StateChains.ForkedStatesReuseTheCode` | wallet-bff/src/domain/mod.rs:47-48 | off a chain the code is not one-shot: a request with the same state can register again |
| `StateInitService.StateInitService.Initialize` | hsm-worker/src/application/service/state_init_service.rs:48-150 | validates, generates, signs and sends in that order; any failure sends nothing; what is sent is described by `ResponseMatchesItsToken` |
| `StateInitService.InitialStateShape` | hsm-worker/src/application/service/state_init_service.rs:94-114 | the first state has one device key with its code and no password, and one HSM key |
| `StateInitService.InitializedExactly` | hsm-worker/src/application/service/state_init_service.rs:48-174 | when an initial state is made, and which error comes instead |
| `StateInitService.ResponseMatchesItsToken` | hsm-worker/src/application/service/state_init_service.rs:78-131 | the response's code, HSM key and server keys are those of its own token and of the server; the device entry holds the client's keys |
| `TokenTheorems.IssuedStatesAreGood` | hsm-worker/src/application/service/state_init_service.rs:94-114 | every token of every run lists unique non-empty kids, one device key, at most one password file, and at most one HSM key more than sessions used on its device |
| `TokenTheorems.KeysBoundedBySessions` | hsm-worker/src/application/service/operations/hsm.rs:83-148 | the HSM keys in any issued token number at most one plus the distinct sessions with a successful HSM answer on its device, each of which was authenticated |
| `TokenTheorems.KeysBoundedByAuthentications` | hsm-worker/src/infrastructure/adapters/outgoing/session_state_memory_cache.rs:75-117 | and at most one plus the authentications of the whole fleet |
| `Responses.ResponseService.StoreInCache` | wallet-bff/src/application/service/mod.rs:44-53 | parking overwrites the id's entry and restarts its time to live |
| `Responses.ResponseService.RegisterPending` | wallet-bff/src/application/service/mod.rs:58-74 | the entry holds the caller's key and time to live and a fresh channel; an entry it replaces loses its waiter; nothing else changes |
| `Responses.ResponseService.ResponseReady` | wallet-bff/src/application/service/mod.rs:76-113 | the waiter's channel is filled or the response is parked, never both; the state is saved only if the request was pending |
| `Responses.ResponseService.WaitForResponse` | wallet-bff/src/application/service/mod.rs:115-135 | answers with the last response parked for the id and still fresh, at the first round that sees one, within ceil(timeout/50) + 1 rounds for any monotone clock |
| `Responses.ParkingRefines` | wallet-bff/src/application/service/mod.rs:44-53 | the cache refines a map with a time to live and lazy removal |
| `Responses.LookingRefines` | wallet-bff/src/application/service/mod.rs:121-129 | a look answers as a map with a time to live would, and removing what it finds expired keeps the refinement |
| `Responses.ResponseService.Look` | wallet-bff/src/application/service/mod.rs:121-129 | one round of polling: the last parked response while fresh; an expired entry is removed |
| `Delivery.FinishSettles` | wallet-bff/src/application/service/mod.rs:94-113 | the second half of a call settles it for good, by whether the waiter is still there |
| `Delivery.PendingIsUnanswered` | wallet-bff/src/application/service/mod.rs:58-88 | the pending ids of any run are exactly those registered and not yet answered |
| `Delivery.OneSavePerRegistration` | wallet-bff/src/application/service/mod.rs:84-92 | each registration causes at most one save, under its own state key and time to live |
| `Delivery.RunsAreConsistent` | wallet-bff/src/application/service/mod.rs:58-113 | every step of every interleaving keeps pending map, channels, calls and saves consistent |
| `Delivery.Conservation` | wallet-bff/src/application/service/mod.rs:76-113 | every finished call, whether it found its request pending or not, filled its own waiter's channel or parked its response exactly once, never both; what a waiter holds was sent by a call |
| `Delivery.CacheIsSound` | wallet-bff/src/application/service/mod.rs:44-53 | in every run the response cache refines a map with a time to live of exactly what the calls parked |
| `Delivery.LooksFindTheLastParked` | wallet-bff/src/application/service/mod.rs:115-135 | in every run a look finds the last response that a call parked for the id while it is fresh, and no other |
| `EndToEnd.OneHsmAnswerPerSession` | hsm-worker/src/application/service/operations/hsm.rs:28-148 | the session guarantees hold of the workers inside such a world |
| `EndToEnd.RunsAreSound` | wallet-bff/src/infrastructure/adapters/incoming/web/handlers.rs:139-196 | every step of client, BFF, message bag, workers and store keeps the stored token in step with the answers taken up |
| `EndToEnd.StoredStateIsTheFold` | wallet-bff/src/application/service/mod.rs:58-113 | the stored token decodes to the fold of the client's log of answers taken up; while a save is under way it lags by the last one |
| `Provenance.CreditsAreSuccesses` | wallet-bff/src/application/service/mod.rs:76-92 | every command in a client's log is that of a distinct successful event of the workers' history, in their order, one per request |
| `Provenance.StoredStateIsTheHistory` | wallet-bff/src/application/service/mod.rs:58-113 | the stored token decodes to the fold, in the workers' order, of the client's successful operations whose answer was the first to arrive for its request, whatever is redelivered |
| `Provenance.MissingExactly` | wallet-bff/src/application/service/mod.rs:76-113 | what a worker made of an answered request is missing from the log exactly when the answer to another handling of it arrived first |
| `Provenance.StoredStateIsAllAnswered` | wallet-bff/src/infrastructure/adapters/incoming/web/handlers.rs:139-196 | where no request is handled twice and no save of the client is under way, the stored token is the fold of all the client's successful and answered operations |
| `Provenance.SecondAnswerIsParked` | wallet-bff/src/application/service/mod.rs:97-112 | a later answer to an answered request saves nothing and credits nothing; it is parked and can be polled |
| `Provenance.ErrorAnsweredRequest` | hsm-worker/src/application/service/worker_service/mod.rs:70-198 | a request whose first answer is an outer or inner error left no trace exactly when no other handling of it committed or issued a state; handled once, it left none |
| `StateInitCorrelation.StateInitCorrelationService.RegisterPending` | wallet-bff/src/infrastructure/adapters/incoming/kafka/state_init_cache.rs:44-62 | the entry holds the caller's key and time to live and a fresh channel; an entry it replaces loses its waiter; nothing else changes |
| `StateInitCorrelation.StateInitCorrelationService.ResponseReceived` | wallet-bff/src/infrastructure/adapters/incoming/kafka/state_init_cache.rs:64-85 | offers the key, then saves under the entry's key, then notifies; an unmatched response does the first only |
| `StateInitCorrelation.UndisturbedCall` | wallet-bff/src/infrastructure/adapters/incoming/kafka/state_init_cache.rs:64-85 | the four interleavable steps, run without interruption, are the method |
| `StateInitCorrelation.SavedBeforeAnswered` | wallet-bff/src/infrastructure/adapters/incoming/web/handlers.rs:291-355 | when a create-state waiter has its response, the save under the client id it will return has completed |
| `StateInitCorrelation.OneSavePerRegistration` | wallet-bff/src/infrastructure/adapters/incoming/kafka/state_init_cache.rs:69-82 | saves come from registrations only, at most one each |
| `StateInitCorrelation.ServerKeyIsTheFirst` | wallet-bff/src/infrastructure/adapters/incoming/kafka/state_init_cache.rs:65-67 | the shared server key is that of the first response that brought one |
| `StateInitCorrelation.ServerKeyNeverChanges` | wallet-bff/src/infrastructure/adapters/incoming/kafka/state_init_cache.rs:65-67 | once set it never changes, in any continuation of any run |
| `StateInitCorrelation.RunsAreConsistent` | wallet-bff/src/infrastructure/adapters/incoming/kafka/state_init_cache.rs:44-85 | every step of every interleaving keeps entries, calls, saves and channels consistent |
| `StateInitCorrelation.UnmatchedWritesNothing` | wallet-bff/src/infrastructure/adapters/incoming/kafka/state_init_cache.rs:69-77 | in every continuation of every run an unmatched response stays ignored: every save and every waiter's response comes from another call |
| `RedisRetry.CompleteExactly` | wallet-bff/src/infrastructure/adapters/outgoing/redis/mod.rs:98-166 | a complete call is one to three attempts, all but the last worth retrying, the last not or the third |
| `RedisRetry.SharedConnection.Reresolve` | wallet-bff/src/infrastructure/adapters/outgoing/redis/mod.rs:68-84 | a failed or impossible lookup keeps the previous connection |
| `RedisRetry.WithRedisRetry` | wallet-bff/src/infrastructure/adapters/outgoing/redis/mod.rs:98-166 | one to three calls, the last call's result, at once on a non-retryable error; a third call is preceded by exactly one re-resolve and 150 ms of pauses, whatever the errors |
| `RedisRetry.WorthRetryingExactly` | wallet-bff/src/infrastructure/adapters/outgoing/redis/mod.rs:168-178 | a demoted replica and a master that is down mean failover; besides them exactly the connection-class errors are retried |
| `NonceStore.WinsAreApart` | wallet-bff/src/infrastructure/adapters/outgoing/redis/nonce.rs:36-47 | two operations that both set one key are a full time to live apart |
| `NonceStore.KeysCollideExactly` | wallet-bff/src/infrastructure/adapters/outgoing/redis/nonce.rs:33-33 | two pairs share a key exactly when equal or when one client id continues the other with a colon taken from the nonce |
| `NonceStore.KeysInjective` | wallet-bff/src/infrastructure/adapters/outgoing/redis/nonce.rs:33-33 | keys are injective on client ids without a colon |
| `NonceStore.KeysCollide` | wallet-bff/src/infrastructure/adapters/outgoing/redis/nonce.rs:33-33 | with a colon they are not: a concrete pair of pairs |
| `NonceStore.NonceRedisAdapter.TryStore` | wallet-bff/src/infrastructure/adapters/outgoing/redis/nonce.rs:25-56 | true exactly when the last attempt was answered and its own operation set the key; earlier attempts whose answer was lost stay in the store |
| `NonceStore.NotAStateKey` | wallet-bff/src/infrastructure/adapters/outgoing/redis/nonce.rs:33-33 | a nonce key starts with its prefix, so it is the key of a stored state only if the client id starts like one |
| `NonceStore.HeldExactly` | wallet-bff/src/infrastructure/adapters/outgoing/redis/nonce.rs:36-55 | a key exists exactly because some operation set it and has not expired |
| `NonceStore.OneHolder` | wallet-bff/src/infrastructure/adapters/outgoing/redis/nonce.rs:36-47 | at most one operation holds a key at a time |
| `NonceStore.ConflictExactly` | wallet-bff/src/infrastructure/adapters/outgoing/redis/nonce.rs:36-55 | an answered attempt is told the key exists exactly when some operation holds it, whatever other callers do |
| `NonceStore.SelfConflictExactly` | wallet-bff/src/infrastructure/adapters/outgoing/redis/mod.rs:123-163 | that operation is the caller's own exactly when an earlier attempt of it ran, set the key and has not expired, whatever other callers do |
| `NonceStore.AloneConflictExactly` | wallet-bff/src/infrastructure/adapters/outgoing/redis/mod.rs:123-163 | a request alone on its key, free at the start, with its last attempt answered and all attempts within one time to live, is told its nonce was used exactly when an earlier attempt of its own ran |
| `ReplayProtection.PositionalTripleIsAccepted` | wallet-bff/src/domain/mod.rs:37-49 | such a body exists |
| `ReplayProtection.AskedBeforeServed` | wallet-bff/src/infrastructure/adapters/incoming/web/replay_protection.rs:38-112 | a request that may be sent on passes unasked exactly when its body is positional with three elements; otherwise it is refused or asked about under the handler's client id and the forwarded token's nonce |
| `ReplayProtection.NonceIsTheVerifiedOne` | wallet-bff/src/infrastructure/adapters/incoming/web/replay_protection.rs:84-113 | the nonce the gate reads without verifying is the nonce of the request the worker verifies |
| `ReplayProtection.Gate.Check` | wallet-bff/src/infrastructure/adapters/incoming/web/replay_protection.rs:33-142 | GET and the state-init path pass untouched; an unreadable body is 400; a body without both fields passes; a token without a nonce is 400; any other is asked about and forwarded only when its own last operation set its nonce, 409 for a used nonce, 503 for a failing store |
| `ReplayProtection.OncePerWindow` | wallet-bff/src/infrastructure/adapters/incoming/web/replay_protection.rs:115-137 | one client id and nonce are forwarded at most once per window, even when lost answers repeat the operation |
| `ReplayProtection.ServedExactly` | wallet-bff/src/infrastructure/adapters/incoming/web/mod.rs:117-124 | the handler is reached by POST on its own path with a body its reader accepts, and by nothing else |
| `ReplayProtection.BodiesExactly` | wallet-bff/src/infrastructure/adapters/incoming/web/replay_protection.rs:22-26 | what the gate and the handler accept of a request body, field by field under its wire name; a field given twice is refused |
| `ReplayProtection.PayloadsExactly` | wallet-bff/src/infrastructure/adapters/incoming/web/replay_protection.rs:28-31 | what the gate and the worker accept of a token's payload, field by field under its wire name |
| `ReplayProtection.MemberSingle` | wallet-bff/src/infrastructure/adapters/incoming/web/replay_protection.rs:22-31 | a field is read by its name, whatever its place |
| `ReplayProtection.NonceOfToken` | wallet-bff/src/infrastructure/adapters/incoming/web/replay_protection.rs:84-113 | the gate finds the nonce of any token whose payload has one, and of no other |
| `ReplayProtection.OneWindowPerClient` | wallet-bff/src/infrastructure/adapters/outgoing/redis/nonce.rs:33-47 | one nonce under two client ids without a colon is forwarded for both in one window |
| `ReplayProtection.SameTokenSameNonce` | wallet-bff/src/infrastructure/adapters/incoming/web/replay_protection.rs:67-121 | two requests that forward one token ask about one nonce, each under its own client id |
| `ReplayProtection.MeetsItself` | wallet-bff/src/infrastructure/adapters/incoming/web/replay_protection.rs:121-130 | a run whose only request is answered 409 because the reply to its own first attempt was lost |
| `ReplayProtection.RunsAreConsistent` | wallet-bff/src/infrastructure/adapters/incoming/web/replay_protection.rs:115-137 | in any interleaving of requests and attempts every answer is backed by the operation it is about |
| `ReplayProtection.ConflictMeansUsed` | wallet-bff/src/infrastructure/adapters/incoming/web/replay_protection.rs:121-130 | a 409 means that some request, possibly itself in a lost attempt, set the same key within the window; its client id and nonce are the same, or one client id continues the other with a colon |
| `CompactJws.DecodeEncode` | hsm-common/src/jose.rs:161-169 | base64url decoding inverts encoding for every byte string, and encodings contain no dot |
| `CompactJws.EncodeDecode` | hsm-common/src/jose.rs:161-169 | every text that decodes is the one encoding of its bytes |
| `CompactJws.SplitJoins` | hsm-common/src/jose.rs:161-165 | splitting at dots loses nothing |
| `CompactJws.CompactRoundTrip` | hsm-common/src/jose.rs:60-169 | unverified decoding, peeking and verifying undo the construction of a token, for all byte strings |
| `CompactJws.UnverifiedAgrees` | hsm-common/src/jose.rs:150-169 | whatever verifies, the unverified reader has read the same payload |
| `CompactJws.VerifiedIsCompact` | hsm-common/src/jose.rs:150-156 | every string that verifies is the compact form of its own header, payload and signature |
| `CompactJws.KnownTexts` | hsm-common/src/jose.rs:19-20 | the RFC 4648 test vectors, and the letters of the URL-safe alphabet |
| `CompactJws.UnverifiedReads` | hsm-common/src/jose.rs:161-169 | the unverified reader reads every text of three segments whose middle one encodes the payload |
| `CompactJws.UnverifiedReadsOnly` | hsm-common/src/jose.rs:161-169 | and nothing else |
| `Envelope.PakeRequestDecodes` | integration-load-tests/src/protocol/message_builder.rs:19-48 | a PAKE request reaches its operation unchanged exactly in legacy key mode, for a known signer and a device-class operation; otherwise which error |
| `Envelope.SessionRequestDecodes` | integration-load-tests/src/protocol/message_builder.rs:53-82 | a session request reaches its operation unchanged exactly in legacy key mode, for a known signer, an active session with that key and a session-class operation; otherwise which error |
| `Envelope.SessionRoundTrip` | integration-load-tests/src/protocol/response_parser.rs:81-108 | the client parses the worker's answer, with its own session key, to the operation's session id, status and data |
| `Envelope.PakeRoundTrip` | integration-load-tests/src/protocol/response_parser.rs:32-78 | the same for PAKE requests, with the device's key pair |
| `Envelope.BuiltOnTheWire` | integration-load-tests/src/protocol/message_builder.rs:19-82 | every field of the client's requests |
| `Envelope.ParsedExactly` | integration-load-tests/src/protocol/response_parser.rs:32-108 | what the client's parsers make of any response, and their errors |
| `Envelope.LoginStarts` | hsm-worker/src/application/service/operations/authentication.rs:64-98 | after a login starts the client has the PAKE response and the session id, the worker the pending state and purpose under that id |
| `Envelope.LoginFinishes` | hsm-worker/src/application/service/operations/authentication.rs:114-151 | after a login finishes the session is active under the key derived from the request and the pending login |
| `Envelope.LoginKeyOpens` | hsm-worker/src/application/protocol.rs:44-88 | the client's session requests are admitted under exactly that key |
| `Witnesses.UnsentCommit` | hsm-worker/src/application/service/worker_service/mod.rs:92-106 | a login that is committed and encoded but never sent |
| `Witnesses.LostSuccess` | wallet-bff/src/application/service/mod.rs:76-113 | a run in which the error of a second handling arrives first: the success is parked and its state never saved |
| `Redelivery.RedeliveryLosesTheSuccess` | wallet-bff/src/application/service/mod.rs:76-113 | in any run a pending HSM operation about to succeed can be lost to redelivery alone: the refusal of a second handling is taken up, the success parked, store and saves unchanged |
| `FullSession.KeyLostToRedelivery` | hsm-worker/src/application/service/operations/hsm.rs:83-115 | a whole run from enrolment through registration and login to a generated key that redelivery loses, every library call working |

## Left out

- Cryptography: PAKE, ECDSA, ECDH, AES-GCM, HKDF and PKCS#11 are arbitrary functions that may fail; no property of theirs is assumed or stated. The HSM's key label is not modelled.
- RFC 7797 unencoded payloads and the JOSE library's header checks: `CompactJws.JwsVerify` covers the three-part form with all parts base64url-encoded.
- JSON text: an invertible codec, except for the field readers of the nonce gate.
- Durations: milliseconds and seconds are natural numbers; the ISO 8601 text of the remaining time and of a requested time to live is not modelled.
- Moka's own clock: a cache operation happens at one instant, and eviction before expiry is a step of its own.
- Asynchronous mode: the handler keeps its receiver until it returns, so a response may go to a channel nobody reads; the delivery theorems are about the synchronous mode, where the timeout and the drop of the receiver are one step.
- Saves: a save that fails in the store without saying so is not distinguished from one not yet run; the client waits for its save in `EndToEnd`.
- Overlapping requests of one client, and requests that bring their state token inline: `EndToEnd` is about a client that sends its next request after the previous one was saved.
- Enrolment in `EndToEnd` is one step and happens once per client id; its interleavings are in `StateInitCorrelation`, and re-enrolment that overwrites a client's state is not modelled.
- The choice of the client id in `create_state` and the lookup of an existing state before it: one branch each.
- Concurrent swaps of the shared store connection by other requests during one retried call.
- Loss of acknowledged writes when the store fails over: the log of executed operations never shrinks.
- Problem-detail bodies, HTTP status texts and headers, telemetry, configuration and start-up.
- Kafka clients and HTTP routing, other than the one route and the one path the nonce gate distinguishes.
- JWK parsing: a key is its fields; only the checks of state initialisation are modelled.
- The load-test client's loops and statistics.
