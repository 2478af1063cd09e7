# tg2sip, modelled and proved in Dafny

tg2sip connects telephone calls: a call that comes in on Telegram is dialled out over SIP, a call that comes in over SIP
is dialled on Telegram, and the audio of the two legs is bridged. This project models the parts of it that are hard to
get right and proves what they promise.

**The gateway.** One thread takes events from three queues (its own, Telegram's, SIP's), finds or creates the call an
event belongs to, and runs that call's hierarchical state machine. An action that fails does not change the state: it
queues an internal error that must later remove the right call.

- `Options`, `Telephony`, `CallMachine`, `Dialing`, `CallActions`: the vocabulary, the transition tables and their dispatch, whom an
  extension denotes, and the actions. What Telegram, SIP and the calling backend answer is drawn from an `Oracle`.
- `CallHistory`: a reference monitor. It reads the log of what one call did and learned and says whether that story is
  lawful: legs, order, time, dialled user. It knows nothing of the state machine.
- `CallInvariant`, `CallProgress`: each transition, whatever the libraries answer, keeps the story lawful and the
  context's fields in step with the state. `CallOutcomes`: what each transition leaves in the log and changes, for every
  answer.
- `GatewayModel`, `GatewayInvariant`, `GatewayRuns`, `GatewayGuarantees`: the loop and its environment as a step
  relation, an invariant over calls, queues and log, and what follows in every reachable state.
- `GatewaySteps`: which call each event reaches, and that nothing else changes. `FloodControl`: how long a refusal by
  Telegram is honoured, over every run.
- `CallObject`, `GatewayLoop`: the call and the gateway as objects changed in place, proved to do what the model does and
  to stay in reachable states.

**The audio ring buffer.** `Slots` treats the unsigned index arithmetic, `RingBuffer` the class with its array and loops,
`SpscRing` the producer and consumer as a step system, one step per atomic access and per sample copied.

**The calling backend.** `RuntimeProtocol` is the protocol between library worker threads and the gateway thread,
`VoiceController` the acquisition and release of a controller's resources, `ControllerLife` the two together.

**Configuration.** `IniText`, `IniScan`, `IniParser`, `IniReader` model the INI parser, from the loops over a
200-byte line buffer to the map of values. `IniDocument`, `IniRoundTrip`, `IniNormalForm` state what it reads, and
`IniKeys` which settings it can hand out and which questions they answer.

**Clients.** `TgClient` matches TDLib responses to queries; `SipCalls` is the SIP client's table of call objects, and
`GatewaySipTable` ties it to the gateway: the ids the gateway counts on are its keys in every run.

`dafny verify dfyconfig.toml` checks everything.

## What is trusted

- Telegram call ids are not 0 and SIP call ids are not -1. An id that Telegram or SIP issues is not one a resident call
  holds, nor, for SIP, one a queued event names.
- SIP reports EARLY for an incoming call only after the gateway sent 180, and announces a call before it reports on it.
- The clock does not run backwards, and the directory (who has which username or phone) does not change during a run.
- TDLib answers only queries it was sent; it may answer twice.
- Atomic loads, stores and map operations are single steps.

An exception that no handler catches ends the process; the model ends the run there and records why. What the log must
satisfy, it satisfies to the last entry of such a run.

## What turned out to hold only in part

- The occupancy formula of the ring buffer is exact for every capacity up to 2^63 and for no larger one
  (`Slots.OccupancyExactIff`).
- No callback ever reaches an unregistered controller, but of two registered controllers with one user id the first to
  unregister silences the other (`RuntimeProtocol.SharedUserSilenced`); `RuntimeProtocol.ServedIff` says exactly who is served.
- The first Stop throws with nothing given back exactly when the microphone thread could not be started, or when the
  backend call is all there is and the backend refuses to stop (`VoiceController.FirstStopReleasesIff`). Over all failure
  points, Stops and answers, everything is released exactly when some Stop that reaches the backend is answered, the
  destructor's included; otherwise the destructor, which lets no exception out, ends the process
  (`VoiceController.ReleasedIff`).
- The SIP client forgets a call only when the gateway hangs it up. If the far end did, and the library reuses the id, the
  new call's id leads to the old object (`SipCalls.StaleAfterRemoteEnd`; `GatewaySipTable.StaleInARun` is the run of the
  gateway). So of the one release that leg conservation
  grants a call, `GatewaySipTable.ReleaseReachesOwnObject` says exactly when it reaches the call's own object.
- Values of one key are joined by newlines, except after an empty first value (`IniRoundTrip.GlueWhole`).
- A query can be answered by a setting it does not name exactly when its name has an `=` and the part before the last
  one, joined to the section, and the part after it can be a section and a name of a file (`IniKeys.AnsweredByAnotherIff`).
  Which can be is exact too (`IniKeys.MadeIffMakeable`): a section under 50 bytes with no `]`; a name with no `=` or `:`
  that starts with no space, `;`, `#` or `[`, fits on a line with its separator, and ends in a space only as the first 49
  bytes of a longer one; and in neither a line break, a NUL or a `;` after white space.
  `IniRoundTrip.AnsweredByAnotherHere` is one such file and query. A name without `=` is answered exactly when the file
  sets it (`IniKeys.AnsweredIff`).

## Model

| member | source | states |
|---|---|---|
| CallMachine.TopChoice | tg2sip/gateway.cpp:703-739 | which row of the parent table wins in each state, for every event and guard valuation |
| CallMachine.TopIsFlat | include/boost/sml.hpp:776-784 | trying the parent's rows in order, restarting a composite on entry and cleaning up on entry to X is one flat step |
| CallMachine.TgChoice | tg2sip/gateway.cpp:667-682 | the from_tg table moves as the flat machine does, or leaves the event to the parent |
| CallMachine.SipChoice | tg2sip/gateway.cpp:684-701 | the same for the from_sip table |
| CallMachine.HierarchyIsFlat | include/boost/sml.hpp:817-835 | sub-machine first, then parent, first true guard wins: equal to one flat transition function in target and actions, for every state, event and guard valuation |
| CallMachine.FlatTermination | tg2sip/gateway.cpp:711-739 | clean-up is among the actions exactly when X is entered, once and last |
| CallMachine.TerminationIsFinal | include/boost/sml.hpp:2270-2301 | X absorbs every event, and entering it runs clean-up once, after everything else |
| Dialing.DenotesOne | tg2sip/gateway.cpp:252-270 | an extension denotes at most one user |
| Dialing.RefusedIffMeaningless | tg2sip/gateway.cpp:252-270 | an extension is refused exactly when no directory could give it a meaning, ids up to 2^63 - 1 included |
| Dialing.BlockAfter | tg2sip/gateway.cpp:593-609 | an error reported when no block is in force never moves the block earlier; how long it then is, `CallOutcomes.RefusalBlocks` and `FloodControl.RefusalIsHonoured` say |
| CallHistory.Written | tg2sip/gateway.cpp:206-216 | what one call does extends its own story and leaves every other call's unchanged |
| CallHistory.LawfulPrefix | tg2sip/gateway.cpp:703-739 | a lawful story was lawful at every earlier moment |
| CallHistory.AllowedAt | tg2sip/gateway.cpp:703-739 | every entry of a lawful log was allowed by what came before it |
| CallHistory.TgBalance | tg2sip/gateway.cpp:110-135 | in a lawful log the Telegram leg was acquired at most once, and the counts of acquisitions, remote endings and discards agree with whether it is held |
| CallHistory.SipBalance | tg2sip/gateway.cpp:137-147 | the same for the SIP leg and its hangups |
| CallHistory.LegIdentity | tg2sip/gateway.cpp:86-147 | a leg is ended or released under the id it was acquired under |
| CallHistory.Witness | tg2sip/gateway.cpp:667-701 | media, readiness and start are known to a call only through an entry of its own log |
| CallHistory.InOrder | tg2sip/gateway.cpp:667-701 | in a lawful log accepting follows media, answering follows readiness and start, bridging follows all three |
| CallInvariant.AcceptTelegram | tg2sip/gateway.cpp:221-246 | accepting with media ready is lawful and, granted or refused, leaves a call fit to wait for Telegram |
| CallInvariant.ConnectAudio | tg2sip/gateway.cpp:395-415 | bridging meets a controller and a known SIP id, so it never ends the process; afterwards the call is bridged or a failure is on record |
| CallInvariant.StartTelegram | tg2sip/gateway.cpp:321-393 | starting the controller of a Telegram-born call makes the next state's promises true, audio still to come |
| CallInvariant.StartForCaller | tg2sip/gateway.cpp:321-393 | starting the controller of a SIP-born call that has its Telegram leg leaves it fit to wait for media |
| CallInvariant.AnswerCaller | tg2sip/gateway.cpp:298-319 | the caller gets 200 only with Telegram ready and the controller started; afterwards it was answered or a failure is on record |
| CallInvariant.SendDtmf | tg2sip/gateway.cpp:611-622 | digits are sent only to an id the SIP client knows |
| CallInvariant.DialsUser | tg2sip/gateway.cpp:458-495 | creating the call acquires a leg or records a failure, and the user is the one denoted |
| CallInvariant.DialsByPhone | tg2sip/gateway.cpp:497-548 | cached or looked up, the phone's user is the one denoted, and the cache still agrees with the directory |
| CallInvariant.DialsByUsername | tg2sip/gateway.cpp:550-591 | the same for usernames |
| CallInvariant.DialTelegram | tg2sip/gateway.cpp:421-456 | dialling in any of its branches leaves a Telegram leg or a recorded failure, and sends nothing while blocked |
| CallInvariant.DialsSip | tg2sip/gateway.cpp:149-219 | dialling out, whatever the library answers, leaves a SIP leg or a recorded failure, and a turn that ends the process did nothing unlawful |
| CallInvariant.BornOfTelegram | tg2sip/gateway.cpp:711-713 | the first transition of a Telegram call leaves it waiting for media |
| CallInvariant.Rings | tg2sip/gateway.cpp:248-296 | an incoming SIP call is rung with its extension stored, or a failure is recorded |
| CallInvariant.BornOfSip | tg2sip/gateway.cpp:718 | the first transition of a SIP call leaves it waiting for confirmation |
| CallInvariant.CleansUp | tg2sip/gateway.cpp:110-147 | clean-up releases exactly what is held and leaves a settled story |
| CallInvariant.Declined | tg2sip/gateway.cpp:714-716 | without a callback address a Telegram call is discarded at once |
| CallInvariant.Ends | tg2sip/gateway.cpp:722-736 | each way a call ends settles its story |
| CallProgress.TurnLands | tg2sip/gateway.cpp:667-739 | in every state and for every event and every library answer the call lands where the flat machine says, its invariant kept; the story is lawful and the block and clock have not moved back even if the turn ended the process |
| CallProgress.ErrorsAreFailures | tg2sip/gateway.cpp:421-591 | every error a turn queues is a failure of that call, and every failure it adds has its error queued |
| CallProgress.CommitFrames | tg2sip/gateway.cpp:874-886 | a turn changes no other call's story, appends only errors of its own call, and a recorded failure is asked about |
| CallProgress.TurnIds | tg2sip/gateway.cpp:68-108 | a turn keeps the context id, and any new SIP or Telegram id is one the environment just issued |
| CallOutcomes.TelegramCalls | tg2sip/gateway.cpp:711-713 | an incoming Telegram call: the caller looked up, SIP dialled; every effect and field for each answer |
| CallOutcomes.TelegramDeclined | tg2sip/gateway.cpp:714-716 | without a callback address: acquired and discarded, nothing else |
| CallOutcomes.CallerCalls | tg2sip/gateway.cpp:718 | an incoming SIP call is rung exactly when its extension can denote somebody and the library answers; otherwise 420 or 500 is reported |
| CallOutcomes.TelegramAccepted | tg2sip/gateway.cpp:674-675 | media ready: acceptCall goes out, and a refusal is reported |
| CallOutcomes.TelegramConnected | tg2sip/gateway.cpp:676-677 | Telegram ready: the controller started and the audio connected exactly when the id is known and the library bridges, otherwise 500 reported |
| CallOutcomes.CallerAnswered | tg2sip/gateway.cpp:693-694 | Telegram ready: peer noted, controller started, 200 sent exactly when the id is known and the library answers, otherwise 500 reported |
| CallOutcomes.CallerConnected | tg2sip/gateway.cpp:695-696 | media ready: the audio connected or 500 reported |
| CallOutcomes.RefusalBlocks | tg2sip/gateway.cpp:593-609 | a refusal blocks for the seconds asked plus the extra time, or the configured time after PEER_FLOOD, in nanoseconds; seconds beyond 32 bits end the process |
| CallOutcomes.DialBlocked | tg2sip/gateway.cpp:436-447 | while blocked a dial fails with 500 and says nothing to Telegram |
| CallOutcomes.DialsTheUser | tg2sip/gateway.cpp:449-591 | unblocked, the user the extension denotes is dialled, asking the directory exactly when it is not known; it is known afterwards, and createCall's answer is a leg, or a failure and a block |
| CallOutcomes.LookupIsRefused | tg2sip/gateway.cpp:513-529 | a refused directory request is reported as 500 and blocks |
| CallOutcomes.LookupFindsNobody | tg2sip/gateway.cpp:531-544 | an unregistered phone is reported as 404, a name that is no user as 500 |
| CallOutcomes.DigitsSent | tg2sip/gateway.cpp:611-622 | a digit message sends exactly its text on the call's SIP id; any other message does nothing |
| CallOutcomes.DigitsAre | tg2sip/gateway.cpp:52-65 | digits are 1 to 32 of sixteen characters |
| CallOutcomes.CleanUpSays | tg2sip/gateway.cpp:110-147 | clean-up: controller, Telegram leg, SIP leg, each only if there, with the stored status; the context is left without legs |
| CallOutcomes.CallEnds | tg2sip/gateway.cpp:722-736 | each ending: the leg that is over is noted or the status stored, the rest given back in order |
| CallOutcomes.EndsWhen | tg2sip/gateway.cpp:722-734 | a call ends exactly on Telegram discarded or failed, SIP disconnected, or an internal error |
| CallOutcomes.NothingDone | tg2sip/gateway.cpp:667-701 | any other event is at most taken note of |
| CallObject.Call.constructor | tg2sip/gateway.cpp:853-872 | the object starts with the given context and services, and nothing queued by it |
| CallObject.Call.ReportFailure | tg2sip/gateway.cpp:206-216 | a failure is queued at once under the call's own id |
| CallObject.Call.ParseError | tg2sip/gateway.cpp:593-609 | the block moves to the end of the wait the error asks for; a number out of range ends the process |
| CallObject.Call.DialById | tg2sip/gateway.cpp:458-495 | in-place dialling does what the model's function does to the whole call |
| CallObject.Call.DialByPhone | tg2sip/gateway.cpp:497-548 | the same, through the phone cache |
| CallObject.Call.DialByUsername | tg2sip/gateway.cpp:550-591 | the same, through the username cache |
| CallObject.Call.RunDialTg | tg2sip/gateway.cpp:421-456 | the flood block is checked first, then username, phone, id |
| CallObject.Call.RunDialSip | tg2sip/gateway.cpp:149-219 | the SIP leg and the client's table are updated together, or a failure is queued |
| CallObject.Call.RunAcceptIncomingSip | tg2sip/gateway.cpp:248-296 | the extension is parsed into one of three fields or refused |
| CallObject.Call.AskTelegram | tg2sip/gateway.cpp:221-393 | acceptCall goes out under the call's own id and a refusal queues one error; a controller is stored only after it started, and a failed start ends the process |
| CallObject.Call.AskSip | tg2sip/gateway.cpp:298-415 | answering and bridging act on the call's own known id or queue one error; a missing controller, or digits to an unknown id, would end the process |
| CallObject.Call.RunCleanUp | tg2sip/gateway.cpp:110-147 | controller, Telegram leg, SIP leg in that order, each only if there; afterwards the context holds no leg, and the client's entry stays if the hangup threw |
| CallObject.Call.RunBookkeeping | tg2sip/gateway.cpp:68-108 | storing and forgetting ids changes that field only |
| CallObject.Call.Process | include/boost/sml.hpp:2290-2298 | the state moves first, then the actions run in order until one throws; errors queued on the way are those the whole turn commits |
| GatewayInvariant.DeliverKeeps | tg2sip/gateway.cpp:874-886 | delivering an event to one call keeps the whole gateway in order, and removes the call if it ended |
| GatewayInvariant.RouteKeeps | tg2sip/gateway.cpp:853-872 | finding or creating the call for an event keeps the gateway in order |
| GatewayInvariant.HandleInternalKeeps | tg2sip/gateway.cpp:912-944 | handling an internal event keeps the gateway in order, and an internal error removes its call |
| GatewayInvariant.MessageKeeps | tg2sip/gateway.cpp:902-908 | a message delivered to any resident call, DTMF or not, keeps the whole gateway in order |
| GatewayRuns.NextKeeps | tg2sip/gateway.cpp:767-798 | every step of the loop and of its environment keeps the invariant, and neither block nor clock moves back; the log stays lawful even if the step ends the process |
| GatewayRuns.RunKeeps | tg2sip/gateway.cpp:760-808 | so does every run |
| GatewayRuns.ReachableIsSound | tg2sip/gateway.cpp:760-808 | every reachable state satisfies the invariant, whatever agreeing cache it started with |
| GatewayRuns.ReachNext | tg2sip/gateway.cpp:767-798 | an enabled step from a reachable state reaches a reachable state |
| GatewayGuarantees.FieldsFollowState | tg2sip/gateway.cpp:321-415 | between events a call is in from_tg or from_sip; it has a controller exactly after Telegram was ready, and then a Telegram id; a SIP id that is used is known to the SIP client |
| GatewayGuarantees.NoDefects | tg2sip/gateway.cpp:395-415 | the process never ends for a missing controller or for digits to an unknown call |
| GatewayGuarantees.RoutesToOne | tg2sip/gateway.cpp:853-872 | a Telegram id, SIP id or context id names at most one resident call |
| GatewayGuarantees.NextNeverRevives | tg2sip/gateway.cpp:746-750 | no step makes a used context id resident again |
| GatewayGuarantees.NeverReused | tg2sip/gateway.cpp:746-750 | nor does any run |
| GatewayGuarantees.LateEventHarmless | tg2sip/gateway.cpp:912-944 | an internal event for a call that is gone changes nothing, whenever it is handled |
| GatewayGuarantees.UnknownIgnored | tg2sip/gateway.cpp:964-977 | an update for an unknown call that does not announce one leaves calls, services, queues and log as they were |
| GatewayGuarantees.NoStuckCalls | tg2sip/gateway.cpp:421-591 | a resident call with a failed action, without the leg it waits for, not rung, or past the point of accepting, answering or bridging without having done so has an internal error of its own queued |
| GatewayGuarantees.DoneOrAsked | tg2sip/gateway.cpp:674-696 | in every reachable state a call in the states past them was accepted, answered and bridged in its log, or its removal is asked for |
| GatewayGuarantees.InternalQueueGrows | tg2sip/gateway.cpp:767-774 | the internal queue loses only its head, and only to the loop |
| GatewayGuarantees.RemovedInTime | tg2sip/gateway.cpp:767-798 | an internal error at position k has removed its call after k + 1 ticks, in every run |
| GatewayGuarantees.StuckCallRemoved | tg2sip/gateway.cpp:727-732 | so a call that cannot go on is gone after as many ticks as events were queued |
| GatewayGuarantees.AllLawful | tg2sip/gateway.cpp:667-739 | every call's story is lawful in every reachable state, also after the process ended in the middle of a turn |
| GatewayGuarantees.LegsNeverDoubled | tg2sip/gateway.cpp:68-147 | in every reachable state, the last one of a process that ended included, no leg was acquired twice or given up twice |
| GatewayGuarantees.LegsConserved | tg2sip/gateway.cpp:68-147 | each leg ever acquired is held by its resident call, or was ended by the remote, or got exactly one release |
| GatewayGuarantees.HeldIsResident | tg2sip/gateway.cpp:874-886 | what the log says is held is what a resident call's context holds |
| GatewayGuarantees.HeldAsAcquired | tg2sip/gateway.cpp:486-494 | a resident call holds the very leg it acquired |
| GatewayGuarantees.OrderKept | tg2sip/gateway.cpp:667-701 | over every run, to its last entry: accept after media, answer after ready and started, bridge after all |
| GatewayGuarantees.SignalingNamesACall | tg2sip/gateway.cpp:930-944 | signaling is never sent for call 0 |
| GatewayGuarantees.HangupTellsWhy | tg2sip/gateway.cpp:417-419 | a hangup status is that of an earlier failure of the same call |
| GatewayGuarantees.DialsTheDenoted | tg2sip/gateway.cpp:449-495 | every id ever given to createCall is the one the dialled extension denotes, whatever the cache |
| GatewayGuarantees.SameExtensionSameUser | tg2sip/gateway.cpp:497-591 | a cached dial and an uncached one of the same extension call the same user |
| GatewayGuarantees.BlockRespected | tg2sip/gateway.cpp:436-447 | no lookup and no createCall is ever sent before the block ends, in a turn that ends the process neither |
| GatewayGuarantees.BlockNeverEarlier | tg2sip/gateway.cpp:593-609 | the block never moves earlier in any run, however it ends |
| FloodControl.TurnRespects | tg2sip/gateway.cpp:436-609 | a turn asks Telegram only when the block it found is over, asks nothing after a refusal, and leaves a block as long as the refusal demands |
| FloodControl.RefusalIsHonoured | tg2sip/gateway.cpp:593-609 | in every reachable log: after retry-after n no lookup and no createCall of any call for n seconds and the extra time, after PEER_FLOOD none for the configured time |
| GatewaySteps.Arrives | tg2sip/queue.h:37-42 | what arrives goes to the end of its queue and changes nothing else |
| GatewaySteps.Takes | tg2sip/gateway.cpp:767-798 | each pop takes the first event of its queue, in the order internal, Telegram, SIP |
| GatewaySteps.SipEventTaken | tg2sip/gateway.cpp:964-977 | a SIP event reaches the call with its id, or a new one; only that call and its entries change |
| GatewaySteps.TgCallTaken | tg2sip/gateway.cpp:874-886 | the same for a Telegram call update |
| GatewaySteps.ErrorTaken | tg2sip/gateway.cpp:912-928 | an internal error reaches the call it is for, or nobody |
| GatewaySteps.MessageDropped | tg2sip/gateway.cpp:888-904 | a message from a chat, or whose sender is the peer of no call or of two, changes nothing |
| GatewaySteps.MessageTaken | tg2sip/gateway.cpp:905-908 | a message from the peer of exactly one call reaches that call and no other |
| GatewaySteps.DigitsReachTheCall | tg2sip/gateway.cpp:888-910 | digits from the peer of exactly one connected call are sent on it as written, and nothing else happens |
| GatewaySteps.SignalingForwarded | tg2sip/gateway.cpp:930-944 | backend signaling goes to Telegram under the call's own id exactly when the call is there and has a controller |
| GatewaySteps.SignalingTaken | tg2sip/gateway.cpp:946-962 | Telegram's signaling goes to the controller of the call with that id, or nowhere |
| GatewaySteps.CallerIsRung | tg2sip/gateway.cpp:248-296 | in every running state an incoming call is rung exactly when its extension can denote somebody and the library answers, otherwise exactly one error is queued and says why |
| GatewaySteps.CallerIsConnected | tg2sip/gateway.cpp:421-591 | in every running state, once the caller hears ringing and unless blocked, the user the extension denotes is dialled |
| GatewayLoop.Gateway.constructor | tg2sip/gateway.cpp:752-758 | a gateway with a cache that agrees with the directory starts in a reachable state |
| GatewayLoop.Gateway.FindIf | tg2sip/gateway.cpp:853-855 | the loop finds the first call the key names |
| GatewayLoop.Gateway.SearchCall | tg2sip/gateway.cpp:853-872 | the named call, or a new one at the end of the list |
| GatewayLoop.Gateway.ProcessOn | tg2sip/gateway.cpp:881-886 | one call's in-place turn and its removal are one delivery of the model |
| GatewayLoop.Gateway.ProcessRouted | tg2sip/gateway.cpp:964-977 | search and delivery are the model's routing |
| GatewayLoop.Gateway.CollectPeers | tg2sip/gateway.cpp:895-900 | the loop gathers exactly the calls with that peer |
| GatewayLoop.Gateway.ProcessMessage | tg2sip/gateway.cpp:888-910 | the loop over the calls and the delivery are the model's handling of a message, which `GatewaySteps.MessageDropped` and `GatewaySteps.MessageTaken` pin down |
| GatewayLoop.Gateway.ProcessInternal | tg2sip/gateway.cpp:912-944 | an internal event reaches the call with its context id or nothing; signaling is forwarded only where there is a controller |
| GatewayLoop.Gateway.ProcessSignaling | tg2sip/gateway.cpp:946-962 | signaling for an unknown call or one without controller is dropped |
| GatewayLoop.Gateway.Tick | tg2sip/gateway.cpp:767-798 | one pass of the loop is a run of the model, internal events first, cut short where the process ends, and leaves a reachable state |
| GatewayLoop.Gateway.Arrive | tg2sip/queue.h:37-42 | what another thread queues goes to the end of its queue and changes nothing else |
| GatewayLoop.Gateway.Run | tg2sip/gateway.cpp:760-808 | through every run the environment allows, the object does what the model does and stays reachable, so every guarantee speaks of it |
| GatewayLoop.LoadCache | tg2sip/gateway.cpp:825-846 | the loop reads up to the first user without access and caches each name and phone |
| GatewayLoop.CachedUsernameIsFirst | tg2sip/gateway.cpp:839-841 | a cached username has the id of the first user with it |
| GatewayLoop.CachedPhoneIsFirst | tg2sip/gateway.cpp:843-845 | a cached phone has the id of the first user with it |
| GatewayLoop.EveryUserCached | tg2sip/gateway.cpp:839-845 | every user read is in the caches |
| GatewayLoop.LoadedCacheAgrees | tg2sip/gateway.cpp:810-851 | truthful replies give a cache that agrees with the directory |
| Slots.OccupancyExact | tg2sip/voip/ring_buffer.h:42-58 | the wrapping 64-bit expression is the true number of stored samples for every capacity up to 2^63 |
| Slots.OccupancyExactIff | tg2sip/voip/ring_buffer.h:42-58 | and exactly for those capacities |
| Slots.AheadIsSlot | tg2sip/voip/ring_buffer.h:47-67 | stepping an index modulo the capacity is stepping the absolute position |
| Slots.SlotsDiffer | tg2sip/voip/ring_buffer.h:47-62 | positions less than a lap apart are different slots |
| Slots.ViewWrite | tg2sip/voip/ring_buffer.h:46-48 | writing the next slot appends to what is stored and disturbs nothing |
| RingBufferObject.RingBuffer.constructor | tg2sip/voip/ring_buffer.h:34-35 | any capacity is accepted; the buffer is sound, and then empty, exactly for capacities 1 to 2^63 |
| RingBufferObject.RingBuffer.Push | tg2sip/voip/ring_buffer.h:38-50 | the longest prefix that fits is appended to the contents |
| RingBufferObject.RingBuffer.Pop | tg2sip/voip/ring_buffer.h:54-68 | the output is filled exactly: oldest samples, then zeros; they leave the contents; the rest of the array is untouched |
| RingBufferObject.RingBuffer.HeadPosition | tg2sip/voip/ring_buffer.h:73-74 | never more than capacity - 1 samples are stored, and head is where the next goes |
| SpscRing.NextKeeps | tg2sip/voip/ring_buffer.h:38-68 | every step of either thread, with cached indices possibly stale, keeps the invariant |
| SpscRing.RunKeeps | tg2sip/voip/ring_buffer.h:38-68 | so does every interleaving |
| SpscRing.RunIsFifo | tg2sip/voip/ring_buffer.h:38-68 | from any reachable state: what was stored and then accepted is what was returned and what is stored now |
| SpscRing.IsFifo | tg2sip/voip/ring_buffer.h:38-68 | from an empty buffer, under every interleaving, what the pops returned followed by what is stored is exactly what the pushes accepted, in order, and at most capacity - 1 samples are stored |
| SpscRing.StepRefinesQueue | tg2sip/voip/ring_buffer.h:38-68 | each step is a step of a queue: publishing appends, releasing removes what was handed out, nothing else changes it |
| SpscRing.AmountsAreMaximal | tg2sip/voip/ring_buffer.h:42-60 | as much is accepted as fits and as much is delivered as was seen |
| SpscRing.NoSharedSlot | tg2sip/voip/ring_buffer.h:46-63 | no slot about to be written is about to be read |
| SpscRing.FreshLeaves | tg2sip/voip/ring_buffer.h:54-68 | a pop that began after a sample was published takes its full amount or everything up to that sample |
| SpscRing.LeavesInTime | tg2sip/voip/ring_buffer.h:54-68 | whatever the threads are doing when a sample is published, it leaves once enough pops have ended, the one in progress not counted |
| SpscRing.OneSecondAtMost | tg2sip/voip/controller.h:120-124 | at 48000 slots, in every reachable state, an accepted sample leaves within 100 pops of 480 that begin after it |
| RuntimeProtocol.NextKeeps | tg2sip/voip/ntgcalls_runtime.cpp:36-65 | every lock, table access, callback and unlock keeps the invariant of locks, table and controllers |
| RuntimeProtocol.RunKeeps | tg2sip/voip/ntgcalls_runtime.cpp:36-65 | so does every interleaving of any number of worker threads |
| RuntimeProtocol.CallbacksOnRegisteredOnly | tg2sip/voip/ntgcalls_runtime.cpp:46-65 | a callback runs only on a registered controller, even where user ids are shared; that none is destroyed while registered is `ControllerLife.RequestsAllowed` |
| RuntimeProtocol.StaysUnregistered | tg2sip/voip/controller.cpp:173-182 | a registration that ended stays ended |
| RuntimeProtocol.TeardownBarrier | tg2sip/voip/controller.cpp:165-190 | after Unregister returns no callback runs on the controller and none ever starts |
| RuntimeProtocol.NoCircularWait | tg2sip/queue.h:37-55 | runtime mutex and queue mutex never form a circular wait |
| RuntimeProtocol.SomeoneCanStep | tg2sip/gateway.cpp:382-387 | whenever a thread is in the middle of something, some such thread can step |
| RuntimeProtocol.ServedIff | tg2sip/voip/ntgcalls_runtime.cpp:36-44 | a registered controller receives callbacks exactly while its registration is the last operation for its user id |
| RuntimeProtocol.CallsBackTheRegistered | tg2sip/voip/ntgcalls_runtime.cpp:46-65 | a lookup calls back the controller registered last for the user id, if not unregistered since, and nobody otherwise |
| RuntimeProtocol.SharedUserSilenced | tg2sip/voip/ntgcalls_runtime.cpp:41-44 | for every user id a reachable state in which two controllers share it, one is unregistered and the other, still registered, is not served |
| RuntimeProtocol.NtgCallsRuntime.Register | tg2sip/voip/ntgcalls_runtime.cpp:36-39 | the table again is what the completed operations made it |
| RuntimeProtocol.NtgCallsRuntime.Unregister | tg2sip/voip/ntgcalls_runtime.cpp:41-44 | the same after unregistering |
| RuntimeProtocol.NtgCallsRuntime.Dispatch | tg2sip/voip/ntgcalls_runtime.cpp:46-65 | a trampoline finds the controller that was registered last, if it was not unregistered since |
| VoiceController.Controller.Start | tg2sip/voip/controller.cpp:73-158 | the flags and the resources acquired at every point at which starting can fail |
| VoiceController.Controller.Stop | tg2sip/voip/controller.cpp:165-190 | what one Stop releases and whether it throws |
| VoiceController.Controller.Destroy | tg2sip/voip/controller.cpp:67-71 | the destructor stops only what still exists, and a Stop that throws in it ends the process |
| VoiceController.LaterStop | tg2sip/voip/controller.cpp:165-190 | a later Stop releases nothing twice and can only complete what is missing |
| VoiceController.AfterStops | tg2sip/voip/controller.cpp:165-190 | after any Stops a controller is untouched, or lacks only the backend's consent, or has released everything once each: feeder, sink, backend call |
| VoiceController.ReleasedIff | tg2sip/voip/controller.cpp:67-190 | for every failure point, every list of Stops and every answer: everything is released, once each and in order, exactly when Start got nowhere or a Stop that reaches the backend is answered; otherwise, and only then, the destructor ends the process |
| VoiceController.FirstStopReleasesIff | tg2sip/voip/controller.cpp:156-190 | for every failure point and answer: when the first Stop releases everything, and when it throws with nothing given back |
| ControllerLife.RunKeeps | tg2sip/voip/controller.cpp:67-190 | over every run of any number of controllers and worker threads, the protocol's view of each controller agrees with its flags |
| ControllerLife.RequestsAllowed | tg2sip/voip/controller.cpp:67-190 | in every state so reached the runtime is within its protocol, and whatever Start, Stop or the destructor asks next, to register, unregister or be destroyed, is allowed by it |
| ControllerLife.CallbackFindsController | tg2sip/voip/ntgcalls_runtime.cpp:46-65 | a callback finds a controller that is not destroyed, with its sink registered and its backend call not stopped |
| ControllerLife.DestroyedIsReleased | tg2sip/voip/controller.cpp:67-71 | a controller is destroyed only when nothing of it is registered and its backend call is gone |
| IniText.ScanIsFirst | include/INIReader.h:143-158 | the scan stops at the first delimiter or inline comment; a leading semicolon is no comment |
| IniText.TrimUnique | include/INIReader.h:124-130 | stripping on the right leaves the one prefix that ends in no space and is followed by spaces only |
| IniText.SkipUnique | include/INIReader.h:133-138 | skipping on the left stops at the first character that is no space |
| IniText.SpacesAre | include/INIReader.h:127 | white space is six bytes |
| IniText.LowerCharIs | include/INIReader.h:425 | lower case changes the 26 capital letters and nothing else |
| IniScan.RStrip | include/INIReader.h:124-130 | in place, the string becomes its trimmed self and no other byte changes |
| IniScan.LSkip | include/INIReader.h:133-138 | the pointer returned holds the string without leading space |
| IniScan.FindCharsOrComment | include/INIReader.h:143-158 | the pointer returned is the first delimiter, comment or end |
| IniScan.StrNCpy0 | include/INIReader.h:161-166 | the copy is the source cut to fit and ends in NUL |
| IniParser.ErrorIsFirstMalformed | include/INIReader.h:237-277 | the result is 0 exactly when no line is malformed, otherwise the number of the first malformed line |
| IniParser.MalformedMeans | include/INIReader.h:207-265 | a line is malformed when it says something, continues nothing, and its closing bracket or its separator is missing or commented out |
| IniParser.ChunksAreTheStream | include/INIReader.h:196-197 | the pieces read are the whole stream, in order |
| IniParser.ChunksArePieces | include/INIReader.h:90-93 | each piece has at most 199 bytes, ends its line or fills the buffer, and has no line break inside |
| IniReader.Reader.constructor | include/INIReader.h:286-298 | a reader of any file holds exactly the error, values and sections the specification gives; of one that cannot be opened, -1 and nothing |
| IniReader.Reader.Get | include/INIReader.h:383-387 | the value under the key, or the default |
| IniReader.Reader.ValueHandler | include/INIReader.h:429-439 | a value is appended to what its key has, after a newline if that is not empty |
| IniReader.Reader.SplitPair | include/INIReader.h:246-254 | cut in place, name and value are stripped and the value has lost its comment |
| IniReader.Reader.ParseHeading | include/INIReader.h:229-241 | the section and the forgotten previous name, or a malformed line |
| IniReader.Reader.ParseSetting | include/INIReader.h:242-265 | the previous name and the handler's call, or a malformed line |
| IniReader.Reader.ParseLine | include/INIReader.h:199-265 | one round over the line buffer is one step of the specification |
| IniReader.Reader.ParseStream | include/INIReader.h:169-278 | the whole in-place loop computes the specification, for every stream |
| IniReader.Fgets | include/INIReader.h:196-197 | a line, what is left of the stream, or 199 bytes, whichever is shortest |
| IniReader.KeyInjective | include/INIReader.h:421-427 | keys of names without an equals sign agree exactly when section and name agree up to case |
| IniReader.KeyNeedsPlainNames | include/INIReader.h:421-427 | for every section and name: the key is also that of another section and plain name, in a file or not, if and only if the name has an equals sign |
| IniDocument.LineRead | include/INIReader.h:207-265 | a well-formed line, with any padding, either separator and any comment, is read as what it says |
| IniDocument.LineChunked | include/INIReader.h:196-197 | a line up to 199 bytes comes in one piece; one that just fills the buffer is followed by a harmless blank line |
| IniDocument.DocumentRead | include/INIReader.h:169-278 | every well-formed file is read without error as exactly the settings it makes |
| IniDocument.MarkedDocumentRead | include/INIReader.h:199-206 | the same file behind a byte-order mark, if its first line leaves room for it, is read just so |
| IniRoundTrip.ValueIsGiven | include/INIReader.h:429-439 | a key has a value exactly when it was given one, and everything it was given is in it, in order |
| IniRoundTrip.GlueWhole | include/INIReader.h:434-436 | lines come back joined by newlines exactly when there is one or the first is not empty |
| IniRoundTrip.RenderedRead | include/INIReader.h:169-278 | a rendered configuration, with a byte-order mark or without, parses without error into its own settings |
| IniRoundTrip.RoundTrip | include/INIReader.h:383-387 | after rendering, with a byte-order mark or without, and parsing, Get returns every property's lines joined by newlines, under its name in any case, and the default for every other name |
| IniRoundTrip.AnsweredByAnotherHere | include/INIReader.h:383-387 | a file from which Get answers for `b=c` in section `a` with what section `a=b` says of `c`, although nothing in it has the section and name asked for |
| IniNormalForm.NormalFormKeeps | include/INIReader.h:169-278 | every stream, malformed or not, has a normal form that is well formed and makes the same settings |
| IniKeys.MadeIsMakeable | include/INIReader.h:229-265 | every section and name any stream hands to the handler, continued values under a cut name included, has the shape the next row makes exact |
| IniKeys.MadeIffMakeable | include/INIReader.h:229-265 | a section and name are handed out for some stream if and only if they have that shape |
| IniKeys.KeysTellApart | include/INIReader.h:421-439 | of all settings any stream makes, two share a key exactly when section and name agree up to case |
| IniKeys.AnsweredByAnotherIff | include/INIReader.h:421-439 | for every query: some stream makes a setting with its key but another section or name if and only if the name has an equals sign and its two parts can be a section and a name of a file |
| IniKeys.AnsweredIff | include/INIReader.h:383-387 | for every stream and query: a name without equals sign is answered exactly when the stream sets it, one with an equals sign is never set and answered exactly when another setting stands in for it |
| TgClient.NextKeeps | tg2sip/tg.cpp:94-169 | every step of any sending thread and of the receiving thread keeps the invariant |
| TgClient.RunKeeps | tg2sip/tg.cpp:94-169 | so does every interleaving; no id is lost, and no handler is erased before it was run |
| TgClient.FutureResolvesOnce | tg2sip/tg.cpp:146-165 | a future resolves at most once, with the response that bears its own id |
| TgClient.ResolvedAsReceived | tg2sip/tg.cpp:106-110 | what a future is given is a response received in the run, payload and all |
| TgClient.HandlersAreUnanswered | tg2sip/tg.cpp:106-144 | the handlers are exactly the queries somebody waits for that were sent, or are just being sent, and to which no response was handled, but for the one just handled and about to go |
| TgClient.HandlerAlreadyThere | tg2sip/tg.cpp:138-144 | no response arrives before its handler exists |
| TgClient.DuplicateDropped | tg2sip/tg.cpp:106-110 | a second response to one query is dropped |
| TgClient.QueryTable.SendQuery | tg2sip/tg.cpp:138-144 | one call is three steps: take an id, register, send |
| TgClient.QueryTable.ProcessResponse | tg2sip/tg.cpp:94-111 | one call finds, runs and erases the handler, or does nothing |
| SipCalls.Client.Open | tg2sip/sip.cpp:238-248 | a new call is entered unless its id is taken |
| SipCalls.Client.Hangup | tg2sip/sip.cpp:264-271 | the entry goes only if the library carried the hangup out |
| SipCalls.Client.Lookup | tg2sip/sip.cpp:273-312 | the object acted on, or not found |
| SipCalls.KnownUnlessClear | tg2sip/sip.cpp:238-271 | an id is in the table exactly when a call was opened under it and not hung up since |
| SipCalls.EntryStays | tg2sip/sip.cpp:264-271 | until it is hung up an entry stays what it is |
| SipCalls.LeadsToOwnObject | tg2sip/sip.cpp:112-125 | a live call's id is always known, and leads to its own object exactly when the id was clear when the call was opened |
| SipCalls.StaleAfterRemoteEnd | tg2sip/sip.cpp:250-271 | a call ended by the far end and a reused id: the new call's id leads to the old object |
| GatewaySipTable.TurnTracks | tg2sip/sip.cpp:238-271 | whatever a call does in a turn, the known ids change as the effects it logged say |
| GatewaySipTable.StepMirrors | tg2sip/sip.cpp:112-271 | every step of the gateway is a run of table operations read off the log |
| GatewaySipTable.CallsAreTheTable | tg2sip/sip.cpp:112-271 | in every run the ids the gateway counts on are the keys of the client's table |
| GatewaySipTable.ReleaseReachesOwnObject | tg2sip/sip.cpp:264-312 | a call not yet hung up is known, and what the gateway does with its id reaches its own object exactly when the id was clear when it was opened |
| GatewaySipTable.StaleInARun | tg2sip/sip.cpp:250-271 | for every id a run of the gateway in which the far end hangs up, the id comes again, and the table leads it to the object of the call that is over |

## Left out

- PJSIP, TDLib and ntgcalls themselves: what they answer is arbitrary within what is trusted above.
- The actions of a call are defined on values, and the class `CallObject.Call` is proved equal to them; the object is
  built for each event from the stored context rather than kept, so aliasing between two pointers to one context is not
  modelled.
- The text of hangup reasons, SIP headers, relay servers and encryption keys, logging and diagnostics: they steer nothing.
- The completion state of blocking and detached backend calls: a blocking call simply succeeds or throws.
- Audio ports and media formats, endpoint, codec and transport set-up, and the parsing of SIP addresses.
- Weak memory: acquire and release are taken as atomic steps.
- The counters of context ids and query ids are unbounded; in the program they are 64 bits wide.
- The exact semantics of regular expressions: digits are 1 to 32 characters of the alphabet of section 3.10 of RFC 2833,
  and an error message asks for a wait, reports a flood or does neither.
- The three queues are sequences with append and take-first; their mutex appears only in `RuntimeProtocol`.
- Reading integers, reals and booleans from the configuration, how a file is opened, settings, the main program and the
  database tool: field reads and set-up.
- Authorization and the other updates of the Telegram client.
