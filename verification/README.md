# Verification models of the network-automation backend

This project models four parts of the backend in Dafny and proves what they promise. `dafny verify dfyconfig.toml`
checks all of it.

1. **Connection gate** (`Gate*.dfy`, `RedisStore.dfy`). Redis is a map from keys to values with an expiry time, under
   a clock that never goes back. Any number of clients interleave the single requests of their WATCH / TIME / reads /
   MULTI / EXEC transactions, each with at most eight attempts. Every run is shown to be a serial run of legal
   operations. The limits, the cooldowns and the faults of refused calls are then said of that history of operations
   alone (`GateLimits.dfy`), by counting admissions and failures and in the fields of the settings. `RedisConnectionGate` is one such client as a class, whose requests interleave with arbitrary
   others.
2. **Assistant conversation** (`Conversation.dfy`, `TrimLaws.dfy`, `Replay.dfy`, `ReplayLaws.dfy`, `Pairing.dfy`,
   `Requests.dfy`, `Chat.dfy`, `ChatService.dfy`, `CutShort.dfy`, `MessageSequence.dfy`). The stored log, its replay, the trim to a budget, the
   conversion to Anthropic blocks, the user turn and the compaction, for arbitrary providers and tools; and the
   positions messages are ordered by.
3. **Telnet stream** (`Telnet.dfy`, `TelnetStream.dfy`). The parser of RFC 854 commands and RFC 855 subnegotiation
   with its pending fragment, and the negotiation it answers.
4. **Change pipeline** (`Text.dfy`, `Lines.dfy`, `VlanList.dfy`, `Facts.dfy`, `Device.dfy`, `CommandLine.dfy`,
   `CiscoDriver.dfy`, `RouterBlocks.dfy`, `Undo.dfy`, `RouterUndo.dfy`, `PortUndo.dfy`, `StoredText.dfy`,
   `RouteLines.dfy`, `ChangeLines.dfy`, `BrokenRoute.dfy`, `Rollback.dfy`, `PostCheck.dfy`, `CliParsers.dfy`,
   `ReadBack.dfy`, `PushEffect.dfy`, `Spellings.dfy`, `Shapes.dfy`, `VlanBrief.dfy`, `RunningConfig.dfy`,
   `VlanListing.dfy`, `SwitchportListing.dfy`, `Validation.dfy`, `PlanRun.dfy`, `ChangeService.dfy`, `PlanOutcome.dfy`). All twelve change types are
   validated, rendered and checked over real strings. `Device` interprets commands on a configuration; its behaviour
   (what a negation withdraws, what the device refuses) is the one the renderers' comments describe. A plan holds text:
   the commands joined by newlines, and what is sent is that text split again. `CommandLine` reads lines as commands,
   and a batch stops at the first line refused, as `backend/app/drivers/transport.py:76` asks for; the promises of a plan
   are stated over those lines. A read-back is any listing of the configuration: statements in any order, case and
   spacing, VLAN lists in any order and ranges. That the parsers give such a read-back is proved of the router section,
   the static routes, `show vlan brief` and `show interfaces switchport` as they are printed. `Device.ConfigOk` says which configurations a device can hold: one BGP
   process, one version line, one remote AS for each peer, no trunk that still negotiates its encapsulation, names and
   descriptions that print on one line.

Automatic induction is switched off wherever Dafny would apply it: every induction is written out in the proof.

## Findings

Each of these is proved, with the exact condition where there is one.

- The sliding-window limit holds because EXEC fails when a watched key that was alive at WATCH has expired by EXEC,
  which the deployed Redis (7.4.9, `deploy/compose.yml:203`) does. Without that it breaks: `GateExpiry.ExpiryHasToAbort`
  is a run in which no watched key is modified and two admissions would share a window that has room for one. A key is
  alive up to and including its expiry time.
- A compaction folds a fixed number of rows, wherever that falls. Its request is legal exactly when the first row left
  out is not a tool result, or the budget has no room for any folded row that is none, with the folded rows behind it
  (`Pairing.CompactionLegality`).
- A turn cut short by the 40-call cap leaves announced calls unanswered; the log is whole afterwards exactly when every
  announced call was dispatched (`HandleUserMessage`). From then on a request is legal exactly when the summary has
  folded the announcement, or the budget has no room for the cut-short round and everything behind it
  (`CutShort.CutShortLegality`).
- Trimming every round equals trimming once only while no system message comes to lead the window
  (`SystemInTheMiddleBreaksIt`). Histories as the service builds them meet this.
- Five of the twelve change types are not always undone by their inverse; `Rollback.RollbackExactlyWhen` gives the
  condition for each: a port that is not shut down but has no line is rolled back into a shutdown; the access VLAN
  inverse leaves the mode; the trunk inverse leaves the encapsulation and turns an empty list into the default; a
  static route whose line was configured already is removed; a BGP peer loses every line but its remote AS.
- The check after a change fails for a host name or description typed with white space around it, for a port brought up
  whose line stays down, for an access VLAN the switch does not have, and it may fail for a static route with
  alternatives (`PostCheck.PostCheckExactly`, `PostCheck.RouteConfirmedExactly`).
- A next hop is validated without the white space around it but rendered and stored with it. Line breaks behind it only
  make blank lines; a line break in front of it splits the command, so that both the push and the rollback are refused
  and a route that was to be replaced is lost. `RouteLines.RouteIsClean` says when such a route is sent as rendered,
  `BrokenRoute.UncleanRouteIsRefused` what is left otherwise, and `BrokenRoute.OneBrokenRoute` is one such route. The
  rollback and confirmation conditions above include this one; it is the only way for a validated change not to be
  accepted whole (`PostCheck.PushCompletes`).
- A change of a router block that would do nothing is refused; one of the host name is not
  (`Validation.RouterChangesAct`, `Validation.SameHostnameIsAccepted`).
- A host name ending in a line break passes validation, since `$` also matches before a final newline; it and a next hop
  are the only values whose stored commands may not be split back as they were (`ChangeLines.StoredChangeSurvives`). A
  host name is sent as meant all the same.
- A failure in the look-ups before the guarded part, or while the outcome is being stored, leaves the plan marked as
  being applied for good (`PlanRun.StuckExactlyByAccident`, `PlanRun.SnapshotFailureSticks`).

## Model

| member | source | states |
|---|---|---|
| GateRuns.EveryRunIsSerial | backend/app/services/connection_gate.py:112-170 | After any interleaving of any clients the committed operations form a legal serial history, and the store is exactly what running them one by one in commit order leaves |
| GateRuns.StepKeeps | backend/app/services/connection_gate.py:228-242 | Every single request of every client keeps the refinement invariant between the store, the serial history and each attempt in progress |
| GateRuns.CommitIsAtomic | backend/app/services/connection_gate.py:155-170 | An EXEC whose watched keys are clean is a legal atomic operation at its commit time, although its reads and its clock are older |
| GateRefinement.CleanCount | backend/app/services/connection_gate.py:249-254 | A count taken earlier, on a key still clean at EXEC, is the number of members that matter at the transaction's own time, however old that is |
| GateServer.AddKeepsIndex | backend/app/services/connection_gate.py:156-169 | Pruning, adding and re-arming EXPIRE keeps a sorted set in step with its permits: key expiry never drops a live member |
| RedisStore.RunLookup | backend/app/services/connection_gate.py:155-169 | A queued batch acts on each key as if alone, leaves untouched keys exactly as stored and leaves no emptied key behind |
| GateLimits.CapacitiesHold | backend/app/services/connection_gate.py:129-153 | At any time of any run the admissions that are neither given back nor run out are at most the configured number: all of them, those of a device, the terminals, and the terminals of a device |
| GatePromises.ActiveSetsAreExact | backend/app/services/connection_gate.py:253-283 | The live members of every active set are exactly the acquired, unreleased, unexpired permits it stands for, now and later |
| GateLimits.RatesHold | backend/app/services/connection_gate.py:256-268 | In any run and for every placement of the window: at most the configured number of connection tests for one endpoint and profile, and of terminals on one device, are admitted with timestamps in it |
| GatePromises.FailureRecord | backend/app/services/connection_gate.py:179-196 | The recorded failures are exactly those with no later success for the same endpoint and profile |
| GateLimits.FailuresTripAtLimit | backend/app/services/connection_gate.py:190-203 | In any run a failure trips the cooldown if and only if, counted with the failures of its endpoint and profile within the window and since the last success there, it reaches the configured number |
| GateLimits.CooldownsHold | backend/app/services/connection_gate.py:119-120 | In any run, after a trip nobody is admitted to that endpoint and profile within the cooldown, even past recorded successes |
| GatePromises.TimestampsFollowCommitOrder | backend/app/services/connection_gate.py:117-118 | Admission timestamps never run against commit order |
| GatePromises.CommitsAtMostOnce | backend/app/services/connection_gate.py:233-241 | Of the eight attempts of a call at most one commits |
| GatePromises.FailureTimestampsFollowCommitOrder | backend/app/services/connection_gate.py:190-196 | The same of the failures recorded for one endpoint and profile |
| GatePromises.ExhaustionIsJustified | backend/app/services/connection_gate.py:228-242 | A call that gives up can name eight different reasons, one for each attempt and each between its WATCH and its EXEC: an operation that, run in its place of the serial history, modified a key the call watched, or the expiry of a watched key that was stored with that expiry from WATCH to EXEC; the attempts follow one another from the beginning of the call |
| GateRefinement.WatchesWhatItUses | backend/app/services/connection_gate.py:106-114 | Each transaction watches exactly the keys it reads and those its queue may modify |
| GatePromises.ReleaseFreesItsOwnSlots | backend/app/services/connection_gate.py:210-221 | A committed release takes exactly its own permit out of every limit |
| GatePromises.ReleasesOnce | backend/app/services/connection_gate.py:215-217 | A permit is given back at most once: releasing is idempotent |
| GatePromises.ReleaseSeesTheTruth | backend/app/services/connection_gate.py:214-217 | A release goes ahead for a live permit with this fingerprint and does nothing for an unknown one or a mismatch |
| GateLimits.AdmitsUnlessDue | backend/app/services/connection_gate.py:116-170 | From every reachable state an undisturbed client is admitted if and only if no cooldown is on and every count is below its limit; otherwise it gets the error of the first check, in the order of the source, that finds a limit reached |
| GateLimits.RefusalIsDue | backend/app/services/connection_gate.py:116-153 | In any run, whatever the others do, a call that is refused is refused rightly: at the instant of the read that refuses it the history shows the cooldown on, or the count its error names at its limit at the time it had read |
| GateProgress.CountIsGenuine | backend/app/services/connection_gate.py:249-254 | Whatever was committed or has expired since WATCH, a count never exceeds the members that matter |
| GateExpiry.ExpiryHasToAbort | backend/app/services/connection_gate.py:155-170 | A run in which an EXEC that ignored the expiry of watched keys would let two tests into one window with room for one |
| GateClient.RedisConnectionGate.Transaction | backend/app/services/connection_gate.py:228-242 | The bounded retry loop always ends, with its outcome recorded: an admission or failure that returns is the newest operation in the history and one that raises is not there at all; a release that returns has just been committed or had no live permit to give back |
| GateClient.RedisConnectionGate.Acquire | backend/app/services/connection_gate.py:100-177 | A permit is returned exactly when its admission was committed; an error leaves no trace of the identifier, and one that names a cooldown or a limit is justified by the history at that moment |
| GateClient.RedisConnectionGate.Release | backend/app/services/connection_gate.py:210-226 | Without an error the permit has just been given back, or there was no such live permit; the only error is that the gate is unavailable |
| GateClient.RedisConnectionGate.AuthenticationFailed | backend/app/services/connection_gate.py:185-208 | The failure is recorded as the newest operation exactly when no error is raised |
| GateClient.RedisConnectionGate.AuthenticationSucceeded | backend/app/services/connection_gate.py:179-183 | Afterwards no failure is on record for the endpoint and profile |
| GateClient.ReleaseEnds | backend/app/services/connection_gate.py:214-221 | At a clean EXEC a release queues its commands only for a permit that is held as fingerprinted, and nothing only if there is no such live permit |
| Conversation.TrimToContextLimit | backend/app/assistant/service.py:145-211 | The backwards loops compute the trim the laws below are about |
| Conversation.TakeNewest | backend/app/assistant/service.py:189-196 | The loop from the newest message on keeps what fits and adds up what is used |
| Conversation.DropLeadingOrphan | backend/app/assistant/service.py:138-142 | Leading tool results are dropped, nothing else |
| Conversation.DropOrphansIsSuffix | backend/app/assistant/service.py:138-142 | What is left is the suffix from the first message that is not a tool result |
| TrimLaws.FitIsLongest | backend/app/assistant/service.py:189-208 | What is kept is the longest suffix that fits the room left |
| TrimLaws.TrimShape | backend/app/assistant/service.py:168-211 | The window is the leading system messages, the longest suffix of the earlier messages that fits, the request and the longest suffix of its turn that fits, neither opening on a tool result; earlier messages only beside a whole turn; never more than the budget, the pinned parts aside |
| TrimLaws.TrimIsIncremental | backend/app/assistant/service.py:145-211 | On the parts of a shaped history: trim, grow by anything but a user message, trim again, is one trim |
| TrimLaws.TrimmingAgainIsTrimmingOnce | backend/app/assistant/service.py:333-338 | trim(trim(h) + d) equals trim(h + d) for every budget, when nothing between the leading system messages and the request is a system message |
| TrimLaws.TrimIsIdempotent | backend/app/assistant/service.py:145-211 | Trimming a window again changes nothing |
| TrimLaws.RoundsAreOneTrim | backend/app/assistant/service.py:320-338 | However many rounds re-trim the growing history, the last request carries one trim of everything said |
| TrimLaws.GrowthStaysConversational | backend/app/assistant/service.py:356-373 | Whatever a round adds, the history keeps the shape the law needs, trimmed or not |
| TrimLaws.SystemInTheMiddleBreaksIt | backend/app/assistant/service.py:171-174 | A concrete history with a system message in the middle for which re-trimming differs from trimming once |
| Replay.ToAnthropicMessages | backend/app/assistant/anthropic_client.py:47-103 | In order, the turns say what the messages say and nothing else: user texts, tool results with the ids they answer, assistant texts with the id, name and input of each call; text comes first in a turn and is not empty, and no turn is empty |
| Replay.ConversionSays | backend/app/assistant/anthropic_client.py:62-103 | The same of the conversion with results still pending |
| Replay.SplitSystem | backend/app/assistant/anthropic_client.py:40-44 | The texts are those at the positions of the system messages, in order, and the rest are the messages at all other positions, in order |
| ReplayLaws.LegalExactlyWhenAnswered | backend/app/assistant/anthropic_client.py:47-103 | The converted turns obey the provider's pairing rule if and only if every announced call is answered directly behind its announcement, in order, and there is no other tool result |
| Pairing.CutIsHealed | backend/app/assistant/service.py:138-142 | Cutting an answered log anywhere and dropping leading tool results leaves an answered log |
| Pairing.PrefixIsAnswered | backend/app/assistant/service.py:458-466 | Cutting off the end leaves an answered log if and only if the next message is not a tool result |
| Pairing.WindowIsLegal | backend/app/assistant/service.py:168-211 | Under every budget the trimmed window converts to legal turns, whatever part of the answered log a summary had folded away |
| Pairing.ReplayIsLegal | backend/app/assistant/service.py:543-560 | End to end: sliced at any count that leaves a user message, trimmed to any budget, split and converted, an answered log gives legal turns |
| Pairing.SliceOfResultsIsIllegal | backend/app/assistant/service.py:178-182 | With no user message left, a slice of tool results is illegal under every budget |
| Pairing.CompactionLegality | backend/app/assistant/service.py:457-487 | The compaction request is legal if and only if the first row kept is not a tool result or the budget has no room for any folded row that is none, together with the folded rows behind it |
| Chat.WholeExactlyWhenDispatched | backend/app/assistant/service.py:379-413 | After a turn the log answers all its calls if and only if every announced call was dispatched |
| Chat.GroundedRounds | backend/app/assistant/service.py:358-411 | Every stored tool row's nearest earlier row of another kind is an assistant row announcing its id |
| Chat.RoundIsStored | backend/app/assistant/service.py:349-411 | A round stores its streamed text with the calls it announces, unless it says nothing, and behind it the payload of each dispatched call under the id of that call, in order |
| Chat.RoundIsShown | backend/app/assistant/service.py:342-411 | A round shows its tokens, then each dispatched call and its payload, as a proposed change exactly if it is one |
| Requests.TrimmedShows | backend/app/assistant/service.py:606-650 | Under every budget a trimmed history is the instructions, the summary behind its lead if there is one, the longest stretch before and behind the newest user row that fits and does not open on a tool row, each row with its own role, text, answered id and calls, and the note exactly if it fits |
| ChatService.AssistantChatService.HandleUserMessage | backend/app/assistant/service.py:279-418 | For every provider and tool: at most 13 requests and 40 dispatched calls; each request holds the instructions, the summary and the rows stored by then as the budget allows, without tools and with the note in the thirteenth only, and is legal if the log was whole; one end event, last, unless it raises; a turn ends by an answer without calls, the thirteenth round or the fortieth call; what is stored, and when the log stays whole; when and how far the summary advances, and what the summary is made of |
| ChatService.AssistantChatService.AnswerRounds | backend/app/assistant/service.py:315-418 | The round loop: requests in step with stored rows, all rounds but the last fully dispatched, how it ends |
| ChatService.AssistantChatService.PlayRound | backend/app/assistant/service.py:339-413 | One round stores the reply, then the results, and goes on exactly if calls were announced and all dispatched |
| ChatService.AssistantChatService.DispatchCalls | backend/app/assistant/service.py:379-413 | Calls are dispatched in order with their results stored, up to the cap of the turn or an escaping error |
| ChatService.AssistantChatService.Compact | backend/app/assistant/service.py:442-502 | Nothing changes unless there is something new to fold and some text comes back; then the count strictly increases and the newest six rows stay out; its request holds the older summary and the rows to fold as the budget allows, and the request to summarise; when it is legal |
| ChatService.AssistantChatService.NeedsCompaction | backend/app/assistant/service.py:420-434 | True exactly when the untrimmed history is over four fifths of the budget |
| ChatService.TraceIsLegal | backend/app/assistant/service.py:320-347 | Every request of a turn on a whole log is legal |
| ChatService.RoomyRequestLegality | backend/app/assistant/service.py:299-308 | Whatever the summary has folded away: when everything fits, the next request is legal if and only if the log from the summary on, leading tool results aside, answers its calls |
| CutShort.CutShortLegality | backend/app/assistant/service.py:379-413 | Under every budget, at every later turn and in every round of it: after a round cut short by the call cap a request is legal if and only if the summary has folded its announcement, or there is no room for that round and everything behind it |
| CutShort.KeptExactlyWhenBroken | backend/app/assistant/service.py:189-208 | What the trim keeps of a log with an unanswered call answers its calls if and only if the break and everything behind it do not fit |
| MessageSequence.RowNumberIsRank | backend/migrations/versions/20260829_0018_assistant_message_sequence.py:46-56 | In any correct ordering of a conversation the row number of a row is its correlated count |
| MessageSequence.RanksArePermutation | backend/migrations/versions/20260829_0018_assistant_message_sequence.py:63-77 | The counts of a conversation are a permutation of 1 to n that follows creation time, and id among equals |
| MessageSequence.AssistantMessages.BackfillByCount | backend/migrations/versions/20260829_0018_assistant_message_sequence.py:62-77 | The in-place update by counting numbers every conversation from 1 to its length, each position once, in order of creation time and of id among equals, and changes nothing else |
| MessageSequence.AssistantMessages.BackfillByWindow | backend/migrations/versions/20260829_0018_assistant_message_sequence.py:44-57 | So does the in-place update by row number, which leaves the very same table |
| MessageSequence.AssistantMessages.NextSequence | backend/app/repositories/assistant.py:151-164 | The next position is one above the highest of the conversation, 1 in an empty one |
| MessageSequence.AssistantMessages.Add | backend/app/repositories/assistant.py:130-149 | A new message comes last, the others keep their places, positions stay unique |
| Telnet.TelnetTerminalSession.ConsumeBytes | backend/app/drivers/telnet.py:78-115 | The index loop computes payload, replies and pending fragment as the stream laws describe them |
| Telnet.TelnetTerminalSession.Read | backend/app/drivers/telnet.py:61-76 | Reads go on until there is payload or the stream ends; carried bytes are prepended; replies are sent in order |
| Telnet.TelnetTerminalSession.FindPair | backend/app/drivers/telnet.py:99-101 | The search for the end of a subnegotiation finds the first byte pair 255 240 |
| TelnetStream.ConsumeSplits | backend/app/drivers/telnet.py:78-115 | Consuming a piece and then its pending bytes with the next piece is consuming both at once |
| TelnetStream.ChunksDoNotMatter | backend/app/drivers/telnet.py:61-115 | For every byte string and every split into reads: same payload, same replies, same pending fragment |
| TelnetStream.PendingIsStable | backend/app/drivers/telnet.py:90-111 | A pending fragment alone yields nothing and stays pending |
| TelnetStream.RoundTrip | backend/app/drivers/telnet.py:78-127 | Encoding any elements and consuming them yields their data in order and nothing pending; WILL 1 and WILL 3 draw DO, any other WILL draws DONT, DO draws WONT, all with the option asked, and nothing else draws anything |
| TelnetStream.RepliesAreDue | backend/app/drivers/telnet.py:78-127 | Every input is made of such elements and the beginning of one more; its output and its replies are exactly theirs |
| TelnetStream.SubnegotiationEnds | backend/app/drivers/telnet.py:98-106 | A subnegotiation whose body has no pair 255 240 is skipped to its end and no further |
| TelnetStream.RepliesAreAnswers | backend/app/drivers/telnet.py:117-127 | For every input the replies are three-byte DO, DONT or WONT commands, exactly those due to its elements |
| TelnetStream.AnswersAreAnswered | backend/app/drivers/telnet.py:117-127 | Such replies fed to a second instance give no payload and only WONT |
| TelnetStream.RefusalsAreFinal | backend/app/drivers/telnet.py:117-127 | Refusals fed back give nothing |
| TelnetStream.ExchangeIsFinite | backend/app/drivers/telnet.py:107-127 | From any input the negotiation between two instances dies out |
| Text.NormalizeComparesWords | backend/app/changes/types.py:137-144 | Two lines normalise alike if and only if their lowered words are the same |
| Text.PrefixByWords | backend/app/drivers/base.py:229-241 | A normalised line starts with a normalised prefix if and only if its words do, the last one as a prefix |
| VlanList.ExpandVlanList | backend/app/changes/types.py:70-91 | The accumulating loop computes the set a list names |
| VlanList.ExpandOfWord | backend/app/changes/types.py:78-82 | The words a device prints in place of a list: ALL is 1 to 4094, NONE and nothing at all are no id |
| VlanList.VlanListIssues | backend/app/changes/types.py:94-106 | Nothing is wrong if and only if every part is an id or a forward range within 1 to 4094; which fault is reported when |
| VlanList.AcceptedListDenotes | backend/app/changes/types.py:94-106 | An accepted list names a non-empty subset of 1 to 4094 |
| VlanList.PrintedListExpands | backend/app/changes/types.py:70-106 | A list printed from any ranges, in any order and either spelling, is accepted and expands to exactly those ids |
| VlanList.ReRangingKeepsMeaning | backend/app/changes/types.py:70-77 | Two printed lists expand alike if and only if their ranges denote the same ids |
| Spellings.SameExactlyWhenAlike | backend/app/changes/types.py:35-60 | Two interface names, spelled long or short and in any case, are taken for the same interface if and only if their type and place agree |
| RouterBlocks.FindRemoteAs | backend/app/drivers/cisco_iosxe.py:455 | Looking up a peer's remote AS finds it whatever way the device spaces it, and only it |
| RouterBlocks.HasStatementIsIn | backend/app/drivers/base.py:225-227 | A process is said to have a statement if and only if the line is configured |
| RouterUndo.RouterNetworkRestores | backend/app/drivers/cisco_iosxe.py:400-417 | A network statement is undone from every break-off point, whether or not it started the process |
| RouterUndo.RouterNetworkRemoveRestores | backend/app/drivers/cisco_iosxe.py:419-427 | A withdrawn statement is put back from every break-off point |
| RouterUndo.RipVersionRestores | backend/app/drivers/cisco_iosxe.py:429-441 | A RIP version change is undone, whether a version line, the default or no process was there |
| RouterUndo.BgpNeighborRestores | backend/app/drivers/cisco_iosxe.py:443-469 | A neighbour change is undone if every line of the peer is its remote AS, and otherwise is not |
| RouterUndo.BgpMayEnter | backend/app/drivers/cisco_iosxe.py:665-676 | A validated neighbour never makes the device refuse the process for a second local AS |
| PortUndo.StaticRouteRestores | backend/app/drivers/cisco_iosxe.py:381-398 | The rendered commands of a static route, each sent as one line, are undone if its line was not configured or is the one replaced, and otherwise are not; RouteIsClean says when they are sent so |
| PortUndo.TrunkVlansRestores | backend/app/drivers/cisco_iosxe.py:348-379 | A trunk change is undone if some VLAN was allowed and the port was a trunk or past negotiating, and otherwise is not |
| PortUndo.AccessVlanRestores | backend/app/drivers/cisco_iosxe.py:329-346 | An access VLAN change is undone if the port was an access port in a listed or the default VLAN, and otherwise is not |
| PortUndo.AdminStateRestores | backend/app/drivers/cisco_iosxe.py:272-284 | An administrative state is undone if the port was shut down or had its line up, and otherwise is not |
| PortUndo.DescriptionRestores | backend/app/drivers/cisco_iosxe.py:261-271 | A description change is always undone |
| PortUndo.VlanNameRestores | backend/app/drivers/cisco_iosxe.py:313-327 | A rename goes back to the old name, a creation back to no VLAN |
| PortUndo.HostnameRestores | backend/app/drivers/cisco_iosxe.py:301-311 | A readable host name is always put back |
| PortUndo.DomainLookupRestores | backend/app/drivers/cisco_iosxe.py:287-299 | Name look-up is always put back |
| CommandLine.LineDoes | backend/app/drivers/transport.py:70-79 | Every command the driver renders is read back from its line as itself, whatever white space stands around it: sending the line does what the command does |
| StoredText.StoredSpells | backend/app/changes/service.py:395-396 | Stored and split again, the texts of a batch spell exactly its commands, blank lines aside, if each of them has no white space but blanks, line breaks at its end aside |
| StoredText.SentAsCommands | backend/app/changes/service.py:427-428 | Then sending the lines does what the commands do, and a change is undone, from every break-off point between lines, as the commands are |
| Lines.SurvivesExactlyWhenOneLine | backend/app/changes/service.py:427-428 | Lines joined by newlines split back as they were if and only if none holds a line break |
| ChangeLines.StoredChangeSurvives | backend/app/changes/service.py:395-396 | The stored text of a validated change gives back its commands and inverse, text for text, if and only if no host name or next hop was typed with a line break |
| ChangeLines.ChangeIsSent | backend/app/changes/service.py:427-428 | Every command and inverse of a validated change is complete, and all of them are sent as rendered if and only if no next hop was typed with white space other than blanks around it and line breaks behind it |
| RouteLines.RouteIsClean | backend/app/drivers/cisco_iosxe.py:384-388 | The line of a static route and its negation are sent as rendered if and only if the next hop is clean: blanks in front of it, blanks and line breaks behind it |
| BrokenRoute.UncleanRouteIsRefused | backend/app/drivers/cisco_iosxe.py:588-598 | With any other white space around the next hop the push is refused and so is the rollback; exactly which routes are left, and that a replaced one is lost |
| BrokenRoute.LeadingBreakIsAccepted | backend/app/drivers/cisco_iosxe.py:588-598 | A line break in front of a valid next hop passes validation and is sent as two lines, of which the first is refused |
| BrokenRoute.OneBrokenRoute | backend/app/drivers/cisco_iosxe.py:588-598 | One such route, accepted for every device, whose push and rollback every device refuses |
| Rollback.RollbackExactlyWhen | backend/app/drivers/cisco_iosxe.py:237-469 | For every configuration, validated step and read-back, of the lines that are stored and sent: the inverse completes and restores the configuration after any number of lines got in if and only if the step is restorable; the completed change is lost on the way back if and only if it was typed cleanly and is not; push and inverse are both refused if and only if it was not typed cleanly |
| PushEffect.PushDoesExactly | backend/app/drivers/cisco_iosxe.py:237-469 | For every configuration, validated step of each of the twelve types and read-back: the lines that are sent set what the step asks for and change nothing else in the configuration, if and only if it was typed cleanly |
| PushEffect.EncapsulationIsNeeded | backend/app/drivers/cisco_iosxe.py:348-379 | A port that still negotiates its encapsulation would not become a trunk without the command in front |
| PushEffect.WithdrawalIsNeeded | backend/app/drivers/cisco_iosxe.py:443-469 | A second remote AS for a peer would be refused without the withdrawal in front |
| PushEffect.OneBgpProcess | backend/app/drivers/cisco_iosxe.py:663-677 | A second BGP process is refused by the device, which is why validation refuses it |
| Validation.AcceptsExactlySensible | backend/app/drivers/cisco_iosxe.py:471-693 | Whatever way the device prints its configuration, validation passes exactly the well-formed steps that the device can take: for router blocks those that would change something and name no second BGP process |
| Shapes.AddressesAreAddresses | backend/app/drivers/cisco_iosxe.py:789-793 | An address is accepted if and only if it is printed from four numbers up to 255 |
| Shapes.ProcessesAreProcesses | backend/app/changes/types.py:147-212 | A routing process is accepted if and only if it is rip, or ospf or eigrp with a numeral from 1 to 65535; a BGP process if and only if its numeral is 1 to 4294967295 |
| Shapes.ListsAreLists | backend/app/changes/types.py:94-106 | A trunk list is accepted if and only if it is printed from ids and ordered pairs of ids, of at most four digits, from 1 to 4094 |
| Shapes.HostnamesAreHostnames | backend/app/drivers/cisco_iosxe.py:519-533 | A host name is accepted if and only if it is a letter and then letters, digits and hyphens, 63 characters in all, or that with one line break behind it |
| Validation.RouterChangesAct | backend/app/drivers/cisco_iosxe.py:613-619 | A validated change of a router block always changes the configuration |
| Validation.SameHostnameIsAccepted | backend/app/drivers/cisco_iosxe.py:519-533 | A host name change to the present name is accepted and changes nothing |
| ReadBack.CheckExactlyWhenInPlace | backend/app/changes/service.py:104-163 | For every configuration and every read-back of it, whatever was sent before: the check passes if and only if the configuration has what the step of each of the twelve types asks for; of an access VLAN this is so for an access port, of a route when those for the prefix agree |
| ReadBack.RouteListings | backend/app/changes/service.py:133-136 | Some listing of the routes passes if and only if one for the prefix leads to the next hop, and every listing if and only if there are some and all do |
| ReadBack.AccessListings | backend/app/changes/service.py:114-118 | For a port that is no access port some listing fails, and some passes if and only if the switch has the VLAN |
| PostCheck.PostCheckExactly | backend/app/changes/service.py:104-163 | Once all lines were accepted, the stated conditions hold if and only if the check passes whatever order, spacing and ranges the device prints; if they do not, no read-back passes, unless it is of a static route with alternatives |
| PostCheck.PushCompletes | backend/app/drivers/transport.py:70-79 | All lines of a validated change are accepted if and only if it was typed cleanly, and then do what its commands do |
| PostCheck.RouteConfirmedExactly | backend/app/changes/service.py:133-136 | A static route is confirmable if and only if its lines are accepted and every listing the device may print afterwards passes the check |
| PostCheck.AlternativesCanFail | backend/app/changes/service.py:133-136 | If another route for the prefix to another next hop remains, some listing of the device fails the check |
| CliParsers.ParseRoutingProcesses | backend/app/drivers/cisco_iosxe.py:968-998 | The line loop computes the blocks the round trip is about |
| CliParsers.BlocksRoundTrip | backend/app/drivers/cisco_iosxe.py:968-998 | Printing any blocks with blank and exclamation-mark lines anywhere, each line ended by a newline or a carriage return and newline and the last possibly by nothing, and parsing recovers exactly the blocks |
| CliParsers.ParseSwitchports | backend/app/drivers/cisco_iosxe.py:895-938 | The line loop with its fields and last label computes the listing the wrap law is about |
| CliParsers.WrappingDoesNotMatter | backend/app/drivers/cisco_iosxe.py:918-935 | However many values of a listing are wrapped onto however many further lines, indented in any way, the same switchports are read |
| VlanBrief.ParseShowVlanBrief | backend/app/drivers/cisco_iosxe.py:843-875 | The line loop computes the rows the wrap law is about |
| VlanBrief.BreakingDoesNotMatter | backend/app/drivers/cisco_iosxe.py:855-866 | However many port lists of a listing are broken, however often, after their commas, in place of them or right behind the status, the same VLANs and ports are read |
| RunningConfig.ParseStaticRoutes | backend/app/drivers/cisco_iosxe.py:944-965 | The line loop computes the list of routes the lines hold |
| RunningConfig.RouteIsRead | backend/app/drivers/cisco_iosxe.py:944-947 | A route as a device holds it is read field by field if its destination and mask are dotted, and skipped otherwise, as those of a vrf are |
| RunningConfig.RoutesAreReported | backend/app/drivers/cisco_iosxe.py:950-965 | The routes of a configuration printed in any order among other lines, whatever white space stands around them and however lines end, are parsed into a true report of the configuration |
| RunningConfig.RoutersAreReported | backend/app/drivers/cisco_iosxe.py:968-998 | The router blocks of a configuration, they and their lines in any order, are parsed into a true report of the configuration |
| VlanListing.RowsRoundTrip | backend/app/drivers/cisco_iosxe.py:839-879 | Printing rows of `show vlan brief` with any column widths, broken in any way the wrap law covers, and parsing recovers every row |
| VlanListing.PortsContinue | backend/app/drivers/cisco_iosxe.py:855-866 | A line that lists ports behind white space continues the row above it |
| VlanListing.VlansAreReported | backend/app/drivers/cisco_iosxe.py:843-879 | If the rows are the VLANs of a configuration, what is parsed is a true report of them, and of the access ports in them |
| SwitchportListing.SwitchportsRoundTrip | backend/app/drivers/cisco_iosxe.py:895-938 | Printing ports field by field, in any order of fields, wrapped in any way, and parsing recovers every port |
| SwitchportListing.SwitchportsAreReported | backend/app/drivers/cisco_iosxe.py:895-938 | If they are the ports of a configuration, what is parsed is a true report of it |
| PlanRun.NextKeeps | backend/app/changes/service.py:407-552 | Every step of every concurrent call keeps the plan's invariant: one live call, log and device in step with its phase |
| PlanRun.SentAtMostOnce | backend/app/changes/service.py:443-545 | Under any calls and failures commands go out at most once, the inverse at most once and only behind a failed or unconfirmed push; applied means confirmed and not rolled back |
| PlanRun.RolledBackMeansRestored | backend/app/changes/service.py:524-547 | A plan recorded as rolled back has left the device as it was, if the change can be restored |
| PlanRun.StatusOnlyAdvances | backend/app/changes/service.py:409-412 | No step returns a plan to draft or leaves a final state |
| PlanRun.FinalIsFinal | backend/app/changes/service.py:407-412 | The same over runs, device included |
| PlanRun.StuckExactlyByAccident | backend/app/changes/service.py:414-426 | With no call live, a plan is still being applied if and only if a failure outside the guarded part struck |
| PlanRun.SnapshotFailureSticks | backend/app/changes/service.py:517-521 | A failing snapshot leaves a confirmed change with the plan still being applied |
| PlanRun.UndisturbedApplies | backend/app/changes/service.py:480-522 | An undisturbed call with a passing check ends applied |
| ChangeService.ChangeService.Apply | backend/app/changes/service.py:407-552 | One call, step by step, is a run of the state machine; exactly when it ends in each status; a rollback restores |
| PlanOutcome.ValidatedPlanIsSafe | backend/app/changes/service.py:334-358 | For a validated step, stored and split again, under any calls and failures: applied means that the device took all of the commands just as rendered; if it is restorable, every other final state but a failed rollback means that it took none |
| PlanOutcome.UndisturbedOutcome | backend/app/changes/service.py:430-492 | An undisturbed call applies a validated plan, whatever way the device prints its configuration, if and only if the check can confirm it; if it cannot, no printing lets it be applied, unless it is of a static route with alternatives; if not applied, it leaves the configuration as it was if and only if the change is restorable, and a change not typed cleanly ends in a failed rollback |
| PlanOutcome.RouteAppliesExactly | backend/app/changes/service.py:430-492 | The same for a static route without supposing any read-back: some listing always exists |

## Left out

- ReplayIsLegal: for a set limit, which is what the service always passes; without one nothing is dropped and a slice
  that opens on a tool result would be sent as it is.
- RolledBackMeansRestored: assumes that nobody else configures the device between preview and rollback.
- SplitSystem: the texts are given as a list; joining them with blank lines between, or to nothing, is left out.
- Redis keys are constructors of a datatype rather than strings; that the key strings never collide is not proved.
- Redis network faults, wrong-type replies and server restarts: the gate turns them into one error.
- Time is an integer clock that never goes back; fractions of seconds only refine it.
- Fresh identifiers (uuid4) and SHA-256 fingerprints are taken as unique; JSON encoding and decoding as inverse.
- Telnet payload stops at bytes: the incremental UTF-8 decoding of `read`, and `write`, are not modelled.
- Message lengths are counted in characters of the model's strings; redaction of payloads before storing is not modelled.
- The compaction threshold 0.8 is the exact fraction four fifths rather than its floating-point neighbour.
- Token events of a reply that breaks off are emitted, but only their lack of an end event is stated.
- Instructions for a device-scoped session are one text given from outside.
- Python's leniency in reading numbers (signs, underscores, digits outside ASCII, also in the patterns of the parsers) and case mapping outside ASCII.
- Splitting a prefix into destination and mask is done by the ipaddress library; a route step carries the two parts.
- `isprintable` is approximated by excluding control characters and all white space but the blank.
- The command line of the device is that of the commands the driver renders, unabbreviated; any other line is refused,
  a route without a next hop and its negation included. A blank line does nothing, blanks separate words, and a line
  with other white space is refused.
- The device stores what it is given: it does not abbreviate or complete interface names in a next hop, a VLAN it deletes
  is not withdrawn from ports, and withdrawing a line that is not there is accepted.
- A port's line going up or down by itself, and any other party configuring the device during a plan.
- The list of validation messages: validation is modelled by when it finds nothing, except for VLAN lists.
- Lines of `show interfaces`, `show version`, CDP and LLDP listings are not parsed; the facts they give are parameters.
- A class for the change pipeline's driver: the driver only computes, so it is modelled by functions.
- The one-apply-per-device check and the Auto-mode allowance hold only for sequential requests and are not modelled.
- Risk classification, drift checks, snapshots' contents, routes, sockets, queues, the browser client.
