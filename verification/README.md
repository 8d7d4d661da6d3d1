# A Dafny model of rethink

rethink stands in for the vendor's cloud: appliances connect to it over MQTT or a framed TCP protocol, a router is
told to redirect their traffic, and a bridge may forward to the real cloud. This project models the parts of it that
hold state over many steps, and proves what those parts keep in every run.

Verify it with `dafny verify dfyconfig.toml`.

Each component is modelled in two layers. Classes have the fields and the loops of the source; their methods are proved
to do what functions on immutable states say. Lemmas then prove the properties of those functions, over single
steps and over whole runs, in which an environment may act between any two steps.

- `MqttTopics`, `DeviceTopics`, `MqttAccess`, `MqttOwnership`, `MqttBinding`, `MqttLinks`: topic matching, which client
  may speak for which device, and what is allowed when. The inventory is an arbitrary argument of every step.
- `MqttSessions`: runs of the broker and the policy together.
- `MqttBroker`, `MqttBrokerRuns`, `MqttEffects`, `MqttConnections`: admission of connections, subscriptions, retained
  messages and their budgets, and who hears what.
- `NatTables`, `RouterWire`, `DnatRules`, `DnatExchanges`, `DnatManager`, `DnatTraffic`: a router as two chains of rules,
  a connection on which each exchange may go wrong in five ways, the commands in order with every possible answer, and
  what becomes of traffic.
- `RouterStore`, `RouterEdits`, `RouterRequests`, `RouterCycles`, `RouterReconciler`, `RouterHandlers`: the configuration file, the
  request handlers and the reconciler, as functions of the faults of router, disk and bridge.
- `RouterControl`, `RouterLeftovers`: runs of these, each an atomic step since one queue runs them all, with reboots of
  the router and restarts of the program in between: what stays off, and what is left on the router.
- `SniCertificates`, `SniScheduler`, `SniRuns`, `SniProvider`, `SourceResolver`: the two bounded schedulers.
- `Crc16`, `Mtosp`, `Frames`, `Tlv`, `PacketCodec`, `ClientHello`, `SniRouter`: wire formats.
- `EnergyMeter`, `EnergyCalendar`, `EnergyClock`, `EnergyRestarts`, `EnergyBounds`: energy totals over a calendar, under any clock, with
  failing writes and restarts.
- `BridgedDevice`: reconnection.

Where the code departs from what it is documented to do, the model follows the code, and a lemma shows the input:

- a `+` before a final `#` accepts a level that the topic lacks, and `$` topics have no special treatment
  (`MqttTopics.OverhangExample`, `MqttTopics.ReservedTopics`);
- the state `on` does not look at the jump into the chain (`DnatTraffic.OnWithoutForwarding`);
- a check that the router refuses counts as an absent rule, so `disable` may report `off` with all rules in place
  (`DnatExchanges.DisableLies`), and a channel that closes without an exit status counts as success, so `enable` may
  report `on` with none (`DnatExchanges.EnableLies`);
- a link that changes the platform of an entry that is on leaves rules on the router that no later request removes
  (`RouterCycles.StrandedForGood`);
- a release that is not recorded as an intent ends with the next restart (`RouterCycles.RestartPutsBack`), as its log
  line says;
- a lookup whose SSH client cannot be constructed keeps its slot for good (`SourceResolver.TwoFailuresBlock`);
- a packet to a device that starts with 0xaa and whose CRC ends with 0xbb decodes as an AABB packet
  (`PacketCodec.TakenForAabb`), and an AABB packet with an empty body, which devices accept, is not decoded;
- a server name that comes after 8192 bytes is found or not depending on the chunks (`SniRouter.ChunksCanMatter`);
- a clock that runs backwards makes quarter hours count again (`EnergyBounds.ClockJumps`), and a restart after a failed
  write loses what was counted since (`EnergyRestarts.RestartLosesReport`);
- a reconnect that is asked for while the timer is pending leaves the timer running (`BridgedDevice.OneOrTheOther`);
- a session that the inventory no longer sanctions is revoked when it is next asked about, not at once.

Integers stand for the source's numbers where they stay below 2^53. Shifts and masks are written as division,
remainder and, for exclusive or, operations on binary digits (`Crc16.MaskedXor`).

## Model

| member | source | states |
|---|---|---|
| `MqttOwnership.DeviceExclusivity` | cloud/mqtt-access.ts:114-281 | in every run, whatever the inventory does between steps, two admitted, unrevoked appliance sessions bound to one device id belong to one inventory entry |
| `MqttOwnership.OneDeviceOneEntry` | cloud/mqtt-access.ts:217-270 | the same for any two clients that were ever allowed to speak for a device and still may |
| `MqttOwnership.RunKeepsInv` | cloud/mqtt-access.ts:114-281 | every run keeps: no claim is empty, no id is claimed twice, every claimant is an appliance session of that entry bound to that id, and every bound, unrevoked session takes part in its claim |
| `MqttOwnership.NextKeepsInv` | cloud/mqtt-access.ts:132-281 | each of connect, publish, subscribe, deliver and disconnect keeps that invariant under an arbitrary inventory |
| `MqttOwnership.RunEvolves` | cloud/mqtt-access.ts:195-241 | along any run a session keeps its id once it is written and its revocation once it is recorded, and does not come back once it is gone |
| `MqttOwnership.RevokedForGood` | cloud/mqtt-access.ts:195-215 | once revoked, no later publish, subscribe or delivery of the session is allowed, whatever later inventories say |
| `MqttOwnership.FailedCheckRevokes` | cloud/mqtt-access.ts:195-270 | an operation of an appliance leaves its session revoked if and only if it was, or the policy asked whether it is current and it is not; such an operation is refused |
| `MqttOwnership.FailedCheckIsFinal` | cloud/mqtt-access.ts:195-270 | after such a check nothing that client tries is ever allowed, whatever happens in between |
| `MqttOwnership.UnlinkCutsOff` | cloud/mqtt-access.ts:195-241 | a bound, linked session is allowed nothing under an inventory that no longer lists its entry with its address and its id |
| `MqttOwnership.AllowedCarriesId` | cloud/mqtt-access.ts:243-270 | an allowed publish, subscribe or delivery names the session's own device, leaves the session bound to it, and is sanctioned by the inventory of that moment |
| `MqttOwnership.BindSucceedsIff` | cloud/mqtt-access.ts:217-241 | a bind succeeds if and only if the inventory agrees and, among claimants that are still current, exactly those of this entry have this id |
| `MqttBinding.CurrentIs` | cloud/mqtt-access.ts:195-215 | a session is current if and only if it is not revoked and the only entry of its name is the only one at its address, is open to links, and does not contradict what the session is bound to or linked by; that entry is the answer |
| `MqttBinding.BindDoes` | cloud/mqtt-access.ts:217-241 | a bind succeeds if and only if sessions, claims and inventory allow it; it writes the id, and the linked mark if and only if it was there or the entry has a device; a failing bind only records what asking found |
| `MqttBinding.BindLasts` | cloud/mqtt-access.ts:195-241 | under the inventory that allowed it a bound session stays current, for the same entry |
| `MqttBinding.BindsAgain` | cloud/mqtt-access.ts:217-241 | and the same bind succeeds again |
| `MqttBinding.BindClaims` | cloud/mqtt-access.ts:217-241 | after a bind exactly the claimants that are current remain, and the client is one for its entry |
| `MqttBinding.AccountIs` | cloud/mqtt-access.ts:137-142 | the account found is the last one with this name and this password, if there is one |
| `MqttBinding.PublishAllowedIff` | cloud/mqtt-access.ts:243-254 | who may publish what: a diagnostic account with the write flag to its devices, unretained; an appliance that may bind, and before it has an id only to provision |
| `MqttBinding.SubscribeAllowedIff` | cloud/mqtt-access.ts:256-262 | who may subscribe to what |
| `MqttBinding.DeliverAllowedIff` | cloud/mqtt-access.ts:264-270 | to whom what is delivered |
| `MqttBinding.AllowedAgain` | cloud/mqtt-access.ts:243-270 | an operation that an appliance was allowed is allowed again under the same inventory |
| `MqttLinks.DiagnosticAdmittedIff` | cloud/mqtt-access.ts:132-151 | a diagnostic account is admitted if and only if it comes over TLS without a will and one account has its name and password, and is that account from then on |
| `MqttLinks.ApplianceAdmittedIff` | cloud/mqtt-access.ts:152-193 | an appliance is admitted if and only if the inventory admits its address, it may bind the device of that entry, and its will, if any, is a publication that it may make |
| `MqttLinks.DisconnectDoes` | cloud/mqtt-access.ts:272-281 | leaving takes the client, and nobody else, from the sessions and the claims |
| `MqttLinks.NextLinks` | cloud/mqtt-access.ts:132-281 | each event leaves each session linked if and only if it was, was opened on an entry with a device, or was asked about and found current with an id on such an entry |
| `MqttLinks.LinkedIff` | cloud/mqtt-access.ts:132-281 | over every run: a session is linked if and only if one of its events did that |
| `MqttSessions.CallsAreLegal` | cloud/mqtt-broker.ts:248-336 | in every run of broker and policy together, the broker asks the policy about each connect packet once, about operations of admitted clients only, and tells it of each end once |
| `MqttSessions.ActiveExclusivity` | cloud/mqtt-broker.ts:191-408 | in every such run, two clients that the broker has active and whose unrevoked sessions are bound to one device belong to one inventory entry |
| `MqttAccess.DeviceMqttAccess.constructor` | cloud/mqtt-access.ts:114-131 | no sessions and no claims at first |
| `MqttAccess.DeviceMqttAccess.Current` | cloud/mqtt-access.ts:195-215 | the inventory entry the session still answers for; otherwise the session is revoked in place, and an entry that names a device marks it linked |
| `MqttAccess.DeviceMqttAccess.Purge` | cloud/mqtt-access.ts:223-230 | purging, claim by claim and client by client, keeps exactly the claims with a current client and asks every claimant once |
| `MqttAccess.DeviceMqttAccess.Bind` | cloud/mqtt-access.ts:217-241 | the result and the whole new state of a bind, failing checks included |
| `MqttAccess.DeviceMqttAccess.Publish` | cloud/mqtt-access.ts:243-254 | the answer to a publication and the state it leaves, for appliances and diagnostic accounts |
| `MqttAccess.DeviceMqttAccess.Subscribe` | cloud/mqtt-access.ts:256-262 | the answer to a subscription and the state it leaves |
| `MqttAccess.DeviceMqttAccess.Deliver` | cloud/mqtt-access.ts:264-270 | the answer to a delivery and the state it leaves |
| `MqttAccess.DeviceMqttAccess.Disconnect` | cloud/mqtt-access.ts:272-281 | the session goes, and its claim when it was the last claimant |
| `MqttAccess.DeviceMqttAccess.Connect` | cloud/mqtt-access.ts:132-193 | admission of diagnostic accounts and appliances, the will included, with every refusal |
| `MqttAccess.MatchAccount` | cloud/mqtt-access.ts:137-142 | all accounts are compared and the last that matches wins |
| `DeviceTopics.ParsesExactly` | cloud/mqtt-access.ts:54-61 | a topic parses to a kind and id if and only if it is plain and its levels name one safe device in the exact layout of that kind |
| `DeviceTopics.OwnTopics` | cloud/mqtt-access.ts:54-61 | the three topics of a device, written out, are parsed to its id and their kind |
| `MqttTopics.MqttTopicMatches` | cloud/mqtt-broker.ts:41-53 | the index loop computes the level-wise relation of section 4.7.1 of MQTT 3.1.1, and besides accepts a `+` before a final `#` that stands past the last level; a malformed filter matches nothing |
| `MqttTopics.MatchesInPlace` | cloud/mqtt-broker.ts:41-53 | the recursive reading of section 4.7.1 equals its reading by positions |
| `MqttTopics.OverhangIsNoMatch` | cloud/mqtt-broker.ts:41-53 | where the matcher accepts an overhang the standard does not match |
| `MqttTopics.FaithfulFilters` | cloud/mqtt-broker.ts:41-53 | a well-formed filter is treated as the standard treats it for every topic name if and only if it does not end in `+/#` after at least one level, or is `/+/#`, which only the empty string overhangs |
| `MqttTopics.OverhangExample` | cloud/mqtt-broker.ts:41-53 | `a/+/#` is told to match `a`, which the standard does not allow |
| `MqttTopics.ReservedTopics` | cloud/mqtt-broker.ts:41-53 | section 4.7.2 is absent: a well-formed filter obeys it for every topic name if and only if it does not start with a wildcard |
| `MqttTopics.LevelsJoin` | cloud/mqtt-broker.ts:41-46 | splitting at `/` and joining gives the topic back |
| `MqttTopics.ValidFilterIff` | cloud/mqtt-broker.ts:18-30 | a filter is valid if and only if it has 1 to 1024 bytes, no NUL, each `+` alone between slashes, and `#` so at the end only |
| `MqttBrokerRuns.EveryRun` | cloud/mqtt-broker.ts:191-344 | in every reachable state the shared budget equals the sums over clients and stays within 4096 and 1 MiB, retained bytes equal the sum of stored sizes within 1024 topics and 8 MiB, the pending are exactly the new and unanswered clients and at most 64, and every client obeys the admission machine |
| `MqttBrokerRuns.NextKeepsInv` | cloud/mqtt-broker.ts:202-336 | every event of a connection, and every publication by the server itself, keeps that invariant |
| `MqttBrokerRuns.GrantedAllSettles` | cloud/mqtt-broker.ts:114-143 | granting moves the shared budget by what it moves the client's subscriptions, and keeps all three limits |
| `MqttBrokerRuns.GrantCodes` | cloud/mqtt-broker.ts:117-133 | a SUBACK has one code a filter, and what was granted is subscribed |
| `MqttBrokerRuns.OnlyGrantedIsAdded` | cloud/mqtt-broker.ts:117-133 | nothing is subscribed that was not granted |
| `MqttBrokerRuns.DroppedAllSettles` | cloud/mqtt-broker.ts:145-154 | unsubscribing gives back exactly what it removes |
| `MqttBrokerRuns.RetainedIs` | cloud/mqtt-broker.ts:383-408 | a retained publication erases, replaces, or, when it would not fit, leaves the previous packet; other topics are untouched |
| `MqttBrokerRuns.PerformedAllIsOk` | cloud/mqtt-broker.ts:272-279 | queued operations run in arrival order, once each, for as long as the client is active |
| `MqttEffects.PublishDoes` | cloud/mqtt-broker.ts:283-292 | an allowed publication of an active client is retained as the limits of 1024 topics and 8 MiB allow, erases its topic when it is empty, touches no other topic and no other client; one that is not allowed ends its client |
| `MqttEffects.PublishHeard` | cloud/mqtt-broker.ts:179-182 | it goes to exactly the active clients with a matching filter that the policy lets have it |
| `MqttEffects.ServerPublishDoes` | cloud/mqtt-broker.ts:373-408 | the server's own publications are retained alike |
| `MqttEffects.SubscribeDoes` | cloud/mqtt-broker.ts:114-133 | each filter of a SUBSCRIBE is added if and only if it is valid and allowed, new to the client, and within 128 a client, 4096 in all and 1 MiB; nobody else is affected |
| `MqttEffects.SubackCodes` | cloud/mqtt-broker.ts:117-134 | and its code is 0 if the client may have it or has it, and otherwise 128 |
| `MqttEffects.SubscribeReplays` | cloud/mqtt-broker.ts:135-142 | exactly the retained packets that the client listens to now and did not before follow, in store order |
| `MqttEffects.UnsubscribeDoes` | cloud/mqtt-broker.ts:145-154 | an UNSUBSCRIBE takes away its topics and nothing else |
| `MqttEffects.WillHeard` | cloud/mqtt-broker.ts:318-335 | an active client that ends without saying so has its will sent, unretained, to exactly the others that listen, if the policy allows it |
| `MqttEffects.WaitingDoes` | cloud/mqtt-broker.ts:232-247 | before its answer a client may have eight operations of 64 KiB in all waiting; any other ends it |
| `MqttEffects.ConnectDoes` | cloud/mqtt-broker.ts:248-254 | the first CONNECT awaits its answer, and any other ends the client |
| `MqttEffects.DataDoes` | cloud/mqtt-broker.ts:209-214 | more than 64 KiB before the answer end the client |
| `MqttEffects.RefusalDoes` | cloud/mqtt-broker.ts:256-263 | a refused client gets code 5 and ends without its will and without running anything |
| `MqttEffects.AnswerDoes` | cloud/mqtt-broker.ts:264-282 | waiting makes no difference: an admitted client ends up, with its will, store and everybody else, as if it had sent the operations that waited after its answer, in that order |
| `MqttEffects.AnswerStops` | cloud/mqtt-broker.ts:264-282 | and with a listener or an exception that ends it, as if its connection had broken after that many |
| `MqttEffects.EndDoes` | cloud/mqtt-broker.ts:156-177 | an end takes the client's subscriptions, and its will counts if and only if it was active and said nothing |
| `MqttEffects.AcceptDoes` | cloud/mqtt-broker.ts:202-231 | a connection is accepted unless 64 wait for their answer |
| `MqttConnections.Broker.Accept` | cloud/mqtt-broker.ts:202-231 | a connection is refused at 64 pending ones, and otherwise added as new |
| `MqttConnections.Broker.Grant` | cloud/mqtt-broker.ts:117-133 | one filter of a SUBSCRIBE, with its code and the new budget |
| `MqttConnections.Broker.Subscribe` | cloud/mqtt-broker.ts:114-143 | codes in order, and the retained packets replayed: those for the new filters that no earlier filter covered and the policy lets through, in store order |
| `MqttConnections.Broker.Unsubscribe` | cloud/mqtt-broker.ts:145-148 | the topics of an UNSUBSCRIBE, one by one |
| `MqttConnections.Broker.RemoveSubscription` | cloud/mqtt-broker.ts:150-154 | one subscription and its share of the budget |
| `MqttConnections.Broker.Destroy` | cloud/mqtt-broker.ts:156-177 | the end of a client, once: its subscriptions are given back, and after an active, non-graceful end its will goes to those who listen |
| `MqttConnections.Broker.LastWord` | cloud/mqtt-broker.ts:318-335 | the will of a client that has ended goes to the others who listen, if the policy lets it be published |
| `MqttConnections.Broker.TryPublish` | cloud/mqtt-broker.ts:179-182 | a packet is sent to an active client with a matching filter when the policy allows the delivery |
| `MqttConnections.Broker.PublishAllowed` | cloud/mqtt-broker.ts:378-408 | a packet goes to exactly those clients, and the retained store follows it |
| `MqttConnections.Broker.Retain` | cloud/mqtt-broker.ts:383-408 | the retained store after a publication |
| `MqttConnections.Broker.Run` | cloud/mqtt-broker.ts:283-306 | one operation of an active client: the new state, and what goes out: to whom a publication goes, or codes and replayed packets |
| `MqttConnections.Broker.Operation` | cloud/mqtt-broker.ts:232-247 | run, deferred within 8 packets and 64 KiB, or the end of the client, and what goes out |
| `MqttConnections.Broker.OnConnect` | cloud/mqtt-broker.ts:248-254 | a second CONNECT ends the client |
| `MqttConnections.Broker.OnAnswer` | cloud/mqtt-broker.ts:256-282 | refusal with code 5, or CONNACK 0 and the deferred operations in order, up to where a listener ends the client or an operation throws, and what goes out in which order |
| `MqttConnections.Broker.OnData` | cloud/mqtt-broker.ts:209-214 | more than 64 KiB before admission end the client |
| `DnatManager.HasRule` | router/dnat-manager.ts:132-135 | every sequence of answers: a lost one is an error, a refused check counts as absent and one without an exit status as present; `absent` and `present` are each right exactly when no such answer was wrong |
| `DnatManager.DeviceStatus` | router/dnat-manager.ts:120-130 | the state from both rules, whatever is answered, and when it is right |
| `DnatManager.EnsureChain` | router/dnat-manager.ts:109-118 | the exchanges that see to the chain and its jump; when nothing fails both are there, and nothing else is new |
| `DnatManager.Place` | router/dnat-manager.ts:68-80 | the loop over the ports, and all of `enable` before its status |
| `DnatManager.Enable` | router/dnat-manager.ts:68-85 | result and tables for every fault of every exchange; at whatever command it fails only a jump at the head and the device's own rules at the end are new |
| `DnatManager.Clean` | router/dnat-manager.ts:87-103 | the loops over ports and chains, and all of `disable` before its status |
| `DnatManager.RemoveCopies` | router/dnat-manager.ts:93-101 | the inner loop: up to ten copies of a rule from one chain, whatever is answered |
| `DnatManager.Disable` | router/dnat-manager.ts:87-107 | result and tables for every fault of every exchange; at whatever command it fails all other rules stay in order |
| `DnatExchanges.StatusTells` | router/dnat-manager.ts:120-135 | a state `off` is right if and only if none of its four checks was refused for a rule that was there, and a state `on` if and only if none of its checks came without an exit status for a rule that was not there |
| `DnatExchanges.StatedIsTrue` | router/dnat-manager.ts:120-135 | in particular, a state `on` is right when every answer came with an exit status |
| `DnatExchanges.EnableGrows` | router/dnat-manager.ts:68-85 | at whatever exchange enabling fails, and whatever was answered, only a jump at the head and the device's own rules at the end are new |
| `DnatExchanges.EnableTells` | router/dnat-manager.ts:68-118 | after a successful enable both rules are in place if and only if its last checks were not feigned in that way, and the chain is in force if and only if its jump was not |
| `DnatExchanges.EnableFine` | router/dnat-manager.ts:68-85 | when no command fails, enabling succeeds and adds exactly the missing rules |
| `DnatExchanges.DisablePrunes` | router/dnat-manager.ts:87-107 | at whatever exchange disabling fails, all other rules stay in order and none becomes more |
| `DnatExchanges.DisableFine` | router/dnat-manager.ts:87-107 | when no command fails, ten copies of each rule go from each chain, and that is a success if and only if there were no more |
| `DnatExchanges.DisableTells` | router/dnat-manager.ts:87-107 | a disable that reports `off` is right if and only if none of its last four checks was refused for a rule that was still there |
| `DnatExchanges.EnableForgets` | router/dnat-manager.ts:68-85 | a successful enable makes the router forget the device's open connections to both ports, each if and only if its command took effect, and no others |
| `DnatExchanges.DisableForgets` | router/dnat-manager.ts:87-107 | and so does a successful disable |
| `DnatExchanges.DisableLies` | router/dnat-manager.ts:87-107 | a router that lets the client in and refuses every command is reported `off` with all its rules in place |
| `DnatExchanges.EnableLies` | router/ssh-client.ts:65-130 | a router whose channels close without an exit status, which count as code 0, is reported `on` whatever its tables hold |
| `DnatRules.EnabledIsOn` | router/dnat-manager.ts:68-85 | after enabling the state is on |
| `DnatRules.DisabledState` | router/dnat-manager.ts:87-107 | ten copies of each rule go from each chain, so the state is off if and only if there were no more |
| `DnatTraffic.EnableTwice` | router/dnat-manager.ts:68-85 | enabling twice is enabling once |
| `DnatTraffic.OthersWhileEnabling` | router/dnat-manager.ts:68-118 | however enabling ends, connections that are not the device's go where they went, or where they would go once the chain is linked |
| `DnatTraffic.OthersWhileDisabling` | router/dnat-manager.ts:87-107 | however disabling ends, connections that are not the device's go where they went |
| `DnatTraffic.SuccessForwards` | router/dnat-manager.ts:68-118 | whatever else went wrong, a successful enable forwards the device's uncontested connections if and only if the rule stood in PREROUTING before, or neither its last check nor the jump was feigned |
| `DnatTraffic.SuccessStops` | router/dnat-manager.ts:87-107 | after a successful disable with no last check refused for a rule still there, they are left alone |
| `DnatTraffic.EnabledForwards` | router/dnat-manager.ts:68-85 | the uncontested connections of an enabled device go where its rule for them says |
| `DnatTraffic.DisabledStops` | router/dnat-manager.ts:87-107 | those of a disabled device are left alone |
| `DnatTraffic.EnabledPorts` | router/dnat-manager.ts:10-24 | an enabled ThinQ1 device's uncontested connections to 46030 and 47878 go to the same ports of the server, those of any other from 443 to 4433 and from 8883 to 8883; no other port and nobody else is affected |
| `DnatTraffic.SuccessPorts` | router/dnat-manager.ts:68-85 | the same of any successful enable, each port if and only if nothing was feigned for it |
| `DnatTraffic.DisabledPorts` | router/dnat-manager.ts:87-107 | after disabling those ports are let alone, and all other connections go where they went |
| `DnatTraffic.PortsForgotten` | router/dnat-manager.ts:68-107 | without faults exactly the open connections of the device to those ports are forgotten |
| `DnatTraffic.CopiesLeft` | router/dnat-manager.ts:93-101 | ten copies of each of those rules go from each chain, and any further ones stay |
| `DnatTraffic.OnNeedsTheJump` | router/dnat-manager.ts:120-130 | in the state on, an uncontested connection is forwarded if and only if PREROUTING has the jump or the rule itself |
| `DnatTraffic.OnWithoutForwarding` | router/dnat-manager.ts:120-130 | a router whose state is on while nothing is forwarded |
| `RouterHandlers.RouterApi.Status` | router/dnat-manager.ts:60-66 | the states of several entries, one after the other, until an answer is lost |
| `RouterHandlers.RouterApi.Reconcile` | router/dnat-reconciler.ts:70-119 | a cycle, for every fault of router and disk: status, adoption, restoring |
| `RouterHandlers.RouterApi.Adopt` | router/dnat-reconciler.ts:87-96 | intents recorded one save at a time for entries reported in place, until a save fails |
| `RouterHandlers.RouterApi.Restore` | router/dnat-reconciler.ts:98-112 | every wanted entry not reported in place is enabled in turn, whatever became of those before it |
| `RouterHandlers.RouterApi.Release` | management/router-api.ts:190-205 | every dnat-mode entry is latched before the router is touched, then one after the other is disabled until one fails; after a success all are off if and only if no last check was refused for a rule still there |
| `RouterHandlers.RouterApi.EnableDnat` | management/router-api.ts:207-222 | result and new state for every fault; after a success the entry is wanted, and both its rules are in place if and only if the last checks were not feigned |
| `RouterHandlers.RouterApi.DisableDnat` | management/router-api.ts:224-236 | result and new state for every fault; once the router has answered the latch is set, whatever the bridge and the disk do then, and a success is recorded as intent |
| `RouterHandlers.RouterApi.RequireOff` | management/router-api.ts:325-347 | an entry passes only if it is not meant to be on; it is off then if and only if no check was refused for a rule that was there; when no command fails exactly the entries that are off, or local without a configured router, pass |
| `RouterHandlers.RouterApi.Approves` | management/router-api.ts:110-132 | a mode that is one of the two, and a change of mode that was approved by name |
| `RouterHandlers.RouterApi.PermitPut` | management/router-api.ts:107-133 | everything that is checked before the store is asked |
| `RouterHandlers.RouterApi.PutDevice` | management/router-api.ts:105-140 | result and new state for every fault; success is the store's update, and a change of address or mode is only made to an entry that the router said is off |
| `RouterHandlers.RouterApi.AddDevice` | management/router-api.ts:97-103 | success if and only if the store accepts the entry and can write it; the entry is added or nothing changes |
| `RouterHandlers.RouterApi.DeleteDevice` | management/router-api.ts:142-157 | result and new state for every fault; an entry only goes when the router said it is off |
| `RouterHandlers.RouterApi.LinkDevice` | management/router-api.ts:159-178 | result and new state for every fault; linking over another device needs the router to say the entry is off |
| `RouterHandlers.RouterApi.UnlinkDevice` | management/router-api.ts:180-188 | result and new state for every fault; unlinking needs the router to say the entry is off |
| `RouterHandlers.RouterApi.SyncDevice` | management/router-api.ts:405-410 | the automatic link by source address, and then the name, with a save each if anything changes |
| `RouterHandlers.RouterApi.UpdateSettings` | management/router-api.ts:61-82 | result and new state of a request for new settings, the recovery of a host key included |
| `RouterRequests.RequireOffTells` | management/router-api.ts:325-347 | an entry that passes may change if and only if no check was refused for a rule that was there |
| `RouterRequests.EditTells` | management/router-api.ts:105-188 | the router's answer goes into every guarded edit: the entry was off if and only if no check was refused for one of its rules |
| `RouterRequests.EditFine` | management/router-api.ts:97-188 | when neither router nor disk nor bridge fails, exactly the permissible edits succeed |
| `RouterRequests.EditSucceedsIff` | management/router-api.ts:97-188 | whatever fails, an edit of a known entry succeeds if and only if its mode is known and a change of it approved as it is, the router answered off where the address, mode or link changes or goes, a device to link is connected, the bridge does not fail, the store accepts it and the file is written |
| `RouterRequests.OtherEdits` | management/router-api.ts:97-188 | an edit of an unknown entry fails and changes nothing, and adding one needs only store and file |
| `RouterRequests.SyncDoes` | management/router-api.ts:405-410 | the automatic link and name are made if and only if their writes work |
| `RouterRequests.EditLeavesNothing` | management/router-api.ts:105-188 | an entry that changes its address, mode or link, or is deleted, leaves no redirection of its address on the router, unless a check was refused for a rule that was there |
| `RouterRequests.EditIsStep` | management/router-api.ts:97-188 | every edit, whatever fails, is a step of the run model |
| `RouterRequests.SwitchOnIsStep` | management/router-api.ts:207-222 | enabling, whatever fails, is a step of the run model |
| `RouterRequests.SwitchOffIsStep` | management/router-api.ts:224-236 | and so is disabling |
| `RouterRequests.SyncIsStep` | management/router-api.ts:405-410 | and the automatic link |
| `RouterCycles.ReleaseIsStep` | management/router-api.ts:190-205 | and a release, which takes away rules of dnat-mode entries only |
| `RouterReconciler.ConfigureIsStep` | management/router-api.ts:61-82 | and a change of settings |
| `RouterRequests.SwitchOnTells` | management/router-api.ts:207-222 | intent and latch change together, and only after the router answered that both rules are in place, which is so if and only if the last checks were not feigned |
| `RouterRequests.DisableAnswers` | management/router-api.ts:224-236 | when no command fails the router answers a disable if and only if each chain had at most ten copies of each rule |
| `RouterRequests.DisableRecords` | management/router-api.ts:224-236 | a successful disable records the intent to be off |
| `RouterCycles.EachIsTried` | router/dnat-reconciler.ts:98-112 | the state of an entry in the end is the one its own attempt left, whatever became of the others; when that attempt succeeded it is on if and only if its last checks were not feigned |
| `RouterCycles.RestoreFine` | router/dnat-reconciler.ts:98-112 | when no command fails every wanted entry is on in the end |
| `RouterCycles.ReleaseLatches` | management/router-api.ts:190-205 | a release latches every dnat-mode entry, however many of the commands then fail |
| `RouterRequests.DisableLatches` | management/router-api.ts:224-236 | a disable latches the entry if the router answered, whatever the bridge and the disk do then, and otherwise changes neither intent nor latch |
| `RouterCycles.ReleaseTells` | management/router-api.ts:190-205 | after a successful release all dnat-mode entries are off if and only if no last check was refused for a rule still there |
| `RouterCycles.DisableAllFine` | management/router-api.ts:190-205 | when no command and no bridge fails a release succeeds if and only if no chain has more than ten copies of a rule |
| `RouterCycles.DisabledStaysOff` | management/router-api.ts:224-236 | from a disable that the router answered to an explicit enable no cycle adds a rule for the entry; restarts only matter when the disable was not recorded |
| `RouterCycles.ReleasedStaysOff` | management/router-api.ts:190-205 | from a release to an explicit enable, or a restart that finds no intent to be off, no cycle adds a rule for a dnat-mode entry |
| `RouterCycles.RestartPutsBack` | management/router-api.ts:197-203 | a run in which a restart lifts a release and the next cycle puts the rules back |
| `RouterCycles.StrandedForGood` | router/config-store.ts:310-331 | for every entry that is on for an unknown platform: a link that brings the other platform, then disabling and deleting all succeed and leave the former rules in force without an entry |
| `RouterReconciler.StatesTell` | router/dnat-manager.ts:60-66 | what is reported on is on if and only if none of its own checks was feigned; when no command fails every state is right |
| `RouterReconciler.OffAsTold` | router/dnat-manager.ts:60-66 | when all are reported off, each is so if and only if none of its own four checks was refused for a rule that was there |
| `RouterReconciler.AdoptTells` | router/dnat-reconciler.ts:87-96 | adoption makes exactly the unreleased entries without an intent that were reported in place wanted, up to the first save that fails, and touches nothing else |
| `RouterReconciler.CycleIsStep` | router/dnat-reconciler.ts:70-119 | whatever fails, a cycle is a step of the run model: it records intents of unreleased entries and adds rules of wanted entries, and nothing else |
| `RouterReconciler.CycleFine` | router/dnat-reconciler.ts:70-119 | when no command and no save fails, the cycle goes through, every wanted entry ends with both rules, and every unreleased entry without an intent that had both is wanted |
| `RouterReconciler.CycleServes` | router/dnat-reconciler.ts:70-119 | such a cycle puts the redirections of its platform, in port numbers, in place for every entry that is not in local mode, is wanted on and not released |
| `RouterReconciler.CycleAdopts` | router/dnat-reconciler.ts:87-96 | and makes an entry wanted whose redirections it finds and of which nothing was said |
| `RouterReconciler.CycleTriesEach` | router/dnat-reconciler.ts:84-112 | in a cycle that completes, whatever fails: a wanted entry reported on keeps its state, which is on if and only if no check was feigned; any other ends in the state its own attempt left, which after a success is on if and only if its last checks were not feigned |
| `RouterReconciler.AdoptedWasOn` | router/dnat-reconciler.ts:87-96 | an entry that a cycle adopts had both its rules in place if and only if none of its own checks was feigned |
| `RouterReconciler.ConfigureTells` | management/router-api.ts:61-82 | settings change only when no entry is meant to be on and each was off, which is so if and only if none of its checks was refused for a rule that was there |
| `RouterReconciler.ConfigureWasOff` | management/router-api.ts:61-82 | with such answers a change of settings meets the condition of the runs below |
| `RouterReconciler.ConfigureFine` | management/router-api.ts:61-82 | when nothing fails, settings change if and only if they are valid and all entries are off, or a missing host key is filled in |
| `RouterControl.StepKeepsWorldOk` | management/router-api.ts:55-236 | through every handler, cycle, reboot, restart and failing save: unique entries, addresses and links, no appliance at the router's or server's address, and no intent in local mode |
| `RouterControl.IntentHolds` | management/router-api.ts:190-236 | a recorded intent to be off outlives everything but an explicit enable, a restart included |
| `RouterControl.LatchHolds` | management/router-api.ts:190-236 | only an explicit enable, or a restart, lifts the latch of a released or disabled entry, and a restart if and only if no intent to be off is recorded |
| `RouterControl.LatchedThroughout` | management/router-api.ts:190-236 | in any run, from the latch to an explicit enable or a restart that finds no such intent, no cycle adds a rule for the entry |
| `RouterControl.OffThroughout` | management/router-api.ts:190-236 | the intent to be off stays through any run without an explicit enable, across restarts |
| `RouterControl.CycleLeavesOthersAlone` | router/dnat-reconciler.ts:70-119 | a cycle adds no copy of any rule for the address of an entry that is not wanted on |
| `RouterControl.CycleSparesUnwanted` | router/dnat-reconciler.ts:70-119 | that is, no redirection of any port for an entry in local mode, not wanted on, or released |
| `RouterControl.CycleRespectsLatch` | router/dnat-reconciler.ts:70-119 | nor for a latched entry |
| `RouterControl.LatchedIsNotForwarded` | bridge/policy.ts:14-42 | the bridge does not forward for a device that goes by a latched entry |
| `RouterLeftovers.StepKeepsTidy` | management/router-api.ts:55-236 | whatever fails, as long as checks of entries about to change were answered right, each step keeps this: every redirection on the router is a rule of an entry in dnat mode; a link keeps it if and only if it does not change the ports of an entry that has rules there |
| `RouterLeftovers.NoneLeftBehind` | management/router-api.ts:105-188 | an entry that changes its address, mode or link, or goes, leaves no redirection of its address behind, also where the router is not asked |
| `RouterLeftovers.NewSettingsFindNothing` | management/router-api.ts:61-82 | new settings take effect only on a router without any redirection |
| `RouterLeftovers.TidyThroughout` | management/router-api.ts:55-236 | in every run of such steps every redirection on the router has its entry |
| `RouterStore.RouterConfigStore.Save` | router/config-store.ts:134-145 | a failed write restores what the file holds |
| `RouterStore.RouterConfigStore.AddDevice` | router/config-store.ts:234-249 | added and saved, or an error and nothing changed |
| `RouterStore.RouterConfigStore.UpdateDevice` | router/config-store.ts:251-273 | updated, with addresses and names trimmed, and saved, or an error and nothing changed |
| `RouterStore.RouterConfigStore.DeleteDevice` | router/config-store.ts:275-280 | deleted and saved, or an error and nothing changed |
| `RouterStore.RouterConfigStore.LinkDevice` | router/config-store.ts:282-292 | linked and saved, or an error and nothing changed |
| `RouterStore.RouterConfigStore.UnlinkDevice` | router/config-store.ts:294-302 | unlinked and saved, or an error and nothing changed |
| `RouterStore.RouterConfigStore.LinkByIp` | router/config-store.ts:310-331 | linked by address and saved, or an error and nothing changed |
| `RouterStore.RouterConfigStore.SetDnatDesired` | router/config-store.ts:333-339 | the intent, saved, or an error and nothing changed |
| `RouterStore.RouterConfigStore.UpdateRouter` | router/config-store.ts:200-228 | the given fields merged with the current settings, saved, or an error and nothing changed |
| `RouterStore.RouterConfigStore.RecoverHostKeyFingerprint` | router/config-store.ts:165-198 | a missing host key filled in and saved if nothing else would change, and otherwise nothing |
| `RouterStore.LinkedGoverns` | bridge/policy.ts:14-27 | a device linked to an entry goes by that entry alone, wherever it connects from |
| `RouterStore.AddedKeeps` | router/config-store.ts:234-249 | adding keeps unique entries, addresses and links |
| `RouterStore.UpdatedKeeps` | router/config-store.ts:251-273 | updating keeps them |
| `RouterStore.LinkedKeeps` | router/config-store.ts:282-292 | linking keeps them |
| `RouterStore.LinkedByIpKeeps` | router/config-store.ts:310-331 | the automatic link keeps them |
| `RouterStore.RouterUpdatedKeeps` | router/config-store.ts:200-228 | changing the router keeps them, since no entry may have its address or the server's |
| `RouterEdits.LinkDoes` | router/config-store.ts:282-292 | linking works if and only if no other entry has the device; the device then goes by the entry wherever it connects from, and an earlier unlinking is forgotten |
| `RouterEdits.UnlinkDoes` | router/config-store.ts:294-302 | after unlinking no device goes by the entry, and none is linked to it by its address |
| `RouterEdits.AutoLinkDoes` | router/config-store.ts:310-331 | the automatic link is made if and only if the entry at the address is neither unlinked by hand nor linked to another device, and no other entry has the device |
| `RouterEdits.UpdateDoes` | router/config-store.ts:251-273 | a change works if and only if its mode is known and a new address is valid and free; an entry that moves loses its link and what was found out, and one that stays keeps them |
| `RouterEdits.MovedIsUnlinked` | bridge/policy.ts:14-27 | an entry that has moved is gone by at its new address only |
| `RouterEdits.AddDoes` | router/config-store.ts:234-249 | a new entry is the last, without link and intent, at a valid and free address |
| `RouterEdits.DeleteDoes` | router/config-store.ts:275-280 | deleting takes away the entry and keeps the others in order |
| `RouterEdits.UnknownFails` | router/config-store.ts:304-308 | every edit of an unknown entry fails |
| `RouterEdits.DesireDoes` | router/config-store.ts:333-339 | recording an intent changes nothing else |
| `RouterEdits.RenameDoes` | router/config-store.ts:341-348 | a detected name goes to the entry linked to the device, and to no other |
| `RouterEdits.ForwardedIff` | bridge/policy.ts:14-42 | a device is forwarded if and only if the entry linked to it, or else an unlinked one at its address that was not unlinked by hand, is not in local mode, wanted on and not released |
| `RouterEdits.SettingsDo` | router/config-store.ts:200-228 | settings are taken if and only if the merged ones are in order; a password is never emptied, and a host key does not outlive its host or port |
| `RouterEdits.RecoverDoes` | router/config-store.ts:165-198 | a recovered host key is all that changes, and after it the settings are complete |
| `RouterEdits.FingerprintIff` | router/config-store.ts:56-62 | a fingerprint is 43 base64 digits whose last two bits are zero |
| `RouterEdits.AddressIff` | router/config-store.ts:52-54 | an address is four numbers below 256 without leading zeros, separated by dots |
| `SniRuns.EveryRun` | util/sni-certificates.ts:76-154 | in every reachable state: at most two tasks at work and sixteen waiting, one unsettled task a name, nobody waiting while a slot is free, tasks started in the order they were made, and the cache exactly the 64 names used last, by what callers were answered and what was generated in time |
| `SniRuns.SettledOnce` | util/sni-certificates.ts:135-143 | a settled task keeps its outcome |
| `SniRuns.ShutForGood` | util/sni-certificates.ts:145-154 | after closing completes nothing is cached or issued again |
| `SniRuns.AnswerIs` | util/sni-certificates.ts:76-114 | an answer names a task of the asked name that has succeeded or is still to be settled |
| `SniRuns.GeneratedDoes` | util/sni-certificates.ts:120-143 | a generation that works is delivered and cached as the newest, unless its task was called off; one that fails rejects and leaves the cache; either way the task that has waited longest starts |
| `SniRuns.IssuedDoes` | util/sni-certificates.ts:76-114 | a request is answered from the cache, where it becomes the newest; by the task at it; by a new task, which starts at once when fewer than two work; or is rejected and changes nothing |
| `SniRuns.DeadlineDoes` | util/sni-certificates.ts:105-108 | a deadline calls off a task at work and rejects a waiting one, and affects nobody else |
| `SniRuns.CloseDoes` | util/sni-certificates.ts:145-151 | closing calls off all that works, rejects all that waits, and leaves the cache until it completes |
| `SniRuns.HitKeys` | util/sni-certificates.ts:81-86 | a hit moves the name to the most recent place of the log's last 64 names |
| `SniRuns.StoredKeys` | util/sni-certificates.ts:121-128 | a new certificate takes that place and pushes the oldest out beyond 64 |
| `SniProvider.SniCertificateProvider.Issue` | util/sni-certificates.ts:76-114 | answer and new state of a request |
| `SniProvider.SniCertificateProvider.Drain` | util/sni-certificates.ts:116-133 | the loop starts tasks in order while there is room |
| `SniProvider.SniCertificateProvider.Finish` | util/sni-certificates.ts:135-143 | a task is settled and the next is started |
| `SniProvider.SniCertificateProvider.OnGenerated` | util/sni-certificates.ts:121-131 | success, failure or an aborted generation |
| `SniProvider.SniCertificateProvider.OnDeadline` | util/sni-certificates.ts:105-108 | a deadline aborts a started task and rejects a waiting one |
| `SniProvider.SniCertificateProvider.Close` | util/sni-certificates.ts:145-151 | closing aborts all and rejects those not started |
| `SourceResolver.EveryRun` | router/mqtt-source.ts:77-162 | at most two slots taken and sixteen jobs waiting in order of arrival, and nobody waits while a slot is free |
| `SourceResolver.ResolvedDoes` | router/mqtt-source.ts:99-161 | two lookups run at once, sixteen more wait in order, and any further one is refused and changes nothing |
| `SourceResolver.EndedDoes` | router/mqtt-source.ts:148-154 | the slot of a lookup that ends goes to the one that has waited longest, or comes free |
| `SourceResolver.CancelledDoes` | router/mqtt-source.ts:99-155 | a cancelled lookup is settled and waits no longer; a running one keeps its slot |
| `SourceResolver.SlotsAreJobs` | router/mqtt-source.ts:77-162 | every slot taken is a job at work if and only if no event handed a slot to a job whose client cannot be constructed |
| `SourceResolver.SlotsAccounted` | router/mqtt-source.ts:77-162 | in every run the slots taken are the jobs at work and one for each event that handed a slot to such a job |
| `SourceResolver.TwoFailuresBlock` | router/mqtt-source.ts:117-155 | after two constructions that throw, no later job ever runs |
| `SourceResolver.BlockedExample` | router/mqtt-source.ts:117-155 | two failures reach that state |
| `SourceResolver.RouterMqttSourceResolver.Resolve` | router/mqtt-source.ts:99-161 | run, queue or refuse a lookup |
| `SourceResolver.RouterMqttSourceResolver.OnEnd` | router/mqtt-source.ts:148-154 | a finished job frees its slot and hands it to the next |
| `Crc16.Crc16` | util/crc16.ts:23-29 | the table loop computes the remainder of long division by x^16 + x^12 + x^5 + 1 of the message and sixteen zeros |
| `Crc16.TableIsDivision` | util/crc16.ts:1-29 | table CRC and long division agree on every byte string |
| `Crc16.TableEntryIs` | util/crc16.ts:1-21 | each of the 256 entries is what eight steps of division leave of its index |
| `Crc16.UpdateIs` | util/crc16.ts:25-27 | one byte adds it at the top of the register and divides eight places |
| `Crc16.BurstsDiffer` | util/crc16.ts:1-29 | dividends that differ only within sixteen neighbouring digits leave different remainders |
| `Crc16.AdjacentBytesDiffer` | util/crc16.ts:1-29 | equal-length strings that differ only within two adjacent bytes have different CRCs |
| `Crc16.Residue` | util/crc16.ts:1-29 | two bytes after a string make its CRC zero if and only if they are the string's CRC, high byte first |
| `Mtosp.Splitter.Feed` | util/mtosp.ts:11-50 | one byte: the new state and what is emitted or thrown |
| `Mtosp.RoundTrip` | util/mtosp.ts:11-59 | formatted messages fed one after another come out in order, without a fault, and the splitter is back at the start |
| `Mtosp.EveryRun` | util/mtosp.ts:11-50 | in every run without a fault the bytes read are the formats of what came out, followed by a message begun |
| `Mtosp.EmissionIsFormat` | util/mtosp.ts:36-46 | a payload comes out only when the bytes since the last one are its format |
| `Mtosp.ComesOut` | util/mtosp.ts:52-59 | a message comes out whole if and only if it is shorter than 65536 bytes |
| `Mtosp.FormatBytes` | util/mtosp.ts:52-59 | a message byte by byte: 0xaa, length, payload, remainder of all that, 0xbb, with high bytes first |
| `Frames.Splitter.Split` | util/length_prefixed_frame.ts:10-43 | one chunk: the frames handed over and what is thrown |
| `Frames.Splitter.End` | util/length_prefixed_frame.ts:45-51 | the end of the stream |
| `Frames.Make` | util/length_prefixed_frame.ts:56-61 | the bytes of a frame, filled into a buffer |
| `Frames.ChunksAreOne` | util/length_prefixed_frame.ts:10-43 | any cutting of a stream hands over the same payloads, ends in the same state and throws the same as the whole |
| `Frames.RoundTrip` | util/length_prefixed_frame.ts:5-61 | frames made one after another, in any chunks, come out as they were if and only if none is over the limit |
| `Frames.Accounted` | util/length_prefixed_frame.ts:10-43 | without a failure the bytes read are the frames handed over and the rest held |
| `Frames.EndThrows` | util/length_prefixed_frame.ts:45-51 | `end` throws if and only if the machine has not failed and the stream was not made of whole frames |
| `Frames.FrameBytes` | util/length_prefixed_frame.ts:56-61 | a frame byte by byte: four bytes of length, the highest first, and the payload |
| `Tlv.ParseBuffer` | util/tlv.ts:7-31 | the loop computes the elements up to one that is cut short |
| `Tlv.BuildElements` | util/tlv.ts:33-56 | the loop computes the bytes of the elements |
| `Tlv.ParseBuild` | util/tlv.ts:7-56 | parsing what was built gives each element back with ten bits of its type and twenty-four of its value |
| `Tlv.RoundTrip` | util/tlv.ts:7-56 | types and values survive if and only if each is below 1024 and 2^24 |
| `Tlv.BuildParse` | util/tlv.ts:7-56 | building what was parsed gives the bytes back if and only if they are canonical |
| `Tlv.BuildIsCanonical` | util/tlv.ts:33-56 | what is built is canonical unless a value of more than three bytes is left with fewer than three that count |
| `Tlv.ElementBits` | util/tlv.ts:33-56 | an element bit by bit: ten of type, two of length, and the value in four bits or as few bytes as it needs |
| `PacketCodec.RoundTrip` | util/packet-codec.ts:111-220 | every field of an encoded packet is decoded with a good CRC, unless it goes to the device with a first byte 0xaa and a CRC ending in 0xbb |
| `PacketCodec.EncodedBytes` | util/packet-codec.ts:111-148 | an encoded packet byte by byte, with the defaults of its direction and the CRC of all between it and the first two bytes |
| `PacketCodec.CrcGoodIff` | util/packet-codec.ts:181-211 | of every buffer read as TLV or push: the CRC is good if and only if the last two bytes are the remainder of all between them and the first two |
| `PacketCodec.DamageCaught` | util/packet-codec.ts:181-211 | a packet with a good CRC that is damaged within two adjacent bytes from the third on, and still read as TLV or push, has a bad one |
| `PacketCodec.EncodedDamageCaught` | util/packet-codec.ts:111-211 | whatever was encoded and is damaged like that does not decode with a good CRC |
| `PacketCodec.PushDecoded` | util/packet-codec.ts:181-204 | every push is decoded whole with a good CRC, unless it looks like an AABB packet |
| `PacketCodec.TakenForAabb` | util/packet-codec.ts:157-177 | for every framing there is such an input |
| `PacketCodec.AabbChecksum` | util/packet-codec.ts:98-104 | the checksum loop |
| `PacketCodec.Send` | cloud/devices/aabb_device.ts:20-26 | what a device sends, built in place, is what the codec encodes |
| `PacketCodec.AabbRoundTrip` | util/packet-codec.ts:150-177 | an encoded body is handed on whole by a device, and decoded whole if and only if it is not empty |
| `PacketCodec.OneByteCaught` | util/packet-codec.ts:98-177 | changing one byte of the body makes the checksum fail |
| `PacketCodec.ChecksumGoodIff` | util/packet-codec.ts:98-177 | of every buffer read as AABB: the checksum is good if and only if the last byte but one is the sum before it with every second bit turned over |
| `ClientHello.ReadServerName` | cloud/sni_router.ts:29-61 | the reader loop computes the name in the first server name extension within the bytes at hand |
| `ClientHello.Stable` | cloud/sni_router.ts:29-61 | once there is a name, more bytes do not change it |
| `ClientHello.WellFormedNameIsRead` | cloud/sni_router.ts:29-61 | a well-formed ClientHello gives its host name, whatever follows it |
| `ClientHello.NameReadIff` | cloud/sni_router.ts:29-61 | a name is read if and only if it stands in the first server name extension of a ClientHello in a handshake record, within the announced length and the bytes at hand |
| `SniRouter.Peek.OnReadable` | cloud/sni_router.ts:176-193 | the decision loop over the chunks that are there |
| `SniRouter.RoutedByName` | cloud/sni_router.ts:176-193 | a name within the first 8192 bytes decides, for every chunking |
| `SniRouter.RoutedAs` | cloud/sni_router.ts:176-193 | such a name is passed through if listed for that, else stalled if listed for that, else handled here |
| `SniRouter.ChunkIndependence` | cloud/sni_router.ts:176-193 | all chunkings of a stream lead to the same choice if and only if it has no name, or has it within 8192 bytes, or the name is handled locally |
| `SniRouter.ChunksCanMatter` | cloud/sni_router.ts:176-193 | a well-formed ClientHello for which they do not |
| `EnergyMeter.Meter.constructor` | cloud/devices/2RES2VE300UA2.ts:309-330 | the totals that a restart takes over from the file |
| `EnergyMeter.Meter.Roll` | cloud/devices/2RES2VE300UA2.ts:363-389 | totals of past periods start again from zero, and the file follows |
| `EnergyMeter.Meter.ProcessInterval` | cloud/devices/2RES2VE300UA2.ts:350-361 | a report counts unless it repeats the last quarter hour; the roll and the count each write the file, and each write may fail |
| `EnergyRestarts.EveryRun` | cloud/devices/2RES2VE300UA2.ts:309-389 | with a clock that does not run backwards, whatever writes fail, and across restarts that lose nothing, the totals are the sums of the first report of each quarter hour of the current hour, day and month in Seoul |
| `EnergyRestarts.RightUnlessLost` | cloud/devices/2RES2VE300UA2.ts:309-389 | for reports of some energy, the totals are right at every point if and only if no restart comes in the month of a counted report that is not written yet |
| `EnergyRestarts.RestartLosesReport` | cloud/devices/2RES2VE300UA2.ts:309-389 | a report that cannot be written and a restart in the same quarter hour |
| `EnergyClock.RightForAnyAmounts` | cloud/devices/2RES2VE300UA2.ts:350-389 | with any clock, as long as the process runs: the totals are right for all amounts if and only if the clock never comes back to an hour, day or month, nor a report to a quarter hour, that it had left after a report in it |
| `EnergyBounds.RightForAllAmounts` | cloud/devices/2RES2VE300UA2.ts:309-389 | with any clock, any failing writes and any restarts: the totals are right for all amounts if and only if, after each event, the reports counted and kept are those that are due |
| `EnergyBounds.TotalsAreSums` | cloud/devices/2RES2VE300UA2.ts:309-389 | in every run the totals, in memory and in the file, are the sums over the reports that were counted and kept |
| `EnergyBounds.HourBoundIff` | cloud/devices/2RES2VE300UA2.ts:309-389 | with any clock, writes and restarts: amounts of two bytes never make more than four of the largest in the hour if and only if no more than four reports are counted and kept in it |
| `EnergyBounds.HourBoundByTimes` | cloud/devices/2RES2VE300UA2.ts:350-389 | as long as the process runs, by the times alone: if and only if no more than four reports since the clock came to its hour differ in quarter hour from the one before |
| `EnergyBounds.CountsAreMarks` | cloud/devices/2RES2VE300UA2.ts:350-389 | those are the reports that are counted |
| `EnergyBounds.HourBound` | cloud/devices/2RES2VE300UA2.ts:350-389 | whatever the clock does, a right hour total is at most four of the largest reports |
| `EnergyBounds.HourStaysSmall` | cloud/devices/2RES2VE300UA2.ts:309-389 | with such a clock, whatever writes fail and restarts lose, an hour never holds more than four of the largest reports |
| `EnergyMeter.AlwaysNested` | cloud/devices/2RES2VE300UA2.ts:309-389 | whatever the clock does and whether or not writes succeed, hour is within day and day within month |
| `EnergyBounds.JumpsReturn` | cloud/devices/2RES2VE300UA2.ts:350-361 | such jumps are returns of that kind |
| `EnergyBounds.JumpsCount` | cloud/devices/2RES2VE300UA2.ts:350-361 | and they make five reports count |
| `EnergyBounds.ClockJumps` | cloud/devices/2RES2VE300UA2.ts:350-361 | a clock that jumps back makes a quarter hour count again, beyond four of the largest reports |
| `EnergyMeter.NoGaps` | cloud/devices/2RES2VE300UA2.ts:30-56 | the hours, days and months of the calendar have no gaps |
| `EnergyCalendar.DateIs` | cloud/devices/2RES2VE300UA2.ts:30-56 | the date of a time is the one of the Gregorian calendar as many days after 1 January 1970 as have passed nine hours ahead of UTC |
| `EnergyCalendar.HourIs` | cloud/devices/2RES2VE300UA2.ts:30-56 | and the hour and month are those of that moment |
| `EnergyCalendar.SameDateIff` | cloud/devices/2RES2VE300UA2.ts:30-56 | two times share a date if and only if they share such a day |
| `EnergyCalendar.SlotsAreQuarters` | cloud/devices/2RES2VE300UA2.ts:350-361 | reports count once a quarter of an hour |
| `BridgedDevice.Device.constructor` | bridge/index.ts:33-57 | nothing happens unless the platforms match |
| `BridgedDevice.Device.ReconnectNow` | bridge/index.ts:78-138 | an attempt that works, throws at once, or throws after the connection was made |
| `BridgedDevice.Device.Disconnect` | bridge/index.ts:142-154 | the connection goes and the timer is set, unless the device was destroyed meanwhile |
| `BridgedDevice.Device.Destroy` | bridge/index.ts:156-173 | no connection, timer or listener is left |
| `BridgedDevice.Device.Forward` | bridge/index.ts:69-76 | a send that throws ends the connection |
| `BridgedDevice.EveryRun` | bridge/index.ts:69-173 | in every run with matching platforms there is a live connection or a pending timer until the device is destroyed, and no connection is left open behind it |
| `BridgedDevice.ConnectedIff` | bridge/index.ts:105-137 | the cloud counts as connected from when its connection comes up until it errs, is lost or given up |
| `BridgedDevice.FailingIff` | bridge/index.ts:69-138 | failing begins with an attempt that does not work, an error of the connection or a packet that cannot be sent, and ends when the connection comes up |
| `BridgedDevice.AttemptDoes` | bridge/index.ts:78-138 | an attempt that works connects anew; any other leaves the timer, unless telling of it destroys the device |
| `BridgedDevice.FromTheStart` | bridge/index.ts:33-173 | from its construction on, without such overtaking, a device has exactly one of the two until it is destroyed |
| `BridgedDevice.OneOrTheOther` | bridge/index.ts:69-173 | connection and timer are never there together if and only if no reconnect that is asked for overtakes the timer |
| `BridgedDevice.OvertakenTimerIsHarmless` | bridge/index.ts:78-95 | the overtaken timer leaves the connection alone when it fires |
| `BridgedDevice.DestroyedForGood` | bridge/index.ts:94-173 | after destruction neither ever returns |
| `BridgedDevice.ReplacedIsIgnored` | bridge/index.ts:105-137 | events of a connection that was replaced change nothing |
| `BridgedDevice.LossIsRepaired` | bridge/index.ts:142-152 | a loss is made good by the next attempt that works |

## Left out

- Sessions, clients' tasks and jobs, and entries of the store are values in maps and sequences, not objects shared by reference; aliasing between them is not modelled.
- Sockets, TLS, OpenSSL, SSH transport, timers and the file system are events and outcomes that may happen at any enabled moment.
- Digests and timing-safe comparison are equality; JSON and UTF-8 payloads are the device id they carry, if they parse.
- Regular expressions that match host patterns and conntrack lines are arbitrary predicates; address normalisation is left to the caller.
- Identifiers from `randomUUID` are arguments, taken to be new where an entry is added; the source of randomness is not modelled.
- `load` of the router configuration does not remove duplicates; runs start from a configuration without them.
- RouterStore.RouterConfigStore.UpdateRouter: ports are integers and texts are strings, while the source converts any JSON value.
- A restart finds the file as it was last written: edits of the file by hand, the companion file with a host key, and entries that `load` drops are not modelled.
- The snapshot that answers enabling, disabling and status requests synchronises all connected devices: these are steps of their own.
- RouterHandlers.RouterApi.Reconcile: the bridge's reconciliation after a cycle is left out, because its failures are only logged.
- The bridge's registrations, archives and credentials, the vendor's HTTP API and OAuth are network clients.
- Mtosp.Splitter.Feed: does not model a callback that throws, because the splitter's own state is then lost with its connection.
- Frames.Splitter.Split: a length of 2^31 or more cannot be made, as in the source; string inputs are their UTF-8 bytes.
- Tlv.BuildElements: negative types and values are not modelled.
- PacketCodec.RoundTrip: hexadecimal text is not modelled; framing bytes are already bytes.
- BridgedDevice.Device.ReconnectNow: platforms that match while the classes behind them differ are not modelled.
- SniRouter.Peek.OnReadable: the count of pending connections and the stalled and spliced sockets after the choice are left out.
- The MQTT payload of a publication is what the policy's answer says of it; the answers themselves are arguments of the broker's steps.
- Connections that open after the router has been told to forget earlier ones are not tracked.
- Keep-alive timeouts, `shutdown`, MQTT quality-of-service acknowledgements and packet identifiers.
- The refrigerator's door statistics, and all other appliance handlers: field tables and one-branch conversions.
