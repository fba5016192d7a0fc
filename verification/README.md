# Vula, modelled and proved in Dafny

Vula encrypts traffic on a local network without configuration: hosts announce
signed descriptors, a daemon called organize decides which peers to keep, and a
reconciler drives WireGuard and the routing tables to what the kept peers need.
This project models three parts of it and proves what they promise.

**The transactional peer state machine.** An event (an incoming descriptor, a new
system state, a hand edit, a pin, a gateway release, a removal) works on a copy of
the state, writes through a log, and is committed only if the schema accepts the
copy. `OrganizeModel.dfy` holds the rules as functions of a transaction,
`OrganizeState.dfy` the object whose methods carry them out, from one valid state to
the next, `OrganizeEffects.dfy` an independent reference that says in one step which
record every peer ends with, and `OrganizeOutcomes.dfy` what each event comes to for
whoever issued it, in the terms of `OrganizeTerms.dfy`, `OrganizeLookups.dfy`,
`OrganizeGates.dfy`, `OrganizePrefs.dfy` and `OrganizeNotices.dfy`, which speak of
networks, names, fields and lists and not of the functions that compute with them. The other `Organize*.dfy` files prove, over every event and
every sequence of events from the empty state: the write log is complete; the
schema is the pairwise condition it stands for; the triggers tell the system about
every peer that changed, and of every key that is to go but for one case; no two
enabled peers share a name, a key or an address; pinned peers stay; other peers hold
only announced, local addresses; timestamps move forward; who carries the gateway
flag; exactly when the schema still refuses an admitted descriptor, an edit, a
verification, a release or a new system state; and when a second delivery of a
descriptor changes something. `EngineSteps.dfy` splits an event into its single
writes and reads of the copy, `EngineThreads.dfy` the event decorator into its single
steps on shared fields, and it is proved that any number of threads, however
interleaved, behave as one event after the other.

**The reconciler.** `WireGuard.dfy` models the update by difference over a kernel
table that keeps what is not sent, clears allowed addresses that are absent and
takes an allowed address from one peer to give it to another. `Reconciler.dfy`
models a whole pass: peer by peer, with the cached peer list that is older than the
last change, routes that are added if missing, and the final removal of everything
unknown. `Desired.dfy` says what a peer asks for and `DesiredState.dfy` which
committed states the reconciler can settle on. `EndToEnd.dfy` puts the two parts
together: what a run of events leaves, one pass brings about.

**The encodings.** `DescriptorText.dfy` (text form and signed buffer), `DnsSd.dfy`
(DNS-SD properties, section 6.4 of RFC 6763), `Chunks.dfy` and `ChunkLoss.dfy`
(numbered chunks of long values) and `ArpTransport.dfy` (messages in the padding of
ARP frames): each a writer, a reader, and the exact condition under which the reader
undoes the writer.

Addresses are packed byte strings with their version, keys are byte strings,
dictionaries with a meaningful order are `OrderedDict.Dict`, other dictionaries are
maps. An exception is a value: a failed transaction, `None`, or `KeyError`.

## Where the code and its documentation differ

- `vula/peer.py:595-597` says that two hosts with one IP address cannot happen. They
  can: the primary address takes no part in conflict detection.
  `OrganizeWitnesses.SharedPrimaryIsReachable` is a sequence of events that gets
  there, `OrganizeLookups.IpAmbiguousExactly` the exact condition, and
  `DesiredState.SeparateNeedsNothingShared` what it costs the reconciler.
- `vula/peer.py:838-844` recommends setting an address to false to keep it from
  being enabled again. The same event enables it again for a pinned peer, and for
  any other peer that announces it while it is local and allowed:
  `OrganizeLocality.SwitchingOffIsUndone`, reached by
  `OrganizeWitnesses.SwitchedOffStaysOn`.
- Delivering a descriptor twice is delivering it once, with one exception:
  `OrganizeAdmission.SecondDelivery` states it and
  `OrganizeWitnesses.SecondDeliveryCanDiffer` reaches it.
- The host name pattern of `vula/peer.py:101` accepts a newline at the end, which the
  text form then loses: `DescriptorText.TextFaithfulExactly`, at an input
  `DescriptorText.AliceLosesNewline`. The DNS-SD form keeps it.
- A default route in the vula table makes `remove_unknown` raise
  (`vula/sys_pyroute2.py:410`); the routes are then not brought in line, WireGuard
  still is. `Reconciler.Sys.Sync` says exactly that, `EndToEnd.DefaultRouteStays`
  shows it.
- `_update_peer` looks for gateways in the committed system state even when it is
  given a new one (`vula/organize.py:427`), so a flag cleared in an event can be set
  again in the same event: `OrganizeGateway.FlagAfterSystemState`, reached by
  `OrganizeWitnesses.FlagComesBack`.
- An update that brings a peer a new WireGuard key (`vula/organize.py:366-369`) tells
  the system to configure the new key but not to remove the old one, which stays until
  everything unknown is removed for another reason: `OrganizeKeys.KeysAreNamed`, reached
  by `OrganizeWitnesses.OldKeyIsForgotten`.
- `vula/engine.py:216-228` calls lists sets, but networks are compared as texts: a network
  given in another notation is added a second time and not found by a removal:
  `OrganizePrefs.AddedOnceExactly` and `OrganizePrefs.RemovedExactly`, reached by
  `OrganizeWitnesses.MaskIsNotFound`.
- `vula/organize.py:372-377` says that every peer is adjusted to a new system state. Where
  two peers announce one address that is not local yet, both are taken in, since only
  addresses that are on are compared; a system state that makes the address local and
  allowed is then refused, which `vula/organize.py:746-750` reports as fatal:
  `OrganizeGates.SystemStateGateExact`, reached by `OrganizeWitnesses.SystemStateIsStuck`.
- Chunking and unchunking (`vula/common.py:1060-1134`) is not the identity in general:
  `ChunkLoss.UnchunkInvertsExactly`.

## Model

| member | source | states |
|---|---|---|
| Addresses.ContainsExactly | vula/common.py:1154-1156 | an address is in a network if and only if it has its version, the same whole octets in the prefix, and the same number in the bits of the prefix behind them |
| Queryable.By | vula/common.py:1051-1065 | under every key the index holds exactly what a linear scan for that key finds, in order and as often, for list, dictionary and scalar attributes, and it has no other keys |
| Queryable.ScanHeldOnce | vula/common.py:1051-1065 | a look-up has more than one hit exactly when two items hold the key or one holds it twice |
| Peers.SearchConflicts | vula/peer.py:621-650 | the four index look-ups, merged by id, are the conflict list of the rules |
| Peers.ConflictsExact | vula/peer.py:621-650 | that list is, each once, exactly the enabled peers with another id that hold the host name, the key or an announced address |
| OrganizeInvariant.SchemaIsPairwise | vula/peer.py:605-619 | the conflict string is empty exactly when no enabled peer holds what another's descriptor claims and at most one gateway is enabled |
| OrganizeEngine.OrganizeState.Start | vula/engine.py:147-162 | an event begins on a copy of the committed state with an empty record |
| OrganizeEngine.OrganizeState.Write | vula/engine.py:205-249 | a write is logged before it is made; one that raises leaves the copy as it was, any other leaves what it makes of it |
| OrganizeEngine.OrganizeState.Commit | vula/engine.py:163-184 | the copy is committed exactly if nothing raised and the schema accepts it; otherwise state unchanged and no triggers; afterwards no copy and no record |
| OrganizeEngine.OrganizeState.VerifyAndPinPeer | vula/organize.py:178-185 | from a valid state to a valid state: on success the peer ends verified and pinned with all it announces on record, all of its record on and every other field as it was, and nobody else changes; exactly its key is told to be synced, once for each edit; refused exactly if not one enabled peer alone has the name on, the peer announces no address in an allowed network and a subnet other than the vula network, or pinning would switch on what another enabled peer announces or make a second gateway |
| OrganizeEngine.OrganizeState.UserRemove | vula/organize.py:187-193 | the one peer that is asked for is gone, nobody else changes, and the triggers are the removal of its WireGuard key and routes, and of the gateway routes if it was one; if nobody is asked for nothing changes; if several are, or one twice, it is refused. Asked for is who has the key; if nobody has, who is enabled and has the name; if nobody has, who is enabled and has the address |
| OrganizeEngine.OrganizeState.PeerAddrAdd | vula/organize.py:195-209 | the address is on record and on, and nothing else of the state changes, not even a refresh; refused exactly if the text is no address or another enabled peer announces it; an unknown peer is ignored |
| OrganizeEngine.OrganizeState.PeerAddrDel | vula/organize.py:211-228 | exactly that address is off the record, and nothing else changes; refused exactly if it was not on it; an unknown peer is ignored |
| OrganizeEngine.OrganizeState.UserEditPeer | vula/organize.py:230-258 | the edited field has the value given and every other field is the old one, but for what the refresh says of names, addresses and flag; the peer stays exactly if it ends pinned or announces an address in an allowed network and a subnet other than the vula network; nobody else changes; the triggers are the sync or the removal, and the removal of the unknown; refused exactly for an unknown peer or if the edited record stays, is enabled, and has a name, a key, an address or the flag in common with another enabled peer |
| OrganizeEngine.OrganizeState.UserEditPref | vula/organize.py:1145-1158 | exactly the named preference differs: a list has the item at its end, or no longer, the others in order; a number, an address or a switch has the value given; with the two triggers; refused exactly if the operation or the text does not suit the preference (see EditIsTaken) |
| OrganizeEngine.OrganizeState.Release | vula/organize.py:234-243 | the first flagged peer, enabled or not, ends unflagged unless it announces one of the committed gateways that is in a subnet other than the vula network, or is gone; every other field of it and nobody else changes but for the refresh; the triggers are those of the edit and a new system state; refused exactly if it is enabled and its refresh would switch on what another enabled peer announces; nothing happens if none is flagged |
| OrganizeEngine.OrganizeState.UseSystemState | vula/organize.py:260-298 | the system state is the new one; exactly the pinned peers stay and those that announce an address in an allowed network and a subnet other than the vula network, each with the addresses on that AddrsOn gives from the old record and exactly the flags of FlagAfterSystemState; the triggers are, in order, the removal of the gateway routes if the gateway gives its flag up, the sync of who takes it, and for every peer the sync if it stays and its removal if not; refused exactly if two enabled peers that stay collide (see SystemStateGateExact) |
| OrganizeEngine.OrganizeState.ClaimGateway | vula/organize.py:279-292 | the loop over gateways with an index is the first gateway anybody holds and its first holder |
| OrganizeEngine.OrganizeState.UpdatePeer | vula/organize.py:371-437 | the record on the copy is replaced by the refreshed one, or removed, and nothing else changes; for a peer handed over with other tables it is the same writes in the same order, stopping where one raises |
| OrganizeEngine.OrganizeState.IncomingDescriptor | vula/organize.py:300-352 | a descriptor without primary address is refused; one that is not acceptable changes nothing: its primary address is outside fc00::/7, its key is ours, it is older than what is known of its sender, it has no address in a subnet other than the vula network or no name in a local domain, or it clashes with an enabled pinned peer; an acceptable one leaves the enabled unpinned peers it clashes with gone and its sender with the record of ArrivedAs, field by field, or not on record, everybody else unchanged, with the removal of the former and the sync or removal of the latter as triggers, if GetsThrough holds, and nothing otherwise |
| OrganizeAdmission.JudgeExactly | vula/organize.py:300-347 | a descriptor is taken in if and only if it is acceptable in those terms, and breaks the event if and only if it has no primary address |
| OrganizeOutcomes.ReasonIsTrue | vula/organize.py:300-343 | a descriptor that is not acceptable is ignored or rejected with one reason, and what the reason says is so |
| OrganizeGates.ArrivalExactly | vula/organize.py:354-421 | what an accepted descriptor makes of its sender, known or new: it stays exactly if pinned or with a usable address; a new one is enabled, not verified, without petname or flag of its own, pinned exactly if new peers are and it is not ephemeral, with its host name as the one name; a known one keeps what it had |
| OrganizeOutcomes.FarDescriptorIsIdle | vula/organize.py:322-330 | a descriptor none of whose addresses is in a subnet other than fdff:ffff:ffdf::/48 changes nothing |
| OrganizeOutcomes.FarPeerLeaves | vula/organize.py:371-415 | after a new system state an unpinned peer that announces no address in such a subnet and in an allowed network is gone |
| OrganizeOutcomes.AddsExactly | vula/organize.py:195-209 | the outcome of adding an address, with the exact condition under which the schema refuses it |
| OrganizeOutcomes.DeletesExactly | vula/organize.py:211-228 | the outcome of deleting an address: the schema never refuses it |
| OrganizeOutcomes.ForgetsExactly | vula/organize.py:187-193 | the outcome of a removal, in terms of keys, names and addresses: the schema never refuses it |
| OrganizeOutcomes.VerifiesExactly | vula/organize.py:178-185 | the outcome of verifying: both edits and both refreshes together, field by field, with the exact condition under which it is refused |
| OrganizeOutcomes.SharedAddressBlocks | vula/organize.py:371-415 | two enabled peers that announce one address stop every system state under which it is local and allowed |
| OrganizeGates.RefreshExact | vula/organize.py:383-421 | a refresh keeps exactly the pinned records and those that announce an address in an allowed network and in a subnet other than fdff:ffff:ffdf::/48, with everything known on if pinned, what is announced, in such a subnet and allowed otherwise, and the flag kept or set for an announced gateway in such a subnet; every other field is the old one |
| OrganizeGates.EditExactly | vula/organize.py:245-258 | what an edit leaves: the peer stays exactly if pinned afterwards or with a usable address; the field has the value given, save that names, addresses and the flag are what the refresh makes of them; every other field is the old one |
| OrganizeGates.BecomesGate | vula/organize.py:149-164 | when one record changes, the schema accepts exactly if it is disabled or shares no claimed name, key or address, nor the flag, with another enabled peer |
| OrganizeGates.EditGateExact | vula/organize.py:245-258 | from the state before an edit: the schema refuses it exactly if the edited record stays, is enabled and collides with another |
| OrganizeGates.VerifyGateExact | vula/organize.py:178-185 | from the state before: verifying goes through exactly if the name gives that peer, it stays, nobody else enabled announces an address pinning switches on, and no second gateway results |
| OrganizeGates.ReleaseGateExact | vula/organize.py:234-243 | from the state before: the schema refuses a release exactly if the peer is enabled, stays, and another enabled peer announces an address its refresh leaves on |
| OrganizeGates.SystemStateGateExact | vula/organize.py:260-298 | from the state before: a new system state is refused exactly if, of two enabled peers that stay, one announces an address that is on for the other, or both end flagged |
| OrganizePrefs.EditIsTaken | vula/prefs.py:25-43 | an edit of a preference is taken exactly if it adds to or removes from a list, adding to a list of networks only a network, or sets a known other preference to a text of its kind; setting a list to a text is refused |
| OrganizePrefs.PrefsExactly | vula/engine.py:250-286 | an edit that is taken changes the named preference and no other: a list gains the item at the end or loses it with the others in order, a number, an address or a switch gets the value given |
| OrganizePrefs.DefaultNets | vula/prefs.py:46-58 | the networks that are allowed by default are, in order, the six texts of the source, and none is forbidden |
| OrganizePrefs.DefaultRest | vula/prefs.py:46-74 | the other preferences before anything is edited: domains, interfaces, times and switches |
| Nets.FixedTexts | vula/constants.py:14-70 | the fixed networks are, written out, those of the source |
| OrganizePrefs.AddedOnceExactly | vula/engine.py:254-270 | after an addition the network stands at the end, and it is listed once if and only if it was given by the text it is written with or was not listed; the others keep their order |
| OrganizePrefs.RemovedExactly | vula/engine.py:272-286 | after a removal the network is not listed if and only if it was given by the text it is written with or was not listed; the others keep their order |
| OrganizeEffects.UpdatePeerEffect | vula/organize.py:371-437 | a refresh leaves the record of the reference in place of the old one and touches nothing else |
| OrganizeEffects.SweepAt | vula/organize.py:293-295 | refreshing all peers in turn gives each what refreshing it alone would, and no other key |
| OrganizeEffects.RunMatchesNext | vula/organize.py:178-451 | every event's transaction ends with the reference's state, and raises exactly where the reference is undefined |
| OrganizeEffects.StepIsNextBehindGate | vula/engine.py:146-184 | an event commits the reference's state exactly when there is one and the schema accepts it |
| OrganizeLog.WriteLogComplete | vula/engine.py:146-184 | the writes of a successful event, folded over the old state, give the new one, which the schema accepts; a failed event leaves the state and has no triggers |
| OrganizeTriggers.TriggersTell | vula/organize.py:371-451 | after a committed event every peer is as it was, or on record with a sync trigger, or gone with triggers that remove the WireGuard key it was known by and its routes; what this leaves open is KeysAreNamed |
| OrganizeNotices.EditStepNotes | vula/organize.py:245-258 | the triggers of a committed edit are exactly the sync of the peer if it stays, otherwise the removal of its key and routes and, if it was the gateway, of the gateway routes; then the removal of everything unknown |
| OrganizeNotices.SystemStepNotes | vula/organize.py:260-298 | the triggers of a committed system state, in order: loss of the gateway, its claim, and peer by peer the sync or the removal |
| OrganizeNotices.IncomingStepNotes | vula/organize.py:337-437 | the triggers of a descriptor that is taken in, in order: the removals of the peers in conflict, then the sync of its sender, or its removal |
| OrganizeKeys.KeysAreNamed | vula/organize.py:366-451 | after a committed event every WireGuard key that is on record no longer is named by a trigger, if and only if the event was not an admitted descriptor that leaves its known sender on record with a new key while nobody else had the old one |
| OrganizeKeys.RekeyingIsForgetting | vula/organize.py:366-369 | where no two records share a key: if and only if it was not an admitted descriptor that leaves its known sender on record with a new key |
| OrganizeLog.RunReplaysFromLog | vula/engine.py:19-23 | a whole sequence of events is recovered from the writes of its successful ones |
| OrganizeInvariant.RefreshOk | vula/organize.py:383-421 | a refreshed record has its host name on record, and a pinned one has every address on |
| OrganizeInvariant.StepKeepsInv | vula/organize.py:149-164 | every event keeps: map key is the verify key, records in order, no clash, one enabled gateway |
| OrganizeInvariant.RunsKeepInv | vula/organize.py:149-164 | the same in every state reachable from the empty one |
| OrganizeUniqueness.TracedIsUnique | vula/organize.py:383-421 | behind the schema, names and addresses that come from what was held or announced stay apart, including those kept from older descriptors |
| OrganizeUniqueness.StepKeepsUnique | vula/organize.py:300-437 | no event makes two enabled peers share a name, a key or an address, unless a hand edit takes one that is held |
| OrganizeUniqueness.RunsStayUnique | vula/organize.py:300-437 | the same over every sequence of events from the empty state |
| OrganizeUniqueness.HarmlessIsExact | vula/organize.py:203-258 | for a committed hand edit that leaves its peer on record, that condition decides: uniqueness is kept if and only if nobody else holds what the edit brings |
| OrganizeLookups.HostnameResolves | vula/peer.py:576-588 | a host name gives the one enabled peer that has it on, or none if none has |
| OrganizeLookups.HostnameExactly | vula/peer.py:576-588 | a host name finds a peer if and only if that enabled peer alone has it on |
| OrganizeLookups.RunsResolveHostnames | vula/peer.py:576-588 | two hosts with one name are never found in a reachable state |
| OrganizeLookups.IpAmbiguousExactly | vula/peer.py:590-603 | two hits for an address occur exactly when it is an enabled peer's primary address and is held a second time |
| OrganizeLookups.LookUpExactly | vula/peer.py:652-665 | a query finds a peer if and only if it is the one asked for, once; it misses if and only if nobody is asked for; who is asked for is told from keys, enabled names, primary and enabled addresses |
| OrganizeLookups.QueryAmbiguousExactly | vula/peer.py:652-665 | the assertion of a query fails exactly if several are asked for or one is asked for twice: a name or an address that several enabled peers have, or an address that is an enabled peer's primary one and in its tables, when what comes before did not match |
| OrganizeAdmission.AdmitAt | vula/organize.py:337-369 | everybody but the sender is kept unchanged or was an enabled peer in conflict; the sender ends with its refreshed record or not at all |
| OrganizeAdmission.AdmissionGateExact | vula/organize.py:149-164 | the schema accepts an admission if and only if no remaining enabled peer announces something the arrival brings and no second gateway results |
| OrganizeAdmission.EvictionSuffices | vula/organize.py:337-369 | when every enabled peer has what it announces on, removing the conflicting peers leaves all enabled pairs free of conflicts |
| OrganizeAdmission.SecondDelivery | vula/organize.py:300-437 | a second delivery changes nothing, except if and only if, before the first, the descriptor is admitted, its sender is known and not pinned, none of its addresses is allowed, new peers are pinned, no enabled peer that stays announces its name or an address of it, and it makes no second gateway |
| OrganizeWitnesses.SharedPrimaryIsReachable | vula/peer.py:590-603 | four events, none by hand on a peer, after which an address lookup has two hits |
| OrganizeWitnesses.SwitchedOffStaysOn | vula/peer.py:838-844 | three events after which switching off an address of a pinned peer succeeds and leaves it on |
| OrganizeWitnesses.FlagComesBack | vula/organize.py:264-295 | three events after which a flagged, unpinned peer loses the gateway flag with the last gateway and has it again at the end of the same event |
| OrganizeWitnesses.OldKeyIsForgotten | vula/organize.py:366-369 | three events after which a descriptor with a new key is taken in and no trigger names the old one, which no record has any more |
| OrganizeWitnesses.SystemStateIsStuck | vula/organize.py:371-400 | four events that take in two peers announcing one address, after which a system state that makes it local is refused and the old one stays |
| OrganizeWitnesses.MaskIsNotFound | vula/engine.py:254-286 | a network allowed by default, given with a netmask, is listed twice by an addition and stays listed after a removal |
| OrganizeWitnesses.SecondDeliveryCanDiffer | vula/organize.py:300-437 | a reachable state in which the exception of SecondDelivery occurs |
| OrganizeHistory.StepKeptWell | vula/organize.py:300-437 | one event, any record: it stays if pinned and not let go; timestamp and names only grow; so do a pinned peer's addresses, but for the one a successful deletion is about |
| OrganizeHistory.RecordsMoveForward | vula/organize.py:314-320 | while a key stays on record its descriptor's timestamp never decreases |
| OrganizeHistory.PinnedPeersStay | vula/organize.py:322-347 | a pinned peer stays, pinned, until the user removes or unpins it; its names are kept, and so is every address but those the user deleted in between; every recorded address is on |
| OrganizeLocality.StepKeepsLocal | vula/organize.py:371-415 | every enabled address of an unpinned peer is announced by its descriptor and in a current subnet other than fdff:ffff:ffdf::/48, and there is one |
| OrganizeLocality.RunsStayLocal | vula/organize.py:371-415 | the same in every reachable state, without address edits on unpinned peers |
| OrganizeLocality.SwitchingOffIsUndone | vula/peer.py:838-844 | after a committed edit that switches an address off, it is on if and only if the peer is pinned, or announces it while it is in an allowed network and a subnet other than the vula network |
| OrganizeGateway.FlagAfterSystemState | vula/organize.py:264-295 | after a new system state exactly these carry the flag: who had and kept it, who claimed it, who announces a local previously committed gateway |
| OrganizeGateway.CurrentIsFirst | vula/organize.py:264-278 | the current gateway is the flagged peer that was put on record first |
| OrganizeGateway.ClaimantIsFirst | vula/organize.py:279-292 | who claims the flag is the peer put on record first among those that have the first gateway address anybody has on |
| OrganizeGateway.HeldGatewayIsClaimed | vula/organize.py:279-292 | a gateway address that somebody holds finds a gateway, unless a pinned peer is one already |
| OrganizeGateway.SystemStateFlags | vula/organize.py:264-295 | if flagged peers were enabled, an unpinned flagged peer held a new gateway or announces a local old one |
| OrganizeGateway.ReleasedFlag | vula/organize.py:234-243 | a released peer is gone, or flagged exactly if it announces a local address among the committed gateways |
| OrganizeGateway.ReleaseLeavesOthers | vula/organize.py:234-243 | a release leaves every other peer as it was |
| EngineSteps.PlayIsRun | vula/organize.py:245-258 | the writes of an event one by one, each refresh of an edited record reading it from the copy at that moment, are the event |
| EngineThreads.EventsAreSerial | vula/engine.py:146-184 | in any interleaving of any number of threads, with every read and write of the copy on the shared field, committed states, writes and success of every event are those of one event after the other in lock order; copy and record are null while the lock is free |
| EngineThreads.OneThreadInside | vula/engine.py:157-184 | two threads are never inside an event at once |
| EngineThreads.LockIsReleased | vula/engine.py:176-184 | every step of the lock's holder lowers the bound on the steps to the release, and nobody else raises it |
| WireGuard.Interface.Query | vula/wg.py:352-377 | the cached list becomes the kernel's, or empty if the kernel does not answer |
| WireGuard.Interface.DropUnchanged | vula/wg.py:405-423 | what is left to send is exactly what differs, plus key and allowed addresses; a line for every difference, in order |
| WireGuard.Interface.ApplyPeerConfig | vula/wg.py:385-491 | the kernel ends as the full configuration asks for, every allowed address still with one peer; nothing is reported exactly if everything agreed; a missing endpoint half raises and changes nothing; the cached list is the one from before |
| WireGuard.NotesExactly | vula/wg.py:405-423 | a difference is noted if and only if the key is named, is not the removal mark, and is not reported with that value |
| WireGuard.ReportExactly | vula/wg.py:385-491 | which lines are reported: of a removal, a new peer, a change, and of the setting, each if and only if it is so |
| WireGuard.SendingLessLoses | vula/wg.py:405-436 | why the difference alone is not enough: allowed addresses that are not sent are lost, and half an endpoint is not taken |
| WireGuard.DiffIsOverlay | vula/wg.py:385-491 | sending only the difference gives the current peer overlaid with every desired key |
| WireGuard.IdleIffAgreed | vula/wg.py:437-443 | nothing is sent if and only if everything is reported as asked for |
| WireGuard.AppliedAgrees | vula/wg.py:385-491 | once applied a configuration agrees, if and only if its allowed addresses repeat nothing, its preshared key is not all zero and it does not name half an endpoint of a peer that has none |
| Desired.SortLLFirstSorts | vula/common.py:1159-1174 | a stable sort: the same addresses as often, none behind one it is better than, where link-local (169.254.0.0/16, fe80::/10) is better than not and then version 6 better than 4 |
| Desired.EndpointIsBest | vula/peer.py:470-476 | the endpoint is the first of the best enabled addresses outside fdff:ffff:ffdf::/48, 0.0.0.0 if there is none |
| Desired.RoutesMembers | vula/peer.py:444-457 | the routes are the /32 and /128 networks of the enabled addresses but those of fe80::/10 |
| DesiredState.StateIsSeparate | vula/peer.py:459-468 | committed peers want nothing in common, if no routable primary address is held twice |
| DesiredState.SeparateNeedsNothingShared | vula/peer.py:459-468 | and only then |
| Reconciler.Sys.SyncRoutes | vula/sys_pyroute2.py:469-520 | missing routes are added, existing ones left; nothing is reported if and only if all were there, and what is reported is a route that is new |
| Reconciler.GatewayTexts | vula/constants.py:64-66 | the half-default routes are, written out, those of the source |
| Reconciler.WithRoutesExactly | vula/sys_pyroute2.py:469-520 | nothing is lost, only routes of link scope that were missing are new, and all of them are there |
| Reconciler.Sys.DropStrangers | vula/sys_pyroute2.py:379-395 | of the cached peers exactly those not enabled are gone, although the cache is refreshed meanwhile |
| Reconciler.Sys.DropStaleRoutes | vula/sys_pyroute2.py:402-436 | unexpected routes of the vula table are gone and reported; it raises exactly if one has no destination |
| Reconciler.Sys.DropGatewayRoutes | vula/sys_pyroute2.py:437-465 | the half-default routes of the main table are gone, nothing else, and only they are reported |
| Reconciler.Sys.RemoveUnknown | vula/sys_pyroute2.py:370-467 | the three together, with what is left when it is interrupted |
| Reconciler.Sys.SyncPeer | vula/sys_pyroute2.py:232-264 | an enabled peer runs as it should: its endpoint is the best address and its port, its preshared key the one derived, its allowed networks exactly the ones it serves; those before it still are in place, strangers are still in the cached list, and where nothing is reported nothing is done |
| Reconciler.WgStep | vula/sys_pyroute2.py:232-264 | configuring a peer keeps all earlier ones in place although allowed addresses move, and keeps the stale list sufficient |
| Reconciler.PrunedIsSynced | vula/sys_pyroute2.py:402-465 | after a pass the vula table has exactly the enabled peers' destinations and the half-default routes are there exactly if an enabled gateway is |
| Reconciler.PassIsSynced | vula/sys_pyroute2.py:379-395 | after a pass WireGuard has exactly the enabled peers' keys, configured as asked for (see SyncedRuns) |
| Reconciler.SyncedRuns | vula/peer.py:488-495 | configured as asked for means: every enabled peer has its best address and its port as endpoint, the preshared key derived for it, and, each once, exactly the networks of its routable addresses, with 0.0.0.0/0 and ::/0 exactly if it is the gateway; and nobody else is there |
| Reconciler.Sys.Sync | vula/organize.py:858-885 | from any kernel state a pass ends with WireGuard running exactly the enabled peers, each as in SyncedRuns, and table 666 routing exactly to their routable addresses, table 254 with the half-default routes exactly if an enabled gateway is there; it raises exactly for a default route in the vula table; other routes are untouched; a pass in sync changes and reports nothing, and one that reports nothing found everything served |
| EndToEnd.SettleAfter | vula/organize.py:858-885 | after any run from the empty state whose hand edits take nothing that is held, if no routable primary address is held twice, one pass over any kernel leaves exactly the enabled peers on record connected: each by its key, with the preshared key of its descriptor, at its announced port of an enabled address of it or 0.0.0.0, for exactly the networks of its routable enabled addresses and, for the gateway, everything; and the routes too unless a default route sits in the vula table; a second pass is then idle |
| EndToEnd.DefaultRouteStays | vula/sys_pyroute2.py:402-416 | with a default route in the vula table a pass over nothing at all raises and leaves it there |
| DescriptorText.TagsAreSorted | vula/peer.py:200-201 | the order in which fields are written is the sorted order of their keys |
| DescriptorText.TextLayout | vula/peer.py:200-201 | the text form, written out: name, equals sign, text, semicolon for every field there is, in alphabetical order, with one space between |
| DescriptorText.EntryInFront | vula/peer.py:172-193 | an entry of at most one character in front of a text is passed over, and networks that are not given are the empty list of them |
| DescriptorText.AcceptedExactly | vula/peer.py:91-116 | the schema makes a descriptor of a dictionary if and only if every field that must be there is, every field that is there is read under its own key to the value it has, host name and port are allowed, and the networks are in their standard form |
| DescriptorText.BadEntry | vula/peer.py:172-193 | an entry without an equals sign, or for a field that does not exist, raises |
| DescriptorText.ParsedIsAllowed | vula/peer.py:91-116 | what is parsed has a host name of letters, digits, dots and hyphens below 256 characters, one newline aside, and a port from 1 to 65535 |
| DescriptorText.ListRoundTrip | vula/common.py:494-499 | splitting at commas, skipping empty pieces, stripping and parsing undoes joining with commas, on every list of addresses, the empty one included |
| DescriptorText.TextRoundTrip | vula/peer.py:172-201 | parsing the text of a valid descriptor gives it back with its host name stripped |
| DescriptorText.TextFaithfulExactly | vula/peer.py:172-201 | the round trip is exact if and only if the host name does not end in a newline |
| DescriptorText.NewlineIsLost | vula/peer.py:98-103 | any acceptable host name below 255 characters has a twin with a newline that is acceptable too and is parsed without it; AliceLosesNewline is one |
| DescriptorText.SigBufIsUnsigned | vula/peer.py:195-198 | the signed buffer is the text form of the descriptor without its signature |
| DescriptorText.SigBufInjective | vula/peer.py:195-198 | equal signed buffers mean equal descriptors but for the signature |
| DescriptorText.SignatureSurvives | vula/peer.py:263-291 | the signed buffer, and so the validity of a signature, survives the text form under the same exact condition |
| DnsSd.UnpackPacked | vula/common.py:494-530 | unpacking undoes packing on every list of either version |
| DnsSd.PackUnpacked | vula/common.py:494-530 | a byte string unpacks exactly if its length is a multiple, and packs back to what it was |
| DnsSd.FromZeroconf | vula/peer.py:118-144 | property by property, in any order, the descriptor the properties stand for, or an exception |
| DnsSd.BareTextKey | vula/peer.py:118-144 | a key without a value is read as the empty text |
| DnsSd.BareAddressKey | vula/peer.py:118-144 | but raises where addresses are asked for, and so does a key that no field has |
| DnsSd.NetworksNotGiven | vula/peer.py:116-144 | networks that are not given are the empty list of them |
| DnsSd.AsZeroconf | vula/peer.py:146-170 | one property for every field there is: addresses packed, everything else as text |
| DnsSd.DnsSdRoundTrip | vula/peer.py:118-170 | a valid descriptor comes back from its properties as it was |
| Chunks.Chunk | vula/common.py:1097-1115 | the item-by-item and piece-by-piece loops, or the failed assertion |
| Chunks.PieceAt | vula/common.py:1105-1113 | the pieces are cut from the front: each is a full chunk, the last what is left |
| Chunks.Unchunk | vula/common.py:1117-1134 | the loop over the sorted keys is the gathering of the rules |
| Chunks.ChunkSucceeds | vula/common.py:1097-1115 | the assertion fails exactly if some value whose key, value and equals sign exceed the bound has no room beside its key, two digits and an equals sign |
| ChunkLoss.UnchunkInvertsExactly | vula/common.py:1097-1134 | unchunking inverts chunking if and only if every key that looks like a chunk's is split and two digits number all chunks, unless the empty key has more than a hundred; then still either condition decides given the other |
| ChunkLoss.LongIsLost | vula/common.py:1097-1134 | a value that needs a third digit spoils the round trip whatever else the dictionary holds, unless it is the empty key's |
| ChunkLoss.EmptyKeyComesBack | vula/common.py:1097-1134 | a dictionary with such an empty key that comes back although neither condition holds |
| Chunks.EntriesAreBounded | vula/common.py:1097-1115 | key, value and the equals sign together are within the bound in every entry |
| ArpTransport.GenerateHeader | vula/publish_alt.py:291-307 | 42 bytes, every field at its offset in an ARP packet in an Ethernet frame |
| ArpTransport.GetPackets | vula/publish_alt.py:169-194 | every frame is the header and the next piece of the message, at most 60 bytes |
| ArpTransport.Receiver.UpdatePeer | vula/discover_alt.py:95-111 | a candidate is appended to its source's stream; none clears the stream |
| ArpTransport.Receiver.ProcessPacket | vula/discover_alt.py:162-182 | a frame of 60 bytes whose 43rd is not zero appends its last 18 to the stream of the sender named in bytes 22 to 27; any other changes nothing |
| ArpTransport.Receiver.ProcessAll | vula/discover_alt.py:184-196 | the streams after a queue of frames are those of taking them in one by one |
| ArpTransport.StreamPerSource | vula/discover_alt.py:95-111 | a source's stream depends on its own frames only, however frames are interleaved |
| ArpTransport.DeliveredExactly | vula/discover_alt.py:220-235 | the stripped stream is the message if and only if no byte at a multiple of 18 is zero and the message does not end with a zero |
| ArpTransport.SenderIsSource | vula/publish_alt.py:291-307 | every frame of a sender carries its own address where the receiver looks for it |

## Left out

- OrganizeEngine.OrganizeState.UserEditPeer: the field and its value are given as the record's schema takes them; a text it refuses raises in `Peer(...)` (`vula/organize.py:254`) and changes nothing, like any other failed event. Edits inside a descriptor or of a whole table by path are not modelled, since the DBus methods for them are meant for single properties.
- OrganizeEngine.OrganizeState.UserEditPref: what a text is as a switch, a number, an address or a network is given with the text, the text of a network is that of Python's `str` up to 3.12; whether a value raises in the write or is refused by the schema is not told apart.
- Reconciler.Sys.Sync: models the form that is not a dry run; the interface, the dummy link and the routing rules it sets up first are foreign calls, of which only the refresh of the cached peer list is kept.
- Reconciler.Sys.SyncRoutes: does not model the preferred source address of a new route, nor the device and metric of routes: a route is its table, destination and scope.
- WireGuard.Interface.ApplyPeerConfig: which line is reported is modelled, its wording is not; the kernel lists allowed addresses in the order they were given; the query it begins with is taken to be answered.
- EngineThreads.EventsAreSerial: an event's actions and triggers are not shared steps of the thread model, only its writes, its copy, its record and its reading of the copy are; what it reads of the committed state it reads in one step.
- ArpTransport.Receiver.ProcessPacket: the time stamps beside the streams, and with them the flushing of old streams, are not modelled.
- Chunks.Unchunk: sorting is not modelled; the sorted keys are given. What `int()` accepts is a parameter that accepts two digits and does not accept nothing.
- DescriptorText.TextRoundTrip: base64, the text forms of single addresses and of integers, and the standard form of network lists are parameters that are assumed to invert themselves; scoped IPv6 addresses are outside them.
- DnsSd.DnsSdRoundTrip: UTF-8 is a parameter that decodes what it encodes.
- The order of addresses inside a peer record: the state machine keeps address tables as maps, so `enabled_ips` is a bag there and a sequence only in the reconciler.
- Two texts of one IP address as different dictionary keys, which a hand edit could create.
- A failure of `save` after the state was replaced: saving is taken to succeed.
- The event log, the results of triggers, and what triggers do: they are recorded as what is to be done. Of the actions an event records beside its writes and triggers, only the reason a descriptor is turned away for is proved.
- Signatures, CTIDH, key derivation, encryption and compression: the signature check is a parameter, the preshared key a function of the peer's key.
- Freshness checks that are stubs in the source, expiry, and the choice of which addresses to announce.
- Netlink, DBus, zeroconf sockets, files, clocks and random delays.
- The command line, tray, status, graphical and QR code parts.
