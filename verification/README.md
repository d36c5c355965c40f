# Verified model of the edge and controller tooling

This project models, in Dafny 4.11, the parts of the repository whose correctness is hardest to see by
reading: crash-resumable transactions over files, databases and a cloud, and the pipeline from a signed
configuration to a running media node. It proves properties of the model over all inputs, all runs and all
crash points; nothing of the original program is executed. `dafny verify dfyconfig.toml` checks it.

| File | Models |
|---|---|
| `ExclusivePublication.dfy` | no-replace publication of one file over a disk whose crashes lose unsynced directory operations and data |
| `RebootJournal.dfy`, `RebootJournalStore.dfy`, `UnloadableSaves.dfy`, `LossRetry.dfy` | the two-node reboot journal: validation, transitions, timing, the files they change; saves that do not load and a loss report that cannot be repeated |
| `ArchiveInventory.dfy`, `Rollover.dfy`, `RolloverOversized.dfy` | the rollover of a terminal journal: archive, manifest, activation, receipt, and one that cannot finish |
| `Cidr.dfy`, `Firewall.dfy` | IPv4 authority lists, the signed firewall policy and the packet filter that must narrow it |
| `TextLines.dfy`, `TenantFragment.dfy`, `CompilerRenderer.dfy`, `TenantParser.dfy`, `RuntimeRewrite.dfy`, `RouteFacts.dfy`, `FragmentText.dfy` | the generated route program: the runtime's and the compiler's renderer, the strict parser, the runtime's search and replace, what the result does on the wire, and the characters of it all |
| `RtpengineArtifact.dfy` | the media engine's file: renderers, parser, interface rewrite |
| `AgentState.dfy` | the agent's protected state over every history of stages, commits and aborts |
| `HealthGates.dfy` | two validators of health plans and results over arbitrary JSON values |
| `Redactor.dfy`, `InstallerLedger.dfy` | the installer's redaction and its phase ledger |
| `RestoreJournal.dfy`, `RotationJournal.dfy`, `DnsReconcile.dfy` | journals reconciled with databases, a certificate pointer and DNS |
| `JsonValues.dfy` | parsed JSON values and Python's comparison of them |
| `Options.dfy`, `Profiles.dfy`, `Decimals.dfy`, `RebootSamples.dfy` | shared small definitions |

## What the code does not keep

Some properties one would expect are false of the code. Each has a proof of exactly when it holds, and an
input for which it fails.

- A qualification or completion is saved before it is validated again: the saved journal loads exactly when
  the file given is the one in the evidence leaf (`SavedStateLoads`, `CompletedStateLoads`; `ForeignObservation`,
  `ForeignAcceptance`).
- A loss report that was cut short after publishing its peer file cannot always be repeated: the journal
  compares the peer's state by value and the published file byte by byte, so a repeated report is refused
  exactly when its file differs from the published one (`MarkLossOf`), which takes floats or truth values
  (`OrphanIsSame`) and happens with 1.0 and 1 (`SpellingRefused`).
- A rollover whose archived leaf breaks the inventory bounds is refused only after the journal has moved, and
  for good (`FinishesExactlyWhenSized`, `RollOverOversized`).
- Staging a manifest that removes its resources writes a protected state that no later operation loads
  (`StepKeepsValidState`, `StagedRemovalIsFinal`, `RemovalIsStageable`), although
  `edge/agent/README.md:38-39` speaks of later ABSENT and DECOMMISSION transitions.
- Giving up an unselected import drops the database, ignores whether that worked, and clears the journal. The
  next inspection refuses what is left exactly if the journal was cleared beside an import that is still
  there, or a prepared import was dropped and its journal kept (`GiveUpExactly`, `StuckExactly`,
  `FailedDropRefuses`).
- A temporary file left by a crash closes the rotation journal, and is all that makes a call fail that is
  repeated at once (`RetryRefusedExactly`, `ClosedExactly`, `FirstCallCloses`).
- A pointer that returns to an earlier generation makes the rotation journal ask for a second rotation
  (`SecondRotationExactly`, `ReselectionRotatesTwice`).
- Short values are not safe secrets for the redactor (`SafeSecretsExactly`, `ShortSecretLeaks`).
- A float would pass one health-plan validator and not the other (`PlansCoincide`, `FloatSeparates`); the
  parser in front of both refuses floats (`edge/schema/manifest_tool.py:158-173`), so no parsed plan does
  (`CanonicalPlansCoincide`).
- In the private-PBX profile calls go to port 5061 of the PBX and probes to the route's own port: they agree
  exactly when that port is 5061 (`ProbesFollowRoutes`), which the activation checks demand of the route
  (`edge/runtime/contracts.py:2484-2487`; for Direct Routing `:2530`).
- A route whose PBX is the first Teams hub on port 5061 cannot be rewritten (`RewritingIsTotalAndExact`);
  no parsed route is one (`AcceptedRoutesAreRewritten`).

Two properties hold more widely than expected: testing the two ends of a block for private space is exact at
every prefix length (`EndsDecidePrivacy`), and redaction is complete for every processing order
(`RedactionIsComplete`), so longest-first is not needed for completeness.

## Model

| member | source | states |
|---|---|---|
| ExclusivePublication.Volume.ExclusiveAtomicWrite | deploy/scripts/active_edge_reboot_journal.py:422-493 | From any directory state, a call that returns leaves the target holding exactly the given content and never replaces an existing one; from the states that crashes of this protocol produce, it is refused only by a longer leftover or another published content, touches no other name, and a crash at any step leaves again such a state |
| ExclusivePublication.Volume.NormalizeExclusiveTarget | deploy/scripts/active_edge_reboot_journal.py:373-419 | Recovery of a visible target keeps its bytes; in the protocol's states neither the unrelated-staging nor the unaccounted-link branch is reached, and it ends with one link and no staging name |
| ExclusivePublication.Volume.WriteAll | deploy/scripts/active_edge_reboot_journal.py:287-293 | However little each write accepts, the loop appends exactly the content; a crash leaves the staging name absent or holding a prefix of it |
| ExclusivePublication.Volume.WriteStaging | deploy/scripts/active_edge_reboot_journal.py:458-472 | The staging file is complete and synced before anything is linked; a crash on the way leaves a protocol state |
| ExclusivePublication.Volume.ReuseStaging | deploy/scripts/active_edge_reboot_journal.py:438-456 | A staging file is kept only when it already is the whole content, and is dropped otherwise |
| ExclusivePublication.Volume.LinkStaging | deploy/scripts/active_edge_reboot_journal.py:474-489 | Linking makes the target appear with the complete staged bytes, or refuses an existing name and changes nothing |
| ExclusivePublication.Volume.UnlinkStaging | deploy/scripts/active_edge_reboot_journal.py:490-493 | Dropping the staging name leaves the target published with one link |
| ExclusivePublication.Volume.RequireExisting | deploy/scripts/active_edge_reboot_journal.py:426-436 | An existing target is accepted exactly when it holds the content, otherwise it is kept as it is |
| ExclusivePublication.RetriesConverge | deploy/scripts/active_edge_reboot_journal.py:422-493 | Over any sequence of crashed attempts with one content, none is refused, and the one that completes has published exactly that content |
| ExclusivePublication.SuccessNeedsAdmission | deploy/scripts/active_edge_reboot_journal.py:438-450 | Conversely a completed attempt shows that the first state admitted the content: a longer leftover or another published content is never overcome by retrying |
| ExclusivePublication.TargetIsForever | deploy/scripts/active_edge_reboot_journal.py:426-436 | Whatever contents are attempted, a target once visible keeps its content |
| ExclusivePublication.TargetIsAnAttempt | deploy/scripts/active_edge_reboot_journal.py:422-493 | A visible target is one attempted content, complete |
| ExclusivePublication.OneContentSucceeds | deploy/scripts/active_edge_reboot_journal.py:434-436 | Two attempts that both succeed had the same content |
| ExclusivePublication.CrashUnderWay | deploy/scripts/active_edge_reboot_journal.py:458-493 | Every crash image of the writer, with any prefix of unsynced directory operations and of unsynced data, is a state the protocol recovers from |
| ExclusivePublication.NormalizeFacts | deploy/scripts/active_edge_reboot_journal.py:376-409 | In protocol states the link count and the staging name agree, so the two fail-closed branches are unreachable without interference |
| ExclusivePublication.DroppedStaging | deploy/scripts/active_edge_reboot_journal.py:410-411 | Removing the staging name turns a linked target into a published one and a draft into nothing, and touches nothing else |
| RebootJournal.ValidateState | deploy/scripts/active_edge_reboot_journal.py:571-696 | The one-pass check accepts exactly the journals satisfying the declarative validity: shapes, evidence files, serial node order, status and self-digest |
| RebootJournal.NodeLoadsExactly | deploy/scripts/active_edge_reboot_journal.py:600-670 | What loading demands of a node, field by field: a pending one has nothing on record; any other rests on its durable preflight, and each later entry is there exactly from its phase on, in range and matching its durable file; an aborted one may have stopped anywhere, with a reconnect only after a loss and never with an observation |
| RebootJournal.StateLoadsExactly | deploy/scripts/active_edge_reboot_journal.py:571-696 | What it demands of the whole: run id, derived directory, own digest, two such nodes in order, the current node, and of each status its own marks |
| RebootJournal.SavedStateLoads | deploy/scripts/active_edge_reboot_journal.py:1612-1613 | Every transition saves a journal that loads again, except that a qualification does so if and only if the observation it was given is the one in the evidence leaf |
| RebootJournal.MutatedNodeValid | deploy/scripts/active_edge_reboot_journal.py:1436-1609 | The node a transition changed is valid again under the same exact condition |
| RebootJournal.CompletedStateLoads | deploy/scripts/active_edge_reboot_journal.py:1618-1638 | A completed journal loads again exactly when the acceptance document given is the one in the evidence leaf |
| RebootJournal.SavedShape | deploy/scripts/active_edge_reboot_journal.py:1433-1612 | A transition changes its own node only, keeps run and directory, and seals the state with its own digest |
| RebootJournal.RunIsSafe | deploy/scripts/active_edge_reboot_journal.py:1428-1640 | In every run sbc2 has left PENDING only if sbc1 is QUALIFIED, and every recorded timing is inside its bounds |
| RebootJournal.RunAdvances | deploy/scripts/active_edge_reboot_journal.py:1428-1640 | Between any two points of a run phases only advance, timings and evidence digests once set never change, and a finished journal is absorbing |
| RebootJournal.StepKeeps | deploy/scripts/active_edge_reboot_journal.py:1428-1640 | The invariant behind both, over one transition or completion; a finished journal is left as it is |
| RebootJournal.ReachedTimingIsEvidence | deploy/scripts/active_edge_reboot_evidence.py:703-744 | A journal of any run with a reconnect recorded has schedule, loss and reconnect times that pass every matching check of the evidence compiler |
| RebootJournal.ThirdIntervalIsIndependent | deploy/scripts/active_edge_reboot_journal.py:1527-1533 | Two accepted intervals do not imply the third: a concrete counterexample within the drift tolerance |
| RebootJournal.QualifiedRestsOnEvidence | deploy/scripts/active_edge_reboot_journal.py:1428-1640 | Over every run of loadable journals a qualified node carries exactly the schedule, loss and reconnect timings of the observation its digest names, and that observation has the boot id, target, peer state and identity sources of the preflight its own digest names, and the published peer state; a completed journal rests on the accepted document |
| RebootJournal.QualificationExactly | deploy/scripts/active_edge_reboot_journal.py:1536-1603 | And conversely: a reconnected node of a loadable journal accepts an observation exactly when, field by field, it describes the node by the durable preflight and the durable peer file |
| RebootJournal.CompletionExactly | deploy/scripts/active_edge_reboot_journal.py:1618-1638 | A running journal is completed exactly with an acceptance document of the qualifying status, once both nodes are qualified |
| RebootJournal.RoundedFigureWithinBound | deploy/scripts/active_edge_reboot_evidence.py:1013-1028 | The rounded-up milliseconds stay within a bound of whole seconds exactly when the measured nanoseconds do |
| RebootJournalStore.JournalDirectory.Save | deploy/scripts/active_edge_reboot_journal.py:500-521 | The state file is replaced atomically: a crash leaves the old or the new one and perhaps a torn temporary file |
| RebootJournalStore.JournalDirectory.SaveAndLoad | deploy/scripts/active_edge_reboot_journal.py:1612-1613 | After saving, the load succeeds exactly for a valid state |
| RebootJournalStore.JournalDirectory.ArmNode | deploy/scripts/active_edge_reboot_journal.py:1436-1469 | Arming any node in any state of the directory: refused with nothing changed unless the node is the current, pending one of a running journal, and if the input is there, it is a protected file within the read bound; done only with exactly the armed journal stored; and from a pending node, before or after a crash anywhere between publishing the preflight and saving, it resumes with the same bytes and is not refused |
| RebootJournalStore.JournalDirectory.Transition | deploy/scripts/active_edge_reboot_journal.py:1470-1613 | Scheduling, reconnecting, qualifying and aborting are refused exactly when the pure transition is undefined, and otherwise store exactly its result; what is stored keeps the journal resting on its evidence, so a node is qualified only with the timings it has on record |
| RebootJournalStore.JournalDirectory.MarkLossOf | deploy/scripts/active_edge_reboot_journal.py:1479-1520 | Recording the loss: refused with nothing changed unless its input is a protected file within the read bound and the pure transition is defined; and then, from any state that calls and crashes leave, that it is saved and loads as the pure transition, is refused for its bytes exactly when a published peer file differs from the input, or for its staging exactly when a longer leftover is there; a crash leaves the old or the new journal |
| RebootJournalStore.OrphanIsSame | deploy/scripts/active_edge_reboot_journal.py:1500-1513 | A published peer file and a retried one are equal values to the journal, so they differ in bytes only where truth values or floats are spelled differently |
| UnloadableSaves.ForeignObservation | deploy/scripts/active_edge_reboot_journal.py:1601-1613 | A concrete loadable journal and an observation bound to it: without that file in the leaf the qualification is saved and does not load |
| UnloadableSaves.ForeignAcceptance | deploy/scripts/active_edge_reboot_journal.py:1628-1638 | Two qualified nodes and an acceptance absent from the leaf: the completion is saved and does not load |
| LossRetry.SpellingRefused | deploy/scripts/active_edge_reboot_journal.py:1494-1513 | A report of 1.0 cut short after publication: the report of the preflight's 1 is acceptable and is refused for its bytes |
| JsonValues.SameTransitive | deploy/scripts/active_edge_reboot_journal.py:1500 | Python's comparison of parsed values, which ignores how numbers are spelled, is transitive |
| JsonValues.PlainSameIsEqual | deploy/scripts/active_edge_reboot_journal.py:1500 | It is equality on values without truth values and floats |
| RebootJournalStore.ConsistentFrame | deploy/scripts/active_edge_reboot_journal.py:1428-1640 | What every call keeps, from a fresh journal on: the journal's invariant, that a published peer observation is the one its durable preflight demands, and that qualified nodes and completed runs rest on the evidence their digests name |
| RebootJournalStore.JournalDirectory.Publish | deploy/scripts/active_edge_reboot_journal.py:422-493 | Publishing a journal file is one step of the no-replace publication of its slot |
| RebootJournalStore.JournalDirectory.Normalize | deploy/scripts/active_edge_reboot_journal.py:373-419 | Finishing an interrupted link is one recovery step of its slot |
| RebootJournalStore.JournalDirectory.CompleteJournal | deploy/scripts/active_edge_reboot_journal.py:1618-1638 | Completion is refused exactly when undefined, is idempotent, and loads again exactly for the leaf's acceptance document |
| RebootJournalStore.SavedArming | deploy/scripts/active_edge_reboot_journal.py:1462-1469 | The save that ends an arming leaves the armed journal or, after a crash, the still resumable pending one |
| RebootJournalStore.TransitionSaved | deploy/scripts/active_edge_reboot_journal.py:1612-1613 | A saved transition loads again, but for a qualification by a foreign observation |
| RebootJournalStore.LossIsSaved | deploy/scripts/active_edge_reboot_journal.py:1516-1520 | The save that ends a loss report leaves the new journal, valid with the published peer file, or after a crash perhaps the old one |
| ArchiveInventory.VisitIsFlatten | deploy/scripts/active_edge_reboot_journal.py:1034-1074 | The bounded depth-first walk that stops at the first offence judges the directory as a whole and lists exactly its files |
| ArchiveInventory.InventoryIsExact | deploy/scripts/active_edge_reboot_journal.py:1034-1074 | The inventory is refused exactly when a file is unprotected or a bound is broken; otherwise it lists every file once |
| ArchiveInventory.InventoryDetermines | deploy/scripts/active_edge_reboot_journal.py:1095-1133 | Two directories with one sealed inventory hold the same bytes under the same paths |
| Rollover.EvidenceRoot.RollOver | deploy/scripts/active_edge_reboot_journal.py:1304-1425 | One rollover command in any world at all: unless the active journal loads as ABORTED_RECONCILED with exactly this run id and digest, or the leaf shows a rollover already begun, it is refused and nothing changes; an answer of success means the journal is archived under its leaf, sealed by its manifest and receipt, and a fresh one active; nothing retained is ever lost. From a clean start or any state that crashes of earlier calls left, it ends finished, crashed along the same rollover, or refused only for want of a run id before anything exists or for an over-sized archive |
| Rollover.EvidenceRoot.EnsureResources | deploy/scripts/active_edge_reboot_journal.py:917-984 | Leaf and initializer are created only after the transaction, resumably |
| Rollover.EvidenceRoot.ArchiveTerminal | deploy/scripts/active_edge_reboot_journal.py:987-1031 | The terminal journal moves under its leaf once, resumably |
| Rollover.EvidenceRoot.EnsureManifest | deploy/scripts/active_edge_reboot_journal.py:1136-1157 | The manifest seals the archive once, resumably |
| Rollover.EvidenceRoot.Activate | deploy/scripts/active_edge_reboot_journal.py:1160-1190 | The fresh journal becomes active once, resumably |
| Rollover.EvidenceRoot.EnsureReceipt | deploy/scripts/active_edge_reboot_journal.py:1398-1418 | The receipt is published once and equals the expected one |
| Rollover.EvidenceRoot.Allocate | deploy/scripts/active_edge_reboot_journal.py:1343-1371 | A successor is allocated only for the active journal that loads as ABORTED_RECONCILED with exactly this run id and digest and whose leaf has none of the reserved names; otherwise nothing changes. The first durable step fixes the successor's run id; before it nothing else was created |
| Rollover.EvidenceRoot.Continue | deploy/scripts/active_edge_reboot_journal.py:1373-1422 | Everything after the transaction stays along the one rollover it names |
| Rollover.NeverStuck | deploy/scripts/active_edge_reboot_journal.py:1304-1425 | For any finite sequence of crashed calls with the same arguments, every state is the untouched start or a point of one rollover, and no call is refused except for want of a run id or, with the journal archived, for the archive's size |
| Rollover.FinishesExactlyWhenSized | deploy/scripts/active_edge_reboot_journal.py:1304-1425 | A call that finds a run id and is not cut short finishes exactly when the archive keeps the inventory bounds; otherwise the journal is archived, none is active, and every later call leaves it so |
| RolloverOversized.OverIsClean | deploy/scripts/active_edge_reboot_journal.py:1034-1074 | A concrete terminal journal with one evidence file over 16 MiB is a clean start that breaks the bounds |
| RolloverOversized.RollOverOversized | deploy/scripts/active_edge_reboot_journal.py:1304-1425 | Rolled over, it is refused with the journal already archived and none active, unless cut short or without a run id |
| Rollover.RunIdIsFixed | deploy/scripts/active_edge_reboot_journal.py:1367-1371 | The run id of the first durable transaction is that of every later state, and a finished rollover never changes |
| Rollover.ReturnedMeansFinished | deploy/scripts/active_edge_reboot_journal.py:1420-1423 | A call that returns has finished the rollover for good, and the archive kept the bounds |
| Rollover.FinishedIsOneSwap | deploy/scripts/active_edge_reboot_journal.py:1304-1425 | Finished, the world differs from the start by one swap: old journal retained entry for entry under its leaf, manifest and receipt matching it, fresh state active, no transaction, initializer or staging left |
| Rollover.ArchiveInventoried | deploy/scripts/active_edge_reboot_journal.py:1034-1074 | For a clean start the archived leaf's inventory exists exactly when it keeps the bounds |
| Rollover.FinishedFacts | deploy/scripts/active_edge_reboot_journal.py:1326-1341 | A finished rollover reads back as such: calling again returns the same receipt |
| Rollover.SlipReads | deploy/scripts/active_edge_reboot_journal.py:1216-1288 | The receipt validates against the archived journal and manifest |
| Rollover.ValidTransactionsAreSigned | deploy/scripts/active_edge_reboot_journal.py:868-896 | A transaction validates exactly when its successor is another well-formed run id and the whole is the signed transaction of those two |
| Rollover.ReceiptIsTheRollovers | deploy/scripts/active_edge_reboot_journal.py:1216-1288 | A receipt that validates is the one its own rollover writes, over the inventory of everything the leaf retains, with the named journal archived there |
| Cidr.NestedOrDisjoint | edge/compiler/core.py:228-231 | Canonical blocks are nested or disjoint |
| Cidr.MaskIsRange | edge/compiler/core.py:177-178 | The mask test is membership in the address range |
| Cidr.OverlapIsShared | edge/compiler/core.py:228-231 | Two blocks overlap exactly when some address is in both |
| Cidr.DisjointAuthorities | edge/compiler/core.py:228-231 | The overlap test is false exactly when no address is in both authorities |
| Cidr.EndsDecidePrivacy | edge/compiler/core.py:216-218 | Testing the two ends decides whether every address is private, for every prefix length |
| Cidr.CanonicalExactly | edge/compiler/core.py:199-204 | A block is canonical exactly when it ends in the address space and its first address is under its own mask |
| Cidr.PrivateExactly | edge/compiler/core.py:177-178 | Private are exactly 10.*, 172.16.* to 172.31.* and 192.168.* |
| Cidr.ItemAllowedExactly | edge/compiler/core.py:205-221 | The compiler's rule for one element, over all the addresses of its block: canonical, no broader than allowed, not 0.0.0.0, not all loopback, link-local or multicast, all private where private is demanded, and globally routable with some address not private where public is |
| Cidr.AgentAllowedExactly | edge/agent/security_core.py:233-252 | The agent's rule for one element in the same terms |
| Cidr.CidrTuple | edge/compiler/core.py:181-225 | The loop with its seen-set accepts and sorts exactly as the declarative check |
| Cidr.OrderInsensitive | edge/compiler/core.py:225 | Acceptance and the sorted tuple are the same for every order of the input |
| Cidr.NoneOverlaps | edge/agent/security_core.py:268-273 | The double loop decides pairwise disjointness |
| Cidr.RequireAuthorized | edge/agent/security_core.py:210-274 | The agent accepts exactly the bounded, sorted lists of allowed, pairwise disjoint networks |
| Cidr.NeighboursSuffice | edge/agent/security_core.py:257-273 | In an ordered list comparing neighbours equals comparing all pairs, and then each block ends before the next begins |
| Firewall.RenderPolicy | edge/compiler/core.py:1005-1103 | The compiler's appended lists are the policy the runtime expects, for the manifest's PBX sources |
| Firewall.PolicyVerdict | edge/runtime/contracts.py:1316-1400 | The packets the signed typed policy accepts, as one condition on source, ports and protocol, synthetic sources included |
| Firewall.InputChainExactly | edge/runtime/contracts.py:1499-1512 | In every profile the whole input chain accepts exactly: loopback; established and related traffic; ICMP; DHCP replies of the server; new TCP to 22 from an administrator network; and the tenant's signed traffic, each case with its sources and ports; invalid packets never, but on loopback |
| Firewall.OutputChainExactly | edge/runtime/contracts.py:1518-1534 | The same of the output chain, in every profile: the cloud server's address, name and host services, its metadata address, time, the control plane, web traffic to any IPv4 address, and the tenant's TLS and media or their synthetic counterparts, each with its destinations and ports |
| Firewall.InputVerdict | edge/runtime/contracts.py:1499-1512 | The packets the rendered input chain accepts beyond its base rules, whose own verdicts InputChainExactly states |
| Firewall.LiveChainNarrowsPolicy | edge/runtime/contracts.py:1437-1512 | With no synthetic sources in the facts, as every profile requires, over all packets the base rules leave open, live chain acceptance implies policy acceptance, and they differ exactly on Microsoft media from unlisted source ports |
| Firewall.LiveNodeAcceptsOnlySigned | edge/runtime/contracts.py:1437-1512 | Every new TCP or UDP packet from outside to a port other than 22 or 68 that a live node accepts, the signed policy accepts |
| Firewall.TenantTrafficIsOpen | edge/runtime/contracts.py:1499-1508 | Which packets the base rules leave open |
| Firewall.SyntheticChainAgainstPolicy | edge/runtime/contracts.py:1422-1434 | The synthetic chain exceeds the policy exactly on authorised-PBX traffic to 5061 and to the media range, and falls short exactly on Microsoft traffic |
| Firewall.MediaRulesAreReversals | edge/runtime/contracts.py:1438-1446 | Media output rules accept exactly the reversals of what the input rules accept |
| Firewall.LiveMediaIsSymmetric | edge/runtime/contracts.py:1499-1534 | A UDP packet that neither base chain decides leaves exactly when its reversal may enter |
| Firewall.DecideConcat | edge/runtime/contracts.py:1499-1512 | Chain semantics: what the first part leaves open the second decides |
| TextLines.OccursIffWithin | edge/runtime/contracts.py:1663-1665 | Substring search for an indented line pattern is the word-by-word test used for counting, and a line holds it at most once |
| TextLines.TextIsInjective | edge/runtime/contracts.py:1129-1130 | Comparing lines of words is comparing their texts |
| TextLines.BlockOnce | edge/runtime/contracts.py:1751-1757 | A block whose first line occurs nowhere else is counted once and replaced in place |
| TextLines.ReplacePart | edge/runtime/contracts.py:1665 | The first occurrence of a pattern that is a part of the program is replaced there and nowhere else |
| Decimals.ValueOfDecimal | edge/runtime/contracts.py:1079 | Reading a printed decimal gives the number back |
| CompilerRenderer.RenderersAgree | edge/compiler/core.py:806-943 | The compiler's template, transcribed line by line with its own hooks and named constants, is the program the runtime renders for itself, for every renderable route |
| CompilerRenderer.DirectionReads | edge/runtime/contracts.py:956-1035 | A route of the runtime's program reads as the template does: checks, accounting hook, call, media failure, relay |
| FragmentText.CompiledIsWhole | edge/compiler/core.py:836-943 | No word of the compiled program holds a space or a line break, for every strict host, unbroken token and digit prefix |
| FragmentText.RuntimeIsWhole | edge/runtime/contracts.py:1647-1806 | Nor does any of the running program, for every profile |
| FragmentText.TextDeterminesProgram | edge/runtime/contracts.py:1129-1130 | Such programs with equal texts are equal: comparing bytes is comparing programs |
| FragmentText.SignedTextDeterminesRoute | edge/runtime/contracts.py:1062-1131 | Of one node's routes, no two have the same signed bytes |
| FragmentText.CountIsOfText | edge/runtime/contracts.py:1663-1665 | For such programs counting pattern lines is counting the places of the pattern's text, of which a line has at most one |
| TenantParser.ParseInvertsRender | edge/runtime/contracts.py:1062-1131 | Parsing a rendered program returns exactly its route for every strict host, port 1024-65535, 1-15 digit prefix and valid media range, and refuses exactly when the host is a Teams hub |
| TenantParser.ParseAcceptsOnlyCanonical | edge/runtime/contracts.py:1129-1131 | Whatever is accepted is the canonical program of an authorised route with the node's own token and media range |
| TenantParser.ParsedExactly | edge/runtime/contracts.py:1062-1131 | Acceptance is exactly this, for every program and node: the compiler's own program of a route with a strict host that is no hub, ports, prefix and media range within bounds, and the node's token and media range |
| TenantParser.ParseIsInjective | edge/runtime/contracts.py:1129-1131 | Two accepted programs with one route are the same program |
| RuntimeRewrite.RewritingIsTotalAndExact | edge/runtime/contracts.py:1647-1806 | For every renderable route and profile no ambiguity failure is reachable, except when the PBX is the first Teams hub on 5061; the result is the signed program with the listed parts exchanged and all other parts unchanged |
| RuntimeRewrite.RuntimeTenantFragment | edge/runtime/contracts.py:1647-1806 | The step-by-step replacement of one program text computes the specified rewriting, failures included; what the rewritten program does on the wire is what RouteFacts reads back from its lines |
| RuntimeRewrite.AcceptedRoutesAreRewritten | edge/runtime/contracts.py:1647-1806 | Every route the parser accepts is rewritten, for every profile |
| RuntimeRewrite.DirectionsAreKept | edge/runtime/contracts.py:1651-1683 | The PBX target is the only destination of TEAMS_TO_PBX and the Teams target the only one of PBX_TO_TEAMS |
| RuntimeRewrite.DestinationsStep | edge/runtime/contracts.py:1651-1683 | The two destination replacements hit their own route each; failure exactly for the first hub |
| RuntimeRewrite.MediaStep | edge/runtime/contracts.py:1685-1757 | In the private-PBX profile the first and second offers, their reply hooks and their reply routes get opposite interface directions |
| RuntimeRewrite.HookStep | edge/runtime/contracts.py:1759-1769 | Exactly the second failure hook becomes the failover hook |
| RuntimeRewrite.TailStep | edge/runtime/contracts.py:1771-1806 | The failure-route tail is found once and extended |
| RuntimeRewrite.UriPrefix | edge/runtime/contracts.py:1663-1683 | One rendered address begins another only if host and port are the same |
| RouteFacts.RunningProgramReads | edge/runtime/contracts.py:1647-1806 | For every renderable route, profile and node: the facts read back from the lines of the whole running program, that is, every socket entered, send socket, advertised address and port, TLS domain, destination, media interface, hook, failover step and probe, in order |
| RouteFacts.RoutesFaceEachOther | edge/runtime/contracts.py:1651-1683 | The two routes of every running program face each other: each leaves from and advertises, at the node's own address, the port that the other one listens on, with exactly one TLS domain and one destination, its own peer's |
| RouteFacts.ProbesFollowRoutes | edge/runtime/contracts.py:1583-1644 | A live node's generated probes go to each hub as its route and failover do and from the same sockets, and to the PBX as calls do exactly when the profile is Direct Routing or the route's port is 5061 |
| RtpengineArtifact.RenderersAgree | edge/compiler/core.py:946-971 | The compiler's template, transcribed line by line, is the file the runtime renders for itself |
| RtpengineArtifact.Collect | edge/runtime/contracts.py:1156-1171 | The reading loop builds the dictionary of the lines, refusing raw and repeated ones |
| RtpengineArtifact.ParseInvertsRender | edge/runtime/contracts.py:1156-1190 | The parser returns the rendered specification, from either renderer, for all valid facts and session counts |
| RtpengineArtifact.ParseAcceptsOnlyCanonical | edge/runtime/contracts.py:1188-1190 | Only the canonical file of the node's own specification is accepted, with both ports and the session count within bounds |
| RtpengineArtifact.ParsedExactly | edge/runtime/contracts.py:1156-1190 | Acceptance is exactly that, on every node whose addresses the value pattern reads |
| RtpengineArtifact.RuntimeChangesOneLine | edge/runtime/contracts.py:1220-1285 | The runtime rewrite succeeds exactly for the node's own specification, as parsed ones are, and changes exactly the interface line, to the private address twice, private and public, or the two named interfaces, by profile |
| AgentState.StateStore.Stage | edge/agent/security_core.py:1505-1577 | Staging happens exactly when the envelope is acceptable in the loaded state, and replaces the state atomically; when it is, AcceptanceExactly says |
| AgentState.StateStore.Commit | edge/agent/security_core.py:2110-2125 | Commit succeeds or crashes exactly when the store loads with exactly the named candidate pending and the evidence is healthy, is refused otherwise with the first reason that applies and nothing changed, and makes that candidate active |
| AgentState.StateStore.Abort | edge/agent/security_core.py:2136-2155 | Abort succeeds or crashes exactly when the store loads with exactly the named candidate pending, and turns it into the tombstone; active and replay floor stay |
| AgentState.StateStore.WriteLocked | edge/agent/security_core.py:1218-1256 | A crash leaves the old state or the new one |
| AgentState.StepKeepsValidState | edge/agent/security_core.py:1026-1118 | Stage, commit and abort lead from a valid state to a valid state, except that staging a removal (ABSENT or DECOMMISSION, which carry no artifacts) never does |
| AgentState.CandidateValidity | edge/agent/security_core.py:1144-1216 | A staged candidate's metadata validates exactly when its manifest is ACTIVE |
| AgentState.StagedRemovalIsFinal | edge/agent/security_core.py:1410-1430 | After a staged removal no operation is ever accepted: the state no longer loads |
| AgentState.RemovalIsStageable | edge/agent/security_core.py:1505-1577 | Such a removal can be staged: a first envelope without artifacts is accepted, leaves a state that does not load, and no event can follow |
| AgentState.HistoryState | edge/agent/security_core.py:1026-1118 | Every history of stages, commits, aborts and crashes leaves a tidy state, valid but for that case |
| AgentState.SequencesIncrease | edge/agent/security_core.py:1535-1541 | Accepted sequences strictly increase: none is staged twice, not even after an abort |
| AgentState.FloorCoversHistory | edge/agent/security_core.py:1535-1541 | The replay floor is at least every sequence ever staged and equals the last |
| AgentState.ResolutionFollowsStage | edge/agent/security_core.py:1450-1469 | A commit or an abort resolves the candidate staged right before it |
| AgentState.ActiveIsLatestCommit | edge/agent/security_core.py:2122-2125 | The active candidate is the latest commit, whatever was aborted since |
| AgentState.TombstoneIsLatestAbort | edge/agent/security_core.py:2150-2153 | The tombstone names the latest aborted candidate, whatever was staged or committed since |
| AgentState.StagesAreResolved | edge/agent/security_core.py:1543-1546 | No staged candidate is dropped: only its own commit or abort can come next |
| AgentState.NeverBothCommittedAndAborted | edge/agent/security_core.py:2090-2155 | No sequence is both committed and aborted |
| AgentState.CommitsFormAChain | edge/agent/security_core.py:1393-1407 | Consecutive commits form a linear chain: each names its predecessor's digest, sequence and artifacts, whatever aborts lie between |
| AgentState.FirstAbortIsFinal | edge/schema/manifest_tool.py:1338-1345 | With nothing committed only sequence 1 is stageable, so after aborting the first candidate nothing is |
| AgentState.AcceptanceExactly | edge/agent/security_core.py:1505-1577 | An envelope is staged on what is stored exactly when it is the envelope of a live manifest for this node, its digest the manifest's, within the allowed times, signed by a pinned key, and either the first one ever, or the stored state is valid, has an active candidate and nothing pending, and the manifest goes on from the active one in sequence, digest and artifacts |
| AgentState.ValidStatesExactly | edge/agent/security_core.py:1026-1118 | A stored state loads exactly when it is this node's, its candidates are whole, the sequences it records are distinct and positive with the replay floor as the greatest, and a pending one is the greatest |
| AgentState.VerifiedKeysExactly | edge/agent/security_core.py:782-811 | A key counts exactly when it is pinned and one of the envelope's signatures by it verifies |
| AgentState.PendingRestsOnEnvelope | edge/agent/security_core.py:1410-1430 | In every history the pending candidate rests on the last event: its keys are not empty, pinned at that time and each behind a verifying signature of that envelope, its artifacts are exactly the manifest's, and its sequence, digest and slot are the manifest's |
| AgentState.ActiveRestsOnEnvelope | edge/agent/security_core.py:1410-1430 | In every history the active candidate rests so on the envelope staged right before the latest commit |
| AgentState.StagedIsTimely | edge/schema/manifest_tool.py:1495-1520 | Whatever is staged is for this node, not yet expired, and issued and expiring within the allowed skew and lifetime |
| AgentState.UpgradeIsStageable | edge/agent/security_core.py:1505-1577 | After any history that leaves something active and nothing pending, the next sequence is stageable with any artifacts and leaves a valid state |
| Redaction.Redactor.Text | installer/vivo_cp_installer.py:197-201 | The longest-first loop computes the specified redaction and leaves no safe secret and no line end |
| Redaction.Redactor.AddValues | installer/vivo_cp_installer.py:187-190 | Exactly the non-empty values are added to the secrets |
| Redaction.RedactionIsComplete | installer/vivo_cp_installer.py:197-201 | For any processing order no occurrence of any safe secret is left |
| Redaction.ReplaceLeavesOut | installer/vivo_cp_installer.py:200 | One replacement removes its word and brings back no absent word, across markers too |
| Redaction.RedactionIsIdempotent | installer/vivo_cp_installer.py:197-201 | A second pass in any order changes nothing, nor does the first on text without secrets |
| Redaction.SafeSecretsExactly | installer/vivo_cp_installer.py:182-201 | Among secrets without brackets, as validated ones are, redaction leaves none in any text exactly when none is part of the marker's word |
| Redaction.ValidSecretsAreRedacted | installer/vivo_cp_installer.py:656-666 | Secrets of 32 to 128 characters of the allowed alphabet are always redacted completely |
| Redaction.ShortSecretLeaks | installer/vivo_cp_installer.py:187-190 | The redactor alone does not promise it: the value R survives |
| InstallerLedger.InstallerEngine.Start | installer/vivo_cp_installer.py:1494-1525 | One run, resume or reconcile with any failures and crashes: refused exactly as coded; otherwise it runs, in order, exactly the phases it has to (all of a new installation, those not completed of a resumed one, release, ansible and summary of a reconcile), stops at the failing phase with the failure on record, ends finished with all phases complete, secrets and release behind them, keeps the ledger sound at every crash, and never changes stored secrets |
| InstallerLedger.UnfinishedRan | installer/vivo_cp_installer.py:1258-1278 | Running the unfinished phases of the ledger begun with is running, once and in order, exactly those the found ledger demands |
| InstallerLedger.BegunNeeds | installer/vivo_cp_installer.py:1189-1256 | The ledger an invocation begins with leaves open exactly the phases it has to run, and records the run as new, resumed once more or reconciling |
| InstallerLedger.InstallerEngine.RunPhase | installer/vivo_cp_installer.py:1258-1278 | A completed phase is skipped; otherwise start, work and completion or failure are recorded in that order, and every crash leaves a sound ledger |
| InstallerLedger.InstallerEngine.Begin | installer/vivo_cp_installer.py:1189-1256 | Which runs are refused, stored secrets that fail their checks included, and which ledger a run begins with |
| InstallerLedger.InstallerEngine.RunPhases | installer/vivo_cp_installer.py:1512-1513 | The loop over the phases executes exactly the unfinished ones, in order |
| InstallerLedger.Installation.EnsureSecrets | installer/vivo_cp_installer.py:1351-1357 | Secrets are generated only when there are none and never change afterwards |
| InstallerLedger.InstallIsAPrefix | installer/vivo_cp_installer.py:802-818 | In an install run the completed phases are a prefix of the order |
| InstallerLedger.ReconcileIsAPrefix | installer/vivo_cp_installer.py:874-875 | In a reconcile run the other phases stay complete and release, ansible, summary complete in that order |
| InstallerLedger.ReconcileRepeatsThree | installer/vivo_cp_installer.py:874-875 | A reconcile repeats exactly release, ansible and summary |
| InstallerLedger.ReconcileKeepsSound | installer/vivo_cp_installer.py:854-879 | Preparing a reconcile keeps the run counters equal to the runs and the other phases complete |
| InstallerLedger.EndKeepsSound | installer/vivo_cp_installer.py:836-845 | Finishing is recorded in the ledger and its last run alike, with every phase complete |
| RestoreJournal.KeyDeterminesNames | deploy/scripts/controller_restore_journal.py:191-197 | The joined lookup key determines the set of database names |
| RestoreJournal.PlaceIsRecognised | deploy/scripts/controller_restore_journal.py:136-197 | Every state of the protocol is recognised with its own action, whatever unrelated databases exist, except where an import was given up by halves |
| RestoreJournal.AcceptedExactlyReachable | deploy/scripts/controller_restore_journal.py:136-197 | The phase and topology pairs that runs reach are precisely those reconciliation accepts and the three that a give-up by halves leaves |
| RestoreJournal.ForeignNames | deploy/scripts/controller_restore_journal.py:136-150 | Databases that are not the restore's decide nothing, unless one has a malformed name: then inspection refuses |
| RestoreJournal.AllowedExactlyTaken | deploy/scripts/controller_restore_journal.py:45-57 | The journal allows exactly the transitions that runs of the playbook make |
| RestoreJournal.HistoryStaysOnPlaces | deploy/playbooks/restore-replacement-controller.yml:323-650 | Over every sequence of failed, crashed, rolled-back and given-up runs the world stays on the places of the protocol and no journal transition is forbidden |
| RestoreJournal.StuckExactly | deploy/playbooks/restore-replacement-controller.yml:627-650 | Inspection refuses after exactly the sequences in which a rescue cleared the journal beside an import or dropped a prepared import and kept its journal |
| RestoreJournal.RestoreConverges | deploy/playbooks/restore-replacement-controller.yml:160-650 | After any such sequence one uninterrupted run ends COMPLETE or ROLLED_BACK if and only if no import was given up by halves; otherwise every run is refused and changes nothing |
| RestoreJournal.OriginalIsHeldOnce | deploy/playbooks/restore-replacement-controller.yml:485-511 | The pre-import data is in exactly one of main and previous; what is selected is the complete import; unrelated databases are untouched |
| RestoreJournal.GiveUpExactly | deploy/playbooks/restore-replacement-controller.yml:627-650 | Giving up an import, over where it stands, whether the drop takes effect and whether the journal is cleared: when the next inspection accepts, and when it is as if nothing had happened |
| RestoreJournal.FailedDropRefuses | deploy/playbooks/restore-replacement-controller.yml:627-650 | A failed drop: the give-up completes, the import stays without a journal, and the next inspection refuses |
| RestoreJournal.JournalFile.Transition | deploy/scripts/controller_restore_journal.py:305-320 | A journal transition is written exactly when allowed, atomically |
| RestoreJournal.JournalFile.Clear | deploy/scripts/controller_restore_journal.py:323-344 | The journal is removed exactly when it is in the one phase before selection that the caller names, and otherwise stays |
| RotationJournal.RotationHelper.Reconcile | deploy/scripts/forced_fixture_leaf_rotation_state.py:482-522 | One helper call with its crash points is one step of the model |
| RotationJournal.RunKeeps | deploy/scripts/forced_fixture_leaf_rotation_state.py:482-522 | Over all requests, pointer moves and crashes: at most one request is PREPARED, before is written once, a selection is final |
| RotationJournal.StartIsSound | deploy/scripts/forced_fixture_leaf_rotation_state.py:482-493 | The empty journal satisfies what every run keeps |
| RotationJournal.RequestsSelectApart | deploy/scripts/forced_fixture_leaf_rotation_state.py:357-363 | Distinct requests select distinct snapshots |
| RotationJournal.SecondRotationExactly | deploy/scripts/forced_fixture_leaf_rotation_state.py:482-514 | After any run from an empty journal a known request is told to rotate exactly when it is pending, no temporary file is left, and the pointer shows what it showed when the request was prepared; an unknown one exactly when none is pending |
| RotationJournal.SelectionExactly | deploy/scripts/forced_fixture_leaf_rotation_state.py:482-522 | After any run a selection is the answer exactly when the request is pending, no temporary file is left, and the pointer shows its own forced generation under the same authority with every leaf replaced; the repeated answer exactly when the pointer still shows the selected one and nothing is pending |
| RotationJournal.WritesExactly | deploy/scripts/forced_fixture_leaf_rotation_state.py:490-521 | What a call leaves behind, by its answer and by how its write ended |
| RotationJournal.NoSecondRotation | deploy/scripts/forced_fixture_leaf_rotation_state.py:505-514 | So if the pointer never returns to a generation it left, no request is told to rotate once it has moved |
| RotationJournal.ReselectionRotatesTwice | deploy/scripts/forced_fixture_leaf_rotation_state.py:505-514 | With a reselection it is: a concrete run |
| RotationJournal.RetryRefusedExactly | deploy/scripts/forced_fixture_leaf_rotation_state.py:460-471 | Calling again after a write, finished or cut short, is refused exactly when the temporary file was left |
| RotationJournal.ClosedExactly | deploy/scripts/forced_fixture_leaf_rotation_state.py:460-471 | The journal is closed by exactly the runs in which some call left its temporary file |
| RotationJournal.FirstCallCloses | deploy/scripts/forced_fixture_leaf_rotation_state.py:460-471 | The first call of an empty journal can leave that file, and then every later call is refused |
| RotationJournal.StrayClosesTheJournal | deploy/scripts/forced_fixture_leaf_rotation_state.py:460-471 | Once closed, every later call is refused and changes nothing |
| DnsReconcile.Apply | infra/azure-poc/reconcile_root_direct_dns_acme_authority.py:92-138 | Against an interfering cloud the deletions performed are a prefix of the approved actions, each of the reviewed record and each right after a discovery that showed the reviewed authority, stopped machines and exactly the rest of the plan; success means all of them with the stable authority unchanged; an unconfirmed run deletes nothing, nor does one whose plan is not the fresh one. On a quiet cloud an approved fresh plan is applied, and a crash after any number of deletions leaves the cloud as exactly those deletions make it |
| DnsReconcile.MakePlan | infra/azure-poc/reconcile_root_direct_dns_acme_authority.py:59-89 | A plan returned is that of the state observed, on a quiet cloud whenever PlanExactly allows one |
| DnsReconcile.PlanExactly | infra/azure-poc/reconcile_root_direct_dns_acme_authority.py:59-89 | There is a plan exactly when no challenge is left or every machine is deallocated, and it lists the challenges that are there |
| DnsReconcile.SameAuthorityExactly | infra/azure-poc/reconcile_root_direct_dns_acme_authority.py:41-55 | The authority counts as unchanged exactly when all but zone etags, challenges and power states is |
| DnsReconcile.ListActions | infra/azure-poc/reconcile_root_direct_dns_acme_authority.py:24-38 | The actions are the challenges of the zones in order |
| DnsReconcile.Azure.DeleteTxt | infra/azure-poc/root_direct_dns_acme_contract.py:1112-1137 | A conditional delete removes only the challenge with the reviewed etag |
| DnsReconcile.DeletionLeavesTheRest | infra/azure-poc/reconcile_root_direct_dns_acme_authority.py:24-38 | After the first action the fresh actions are exactly the rest |
| DnsReconcile.InterruptionLeavesSuffix | infra/azure-poc/reconcile_root_direct_dns_acme_authority.py:111-122 | After the first k deletions of a plan, whatever new etags they give, the fresh plan is exactly the rest of it, under the same authority |
| HealthGates.PlansCoincide | edge/agent/security_core.py:1730-1833 | For every JSON value the agent accepts exactly the plans the runtime accepts, with the same record, whose gate numbers are integers, in tenant scope only |
| HealthGates.CanonicalPlansCoincide | edge/runtime/contracts.py:678-761 | On values without floats, which the parser of signed documents refuses, the two plan validators are the same function |
| HealthGates.FloatSeparates | edge/runtime/contracts.py:733-740 | A float of 30 seconds would pass the runtime and not the agent |
| HealthGates.AgentValidate | edge/agent/security_core.py:1759-1833 | The agent's loop over the gates with its seen-sets |
| HealthGates.RuntimeValidate | edge/runtime/contracts.py:702-761 | The runtime's loop over the gates with its seen-sets |
| HealthGates.AcceptedPlanIsExact | edge/agent/security_core.py:1755-1833 | An accepted plan is the three gates in the fixed order, with distinct identifiers, the fixed parameters, and the local tenant's identity |
| HealthGates.TablesCoincide | edge/agent/security_core.py:56-91 | The two sides keep their tables of gates, parameters and proofs apart, and alike |
| HealthGates.AcceptedPlansExactly | edge/runtime/contracts.py:648-672 | A value is accepted as a plan exactly when it is that plan's own record and the plan keeps the rules: nothing else passes, nothing more is demanded, and writing and reading a plan is the identity |
| HealthGates.ResultListsCoincide | edge/runtime/contracts.py:764-807 | The two result validators agree on every value; accepted results list the plan's gates in order with their exact proofs |
| HealthGates.AcceptedResultsExactly | edge/runtime/contracts.py:764-807 | Results are accepted exactly when they are, gate by gate in order, records of results that answer the gates, with every proof there and passed |

## Left out

- JSON text, canonical encoding and timestamps as text: documents are typed values, one for each canonical text, and a digest is an injective constructor over what it is taken of.
- Cryptography and certificates: whether a signature verifies, and what identifies a certificate, is given.
- Ownership, modes and symbolic links of files: one flag says whether a file passes the protected-file test; link counts and sizes are modelled where recovery depends on them.
- Locks: each command runs alone, as its lock ensures.
- `_begin` of the reboot journal: it fails closed on a leftover temporary file in its initializer, so no crash-totality is claimed for it.
- The 2 MiB read bound of the journal's own state file, and the 512 KiB and 64 KiB bounds of generated artifacts: the files are far smaller.
- The long field comparisons of the preflight, evidence and acceptance documents: the journal's own bindings to them are modelled, their contents are opaque.
- Readiness time after a reboot: the journal does not record it, so it is not part of the timing result.
- Rollover.EvidenceRoot.RollOver: assumes a clean start, that is, a valid terminal journal and leaf of protected files, and that the transaction, manifest and receipt fit the read bound; transactions of one terminal journal have one length, so leftover staging is never longer than what replaces it.
- RuntimeRewrite.MediaStep: the two directed reply routes are written out; that the source derives them from the generic one by two replacements inside its first and third lines is not modelled; patterns of several lines are matched from the beginning of a line, as their column-0 headers are.
- RebootJournalStore.JournalDirectory.ArmNode: the test that the input path is not the destination path is not modelled.
- Firewall.LiveChainNarrowsPolicy: compares packets that the base rules leave open; flows already established are accepted by the connection tracker in both, and tracking itself is not modelled.
- The text syntax of the packet filter and its empty forward chain: rules are values.
- TextLines.OccursIffWithin: holds for lines whose words have no spaces, as FragmentText proves of the generated programs; it is about one-line patterns.
- RouteFacts.RunningProgramReads: says what the routes, the failover and the probes are set to do; how the SIP server interprets its configuration language is not modelled.
- The compiler's extraction of the effective tenant from a manifest and the range checks of node facts: their conclusions (matching sources, valid ranges, disjoint authorities) are the hypotheses of the firewall and route results.
- The token of a tenant route: derived elsewhere from a hash, here a given text.
- AgentState.StateStore.Stage: of the manifest contract it models sequence, lineage, times, lifecycle, artifacts and signatures; resource, network and health-gate rules are not part of this model, nor are the size limit and the refusal of earlier state formats.
- AgentState.StateStore.Commit: the verdict on runtime evidence is a given predicate of the candidate; HealthGates covers its plan and results.
- Redaction.Redactor.Text: redaction of nested values and of sensitive keys is not modelled, only that of text.
- Redaction.SafeSecretsExactly: is stated for values without brackets; every caller of the redactor gives it values validated against an alphabet that has none.
- InstallerLedger.InstallerEngine.RunPhase: the work of a phase is any outcome or crash; prompts, packages and the playbook are not modelled.
- RestoreJournal.HistoryStaysOnPlaces: the database commands are atomic steps, an interrupted import being a partial database.
- RotationJournal.RunKeeps: states are typed values; unreadable or foreign files in the state directory are only the stray temporary file.
- DnsReconcile.Apply: what a complete discovery checks is not modelled; a discovery is the state observed or a failure.
- `edge/runtime/core.py`, the control-plane application, cloud wrappers, probes and command lines are not part of this model.
