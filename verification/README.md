# Hamara Tunnel: a verified model of the guard, the pairing and the codecs

Hamara links an Iran edge server to an outside gateway. This project models, in Dafny, the parts on which its promises
rest, and proves them.

**The egress guard (`Netfilter`, `Routing`, `Guard`, `Edge`, `LinkControl`).** The edge is a machine whose state is the
policy-rule list, Hamara's routing table, the IPv4 and IPv6 OUTPUT chains, the devices and the active units. Every shell
command of `guard`, `ipip` and wg-quick's hooks is one atomic step that may fail; between two commands other processes
may run link commands or edit the chains, or the device may vanish. A packet semantics (ordered rule walk, first-match
chain) says what leaves by which device. Main results: once sealed, every state of every interleaving is fail-closed,
including the moments when a re-run of `guard up` has deleted its own policy rules; each layer alone contains guarded
packets over all runs in which the other is lost; the link unit is never active without an
installed guard, whatever fails in join, start, stop, restart, repair, leak test and uninstall.

**The gateway firewall (`Firewall`).** The script as an editor of three rule lists: idempotent, undone exactly on chains
without identical rules, never touching other rules wherever it stops, with the first-match meaning of each mode.

**Pairing (`Model`, `Render`, `Pairing`, `Witnesses`, `Delivery`).** Validation of offers and responses, the two ends' rendered
files, one server's commands with errors at any step, and all runs of any number of servers whose tokens are lost,
copied, replayed or misdelivered. Main results: a ready gateway was answered by a server that joined an offer of this very
instance; the completed ends fit together; in every such run a packet of the generated Xray outbound is carried from the
edge to the gateway's WAN.

**Codecs and files (`Text`, `Base64Url`, `Token`, `Shell`, `Address`, `HostName`, `Sysctl`, `AuthorizedKeys`).** Token
framing over base64url (RFC 4648, section 5), quoting against a POSIX word reader (XCU, section 2.2), host names against
their grammar (RFC 1123, section 2.1), IPv4 prefixes (RFC 4632, section 3.1), conservation of kernel settings, and the
authorized_keys file under repeated accepts.

`dafny verify dfyconfig.toml` checks everything.

## Conventions

* Anything Hamara does not control is an arbitrary parameter: other programs' rules (`Strangers`), other tables and
  selectors (`Elsewhere`), IPv6 text (`SixReader`), WireGuard keys, certificates, SHA-256 and JSON (`Checks`, `Hash`,
  `Codec`). Results about validation hold for any address and host readers in `Checks`; where the meaning of a text
  matters, `Model.ReadsText` says that they are Go's readers and the program's host validator as modelled here.
* `reliable` means that no command or external step fails that finds what it needs, `Calm()` that no other program edits
  the chains of a machine, and `Alone()` that no other process does anything at all. Safety results use none of them;
  results about exact final lists and about success do.
* Other programs' edits are polite: no rule that accepts guarded packets goes ahead of an installed reject, and the
  rejects themselves stay. While the guard is not installed they are unrestricted.
* `admitted` says that a command runs as root and can read the configuration if there is one; otherwise it is refused.
* Removing Hamara's own files succeeds; the Go code ignores errors there.
* An error return of the Go code is a `false`, `None` or error value, reached nondeterministically wherever the code
  calls an external program or writes a file.
* Configuration texts that only one renderer prints are modelled as records of their fields.

## Where the code promises less than its documentation

* `hamara repair` "reapplies the kill switch" (docs/OPERATIONS.md), but a reject that is present behind somebody's ACCEPT
  is found by `-C` and stays there. `Guard.RepairExact` gives the exact condition and `Guard.RepairCanMiss` the witness;
  `Firewall.AraInput` and `Firewall.RepairCanMissDrop` do the same for the gateway's WAN drop.
* Marked IPv6 is rejected only where ip6tables is installed; the script succeeds without it (`Guard.MarkedV6Escapes`).
* `init --force` removes the old configuration before it looks at the new endpoint, so a bad endpoint leaves none
  (`Pairing.InitKeepsExact` for all runs, `Pairing.ForcedInitLoses` the witness).
* `Encode` trims the kind it is given and `Decode` does not (`Token.RoundTrip`).
* A join that fails in IPIP mode leaves its script behind. If the same server is then initialised as an IPIP gateway, the
  script stays until a response is accepted, also through a failed initialisation in between:
  `Pairing.InstalledPeerExact` is the exact condition, `Witnesses.StaleScriptHappens` and
  `Witnesses.StaleScriptSurvives` are the witnesses.
* Uninstall cannot tell an administrator's deliberate value from Hamara's own (`Sysctl.ForeignSurvives`).

## Model

| member | source | states |
|---|---|---|
| Guard.AlwaysFailClosed | internal/render/render.go:188-239 | From a sealed state, every state of every run of guard-up commands by any number of processes, link commands, device loss, failing commands, harmless chain edits and any policy-rule edits by other programs is sealed, and fail-closed for IPv4 and IPv6 under any other tables, routes and chain policies; table T answers with the tunnel or unreachable |
| Guard.RoutingAlone | internal/render/render.go:221-226 | In every run that leaves a packet's own policy rule alone, whatever happens to the chains, the other policy rules and the link, the packet leaves by the tunnel or not at all |
| Guard.SealedStep | internal/render/render.go:220-230 | The rejects and the answering table survive every command of guard up, hooks and IPIP script at any moment, the deletion of the guard's own policy rules included |
| Guard.EventKeepsSealed | internal/render/render.go:197-199 | They survive edits of other programs as well: chain rules behind the rejects, harmless ones ahead of them, removals of other chain rules, and any policy rules |
| Guard.SealedIsFailClosed | internal/render/render.go:186-239 | In a sealed state no packet with mark 72 or the edge source leaves by a device other than the tunnel, and no marked IPv6 packet leaves |
| Guard.OutputLayer | internal/render/render.go:227-228 | The OUTPUT layer alone stops a guarded packet on every other device while its own reject works, whatever the policy rules and the table are |
| Guard.RoutingLayer | internal/render/render.go:221-226 | The routing layer alone gives the tunnel or unreachable while the packet's policy rule is installed, whatever the OUTPUT chains hold |
| Guard.ClosedLookup | internal/render/render.go:33-34 | A lookup in table T is the tunnel exactly when the metric-10 route is present, else the unreachable fallback |
| Guard.TableStep | internal/render/render.go:33-34 | Under PostUp, PostDown, IPIP up and down, device loss and guard commands, table T holds only Hamara's two routes in metric order, and only the flush takes the fallback away |
| Guard.RepairExact | internal/render/render.go:197-199 | After a repair of an arbitrary chain a guarded packet is rejected exactly when a guard rule that hits it was missing, and otherwise keeps its old verdict |
| Guard.UnguardedVerdicts | internal/render/render.go:227-230 | Re-applying the guard decides nothing about packets without mark 72 and the edge source, about packets leaving by the tunnel, or about unmarked IPv6 |
| Guard.MarkedV6Rejected | internal/render/render.go:230-230 | On any IPv6 chain the re-applied guard rejects exactly the packets with mark 72 where its rule was missing |
| Guard.RepairCanMiss | internal/render/render.go:197-199 | One ACCEPT ahead of an installed guard survives a repair |
| Guard.RepairMissContained | internal/render/render.go:220-226 | With any OUTPUT chain, that one included, a packet whose policy rule is installed leaves by the tunnel or not at all |
| Guard.MarkedV6Escapes | internal/render/render.go:205-208 | On the empty IPv6 chain that the script leaves without ip6tables, marked IPv6 packets are kept in exactly when the policy does not accept or none of them has a route |
| Routing.PresentSteers | internal/render/render.go:225-226 | An installed policy rule steers its packets to table T when lower-numbered rules of others have no route for them |
| Routing.StripAddOther | internal/render/render.go:215-226 | Stripping a lower-numbered rule commutes with adding one, so re-adding restores the order |
| Netfilter.ShieldStops | internal/render/render.go:197-199 | A rule with no accepting rule ahead of it stops every packet it hits |
| Netfilter.ShieldInsert | internal/render/render.go:197-199 | Insertions behind a shield, or harmless ones, keep it |
| Netfilter.ShieldDelete | internal/render/render.go:200-204 | Removing any other rule keeps a shield |
| Netfilter.UnobstructedShields | internal/render/render.go:197-199 | A rule with nothing accepting ahead of any of its copies is a shield as soon as it is there |
| Netfilter.EnsureVerdict | internal/render/render.go:138-145 | Check-then-insert decides exactly the packets the rule hits when it was absent, and nothing when it was present |
| Netfilter.RemoveFirstPurge | internal/render/render.go:146-153 | One deletion removes one copy and nothing else |
| Edge.Machine.constructor | internal/render/render.go:188-239 | A host where Hamara never ran satisfies the invariant, whatever rules others have and whatever polite edits they will make |
| Edge.PoliteDrift | internal/render/render.go:197-199 | Edits of other programs, any at all while the guard is not installed and harmless ones afterwards, keep what the invariant needs and touch no guard rule |
| Edge.PoliteAllows | internal/render/render.go:197-199 | How free other programs are between commands: any rule at the end of a chain or that says nothing about guarded packets, any rule before the guard is there, every link command |
| Edge.OthersKeptUnguarded | internal/render/render.go:220-236 | A script that leaves the rules of others alone leaves every unguarded packet's OUTPUT verdict and outgoing device as they were, IPv4 and IPv6 |
| Edge.Machine.Do | internal/render/render.go:189-190 | One command after arbitrary drift, edits of other programs included, takes effect or changes nothing, and keeps the invariant at every recorded moment |
| Edge.Machine.IptAdd | internal/render/render.go:197-199 | Leaves the rule installed, at the head when it was missing; a spurious check failure costs only a duplicate; no rule of others is touched |
| Edge.Machine.Ip6Add | internal/render/render.go:205-208 | The same for IPv6, rejecting nothing but mark 72, and success without any effect where ip6tables is absent |
| Edge.Machine.DelRules | internal/render/render.go:215-218 | The delete loop ends, by the number of rules, with every copy gone and all other policy rules in order |
| Edge.Machine.GuardPolicy | internal/render/render.go:221-226 | On success the fallback is in place and each policy rule is in the list once, in its place, whatever was there before |
| Edge.Machine.GuardUp | internal/render/render.go:220-230 | On success both layers are installed; wherever it stops the invariant holds, the policy and OUTPUT rules of others are untouched and in order, and unguarded packets leave as before; the exact lists when no command fails and nobody else edits |
| Edge.Machine.IptDel | internal/render/render.go:200-204 | The delete loop ends, by the number of copies, even while others edit the chain; where nobody does, every copy is gone and all other rules are in order |
| Edge.Machine.Ip6Del | internal/render/render.go:209-214 | The same for IPv6 |
| Edge.Machine.GuardDown | internal/render/render.go:231-236 | Wherever it stops, the policy and OUTPUT rules of others are untouched and in order and no policy rule has outlived its fallback; exactly the others' rules and an empty table remain when no command fails and nobody else edits |
| Edge.Machine.WireGuardUp | internal/render/render.go:31-35 | Success means the device is up and table T has the tunnel route, and comes exactly when the device was free on an undisturbed host; the guard's state is untouched either way |
| Edge.Machine.WireGuardDown | internal/render/render.go:31-35 | Takes the device and its route away on an undisturbed host, and never touches the guard's state |
| Edge.Machine.IpipUp | internal/render/render.go:284-292 | As WireGuardUp, for the IPIP script, which always succeeds on an undisturbed host |
| Edge.Machine.IpipDown | internal/render/render.go:294-302 | Takes the route and the device away on an undisturbed host, never fails, and never touches the guard's state |
| Edge.Machine.StartGuard | internal/render/render.go:241-257 | The guard unit becomes active only when its script succeeded, with both policy rules installed |
| Edge.Machine.StartLink | internal/render/render.go:259-264 | The link unit becomes active only behind an active guard, and then the tunnel route is in table T |
| Edge.Machine.StopLink | internal/render/render.go:266-325 | Only the link unit becomes inactive, however its script ended, and on an undisturbed host its device and route are gone |
| Edge.Machine.StopGuard | internal/render/render.go:241-257 | The link that requires the guard is stopped before the guard's rules go, and then they all go: the policy rules and chains are those of others and table T is empty |
| Edge.Machine.Systemctl | internal/platform/platform.go:32-41 | Every call is logged, may be refused, and keeps the invariant at every moment; the rules of others stay; a guard that has become inactive has left nothing behind |
| Edge.SafeIsFailClosed | internal/render/render.go:186-239 | Every recorded moment with an active guard is sealed and fail-closed |
| Edge.RepolicedLaws | internal/render/render.go:224-226 | Running guard up twice gives the rule list of running it once, and stripping undoes it |
| Edge.GuardChainLaws | internal/render/render.go:227-233 | A second up changes no chain; down after up restores exactly the chains that held neither rule |
| LinkControl.EveryMoment | internal/app/app.go:723-893 | In every run of the edge's commands, among edits of other programs, link commands and device loss, whenever the link unit or the guard unit is active no guarded packet can leave by another device |
| LinkControl.EveryRuleAnswers | internal/render/render.go:221-236 | With no accidental failures a policy rule of the guard never points at an empty table, during guard down as well |
| LinkControl.UnitTables | internal/app/app.go:773-797 | A start brings the guard up first and the link last, with the relay before it in ARA; a stop is the same list backwards without the guard |
| LinkControl.UninstallTable | internal/app/app.go:948-951 | An uninstall stops every unit there is, the guard last |
| LinkControl.ManageLink | internal/app/app.go:723-770 | Start, stop and restart issue the unit lists in order; no outcome of any of them deactivates the guard |
| LinkControl.StartAll | internal/app/app.go:743-750 | Success means every unit is active and was asked for in order |
| LinkControl.StopAll | internal/app/app.go:735-742 | Success means every unit is inactive; the guard is left alone |
| LinkControl.ActivateIran | internal/app/app.go:1024-1050 | Success means every unit of the mode was asked for in order and is active, and from a cold host ends with both layers sealed, both policy rules and the tunnel route in place; the rules of others stay |
| LinkControl.RepairGuards | internal/app/app.go:825-835 | Success means an active guard with both layers installed; other modes are refused without effect |
| LinkControl.LeakTest | internal/app/app.go:838-893 | A leak is reported exactly when one of the two probes finds one; the exact systemctl calls of each outcome: after a successful stop every exit has asked for a start of the same unit, twice after a failed restart; the guard stays active |
| LinkControl.Uninstall | internal/app/app.go:948-951 | Every unit is asked to stop, the guard last, every moment on the way is safe, and where the guard was stopped nothing of it is left |
| LinkControl.ActivateThenUninstall | internal/app/app.go:940-951 | Round trip: activateIran on a cold host and then Uninstall give back the original policy rules and OUTPUT chains, with an empty table |
| Firewall.Gateway.Up | internal/render/render.go:155-159 | On success every one of Hamara's rules is there, and on fresh chains exactly the specified lists, whatever failed on the way; wherever it stops, all other rules are untouched and in order |
| Firewall.Gateway.Down | internal/render/render.go:160-165 | All copies of Hamara's rules gone, and the same frame under failures |
| Firewall.Gateway.IptCheck | internal/render/render.go:138-145 | Success means the rule is there; a missing one is added at the head or the tail and nothing else changes |
| Firewall.Gateway.IptDel | internal/render/render.go:146-153 | Ends by the number of matching rules with every copy gone |
| Firewall.UpIdempotent | internal/render/render.go:138-159 | A second up changes nothing |
| Firewall.DownUndoesUp | internal/render/render.go:146-165 | Down after up is down alone, and is the identity exactly on chains that hold none of Hamara's rules |
| Firewall.AraInput | internal/render/render.go:119-121 | The verdict of every packet after up, for every initial chain |
| Firewall.AraInputFresh | internal/render/render.go:119-121 | On fresh chains WAN UDP to WireGuard is dropped, the TLS port accepted, everything else as before |
| Firewall.DirectInputFresh | internal/render/render.go:124-129 | On fresh chains the direct modes accept their own packets and change no other verdict |
| Firewall.RepairCanMissDrop | internal/render/render.go:119-121 | A WAN drop already present behind an ACCEPT is not moved |
| Firewall.ForwardFresh | internal/render/render.go:157-158 | On fresh chains everything from the tunnel and the replies to it pass, the rest is as before |
| Firewall.PostroutingFresh | internal/render/render.go:159-159 | On fresh chains the tunnel network leaving by the WAN is masqueraded unless an earlier rule claims it |
| Model.OfferComplete | internal/app/app.go:1154-1189 | Every accepted option set with well-formed generated material yields an offer that passes validation, in every mode |
| Model.ValidMeans | internal/model/model.go:145-212 | The validator accepts exactly the offers that meet every documented condition, each written out |
| Model.ResponseMeans | internal/model/model.go:214-233 | A response is accepted exactly when it is for this instance and mode and carries that mode's material |
| Model.AcceptedEndpoint | internal/app/app.go:235-256 | Accepted ACME endpoints are host names of the grammar, accepted IPIP endpoints IPv4 addresses |
| Model.ResponseComplete | internal/app/app.go:429-486 | The response built from an offer passes validation against the configuration that issued it |
| Model.AcceptedAddresses | internal/model/model.go:155-171 | Accepted routed addresses differ, share the network bits, need a prefix of at most 31 bits, and the edge lies in the masqueraded network |
| Address.ParseIsDotted | internal/model/model.go:159-163 | The IPv4 reader accepts exactly the dotted notation of 32-bit numbers and reads the number it denotes |
| Address.ContainsBits | internal/model/model.go:164-166 | A network holds exactly the addresses that agree with it in its leading bits |
| Model.DefaultsValid | internal/app/app.go:1415-1431 | The defaults of every routed mode parse to distinct members of their network |
| Render.KeysCrossed | internal/render/render.go:36-56 | Each end's peer is the other's key, the pre-shared key is equal, and the gateway admits the edge's own address |
| Render.ConfigTravels | internal/app/app.go:409-420 | The agreed part of the gateway's configuration comes through the offer to the edge unchanged, field by field |
| Render.AcceptKeeps | internal/app/app.go:549-587 | Accepting adds the answer to the issued configuration and leaves the rest as it was |
| Render.AraChain | internal/render/render.go:58-113 | Endpoint, relay, restricted target, listener, path and TLS port of the two ends agree |
| Render.DirectPorts | internal/render/render.go:50-52 | The edge dials the port the gateway listens on |
| Render.IpipMirrored | internal/render/render.go:266-288 | Each end's endpoints and addresses are the other's, swapped |
| Render.SshFits | internal/render/render.go:327-349 | The edge logs in to the gateway's account and port with the gateway's host key pinned, the authorized key is the edge's, and the panel uses the client's listener |
| Render.CompletedEndsFit | internal/render/render.go:13-113 | The files of every completed pairing fit together, in every mode |
| Delivery.EdgeDelivers | internal/render/render.go:351-378 | The Xray outbound's packet is routed into the tunnel, passes both guard rejects, and is otherwise judged as without them |
| Delivery.PeerAdmits | internal/render/render.go:44-45 | The gateway's AllowedIPs admit exactly the edge's source address |
| Delivery.EdgeTakesAll | internal/render/render.go:47-47 | The edge's own peer entry takes every IPv4 destination |
| Delivery.EdgeLinkSet | internal/render/render.go:28-35 | The outbound's device is the tunnel, the tunnel has the outbound's source address, and its route goes into the guard's table, in every routed mode |
| Delivery.GatewayDelivers | internal/render/render.go:155-159 | Whatever its mark on the gateway, the packet is forwarded and masqueraded at the WAN, and replies are let back |
| Delivery.CarrierAdmitted | internal/render/render.go:117-130 | The gateway's INPUT chain accepts the packets that the edge's rendered files make it send to carry the tunnel |
| Delivery.EndToEnd | internal/render/render.go:13-56 | One packet from the Xray socket to the WAN, when no lower-numbered policy rule of others routes it: into the tunnel on the edge, taken by the edge's peer entry for its destination, admitted by the gateway's for its source, forwarded and masqueraded with its own mark on the gateway |
| Delivery.BringUp | internal/app/app.go:1024-1050 | Whatever calls fail on the way, after activateIran on a cold edge and the firewall script on a gateway with fresh chains both succeed, every such packet is delivered and the tunnel's own packets are let in |
| Delivery.OwnOffersDotted | internal/app/app.go:1415-1431 | Hamara's own offers are of the dotted form that delivery needs |
| Delivery.RunRoutable | internal/app/app.go:526-591 | In every run the pairing of a ready routed gateway has all that delivery needs, since its offer was one of Hamara's own |
| Delivery.RunDelivers | internal/app/app.go:526-591 | In every run with lost, copied, replayed and misdelivered tokens, a ready routed gateway was paired, and every packet of the paired edge's Xray outbound is delivered once guard, link and firewall are up |
| Pairing.Server.InitOutside | internal/app/app.go:219-380 | Exactly which configurations and tunnel files each exit may leave, and what is printed; a configured server loses its configuration exactly when the run is admitted, forced and of a known mode, also when it fails later; with no external failure it ends configured and prints every valid offer |
| Pairing.Server.Join | internal/app/app.go:382-524 | Nothing changes on a configured server or for an invalid offer; otherwise nothing, only its mode's file naming the offer's gateway, or that and the configuration; a response is printed only for the latter, and always when nothing external fails |
| Pairing.Server.Accept | internal/app/app.go:526-591 | Either nothing, or only its mode's file, or that and the whole accepted configuration; success is exactly an acceptable response when nothing external fails |
| Pairing.Server.Doctor | internal/app/app.go:711-718 | May only turn an edge's pending configuration ready |
| Pairing.InvAlways | internal/app/app.go:219-591 | The protocol invariant holds in every state of every run with lost, copied, replayed and misdelivered tokens |
| Pairing.StepKeepsInv | internal/app/app.go:219-591 | Every command of every server keeps it |
| Pairing.AnswerIsOwn | internal/model/model.go:214-217 | A response that a gateway accepts was made from its own current offer |
| Pairing.ReadyIsPaired | internal/app/app.go:526-591 | A ready gateway was answered by a server that joined an offer of this instance and mode, its configuration is the one that answer completed, and the files of both ends fit together for every such answer |
| Pairing.InstalledPeerJoined | internal/app/app.go:549-582 | A ready gateway has a peer in the file of its mode and it joined the current instance; except for IPIP the second half holds while pending too, after failed commands |
| Pairing.AcceptInstalls | internal/app/app.go:549-582 | In every run an accept that changes anything leaves the very edge that made the response in the gateway's file: its WireGuard key, its address, or its SSH key |
| Pairing.EdgeIsRendered | internal/render/render.go:36-56 | The gateway's rendered files print that very peer |
| Pairing.GatewayIsRendered | internal/render/render.go:36-56 | The edge's rendered files print the peer that stands for the gateway |
| Pairing.InstalledPeerExact | internal/app/app.go:315-320 | From its initialisation on, the peer in a gateway's own file has joined its instance exactly when it was not an IPIP initialisation of an unconfigured server whose IPIP script was left over |
| Witnesses.StaleScriptHappens | internal/app/app.go:469-476 | The witness: a run in which an IPIP join fails after writing its script and the server then becomes a pending gateway with that peer |
| Witnesses.StaleScriptSurvives | internal/app/app.go:311-331 | The second witness: a WireGuard initialisation in between that fails to save does not take the script away |
| Witnesses.PairingHappens | internal/app/app.go:219-591 | In every mode, accepted options and well-formed material have a run that ends with a ready gateway and an edge of the same instance |
| Witnesses.LeadsIsRun | internal/app/app.go:219-591 | The witnesses are runs of the protocol |
| Pairing.JoinedPeerOffered | internal/app/app.go:409-480 | In every run an edge's configuration comes from an offer that some server printed, and the peer in its files is the gateway that issued it: its key, address or host key |
| Pairing.BornAlways | internal/app/app.go:268-282 | In every run every offer was made from an initialisation's own options and identities |
| Pairing.StaleChangesNothing | internal/app/app.go:545-547 | In every run a response that does not answer the gateway's current offer changes nothing there, one of an earlier instance of the same server included |
| Pairing.InitKeepsExact | internal/app/app.go:219-234 | In every run an initialisation keeps a server's configuration exactly when it is not admitted, not forced or of an unknown mode |
| Pairing.ForcedInitLoses | internal/app/app.go:235-237 | The witness: a forced run with an empty endpoint ends with nothing |
| Pairing.UninstalledForGood | internal/app/app.go:940-979 | An uninstalled gateway's instance never comes back on that server, and none of its responses is ever accepted there again |
| Pairing.InstancesDisjoint | internal/app/app.go:268-274 | No two gateways ever share an instance |
| Pairing.OneServerAccepts | internal/model/model.go:214-217 | At no moment do two servers accept the same response |
| Pairing.ReadyForGood | internal/app/app.go:583-587 | An instance that is ready on its gateway is never pending there again |
| Token.RoundTrip | internal/token/token.go:15-52 | Decoding an encoded token returns its value exactly when the kinds agree after the writer's trimming |
| Token.PastedToken | internal/token/token.go:30-32 | Blanks and line breaks pasted around a token make no difference |
| Token.KindsSeparate | internal/token/token.go:35-38 | No text is accepted both as an OFFER and as a RESPONSE |
| Token.ChecksumReplaced | internal/token/token.go:39-43 | Only case variants of the checksum are accepted in its place |
| Token.TamperNeedsCollision | internal/token/token.go:30-43 | With another body or kind a token is accepted only if the first 8 bytes of the hash of "KIND.body" collide |
| Token.TamperRefused | internal/token/token.go:30-43 | For every such change there is a hash under which it is refused |
| Token.TruncationRejected | internal/token/token.go:30-43 | Every strict prefix of a token is rejected, for any hash |
| Base64Url.DecodeEncode | internal/token/token.go:24-47 | Decoding undoes encoding for every length modulo three |
| Base64Url.DigitsAreStandard | internal/token/token.go:24-47 | The digits are those of RFC 4648, section 5 |
| Base64Url.BreaksIgnored | internal/token/token.go:44-47 | Line breaks anywhere in the body make no difference to the decoder |
| Base64Url.HexInjective | internal/token/token.go:24-27 | Different bytes have different hexadecimal text |
| Shell.QuotingRoundTrip | internal/render/render.go:434-436 | A shell reads a quoted argument list back as the same list exactly when it holds no NUL |
| Shell.AssignmentBinds | internal/render/render.go:134-136 | A script's assignment line is one word that binds the intended value |
| HostName.ValidatorIsGrammar | internal/model/model.go:235-249 | The validator accepts exactly the IPv4 texts and the names the grammar derives |
| HostName.AcceptedIsDerived | internal/model/model.go:240-248 | Pattern and label loop together are the grammar |
| HostName.DotChecksImplied | internal/model/model.go:240-247 | The checks for leading and trailing dots follow from the label loop |
| Sysctl.Conserved | internal/app/app.go:1504-1524 | Over any cycle of installs, forced re-installs, failures and uninstalls an unconfigured host has its own values back |
| Sysctl.ForeignSurvives | internal/app/app.go:1519-1523 | The exact condition under which somebody else's value survives the uninstall |
| Sysctl.Kernel.Init | internal/app/app.go:285-342 | At every moment nothing has changed yet or the configuration that undoes the change is saved; with no failure the three values are in force |
| Sysctl.Kernel.RestorePrevious | internal/app/app.go:1510-1524 | Each key is put back exactly when it still has the managed value and a usable previous one |
| Sysctl.Kernel.Uninstall | internal/app/app.go:952-971 | Restores and forgets, only in routed modes |
| Sysctl.Kernel.Reinstall | internal/app/app.go:227-234 | A forced install undoes the old one first; an unforced one on a configured host does nothing |
| AuthorizedKeys.Account.Authorize | internal/app/app.go:1383-1413 | A refused key leaves the file; an accepted one leaves the rewritten file |
| AuthorizedKeys.Account.Filter | internal/app/app.go:1401-1406 | The loop collects exactly the surviving lines in order |
| AuthorizedKeys.OneMarkedLine | internal/app/app.go:1400-1409 | Exactly one line carries the marker and it is the restricted entry of the accepted key; the others are, in order, exactly the old lines that are neither blank nor marked |
| AuthorizedKeys.SurvivorsExact | internal/app/app.go:1401-1406 | Each line is kept in its place unless it is blank or carries the marker |
| AuthorizedKeys.KeyOfText | internal/app/app.go:1383-1388 | The accepted keys are exactly the first two fields of a text whose first field is ssh-ed25519 |
| AuthorizedKeys.LastAcceptWins | internal/app/app.go:1400-1409 | Accepting twice is accepting the second key only |
| AuthorizedKeys.OnlyLastMatters | internal/app/app.go:1400-1409 | Any sequence of accepts leaves the file the last one alone would have written |

## Left out

- Command-line parsing, menus, Status, Logs, ShowPaths and the printed parts of Doctor: user interface.
- Package installation, certbot, openssl, the wstunnel download, curl probes and ssh-keygen: each is a step that succeeds or fails.
- Cryptography and X.509: arbitrary predicates on keys and certificates; SHA-256 is any function to 32 bytes.
- Tokens forged by others: the protocol's runs deliver only tokens that some server made; the checksum does not authenticate.
- JSON: any pair of functions; a token's round trip assumes that they agree on the one value.
- ValidEndpointHost on IPv6 text: text whose first special character is a colon is judged by an arbitrary reader.
- Non-ASCII letters in token kinds and case folding: both are modelled on ASCII, which is all the program passes.
- Edge.Machine.Interfere: drift inside a script leaves the policy rules of others alone; concurrent runs of guard up are covered by Guard.AlwaysFailClosed over all interleavings.
- Guard: packets from sockets bound to a device, containers, other network namespaces and unmarked traffic; edits that put an accepting rule ahead of the rejects appear only in the two results on repairs.
- IPv6 policy routing: one arbitrary route per packet.
- Systemd beyond Requires, After and the outcome of ExecStart: restart timing, boot ordering, and systemd's own quoting of unit-file lines.
- The outside role's unit lists and its use of repair: they start and stop without a guard to order.
- The live IPIP tunnel after a second accept: the code enables the unit without restarting it, so results about IPIP speak of the files.
- The exact text of configuration files, TLS certificate paths, timestamps and labels.
