# A model of the ship server's lobbies, packets, maps and items

This project models the stateful parts of the Sylverant ship server in Dafny and proves what they keep. It is checked with
`dafny verify dfyconfig.toml`. It has five parts.

**Lobbies and teams.** A block has a list of lobbies and the clients in them. `Lobby.dfy` and `Block.dfy` have the objects, updated in
place step by step as in `src/lobby.c` and `src/block.c`; every method is proved to do what a function on the state of a lobby
(`LobbyRules`), of a block (`BlockRules`, `Moves`, `Teams`, `Commands`) says. About these functions the project proves that every
request keeps the block's invariant (`Runs`), in any order of requests: slots and clients point at each other, `num_clients` and
`num_games` count what they should, count subscribers are members and know the present count, version restrictions are respected.
`LobbyEffects` and `BlockEffects` say field by field what each of them does, without using the definitions it is made of.
Other things hold in some runs and not in others. For each the project says exactly when, by a condition on each request and the state
before it, and `Mishaps` or `Founding` has a run that breaks it:

- the leader seat of a lobby with somebody in it is held (`Leadership`, `Elections`);
- listed lobbies have IDs of their own (`Identity`, `TeamIds`, and in `Founding` two teams that share one);
- a listed team has somebody in it (`Founding`): it is empty exactly if its creator was in no lobby;
- packets wait only while the burst flag is set, all of them are handled, and their senders are still there (`Waiting`, on the
  account of what each request does to packets in `Traffic`);
- whenever the burst flag is set, somebody is bursting who can end it (`Attendance`).

`Departures` has what these conditions share: which requests take a client out of its lobby.

**Packets.** `Framing` says what the packets in a client's byte stream are: decrypt all of it, then cut it up. `Deframer` receives the
stream in portions, with its leftover buffer, its half-read packet and a cipher one header ahead, and is proved to hand on the
same packets however the stream was divided. `Cutting` is the part of that which does not depend on bytes.

**Maps.** `EnemyMaps` expands enemy records in place, `GameMaps` chooses the maps of a new game and puts their enemies together, and
`QuestCache` writes and reads the cache of a quest's objects and enemies, byte by byte.

**Random units.** `RandomUnits` builds the table of units by stars and proves that drawing from a prefix of it is drawing from the
simple filter.

**Items and levels.** `Items` is the inventory and the bank, `ItemIds` the numbering of an inventory on joining. `TeamItems` is what the
members of a Blue Burst team carry and what lies on its floor, with `BlueBurst` the handlers in place; `ItemRuns` proves exactly when all
these items have IDs of their own over a whole run, `FloorRuns` when the floor and the inventories have no ID in common, and `TeamTotals`
when a team has as much of everything as was brought to it. `Levels` is experience and level-ups.

`Bytes`, `Sequences` and `Options` are shared by these.

## How the original is read

- Each locked function is one atomic step, and a clock reading is a parameter `now` of the step. A lobby's slots, registers and queues
  are inline arrays and lists of the C struct without an identity of their own; they are sequence-valued fields. Objects are known to
  the state functions by reference only.
- What handlers answer (`accepts`, `handle`), whether a client passes the legit check, whether it is a GM, what a command's arguments
  were, and random draws are parameters. Sends are assumed to succeed; count updates are appended to a log.
- A lobby state has a part that only an observer remembers (`History`), so that "exactly once" and "unless" can be said.
- The version of a default lobby is the zero value of the enumeration, version 1. The observer's `strayed` marks a team whose creator
  was in no lobby: such a client is put into a default lobby instead, and the team may stay empty.
- A client's burst flag is not cleared when it leaves its lobby for another, and the flag of the lobby left behind is not either.
  Packets queued for re-sending stay queued when a burst ends otherwise than by a quest being loaded. Both are as in the source.
- `join_game` has no `else` between the tests for -15 and -14 (`src/block.c:714-721`), so that a result of -15 goes on to renumber the
  inventory as if the join had succeeded; `Blocks.Block.JoinGame` says so. `ItemIds` speaks of the renumbering itself.
- A numbering begins with the ID remembered for the slot if bit 16 of that is set (`src/block.c:802-803`), and so with the last ID given
  out; and an empty inventory makes the remembered ID one less (`src/block.c:809-810`). Both can give an ID out twice;
  `ItemRuns.NewcomerRepeatsId` and `ItemRuns.EmptyHandedRepeatsId` are the inputs.
- A part of a stack becomes on the floor what `c->items`, which is not the inventory of a Blue Burst client, holds in its place
  (`src/subcmd.c:1880`), with the amount asked for, even where the stack holds less. That second list is not modelled: what it holds is
  a parameter. Whether a drop matches what was announced before is a parameter, too.
- The trial edition's packets are diverted before anything is queued (`src/subcmd.c:3716-3718`, `src/subcmd.c:3906-3908`), and Blue Burst
  packets are never queued; packets therefore strand only in a team where a trial edition client meets clients of another version.
- A packet length above 0x10000 - hsz rounds up to 0 in 16 bits. The original then reads and decrypts out of bounds; the model stops
  the connection with a status of its own, `Wrapped`.
- The sanity check on maps uses `>` where `>=` is meant (`src/mapdata.c:1511`). What is chosen at creation never needs it; for other
  values `LoadGameEnemies` requires that the look-up stays in the list, and `CheckedIsNotEnough` says when that is.
- `game_enemy_t` is not packed, so that an enemy takes 12 bytes in the cache; the host is taken to be little-endian.
- Comments in `src/lobby.c:957` promise 0 or -1 from a removal; the code also returns 1 when a team became empty, and so does the model.

## Model

| member | source | states |
|---|---|---|
| Elections.ElectionIsUnique | src/lobby.c:889-953 | The election loops have one possible outcome: the eligible member that joined first, the lowest slot winning ties, and nobody if nobody but the leader joined strictly before now |
| Elections.DepartureKeepsLeader | src/lobby.c:967-990 | When the leader leaves, the new leader seat is occupied if and only if somebody else joined strictly earlier than now or slot 0, the fallback, is held by somebody else; the one elected joined first, the lowest slot winning ties, among all others or, in cross-play, among the pre-Gamecube members if there are any |
| Elections.ClockAdvanceKeepsLeader | src/lobby.c:967-990 | If every join lies strictly in the past, a departing leader always has an occupied successor |
| TeamIds.AllocateId | src/lobby.c:255-276 | The probing loop ends and returns the first unused ID in cyclic order from the saved one, and saves its successor |
| TeamIds.ProbesUpwards | src/lobby.c:257-266 | It is the first unused ID upwards from the saved one, or, with none up to 0xFFFF, the first upwards from 0x20 |
| TeamIds.NextFreeIsUnique | src/lobby.c:257-266 | That ID is determined by the used IDs and the starting point |
| TeamIds.FewTeamsLeaveFreeId | src/lobby.c:257-266 | Pigeonhole: below 0xFFE0 lobbies some ID in 0x20..0xFFFF is free |
| TeamIds.AllocateEp3Id | src/lobby.c:532-535 | Episode 3 teams get the lowest unused ID above 0x20 |
| TeamIds.DeferredIdCanBeTaken | src/lobby.c:532-535 | If 0x21 is in turn and unused, both ways of choosing an ID choose it |
| LobbyRules.RoomMeansFreeSlot | src/lobby.c:854-886 | Below capacity the slot search succeeds, so its "terribly wrong" exit is unreachable |
| LobbyRules.RoundReachesSubscribers | src/lobby.c:838-847 | After a round of count updates the latest count every subscriber was sent, in the register it asked for, is the one just sent |
| LobbyRules.DeliveredIsFifo | src/lobby.c:1655-1688 | A drain hands on a prefix of the queue in order, all of it exactly when every handler accepts, else up to and including the first refusal |
| LobbyRules.ResentIsFifo | src/lobby.c:1705-1733 | Sending again goes through a prefix of the queue in order, all of it exactly when every packet is of the right type and could be sent |
| LobbyRules.NewLobbySound | src/lobby.c:278-318 | A new lobby satisfies the invariants of a lobby |
| LobbyRules.EnterKeepsSound | src/lobby.c:802-887 | Entering a lobby with room keeps count, slots, leader, subscriptions, queue and limits coherent, and fills one more slot |
| LobbyRules.ReplaceLeads | src/lobby.c:967-990 | Replacing the leader changes only the leader seat and, without pre-Gamecube members, the team's version; whoever is elected is another member |
| LobbyRules.LeaveKeepsSound | src/lobby.c:957-1025 | Leaving keeps them coherent and empties exactly the one slot |
| LobbyRules.LeaveCrowns | src/lobby.c:957-1025 | After a departure the leader seat is where that election puts it if it was the leader that left, and otherwise where it was |
| LobbyRules.LeaveKeepsLeader | src/lobby.c:957-1025 | A departure leaves an occupied leader seat if and only if it is not the leader that leaves, or somebody else joined at an earlier second, or slot 0 is held by somebody else |
| LobbyRules.TimelyDepartureKeepsLeader | src/lobby.c:957-1025 | If the clock has moved on since every join, a departure leaves a non-empty lobby an occupied leader seat |
| LobbyRules.EndBurstKeepsSound | src/lobby.c:1285-1288 | Ending a burst empties the queue and keeps the invariants |
| LobbyRules.EnqueueKeepsSound | src/lobby.c:1735-1782 | Queueing keeps "accepted is disposed of followed by waiting" |
| LobbyRules.NteLoadStrandsPackets | src/subcmd-dcnte.c:104-118 | The trial edition's end-of-load message clears the flag without draining; packets are stranded if and only if some were waiting |
| LobbyRules.SubscribeKeepsSound | src/quest_functions.c:1041-1060 | Subscribing keeps every subscriber seated and told the present count |
| LobbyEffects.RoundIsSent | src/lobby.c:838-847 | A round is one message to each subscriber and no others, in slot order, with the count, to the register the subscriber asked for |
| LobbyEffects.EnterDoes | src/lobby.c:802-887 | Entering fills slot 1 of a pre-Gamecube team if that is empty, else the lowest empty slot, counts one more, makes the first to enter the leader, clears the only-one flag for the second, tells the subscribers the new count while a quest runs, and changes nothing else |
| LobbyEffects.LeaveDoes | src/lobby.c:957-1025 | Leaving empties the slot, counts one less, drops the slot's subscription in a team, tells the others the new count while a quest runs, and changes leader, version or flags only if it is the leader that leaves |
| LobbyEffects.WhoIsEligible | src/lobby.c:889-953 | Who can be elected, and that versions 1, 2 and PC are the pre-Gamecube ones |
| LobbyEffects.LeaderLeaves | src/lobby.c:889-990 | Who leads then: in a pre-Gamecube team with Gamecube players allowed the pre-Gamecube member that joined first, and if there is none the team becomes a Gamecube team; otherwise, in any lobby, whoever joined first; with nobody to elect slot 0 |
| LobbyEffects.NewLobbyIs | src/lobby.c:278-318 | A new lobby is empty; default lobbies admit level 1 to 9001, teams from what the difficulty asks for up to 200 |
| LobbyEffects.BurstEnds | src/lobby.c:1655-1688 | The end of a burst clears the flag, empties the queue of waiting packets, and hands them on in order up to the first refusal; the packets to be sent again stay |
| LobbyEffects.EnqueueDoes | src/lobby.c:1735-1782 | A packet goes to the end of its queue during a burst, if it is of one of three types; otherwise nothing happens and the result says which was missing |
| LobbyEffects.ResendDoes | src/lobby.c:1705-1733 | Everything is sent again if and only if each packet is of one of the two private types and could be sent |
| LobbyEffects.QuestStarts | src/lobby.c:1985-2035 | A quest that starts sets the questing flag and ends the selection; joinable and data flags are only ever added |
| BlockRules.Located | src/lobby.c:957-965 | A client that is in a lobby sits in the listed lobby and slot it claims, so a removal never fails |
| BlockRules.PartKeepsCore | src/lobby.c:957-1025 | Getting up keeps slots and clients pointing at each other, the registry, and admission |
| BlockRules.JoinKeepsCore | src/lobby.c:802-887 | So does sitting down, if the version is admitted or the override is in force |
| BlockRules.DestroyKeepsCore | src/lobby.c:646-658 | So does unlisting an empty team, with one team less counted |
| BlockRules.InsertKeepsCore | src/lobby.c:449-458 | So does listing a new one, with one more counted |
| Moves.FirstOpenIsUnique | src/lobby.c:1050-1073 | The lobby chosen is the first listed default lobby with room that the client can see |
| Moves.AddToAnyKeepsInv | src/lobby.c:1028-1076 | Putting a client into a default lobby keeps the block's invariant |
| Moves.MoveIsLeaveThenJoin | src/lobby.c:1202-1219 | Joining the new lobby before leaving the old one, when the client sits in two at once, has the same effect as leaving first |
| Moves.RelocateKeepsInv | src/lobby.c:1202-1251 | The move, the burst it starts and the end of a team left empty keep the invariant |
| Moves.RelocateMovesClient | src/lobby.c:1202-1251 | The client is in the new lobby, which has one member more; the old has one less, or is gone if and only if it was a team with one member |
| Moves.RefusalIsExact | src/lobby.c:1122-1199 | There is no reason for refusal if and only if the client is welcome: by policy, levels and legit check or else by override, and in any case into a lobby that is available, not bursting, not locked by a quest, not single-player with somebody in it, and of a version and class the client can play |
| Moves.ResultInRange | src/lobby.c:1078-1267 | A request to change lobbies ends with 0 or a code from -15 to -1 |
| Moves.AdmittedExactly | src/lobby.c:1078-1267 | A client in a lobby gets where it wants if and only if it is welcome there and there is room, or it is there already; otherwise it stays where it was |
| Moves.RefusalChangesNothing | src/lobby.c:1085-1208 | A negative result changes nothing but the override flag |
| Moves.ChangeLobbyKeepsInv | src/lobby.c:1078-1267 | Every request to change lobbies, whatever its outcome, keeps the invariant |
| BlockEffects.RefusalCodes | src/lobby.c:1122-1199 | Which code stands for which reason, each given exactly if its condition holds and none before it does; the override silences -13 to -11, -9, -5 and -4 |
| BlockEffects.AddToAnyDoes | src/lobby.c:1028-1076 | A client put into any default lobby sits in the first free slot of the one asked for, if that is one with room, or else of the first listed one it can see with room; the result is 1 if and only if there is none |
| BlockEffects.RelocateDoes | src/lobby.c:1202-1251 | A move: the old lobby is what the departure makes of it, and ends if that is an empty team; the new one has been entered, and both it and the client burst if it is a team; nothing else changes |
| BlockEffects.ChangeLobbyDoes | src/lobby.c:1078-1267 | For a client in a lobby the result is the refusal, 0 if it is there already, -1 if there is no room, or 0 and a move; the override is used up in any case |
| BlockEffects.StrayDoes | src/lobby.c:1088-1094 | A client in no lobby is put into any default lobby, or gets -11 |
| Teams.ConnectKeepsInv | src/clients.c:90-200 | A new client is nowhere, and the invariant holds |
| Teams.RemovePlayerKeepsInv | src/lobby.c:1272-1323 | Leaving altogether keeps the invariant |
| Teams.RemovePlayerPlaces | src/lobby.c:1272-1323 | Only the client that leaves changes, and it ends up nowhere |
| Teams.DisconnectKeepsInv | src/clients.c:329-380 | Disconnecting, with a team never listed, keeps the invariant |
| BlockEffects.RemovePlayerDoes | src/lobby.c:1272-1323 | Leaving altogether: the client's own burst ends first, then it leaves, and a team left empty ends |
| BlockEffects.DisconnectDoes | src/clients.c:329-380 | Disconnecting does that, and takes the client and its unlisted team off the block |
| BlockEffects.ConnectDoes | src/clients.c:90-200 | A new client is in no lobby and has no team, burst, mark or override |
| Teams.FailureKeepsList | src/block.c:701-760 | A join that fails leaves the lobby list as it was |
| Teams.CreateGameKeepsInv | src/lobby.c:226-514 | Making a team keeps the invariant: it is listed with its creator in it, or gone, or held back, or its creator was sent elsewhere |
| Teams.CreateEp3GameKeepsInv | src/lobby.c:516-594 | The same for Episode 3 |
| Teams.PickGameTypeKeepsInv | src/block.c:2905-2940 | Listing a deferred PC team and joining it keeps the invariant; only now is it counted |
| BlockEffects.NewGameIs | src/lobby.c:226-345 | The terms and version of a new team: Xbox counts as Gamecube, version 2 may ask for version 1, and which PC teams are held back |
| BlockEffects.JoinGameDoes | src/block.c:2352-2354 | The creator joins its team unless it is protected, and the team ends if and only if that fails |
| BlockEffects.CreateGameDoes | src/block.c:2246-2356 | Nothing happens below the level asked for without the override; otherwise the team has the next unused ID, the search for the next goes on behind it, and the team is held back, or listed last and joined |
| BlockEffects.CreateEp3GameDoes | src/lobby.c:516-594 | An Episode 3 team for four has the lowest unused ID above 0x20, is listed last and joined |
| BlockEffects.ChosenIs | src/block.c:2905-2925 | The answer 0 makes a PC team a version 1 team, 2 restricts it to PC, and any other changes nothing |
| BlockEffects.ChosenAdmits | src/block.c:2905-2925 | Version 1 clients are not refused for their version after a 0, and are refused after a 2 |
| BlockEffects.PickDoes | src/block.c:2905-2940 | The team answered for is listed last and joined, and its creator has none any more |
| Commands.DoneBurstKeepsInv | src/block.c:2535-2573 | The end of a burst keeps the invariant |
| Commands.QuestPingKeepsInv | src/block.c:3505-3519 | So does the answer to the ping after a quest |
| Commands.NteDoneKeepsInv | src/subcmd-dcnte.c:104-118 | And the trial edition's end of loading |
| Commands.SendKeepsInv | src/lobby.c:1735-1782 | And a packet that has to wait |
| Commands.HoldBackKeepsInv | src/subcmd.c:3716-3758 | Only packets of clients that are neither of the trial edition nor of Blue Burst come to wait, and that keeps the invariant |
| BlockEffects.DoneBurstDoes | src/block.c:2535-2573 | Without a quest the burst is over for the team and the client; with one the client is marked and nothing else happens; the result is -1 outside a team or if a waiting packet was refused |
| BlockEffects.QuestPingDoes | src/block.c:3505-3519 | A marked client's answer to a ping ends the burst, empties both queues and takes the mark away; without the mark it changes nothing |
| BlockEffects.QuestBurst | src/block.c:2566-2570 | Over both requests: having loaded and then answering the ping ends the burst of a newcomer to a team with a quest, and what waited has been handed on |
| BlockEffects.NteDoneDoes | src/subcmd-dcnte.c:104-118 | The trial edition's end of loading clears both flags and leaves the queues alone |
| BlockEffects.HoldBackDoes | src/subcmd.c:3716-3758 | A packet is queued in the sender's lobby, unless the sender is of the trial edition or of Blue Burst |
| Commands.LevelCommandsKeepSound | src/commands.c:151-231 | The level commands keep required level <= minimum <= maximum <= 200 |
| Commands.FlagCommandsKeepSound | src/commands.c:1063-1157 | The version restrictions keep a lobby's invariants |
| Commands.RestrictionsKeepAdmission | src/commands.c:1063-1157 | A version restriction is only ever switched on when every member satisfies it |
| Commands.OtherCommandsKeepSound | src/commands.c:1760-1843 | A team made single-player by an NPC has one member |
| Commands.QuestsKeepSound | src/lobby.c:1985-2035 | Choosing and starting a quest keep a lobby's invariants |
| BlockEffects.LevelCommandsDo | src/commands.c:151-231 | Exactly when the limits are set, to what, and that nothing else changes |
| BlockEffects.RestrictionsDo | src/commands.c:1063-1157 | The leader's restriction goes on if and only if nobody of another version is in the team, and goes off when asked |
| BlockEffects.AllowGcDoes | src/commands.c:1593-1637 | Gamecube players are admitted by a GM who leads a team without restrictions |
| BlockEffects.AddNpcDoes | src/commands.c:1760-1843 | An NPC comes to somebody alone in an ordinary team without a quest, and then nobody can join |
| BlockEffects.QuestsDo | src/block.c:3293-3330 | Nobody can join while a quest is being chosen, nor, unless it is joinable, once it runs |
| BlockEffects.AskCountDoes | src/quest_functions.c:1041-1060 | The register is stored for the slot, and the present count sent to it |
| Runs.ApplyKeepsSound | src/commands.c:151-231 | Every action inside a lobby keeps its invariants |
| Runs.ApplyKeepsAdmission | src/commands.c:1063-1157 | And admits or expels nobody |
| Runs.StepKeepsInv | src/block.c:3421-3600 | Every request of a client keeps the block's invariant |
| Runs.OpenedInv | src/block.c:500-520 | A block with only its default lobbies satisfies it |
| Runs.EveryRunIsCoherent | src/lobby.c:802-1323 | Whatever clients ask for, in any order, the invariant holds after every request: slots and clients agree, counts and team count are right, subscribers are members and know the count, restrictions are respected; no listed team is empty unless its creator was in no lobby, and packets wait outside a burst only where the trial edition's end of loading cut one short |
| Runs.CountIsNumberOfClients | src/lobby.c:802-1025 | A lobby's count is the number of clients that believe they are in it |
| Identity.InsertKeepsOwnIds | src/lobby.c:449-458 | Listing one more lobby keeps IDs apart if and only if no listed lobby has its ID |
| Identity.CreateGameKeepsOwnIds | src/lobby.c:226-458 | Making a team never makes two listed lobbies share an ID |
| Identity.ClashingMeansSharing | src/block.c:2905-2925 | Listing a deferred PC team leaves two lobbies with one ID if and only if its ID was given away while it was unlisted |
| Identity.PickLists | src/block.c:2905-2940 | Once the creator of a deferred team has answered, the team is listed if and only if the creator is let in or, being in no lobby, put into one; nothing else leaves the list but a team the creator was the last member of |
| Identity.PickKeepsOwnIds | src/block.c:2905-2940 | Then two listed lobbies share an ID if and only if the team stays listed and its ID is that of a listed lobby other than the one left empty |
| Identity.StepKeepsOwnIds | src/block.c:3421-3600 | If listed lobbies have IDs of their own, they have after a request if and only if it is not such an answer |
| Identity.EveryRunHasOwnIds | src/lobby.c:255-276 | In every run from the opening of a block all listed lobbies have IDs of their own all along if and only if there is no such answer |
| Founding.OwnIsOccupied | src/block.c:2352-2354 | A team still listed after its creator tried to join has one member, or none if the creator was in no lobby |
| Founding.CreatedGameIsOccupied | src/block.c:2246-2356 | So has every team made and listed |
| Founding.CreatedEp3GameIsOccupied | src/block.c:2452-2475 | And every Episode 3 team |
| Founding.PickedGameIsOccupied | src/block.c:2905-2940 | And every PC team once it is listed |
| Founding.NewcomersTeamIsEmpty | src/lobby.c:1088-1094 | The input that leaves an empty team: a client of a new block that makes one before it is in any lobby |
| Founding.HeldTeamClashes | src/lobby.c:516-594 | The input that leads there: the next ID in turn is 0x21, a PC team is held back, and a seated Episode 3 client makes a team |
| Traffic.StepRelays | src/lobby.c:1655-1790 | Apart from draining one lobby, queueing one packet or cutting a burst short, no request touches waiting packets, and only a disconnection makes a client go |
| Waiting.PacketsWaitForBursts | src/subcmd-dcnte.c:104-118 | In every run packets wait only where the burst flag is set if and only if no trial edition client says it has loaded while packets wait in its team |
| Departures.OwnWelcome | src/lobby.c:1122-1199 | What keeps a creator out of its own new team is the protection flag, its level, the legit check, its version, or its class, and nothing else |
| Departures.ShiftsExactly | src/lobby.c:1078-1267 | A request takes a client to another lobby if and only if it asks for one, or founds one, that is welcoming and has room; the lobby left is gone if and only if the client was the last member of a team |
| Departures.QuitsExactly | src/lobby.c:1272-1323 | And it leaves a client nowhere, or takes it off the block, with the same effect on the lobby left |
| Waiting.RefusesExactly | src/lobby.c:1655-1688 | A drain hands on the whole queue if and only if no packet before the last is refused |
| Waiting.WhatWaitedIsHandled | src/lobby.c:1655-1688 | In every run everything that has left a queue was handled all along if and only if no handler refuses a packet with others behind it, but for a team whose last member leaves |
| Waiting.HandledInOrder | src/lobby.c:1655-1782 | In every run what was handled is some of what was accepted and no longer waits, each packet once and in order |
| Waiting.OrphansExactly | src/lobby.c:1272-1323 | A disconnection leaves a packet of the client waiting if and only if one waits in a lobby other than its unlisted team and, if that is the lobby it is in, it is not bursting and not the last member of a team |
| Waiting.SendersStay | src/lobby.c:1659-1675 | In every run the senders of waiting packets are on the block all along if and only if nobody disconnects like that |
| Attendance.DesertsExactly | src/lobby.c:1222-1245 | The only one bursting in a lobby is in another afterwards, and the first goes on, if and only if the request shifts it and it was not the last member of a team |
| Attendance.StepIsAttended | src/lobby.c:1222-1245 | If every set burst flag has a member bursting, this is so after a request if and only if it is not of that kind |
| Attendance.BurstsAreAttended | src/lobby.c:1222-1245 | So in every run a team that turns everybody away for a burst has somebody bursting, all along, if and only if nobody moves on like that |
| Leadership.StepKeepsLeaders | src/lobby.c:967-990 | If every non-empty lobby has somebody in its leader seat, this is so after a request if and only if it does not take a leader away from others of whom none joined at an earlier second and none is in slot 0 |
| Leadership.RunsHaveLeadersExactly | src/lobby.c:957-1025 | In every run from the opening of a block every non-empty lobby has somebody in its leader seat all along if and only if no request does that |
| Leadership.TimelyRunsHaveLeaders | src/lobby.c:967-990 | In every run in which time passes between each join and the next departure, every non-empty lobby has somebody in its leader seat |
| Mishaps.SameSecondDeparture | src/lobby.c:934-953 | A run where that happens: two come into the default lobby, and the first is gone, in one second |
| Mishaps.TrialEditionStrands | src/subcmd-dcnte.c:104-118 | A run that leaves packets waiting outside a burst: a trial edition client joins a version 1 client's team, whose leader sends something, and has loaded |
| Mishaps.RefusedPacketLoses | src/lobby.c:1655-1688 | A run that loses a packet: two wait when the burst ends and the handler of the first refuses it |
| Mishaps.DepartedSender | src/lobby.c:1659-1675 | A run in which a sender is gone: the team's leader sends something while another bursts, and disconnects |
| Mishaps.DesertedBurst | src/lobby.c:1222-1245 | A run in which nobody is left to end a burst: the newcomer changes back to the default lobby |
| Lobbies.Lobby.AddClientLocked | src/lobby.c:802-887 | Fails, changing nothing, exactly when the lobby is full; otherwise does to lobby and client what the specification says |
| Lobbies.Lobby.FindSlot | src/lobby.c:818-886 | Slot 1 first in a pre-Gamecube team, otherwise the lowest empty slot |
| Lobbies.Lobby.SendCounts | src/lobby.c:838-847 | While a quest runs every subscriber is sent the count, in slot order |
| Lobbies.Lobby.FindEarliest | src/lobby.c:934-953 | The loop computes the election |
| Lobbies.Lobby.ElectLeaderLocked | src/lobby.c:934-953 | The ordinary election |
| Lobbies.Lobby.ElectLeaderCrossLocked | src/lobby.c:889-932 | Prefers pre-Gamecube members and otherwise turns the team into a Gamecube team |
| Lobbies.Lobby.RemoveClientLocked | src/lobby.c:957-1025 | -1 and no change exactly when the client is not in the slot; 1 exactly when a team became empty; otherwise the specified departure |
| Lobbies.Lobby.VacateSlot | src/lobby.c:992-1022 | Empties the slot, drops its subscription, announces the count, and makes the client forget the lobby only if it is its current one |
| Lobbies.Lobby.HandleDoneBurst | src/lobby.c:1655-1688 | Empties the queue, handing on exactly what a drain hands on; -1 exactly when some packet was refused |
| Lobbies.Lobby.ResendBurst | src/lobby.c:1705-1733 | Empties the queue, sending again exactly what is specified; 0 exactly when all packets are of the right type and could be sent |
| Lobbies.Lobby.EndQuestBurst | src/block.c:3513-3517 | Clears the flag, sends again, and handles what waited; the result is that of handling alone |
| Lobbies.Lobby.EnqueuePktEx | src/lobby.c:1735-1782 | -1 outside a burst, -2 for other packet types, otherwise queued at the end |
| Lobbies.Lobby.SetMinLevel | src/commands.c:150-193 | The command's effect on the team, refusals included |
| Lobbies.Lobby.SetMaxLevel | src/commands.c:195-231 | The same for the maximum |
| Lobbies.Lobby.SetDcOnly | src/commands.c:1063-1108 | Switches the flag on only when every member found in the slots is of a Dreamcast version |
| Lobbies.Lobby.SetV1Only | src/commands.c:1111-1156 | Switches the flag on only when every member is of version 1 |
| Lobbies.Lobby.AllowGamecube | src/commands.c:1593-1637 | A GM who leads admits Gamecube players unless a restriction is on |
| Lobbies.Lobby.ChooseQuest | src/block.c:3293-3330 | Marks a team as choosing a quest, and no longer |
| Lobbies.Lobby.SetupQuest | src/lobby.c:1885-2035 | Starts a quest, but not during a burst, and leaves no selection going on |
| Lobbies.Lobby.BringNpc | src/commands.c:1760-1843 | Makes a team of one, out of battle, challenge and quest, single-player |
| Lobbies.Lobby.GetClientCountUpdates | src/quest_functions.c:1041-1060 | Stores the register and sends the count at once |
| Blocks.Block.constructor | src/block.c:500-512 | A new block is the one with twenty default lobbies from which runs start, and its invariant holds |
| Blocks.Block.Connect | src/clients.c:90-200 | A new client is on the block and in no lobby |
| Blocks.Block.FindOpen | src/lobby.c:1028-1076 | The list loop finds the specified lobby |
| Blocks.Block.AddToAny | src/lobby.c:1028-1076 | Puts a client into a default lobby as specified |
| Blocks.Block.Reason | src/lobby.c:1122-1199 | The first reason for refusing, in the order checked |
| Blocks.Block.Transfer | src/lobby.c:1202-1219 | Into the new lobby first, then out of the old one; says whether that became an empty team |
| Blocks.Block.Relocate | src/lobby.c:1202-1251 | The whole move on the objects is the specified one |
| Blocks.Block.ChangeLobby | src/lobby.c:1078-1267 | Result and new state of the block are the specified ones in every case |
| Blocks.Block.DestroyLocked | src/lobby.c:612-683 | Unlists exactly that team and counts one less |
| Blocks.Block.JoinGame | src/block.c:701-824 | Protected clients are refused, others change lobby; the inventory is numbered through if and only if the result is 0 or -15 |
| Blocks.Block.CreateGame | src/block.c:2246-2356 | No team without the level or the override; otherwise a fresh one with a free ID, held back, joined or destroyed again as specified |
| Blocks.Block.CreateEp3Game | src/block.c:2452-2475 | The same for Episode 3 |
| Blocks.Block.PickGameType | src/block.c:2905-2940 | The held back team is changed as chosen, listed, and joined or destroyed |
| Blocks.Block.RemovePlayer | src/lobby.c:1272-1323 | Ends a burst the client leaves behind, takes it out, and ends a team left empty |
| Blocks.Block.Disconnect | src/clients.c:329-380 | The client is gone from the block, and a team it never listed with it |
| Blocks.Block.DoneBurst | src/block.c:2535-2573 | Ends the burst, or waits for the quest to load; -1 exactly outside a team or when a waiting packet was refused |
| Blocks.Block.QuestPing | src/block.c:3505-3519 | Re-sends, ends the burst and clears both flags of the client; -1 exactly without a lobby or when a waiting packet was refused |
| Blocks.Block.NteDone | src/subcmd-dcnte.c:104-118 | Clears the flags and drains nothing |
| Blocks.Block.Enqueue | src/lobby.c:1784-1790 | Queues in the client's own lobby, with the result queueing there has |
| Cutting.ParseResumes | src/clients.c:472-549 | Cutting a growing sequence into packets: what has stopped stays stopped, what waits goes on where it was |
| Cutting.NothingLost | src/clients.c:472-549 | Packets one after the other are exactly what was used: nothing lost, repeated or reordered |
| Framing.RoundedFits | src/clients.c:515-519 | Rounding up in 16 bits gives the least sufficient multiple, and 0 if and only if the length exceeds 0x10000 - hsz |
| Framing.PlainSplits | src/clients.c:478-524 | Decrypting in pieces of whole units, the keys going on where they were, is decrypting at once |
| Framing.HeaderDecides | src/clients.c:483-522 | The decrypted header and the number of bytes there are decide what the plain text begins with |
| Framing.PacketsResume | src/clients.c:436-579 | A stream cut off anywhere: once parsing stopped, later bytes do not matter; otherwise it is taken up at the first byte not used |
| Framing.PacketsAreTheStream | src/clients.c:520-541 | The packets handed on are the decrypted stream, cut where their own length fields say |
| Bytes.Stored16 | src/clients.c:486-501 | Two bytes are read with the lower one first |
| Framing.FirstPacket | src/clients.c:483-541 | If the first header, decrypted, stores the length n, lower byte first, then the first packet handed on is the plain text of n bytes rounded up to whole units, as soon as so many have arrived; with fewer nothing is, and with n less than a header the connection is given up |
| Deframers.Deframer.Room | src/clients.c:457-458 | Between calls there is always room for another byte in the receive buffer |
| Deframers.Deframer.ReadHeader | src/clients.c:478-482 | A header is decrypted once, and the cipher is then one header ahead |
| Deframers.Deframer.TakePacket | src/clients.c:522-543 | The packet handed on is the next piece of plain text, the cipher is at the next packet, and what follows is still ciphertext |
| Deframers.Deframer.Turn | src/clients.c:472-549 | A turn uses at least a header's length, or the loop is over |
| Deframers.Deframer.ProcessPkt | src/clients.c:436-579 | After any call the packets handed on and the result are those of the one-shot parser on the whole stream so far |
| Deframers.Deframer.Serve | src/clients.c:436-579 | Over a whole connection the packets handed on and the result do not depend on how the stream was divided |
| EnemyMaps.ExpandAllConcat | src/mapdata.c:203-688 | Expansion is a homomorphism: parse(a + b) = parse(a) + parse(b) |
| EnemyMaps.ExpandAllSize | src/mapdata.c:203-688 | The number of enemies is the sum of what the records stand for |
| EnemyMaps.ExpandAllOne | src/mapdata.c:203-688 | A map of one record is what that record stands for |
| EnemyMaps.Swarms | src/mapdata.c:248-420 | Monest with 30 Mothmants, slimes, Canadine groups and Bulclaws: how many, which, and which the clones repeat |
| EnemyMaps.Trios | src/mapdata.c:306-395 | Pan Arms with its two halves and Chaos Sorcerer with its bees |
| EnemyMaps.DarkFalz | src/mapdata.c:455-475 | 510 Darvants, then the three forms backwards |
| EnemyMaps.UnusedNumbers | src/mapdata.c:477-590 | Which records use up enemy numbers without filling them, and how many |
| EnemyMaps.RecoboxesAndSinows | src/mapdata.c:331-347 | A Sinow record without clones stands for five; a Recobox comes with as many Recons as its record has clones |
| EnemyMaps.OthersAreAlike | src/mapdata.c:678-685 | Any other record stands for one enemy and as many more like it as it has clones |
| EnemyMaps.SingleKinds | src/mapdata.c:280-452 | Battle parameters and drops of the kinds with one form |
| EnemyMaps.LaterSingleKinds | src/mapdata.c:500-640 | The same for the later episodes |
| EnemyMaps.Families | src/mapdata.c:209-640 | Families of two and three, told apart by the skin |
| EnemyMaps.RareAndRegional | src/mapdata.c:216-640 | Rare forms, and forms that depend on episode and area |
| EnemyMaps.IrregularFamilies | src/mapdata.c:321-665 | Families with a rule of their own |
| EnemyMaps.UnknownKinds | src/mapdata.c:669-675 | Records of unknown kinds stand for blank enemies |
| EnemyMaps.SeasonalRappies | src/mapdata.c:216-246 | Only odd rappies outside episodes 1 and 3 wait for the season |
| EnemyMaps.PutFalz | src/mapdata.c:455-475 | 510 Darvants and three forms, backwards |
| EnemyMaps.PutFollowers | src/mapdata.c:248-590 | Companions, boss parts and numbers passed over are written, or left blank, in place |
| EnemyMaps.PutRecord | src/mapdata.c:203-688 | A turn of the loop writes just the record's expansion behind what is there, and nothing beyond it |
| EnemyMaps.ParseMap | src/mapdata.c:186-701 | The array holds the concatenation of the expansions and the count is its length |
| GameMaps.Bounds | src/lobby.c:180-193 | Every bound is at least 1, so that a draw is defined |
| GameMaps.BoundsOf | src/lobby.c:350-370 | Which of the tables bounds a game: in the first place with a choice the three differ, and a single player never has more maps than there are online |
| GameMaps.TrialHasFewerMaps | src/lobby.c:192-193 | The trial edition's bounds never exceed those of the maps it uses |
| GameMaps.ChooseMaps | src/lobby.c:346-413 | Every choice is within its bound; a valid wish is granted, otherwise the draw decides |
| GameMaps.CheckedIsNotEnough | src/mapdata.c:1510-1518 | The sanity check lets everything through up to the counts themselves, and a choice that passes is in the list if and only if the map exists and either the variation does or the next map's is mistaken for it |
| GameMaps.ChosenMapsAreFound | src/mapdata.c:1498-1523 | What is chosen within the bounds passes the check and is found |
| GameMaps.TrialMapsAreFound | src/mapdata.c:1610-1635 | So is what a trial edition game chooses |
| GameMaps.FixUp | src/mapdata.c:1571-1593 | The fix-up changes every enemy as specified and no other |
| GameMaps.FixedIsFinal | src/mapdata.c:1571-1593 | After it no seasonal rappy, and above normal difficulty no second form of Dark Falz, is left, and doing it again changes nothing |
| GameMaps.FixedIs | src/mapdata.c:1571-1593 | Which drops the rappy has in which season, and what becomes of Dark Falz' second form; nothing else is touched |
| GameMaps.Collect | src/mapdata.c:1497-1523 | The first pass finds the chosen set of every area up to the first missing one, and their total size; -1 exactly when a check fails |
| GameMaps.Assemble | src/mapdata.c:1556-1567 | The second pass fills the array with exactly the concatenation of the sets |
| GameMaps.AreasUsed | src/mapdata.c:1498-1506 | Areas are used up to the first that has neither maps nor variations |
| GameMaps.SetsAre | src/mapdata.c:1497-1523 | The set used in an area is the one at map times variations plus variation, area by area |
| GameMaps.LoadGameEnemies | src/mapdata.c:1486-1599 | The game's enemies are the chosen sets, area by area, fixed up; its objects the chosen object sets |
| QuestCache.EnemyRoundTrip | src/mapdata.c:1947-1960 | An enemy's bytes read back are the enemy |
| QuestCache.EnemyLayout | src/mapdata.c:1947-1960 | Where in its twelve bytes the parts of an enemy are, lowest byte first, and that the rest is 0 |
| QuestCache.RecordLayout | src/mapdata.c:186-207 | Where in its 72 bytes the parts of a record are |
| QuestCache.PiecesAre | src/mapdata.c:1840-1875 | Pieces are the data from the front, up to less than one piece |
| QuestCache.AreaKeeps | src/mapdata.c:1840-1945 | Of an area the last section of each kind is kept, and which areas are of the alternative set |
| QuestCache.RealIs | src/mapdata.c:1840-1875 | Sections count up to the first of no known kind |
| QuestCache.FileLayout | src/mapdata.c:1877-1982 | The file: the number of objects, the objects, the number of enemies, the enemies |
| QuestCache.TakeBack | src/mapdata.c:2037-2083 | Pieces written one after the other are read back one after the other |
| QuestCache.CountIncludesLost | src/mapdata.c:1840-1875 | The object count written is the number of objects kept plus those in sections that were replaced |
| QuestCache.NothingLostUnlessReplaced | src/mapdata.c:1840-1875 | Nothing is lost if and only if no section with a whole object is followed by another for its area |
| QuestCache.CacheRoundTrip | src/mapdata.c:1877-2095 | Loading what was cached gives the objects and the expanded enemies in area order, fixed up, if and only if no section with objects was replaced |
| QuestCache.LoadFails | src/mapdata.c:2008-2125 | Which error code a file of which length gives, and how much any other gives |
| QuestCache.ParseQuestObjects | src/mapdata.c:1840-1875 | For every area the latest section of either kind, and the count of all objects |
| QuestCache.CacheQuestEnemies | src/mapdata.c:1877-1982 | The file written, its back-patched count included, is the specified one |
| QuestCache.LoadQuestEnemies | src/mapdata.c:1984-2125 | Reads what the file says, or gives the error code for what is missing |
| RandomUnits.TableIsFilter | src/pmtdata.c:946-980 | Up to a level the table holds the fallback and, exactly once, every allowed unit and modifier of at most that many stars |
| RandomUnits.FormsOfAUnit | src/pmtdata.c:946-980 | Which of the five forms of a unit can be drawn with how many stars, in terms of the unit's own stars and range |
| RandomUnits.TableFits | src/pmtdata.c:927-945 | The table never has more than 5n + 1 entries |
| RandomUnits.CompleteBelow255 | src/pmtdata.c:915-925 | The byte for the top level does not overflow, and the table is complete, if and only if no unit has 255 stars |
| RandomUnits.CountsGrow | src/pmtdata.c:946-980 | The counts never fall and are at least 1 |
| RandomUnits.FillLevel | src/pmtdata.c:952-979 | One level is written behind the ones before, within the space for five entries a unit |
| RandomUnits.BuildUnits | src/pmtdata.c:909-991 | For every level the entries before the count are the table up to that level |
| RandomUnits.TableHolds | src/pmtdata.c:1897-1914 | What can be drawn is the fallback and what the filter lets through |
| RandomUnits.RandomUnit | src/pmtdata.c:1897-1925 | One look into the prefix draws, within bounds, an entry that the simple filter admits |
| RandomUnits.WordsAreDistinct | src/pmtdata.c:957-976 | Different entries are different items |
| RandomUnits.WordsSayWhat | src/pmtdata.c:957-976 | Read as 16-bit numbers the words are 0x0301, the unit, 0 and the signed change |
| Items.StoredConserves | src/items.c:720-735 | Storing adds the item to the totals if and only if it does not overflow the stack it goes onto; nothing else changes |
| Items.RemovedConserves | src/items.c:664-697 | Removing takes the amount, or the whole item, from the total of its kind and nothing else |
| Items.AddingKeepsDistinct | src/items.c:699-735 | IDs stay distinct when an item is added |
| Items.StackedKinds | src/items.c:826-836 | Tools of the kinds 0 to 8 but 2 are stacked, and nothing else |
| Items.AddedIs | src/items.c:699-735 | Refused if and only if the inventory is full or the ID known; else onto the first stack of the code, or else at the end |
| Items.RemovedIs | src/items.c:664-697 | Of the first item with the ID: part of a larger stack is taken off, anything else is taken out and the gap closed |
| Items.DepositedIs | src/items.c:747-775 | A full bank takes nothing; otherwise the first stack of the code grows or the item goes to the end |
| Items.WithdrawnIs | src/items.c:777-824 | Part of a stack, a whole one, or the item is handed out; more than there is, is not |
| Items.RemovingKeepsDistinct | src/items.c:664-697 | And when one is removed |
| Items.RemoveFromInventory | src/items.c:664-697 | The array afterwards is the specified inventory, the other items in order |
| Items.AddToInventory | src/items.c:699-735 | The same for adding: refused when full or known, stacked, or put at the end |
| Items.WithdrawnConserves | src/items.c:777-824 | What is withdrawn is missing from the bank, and nothing else |
| Items.DepositRestores | src/items.c:747-824 | Depositing what was withdrawn restores every total if and only if the bank was not full for a partial withdrawal (of something) and the first stack of the kind does not overflow |
| Items.Bank.Deposit | src/items.c:747-775 | Result and contents of the bank are the specified ones |
| Items.Bank.Take | src/items.c:777-824 | And the item handed out |
| ItemIds.FirstIdIsOr | src/block.c:802-803 | The arithmetic for the first ID, slot and number apart, is the bitwise expression of the source |
| ItemIds.OrBits | src/block.c:802-803 | The bitwise or meant there sets a bit if and only if it is set in one of the two |
| ItemIds.NumberedIs | src/block.c:805-810 | Items get consecutive 32-bit IDs and stay what they are; the last ID is remembered |
| ItemIds.Renumber | src/block.c:800-823 | The inventory is numbered through from the first ID, nothing else of it changes, and the last ID is remembered |
| ItemIds.SlotKept | src/block.c:800-823 | Every ID carries the member's slot if and only if what was remembered has no other slot's bits and the numbers below do not overflow |
| ItemIds.HighestStaysClean | src/block.c:800-823 | What is remembered carries the slot from one numbering to the next, those of empty inventories included |
| ItemIds.FreshSlotIsClean | src/lobby.c:278-300 | A slot nobody has been in keeps its IDs |
| TeamItems.ActGives | src/subcmd.c:1838-1940 | An action that gives out IDs adds exactly these to what stays |
| TeamItems.ActMoves | src/subcmd.c:1694-1775 | Any other only moves IDs about or takes them out of the team |
| TeamItems.NewTeamIs | src/lobby.c:283-301 | In a new team nobody sits, nothing is on the floor and the first ID the server gives out is 0x810000 |
| TeamItems.SettlingDoes | src/block.c:800-823 | What being numbered makes of an inventory and of what is remembered, and that leaving keeps the latter |
| TeamItems.DropItemDoes | src/subcmd.c:1694-1775 | The item goes from its place to the front of the floor |
| TeamItems.DropStackDoes | src/subcmd.c:1838-1940 | Part of a stack goes to the front of the floor with the next ID of the slot; if it was not announced only the ID is used up |
| TeamItems.DropMoneyDoes | src/subcmd.c:1885-1891 | Money becomes an item of its own |
| TeamItems.PickUpDoes | src/subcmd.c:1943-2017 | The item leaves the floor and is added to the inventory, unless it is money |
| TeamItems.BankingDoes | src/subcmd.c:2339-2500 | Deposits, withdrawals and server drops, with the team's next ID |
| TeamItems.StepKeepsUnique | src/subcmd.c:1694-2017 | If all items of a team have IDs of their own, they have after an action if and only if none of the IDs it gives out is on something that stays |
| ItemRuns.IdsAreUniqueUnlessGivenTwice | src/subcmd.c:1694-2017 | In every run of joins, departures, drops, pick-ups, banking and server drops, all items carried or on the floor have IDs of their own all along if and only if no action gives such an ID out |
| ItemRuns.ClashIsRepeat | src/block.c:800-823 | As long as nobody is numbered empty-handed and numbers do not run out, an ID is given out twice only by a numbering that begins with the remembered ID while something else has it |
| ItemRuns.IdsAreUniqueUnlessLastRepeats | src/block.c:800-823 | In every such run IDs are unique all along if and only if that does not happen |
| ItemRuns.NewcomerRepeatsId | src/block.c:800-823 | The input where it happens: join with one item, drop it, leave; the next member of the slot gets its ID |
| ItemRuns.EmptyHandedRepeatsId | src/block.c:809-810 | The input where joining empty-handed makes a later drop repeat the ID of an item on the floor |
| ItemRuns.JoinedItemsCarrySlots | src/block.c:800-823 | When members only come and go, empty-handed or not, all items carry their member's slot and have IDs of their own all along if and only if at every numbering the slot's numbers suffice |
| FloorRuns.StepKeepsFloorApart | src/subcmd.c:1943-2017 | If the floor and the inventories have no ID in common, they have none after an action if and only if it neither puts down an ID that somebody goes on carrying nor takes up one that goes on lying there |
| FloorRuns.FloorIsApart | src/lobby.c:1795-1865 | In every run they have none in common all along if and only if no action does so |
| FloorRuns.TameRunsKeepFloorApart | src/lobby.c:1795-1865 | So it is when no numbering begins with an ID that is still around |
| FloorRuns.NewcomerCrosses | src/block.c:800-823 | And it is not for the newcomer after a visit that left an item behind |
| TeamTotals.ActBalances | src/subcmd.c:1838-2017 | Of everything but money, what a member carries and what lies on the floor changes by what an action brings, takes away, loses and makes |
| TeamTotals.EvenExactly | src/subcmd.c:1838-2017 | It neither loses nor makes anything if and only if no item picked up is refused, no stack overflows, and a part of a stack that is dropped is what is taken off the stack |
| TeamTotals.RunsConserveTotals | src/subcmd.c:1694-2017 | In every run there is, all along, as much as was brought to the team and not taken away if and only if every action is like that |
| TeamTotals.FullHandsLose | src/subcmd.c:1987-1996 | The input that loses an item: somebody with a full inventory picks up what the server dropped |
| BlueBurst.ItemTeam.constructor | src/lobby.c:291-294 | A new team's counter starts at 0x810000 and nothing is remembered |
| BlueBurst.ItemTeam.AddItem | src/lobby.c:1795-1818 | A server drop takes the counter's ID |
| BlueBurst.ItemTeam.RemoveItem | src/lobby.c:1840-1865 | Takes the first item with the ID off the floor, or says there is none |
| BlueBurst.ItemTeam.DropItem | src/subcmd.c:1694-1775 | A whole item goes to the floor as it is; -1 exactly when it is not there |
| BlueBurst.ItemTeam.DropStack | src/subcmd.c:1838-1940 | A part of a stack, or money, goes to the floor with the member's next ID and the amount asked for, in a byte; the ID is used up even if the drop is refused for not being what was announced |
| BlueBurst.ItemTeam.PickUp | src/subcmd.c:1943-2017 | Off the floor and into the inventory, onto a stack or into the purse; without room it is lost |
| BlueBurst.ItemTeam.TakeOut | src/subcmd.c:2465-2497 | What the bank hands out takes the counter's ID |
| BlueBurst.ItemTeam.Welcome | src/block.c:800-812 | A member's inventory is numbered as specified and other slots keep what is remembered for them |
| Levels.ReachIsMaximal | src/clients.c:765-774 | The level reached is the end of the longest unbroken run of thresholds met, at most 199 |
| Levels.ReachInSteps | src/clients.c:765-774 | Stopping on the way makes no difference, whatever the table |
| Levels.GrantsAddUp | src/clients.c:742-790 | Two grants give the level and stats of their sum; the experience adds up if and only if the first does not reach the top or the second is nothing |
| Levels.GrantStats | src/clients.c:742-790 | A grant below the top level: the experience in 32 bits, the highest level its thresholds allow, each stat with its own gains in 16 bits |
| Levels.GainsOfEach | src/clients.c:723-741 | The gains from one level to another are those of every level above the first |
| Levels.LevelsCompose | src/clients.c:793-880 | Leveling up twice leads to the higher of the two levels as if at once |
| Levels.FreeLevel | src/clients.c:793-880 | A free level: level and experience of the table's entry, and the stats in version 2 only |
| Levels.Character.GiveStats | src/clients.c:723-741 | Every stat gains its own entry, in 16 bits |
| Levels.Character.GiveExperience | src/clients.c:742-790 | Level, experience and stats afterwards: each stat gains exactly the sum of the entries crossed |
| Levels.Character.GiveFreeLevel | src/clients.c:793-825 | Level and experience, but no stats |
| Levels.Character.GiveFreeLevelV2 | src/clients.c:827-880 | Stats of all levels crossed, and the experience of the last |

## Left out

- Sockets, select loops, file reading, XML, PRS and GSL parsing, Lua scripts, iconv, shipgate messages and the contents of what is sent: I/O or libraries not seen here.
- The cipher: it is any function that decrypts one unit after the other.
- Mutexes: the model has one step at a time, so deadlocks and races are outside it.
- `max_chal`, the lobby a client asked for at login, quest position registers and team scripts.
- Blocks.Block.CreateGame: requires a free team ID, because the original loops for ever without one; map choice and loading at creation are in GameMaps and not tied to the team object.
- Teams.CreateGameKeepsInv: requires a difficulty below 4, and single-player only for Blue Burst, as the tables and the callers of the original take for granted.
- Lobbies.Lobby.SetupQuest: quest look-ups and scripts that fail are left out; whether the quest is joinable and has data is given.
- Legit mode: a client's legit mode is not part of its state; each request is given whether the check passes, so that switching the mode off (`src/commands.c:871`) or losing it by joining (`src/block.c:793-798`) may happen between any two requests.
- Runs.StepKeepsInv: a creation attempted when no team ID is free is dropped, for the same reason.
- Blocks.Block.DoneBurst: that the client has sent its character, and sends that fail, are left out; so are the synchronized registers sent at the end of a burst.
- Blocks.Block.JoinGame: the numbering itself is `ItemIds.Renumber` and not tied to the client object.
- Waiting.WhatWaitedIsHandled: what a handler does to the block when it is called back is not modelled.
- Lobbies.Lobby.BringNpc: the checks on area, slot and NPC number are the parameter `goodArguments`; slots taken by NPCs are not counted.
- Deframers.Deframer.ProcessPkt: a change of the client's version by a handler is not modelled; the place of the length field is fixed for a connection.
- EnemyMaps.ParseMap: requires that the expansion fits 0xB50 enemies, which the original takes for granted; shrinking the array afterwards is left out.
- QuestCache.ParseQuestObjects: the .dat file is a list of sections, not bytes chained by offsets, with areas below 17 as the original takes for granted.
- QuestCache.LoadQuestEnemies: the refusal in challenge and battle mode and the monster lists for drops are left out, and so is an `fread` that fails otherwise than by the end of the file.
- Items.Bank.Deposit: the 16-bit copy of a stack's amount next to the byte is not carried.
- ItemIds.Renumber: a slot of a default lobby, which a join that strays or ends with -15 can pass, is written beyond the four entries by the original and is not modelled.
- ItemRuns.IdsAreUniqueUnlessGivenTwice: speaks of Blue Burst teams, whose floor the server keeps; in other teams packets set the remembered ID to anything (`src/subcmd.c:1161`, `src/subcmd.c:1637`).
- BlueBurst.ItemTeam.DropItem: which items are equipped is not carried; sorting an inventory and the bank's side of a deposit are left out.
- BlueBurst.ItemTeam.DropStack: what the second list holds and whether the drop is what was announced are parameters; that the purse holds enough is not checked.
- BlueBurst.ItemTeam.PickUp: how much goes into the purse is not carried.
- BlueBurst.ItemTeam.TakeOut: putting the item back into the bank after a refusal is left out.
- TeamTotals.RunsConserveTotals: money is left out, as purses are.
- GameMaps.Bounds: an episode other than 1 to 3 is outside the tables, as the original takes for granted.
- GameMaps.Collect: requires that every look-up is in the list; for a choice that passes the check and is not, CheckedIsNotEnough says when.
- GameMaps.LoadGameEnemies: the same.
- QuestCache.CacheQuestEnemies: requires that an area's expansion fits the space for it, as ParseMap does.
- Levels.Character.GiveExperience: experience is 32 bits and stats 16 bits wide on entry, as their fields are.
- `src/bans.c`, `src/rtdata.c`, `src/list.c`, item names, GM and admin commands, the other quest functions: list handling, tables and formatting that would only add easy members.
