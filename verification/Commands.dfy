/**
  What happens inside a lobby a client is in: bursts ending, packets waiting, quests, and the leader's
  commands (src/block.c:2538-2573, 3505-3519, src/commands.c, src/quest_functions.c:1041-1060).
 */
module Commands {
  import opened Elections
  import opened LobbyRules
  import opened BlockRules
  import opened Moves

  /** A change inside one lobby, its members staying where they are. */
  lemma WithinKeepsInv(b: BlockState, l: object, s: LobbyState)
    requires Inv(b) && l in b.lobbies && SameMembers(b.lobbies[l], s) && Sound(s) && Admission(s, b.clients)
    ensures Inv(Put(b, l, s))
  {
    PutKeepsCore(b, l, s);
    PutKeepsInhabited(b, l, s, {});
  }

  lemma WithinRulesKeepsInv(b: BlockState, l: object, s: LobbyState)
    requires Inv(b) && l in b.lobbies && SameMembers(b.lobbies[l], s) && SameRules(b.lobbies[l], s) && Sound(s)
    ensures Inv(Put(b, l, s))
  {
    PutFlagsKeepsInv(b, l, s, {});
  }

  // ---------------------------------------------------------------- bursts

  /** The client has finished loading. With a quest running it must load that first. */
  ghost function DoneBurst(b: BlockState, c: object, accepts: Packet -> bool): BlockState
    requires Core(b) && c in b.clients
  {
    var me := b.clients[c];
    if me.lobby == null || me.lobby !in b.lobbies || b.lobbies[me.lobby as object].terms.kind == DefaultLobby then b
    else if b.lobbies[me.lobby as object].flags.questing then PutClient(b, c, me.(waitQping := true))
    else PutClient(Put(b, me.lobby, EndBurst(b.lobbies[me.lobby as object], accepts)), c, me.(bursting := false))
  }

  /** What the client is told: -1 when the message makes no sense, or a waiting packet was refused. */
  ghost function DoneBurstResult(b: BlockState, c: object, accepts: Packet -> bool): int
    requires c in b.clients
  {
    var me := b.clients[c];
    if me.lobby == null || me.lobby !in b.lobbies || b.lobbies[me.lobby as object].terms.kind == DefaultLobby then -1
    else if b.lobbies[me.lobby as object].flags.questing ||
            AllAccepted(b.lobbies[me.lobby as object].queues.waiting, accepts) then 0 else -1
  }

  /** The lobby when the quest has been loaded: the burst is over, and what was to be re-sent has been. */
  ghost function EndQuestBurst(l: LobbyState, accepts: Packet -> bool): LobbyState {
    EndBurst(l.(queues := l.queues.(resend := [])), accepts)
  }

  ghost function QuestPing(b: BlockState, c: object, accepts: Packet -> bool): BlockState
    requires Core(b) && c in b.clients
  {
    var me := b.clients[c];
    if !me.waitQping || me.lobby == null || me.lobby !in b.lobbies then b
    else PutClient(Put(b, me.lobby, EndQuestBurst(b.lobbies[me.lobby as object], accepts)), c,
                   me.(bursting := false, waitQping := false))
  }

  /** The packets sent again have no say in the result. */
  ghost function QuestPingResult(b: BlockState, c: object, accepts: Packet -> bool): int
    requires c in b.clients
  {
    var me := b.clients[c];
    if !me.waitQping then 0
    else if me.lobby == null || me.lobby !in b.lobbies then -1
    else if AllAccepted(b.lobbies[me.lobby as object].queues.waiting, accepts) then 0 else -1
  }

  /** The NTE message for the end of loading. */
  ghost function NteDone(b: BlockState, c: object): BlockState
    requires Core(b) && c in b.clients
  {
    var me := b.clients[c];
    if !me.nte || me.version != DCv1 || me.lobby == null || me.lobby !in b.lobbies ||
       b.lobbies[me.lobby as object].terms.kind == DefaultLobby then b
    else PutClient(Put(b, me.lobby, NteLoaded(b.lobbies[me.lobby as object])), c, me.(bursting := false))
  }

  ghost function Send(b: BlockState, c: object, command: Command, body: int, forResend: bool): BlockState
    requires Core(b) && c in b.clients
  {
    var me := b.clients[c];
    if me.lobby == null || me.lobby !in b.lobbies then b
    else Put(b, me.lobby, Enqueue(b.lobbies[me.lobby as object], Packet(c, command, body), forResend))
  }

  /** The trial edition's packets take another way, and Blue Burst's are never held back. */
  predicate Diverted(me: ClientState) {
    (me.version == DCv1 && me.nte) || me.version == BB
  }

  /** A packet a client sends during a burst is held back if it takes the common way. */
  ghost function HoldBack(b: BlockState, c: object, command: Command, body: int, forResend: bool): BlockState
    requires Core(b) && c in b.clients
  {
    if Diverted(b.clients[c]) then b else Send(b, c, command, body, forResend)
  }

  ghost function SendResult(b: BlockState, c: object, command: Command, body: int): int
    requires c in b.clients
  {
    var me := b.clients[c];
    if me.lobby == null || me.lobby !in b.lobbies then -1
    else EnqueueResult(b.lobbies[me.lobby as object], Packet(c, command, body))
  }

  lemma DoneBurstKeepsInv(b: BlockState, c: object, accepts: Packet -> bool)
    requires Inv(b) && c in b.clients
    ensures Inv(DoneBurst(b, c, accepts))
  {
    var me := b.clients[c];
    if me.lobby != null {
      Located(b, c);
      var l := me.lobby as object;
      var s := EndBurst(b.lobbies[l], accepts);
      EndBurstKeepsSound(b.lobbies[l], accepts);
      WithinRulesKeepsInv(b, l, s);
      PutClientKeepsInv(Put(b, l, s), c, me.(bursting := false));
      PutClientKeepsInv(b, c, me.(waitQping := true));
    }
  }

  lemma QuestPingKeepsInv(b: BlockState, c: object, accepts: Packet -> bool)
    requires Inv(b) && c in b.clients
    ensures Inv(QuestPing(b, c, accepts))
  {
    var me := b.clients[c];
    if me.lobby != null {
      Located(b, c);
      var l := me.lobby as object;
      var s := EndQuestBurst(b.lobbies[l], accepts);
      ResendKeepsSound(b.lobbies[l]);
      EndBurstKeepsSound(b.lobbies[l].(queues := b.lobbies[l].queues.(resend := [])), accepts);
      WithinRulesKeepsInv(b, l, s);
      PutClientKeepsInv(Put(b, l, s), c, me.(bursting := false, waitQping := false));
    }
  }

  lemma NteDoneKeepsInv(b: BlockState, c: object)
    requires Inv(b) && c in b.clients
    ensures Inv(NteDone(b, c))
  {
    var me := b.clients[c];
    if me.lobby != null {
      Located(b, c);
      var l := me.lobby as object;
      NteLoadStrandsPackets(b.lobbies[l]);
      WithinRulesKeepsInv(b, l, NteLoaded(b.lobbies[l]));
      PutClientKeepsInv(Put(b, l, NteLoaded(b.lobbies[l])), c, me.(bursting := false));
    }
  }

  lemma ResendKeepsSound(l: LobbyState)
    requires Sound(l)
    ensures Sound(l.(queues := l.queues.(resend := [])))
  {
  }

  lemma SendKeepsInv(b: BlockState, c: object, command: Command, body: int, forResend: bool)
    requires Inv(b) && c in b.clients
    ensures Inv(Send(b, c, command, body, forResend))
  {
    var me := b.clients[c];
    if me.lobby != null {
      Located(b, c);
      var s := b.lobbies[me.lobby as object];
      EnqueueKeepsSound(s, Packet(c, command, body), forResend);
      WithinRulesKeepsInv(b, me.lobby, Enqueue(s, Packet(c, command, body), forResend));
    }
  }

  lemma HoldBackKeepsInv(b: BlockState, c: object, command: Command, body: int, forResend: bool)
    requires Inv(b) && c in b.clients
    ensures Inv(HoldBack(b, c, command, body, forResend))
  {
    SendKeepsInv(b, c, command, body, forResend);
  }

  // ---------------------------------------------------------------- the leader's commands

  /** What `/minlvl level` makes of a team when the client in `slot` says it. */
  ghost function MinLevel(l: LobbyState, slot: nat, level: int): LobbyState {
    if l.terms.kind == DefaultLobby || l.leader != slot || level > 200 || level < 1 ||
       level < RequiredLevel(l.terms.difficulty) || level > l.maxLevel
    then l else l.(minLevel := level)
  }

  ghost function MaxLevel(l: LobbyState, slot: nat, level: int): LobbyState {
    if l.terms.kind == DefaultLobby || l.leader != slot || level > 200 || level < 1 || level < l.minLevel
    then l else l.(maxLevel := level)
  }

  ghost predicate AllOf(l: LobbyState, clients: map<object, ClientState>, versions: set<Version>) {
    forall i :: 0 <= i < |l.slots| && l.slots[i] != null && l.slots[i] in clients ==>
      clients[l.slots[i] as object].version in versions
  }

  ghost function DcOnly(l: LobbyState, clients: map<object, ClientState>, slot: nat, off: bool): LobbyState {
    if l.terms.kind != Game || l.leader != slot then l
    else if off then l.(flags := l.flags.(dcOnly := false))
    else if !AllOf(l, clients, {DCv1, DCv2}) then l
    else l.(flags := l.flags.(dcOnly := true))
  }

  ghost function V1Only(l: LobbyState, clients: map<object, ClientState>, slot: nat, off: bool): LobbyState {
    if l.terms.kind != Game || l.leader != slot then l
    else if off then l.(flags := l.flags.(v1Only := false))
    else if !AllOf(l, clients, {DCv1}) then l
    else l.(flags := l.flags.(v1Only := true))
  }

  ghost function AllowGc(l: LobbyState, slot: nat, gm: bool, off: bool): LobbyState {
    if !gm || l.terms.kind != Game || l.leader != slot then l
    else if off then l.(flags := l.flags.(gcAllowed := false))
    else if l.flags.dcOnly || l.flags.pcOnly || l.flags.v1Only then l
    else l.(flags := l.flags.(gcAllowed := true))
  }

  /** `/npc` makes the team a single-player one, so it insists on a single player. `goodArguments` stands for the
      checks on the client's position and on the numbers it typed. */
  ghost function AddNpc(l: LobbyState, goodArguments: bool): LobbyState {
    if l.terms.kind != Game || l.count != 1 || l.terms.battle || l.terms.challenge || l.flags.questing || !goodArguments
    then l else l.(flags := l.flags.(singlePlayer := true, hasNpc := true))
  }

  lemma LevelCommandsKeepSound(l: LobbyState, slot: nat, level: int)
    requires Sound(l)
    ensures Sound(MinLevel(l, slot, level)) && Sound(MaxLevel(l, slot, level))
  {
  }

  lemma FlagCommandsKeepSound(l: LobbyState, slot: nat, clients: map<object, ClientState>, off: bool)
    requires Sound(l)
    ensures Sound(DcOnly(l, clients, slot, off)) && Sound(V1Only(l, clients, slot, off))
  {
  }

  lemma OtherCommandsKeepSound(l: LobbyState, slot: nat, gm: bool, off: bool, goodArguments: bool)
    requires Sound(l)
    ensures Sound(AllowGc(l, slot, gm, off)) && Sound(AddNpc(l, goodArguments))
  {
  }

  /** A restriction is only ever switched on when every member satisfies it. */
  lemma RestrictionsKeepAdmission(l: LobbyState, clients: map<object, ClientState>, slot: nat, off: bool)
    requires Admission(l, clients)
    ensures Admission(DcOnly(l, clients, slot, off), clients) && Admission(V1Only(l, clients, slot, off), clients)
  {
    forall i | 0 <= i < |l.slots| && l.slots[i] != null && l.slots[i] in clients
      ensures Admitted(DcOnly(l, clients, slot, off), l.slots[i], clients[l.slots[i] as object].version)
      ensures Admitted(V1Only(l, clients, slot, off), l.slots[i], clients[l.slots[i] as object].version)
    {
      assert Admitted(l, l.slots[i], clients[l.slots[i] as object].version);
    }
  }

  // ---------------------------------------------------------------- quests

  ghost function SelectQuest(l: LobbyState, begin: bool): LobbyState {
    if l.terms.kind != Game then l else l.(flags := l.flags.(questSel := begin))
  }

  ghost function LoadQuest(l: LobbyState, joinable: bool, data: bool): LobbyState {
    if l.terms.kind != Game || l.flags.bursting then l else StartQuest(l, joinable, data)
  }

  /** A quest that may call server functions asks to be kept informed of the client count. */
  ghost function AskCount(l: LobbyState, c: object, slot: nat, reg: nat): LobbyState {
    if !l.quest.data || reg > 255 || slot >= |l.quest.countRegs| then l else Subscribe(l, c, slot, reg)
  }

  lemma QuestsKeepSound(l: LobbyState, begin: bool, joinable: bool, data: bool)
    requires Sound(l)
    ensures Sound(SelectQuest(l, begin)) && Sound(LoadQuest(l, joinable, data))
  {
  }
}
