/** One consumer group as the coordinator keeps it, and what every step that
    holds its lock does to it. */
module GroupModel {

  type Id = string

  /** A member's assignment, with the generation that was current when the leader
      handed it out. */
  datatype Assignment = Unassigned | Given(data: string, generation: int)

  datatype Member = Member(client: string, sessionMs: int, subscription: string, protocols: seq<string>,
                           assignment: Assignment)

  datatype JoinResult = JoinResult(
    generation: int, protocol: string, leader: Id, member: Id, isLeader: bool, members: map<Id, string>)

  /** One join barrier. The last fields record what happened to it: how often its channels
      were closed, the members and protocols it was settled with, and whether the leader of
      its own generation has synced. */
  datatype Round = Round(
    expected: set<Id>, joined: set<Id>, closed: bool, synced: bool,
    generation: int, results: map<Id, JoinResult>, doneCloses: nat, syncCloses: nat,
    settled: map<Id, Member>, latest: seq<string>, served: bool)

  datatype Status = Empty | PreparingRebalance | CompletingRebalance | Stable

  /** `rounds` holds every round so far; the last one is the current one. */
  datatype Group = Group(
    members: map<Id, Member>, beats: map<Id, int>, leader: Id, generation: int,
    protocol: string, latest: seq<string>, status: Status, rounds: seq<Round>)
  {
    predicate HasRound() { rounds != [] }

    function Current(): Round
      requires HasRound()
    {
      rounds[|rounds| - 1]
    }

    /** A join round is collecting members. */
    predicate Open() { HasRound() && !Current().closed }

    function WithRound(r: Round): Group
      requires HasRound()
    {
      this.(rounds := rounds[..|rounds| - 1] + [r])
    }
  }

  function Keep<T>(m: map<Id, T>, ids: set<Id>): (r: map<Id, T>)
    ensures r.Keys == m.Keys * ids
    ensures forall id :: id in r ==> r[id] == m[id]
  {
    map id | id in m.Keys && id in ids :: m[id]
  }

  // ---- removing members -----------------------------------------------------------

  /** Milliseconds of silence after which a member is evicted. */
  function EvictAfter(m: Member): int {
    var session := if m.sessionMs <= 0 then 30000 else m.sessionMs;
    if 3000 < session then 3000 else session
  }

  predicate Expired(g: Group, id: Id, now: int)
    requires id in g.members
  {
    id !in g.beats || now - g.beats[id] > EvictAfter(g.members[id])
  }

  /** The group without some members. */
  function Without(g: Group, gone: set<Id>): (r: Group)
    ensures r.members.Keys == g.members.Keys - gone
  {
    var left := g.members.Keys - gone;
    g.(members := Keep(g.members, left), beats := Keep(g.beats, g.beats.Keys - gone),
       leader := if g.leader in gone then "" else g.leader)
  }

  function Evict(g: Group, now: int): Group {
    Without(g, set id | id in g.members && Expired(g, id, now))
  }

  /** A fresh process takes the place of earlier ones with its client id. */
  function DropClient(g: Group, client: string): Group {
    if client == "" then g else Without(g, set id | id in g.members && g.members[id].client == client)
  }

  // ---- joining ------------------------------------------------------------------------

  datatype JoinArgs = JoinArgs(memberId: Id, client: string, sessionMs: int, subscription: string,
                               protocols: seq<string>, apiVersion: int)

  function NewRound(expected: set<Id>): Round {
    Round(expected, {}, false, false, 0, map[], 0, 0, map[], [], false)
  }

  function Opened(g: Group): Group {
    if g.Open() then g
    else g.(rounds := g.rounds + [NewRound(g.members.Keys)],
            status := PreparingRebalance)
  }

  /** Registers a member in the open round, replacing what was known of it. */
  function Registered(g: Group, id: Id, args: JoinArgs, now: int): Group
    requires g.Open()
  {
    var m := Member(args.client, args.sessionMs, args.subscription, args.protocols, Unassigned);
    g.WithRound(g.Current().(joined := g.Current().joined + {id}))
     .(members := g.members[id := m], beats := g.beats[id := now], latest := args.protocols)
  }

  /** Everyone known when the round opened is back, and there was someone. */
  predicate AllRejoined(r: Round) { r.expected != {} && r.expected <= r.joined }

  // ---- deciding a generation ------------------------------------------------------------

  /** A protocol every member advertises. */
  ghost predicate Common(members: map<Id, Member>, name: string) {
    members.Keys != {} && forall id :: id in members ==> name in members[id].protocols
  }

  function Fallback(latest: seq<string>): string { if latest == [] then "" else latest[0] }

  /** What pickCommonProtocol may return, whatever order the map is walked in. */
  ghost predicate Picks(members: map<Id, Member>, latest: seq<string>, name: string) {
    if exists n :: Common(members, n) then Common(members, name) else name == Fallback(latest)
  }

  /** Some leader is chosen from the members: the current one if it is still there. */
  ghost predicate Leads(members: map<Id, Member>, before: Id, leader: Id) {
    if before != "" && before in members then leader == before
    else if members.Keys == {} then leader == ""
    else leader in members
  }

  function Answer(g: Group, id: Id): JoinResult {
    JoinResult(g.generation, g.protocol, g.leader, id, id == g.leader,
               if id == g.leader then map m | m in g.members :: g.members[m].subscription else map[])
  }

  function Answers(g: Group, ids: set<Id>): map<Id, JoinResult> {
    map id | id in ids :: Answer(g, id)
  }

  /** closeRound: those who did not join are dropped, a leader and a protocol are
      settled, the generation moves on, and every member left gets an answer. */
  function Closed(g: Group, leader: Id, protocol: string): Group
    requires g.Open()
  {
    var s := Settled(g, leader, protocol);
    s.WithRound(g.Current().(closed := true, generation := s.generation, results := Answers(s, s.members.Keys),
                             doneCloses := g.Current().doneCloses + 1, settled := s.members, latest := s.latest))
  }

  function Settled(g: Group, leader: Id, protocol: string): (s: Group)
    requires g.Open()
    ensures s.rounds == g.rounds
  {
    var joined := g.Current().joined;
    g.(members := Keep(g.members, joined), beats := Keep(g.beats, g.beats.Keys - (g.members.Keys - joined)),
       leader := leader, protocol := protocol, generation := g.generation + 1, status := CompletingRebalance)
  }

  ghost predicate CanClose(g: Group, leader: Id, protocol: string)
    requires g.Open()
  {
    var members := Keep(g.members, g.Current().joined);
    Leads(members, g.leader, leader) && Picks(members, g.latest, protocol)
  }

  // ---- syncing ----------------------------------------------------------------------------

  datatype SyncReply = Assigned(assignment: Assignment) | IllegalGeneration | UnknownMember | Waits

  predicate MaySync(g: Group, generation: int, id: Id) { g.generation == generation && id in g.members }

  /** The leader hands out assignments to the members it names. */
  function Distributed(g: Group, assignments: map<Id, string>): (r: Group)
    ensures r.members.Keys == g.members.Keys && r.rounds == g.rounds
  {
    g.(members := map id | id in g.members.Keys ::
                    if id in assignments then g.members[id].(assignment := Given(assignments[id], g.generation))
                    else g.members[id],
       status := Stable)
  }

  function SyncedRound(r: Round): Round {
    r.(synced := true, syncCloses := if r.synced then r.syncCloses else r.syncCloses + 1,
       served := r.served || r.closed)
  }

  function MarkSynced(g: Group): Group {
    if !g.HasRound() then g else g.WithRound(SyncedRound(g.Current()))
  }

  function Beat(g: Group, id: Id, now: int): Group { g.(beats := g.beats[id := now]) }

  function SyncState(g: Group, generation: int, id: Id, assignments: map<Id, string>, now: int): Group {
    if !MaySync(g, generation, id) then g
    else if id == g.leader then MarkSynced(Distributed(Beat(g, id, now), assignments))
    else Beat(g, id, now)
  }

  /** What SyncGroup answers before it would block. */
  function SyncAnswer(g: Group, generation: int, id: Id, assignments: map<Id, string>, now: int): SyncReply {
    if g.generation != generation then IllegalGeneration
    else if id !in g.members then UnknownMember
    else if id == g.leader then Assigned(SyncState(g, generation, id, assignments, now).members[id].assignment)
    else if !g.HasRound() || g.Current().synced then Assigned(g.members[id].assignment)
    else Waits
  }

  /** What a follower that blocked is answered once its round is synced. */
  function WakeAnswer(g: Group, generation: int, id: Id): SyncReply {
    if g.generation != generation then IllegalGeneration
    else if id !in g.members then UnknownMember
    else Assigned(g.members[id].assignment)
  }

  // ---- leaving ------------------------------------------------------------------------------

  function Left(g: Group, id: Id, heir: Id): Group
    requires id in g.members
  {
    var r := g.(members := g.members - {id}, beats := g.beats - {id},
                leader := if g.leader == id then heir else g.leader);
    r.(status := if r.members.Keys == {} then Empty else PreparingRebalance)
  }

  /** LeaveGroup gives a departing leader's place to some member that stays. */
  ghost predicate Inherits(g: Group, id: Id, heir: Id) {
    var rest := g.members.Keys - {id};
    if rest == {} then heir == "" else heir in rest
  }

  // ---- every step ----------------------------------------------------------------------------

  datatype Step =
    | JoinStep(args: JoinArgs, newId: Id, now: int, leader: Id, protocol: string)
    | Expire(round: nat, leader: Id, protocol: string)
    | Sync(generation: int, id: Id, assignments: map<Id, string>, now: int)
    | Heartbeat(generation: int, id: Id, now: int)
    | Leave(id: Id, heir: Id)

  /** The group after evictions, when JoinGroup comes to look at its member. */
  function Swept(g: Group, args: JoinArgs, now: int): Group {
    var e := Evict(g, now);
    if args.memberId == "" then DropClient(e, args.client) else e
  }

  function JoinId(args: JoinArgs, newId: Id): Id { if args.memberId == "" then newId else args.memberId }

  /** The client is told its id and asked to come back with it. */
  predicate Handshake(args: JoinArgs) { args.memberId == "" && args.apiVersion >= 4 }

  function Joining(g: Group, args: JoinArgs, newId: Id, now: int): (r: Group)
    ensures r.Open()
  {
    Registered(Opened(Swept(g, args, now)), JoinId(args, newId), args, now)
  }

  ghost predicate Enabled(g: Group, step: Step) {
    match step
    case JoinStep(args, newId, now, leader, protocol) =>
      && newId != ""
      && (!Handshake(args) && AllRejoined(Joining(g, args, newId, now).Current()) ==>
            CanClose(Joining(g, args, newId, now), leader, protocol))
    case Expire(r, leader, protocol) => Fires(g, r) ==> CanClose(g, leader, protocol)
    case Sync(_, _, _, _) => true
    case Heartbeat(_, _, _) => true
    case Leave(id, heir) => id in g.members && g.leader == id ==> Inherits(g, id, heir)
  }

  /** The timer of round r still finds it current and open. */
  predicate Fires(g: Group, r: nat) { g.Open() && r == |g.rounds| - 1 }

  ghost function Next(g: Group, step: Step): Group
    requires Enabled(g, step)
  {
    match step
    case JoinStep(args, newId, now, leader, protocol) =>
      if Handshake(args) then Swept(g, args, now)
      else
        var j := Joining(g, args, newId, now);
        if AllRejoined(j.Current()) then Closed(j, leader, protocol) else j
    case Expire(r, leader, protocol) => if Fires(g, r) then Closed(g, leader, protocol) else g
    case Sync(generation, id, assignments, now) => SyncState(g, generation, id, assignments, now)
    case Heartbeat(generation, id, now) => if MaySync(g, generation, id) then Beat(g, id, now) else g
    case Leave(id, heir) => if id in g.members then Left(g, id, heir) else g
  }
}
