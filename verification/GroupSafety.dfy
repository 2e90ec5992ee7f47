/** What holds of a consumer group in every interleaving of its steps. */
module GroupSafety {
  import opened Options
  import opened GroupModel

  // ---- the invariant ------------------------------------------------------------------

  ghost predicate LeaderIsMember(g: Group) {
    (g.leader == "" || g.leader in g.members) && "" !in g.members
  }

  /** While a round is open every member was expected by it or has joined it. */
  ghost predicate EveryoneCounted(g: Group) {
    g.Open() ==> g.members.Keys <= g.Current().expected + g.Current().joined
  }

  /** No channel was closed twice, and none without its flag. */
  ghost predicate ClosedOnce(r: Round) {
    && r.doneCloses == (if r.closed then 1 else 0)
    && r.syncCloses == (if r.synced then 1 else 0)
    && (r.served ==> r.closed && r.synced)
  }

  function Subscriptions(members: map<Id, Member>): map<Id, string> {
    map id | id in members :: members[id].subscription
  }

  /** The answers of a closed round: one generation, one leader, one protocol; the
      leader is among those answered and was told who they are and what they want. */
  ghost predicate Agreed(r: Round) {
    forall a, b :: a in r.results && b in r.results ==>
      var x, y := r.results[a], r.results[b];
      && x.generation == r.generation && x.member == a
      && x.leader == y.leader && x.protocol == y.protocol
      && x.leader in r.results && (x.isLeader <==> a == x.leader)
      && x.members == if x.isLeader then Subscriptions(r.settled) else map[]
  }

  /** Exactly the members settled are answered, with a protocol picked from theirs. */
  ghost predicate WellPicked(r: Round) {
    && r.results.Keys == r.settled.Keys
    && forall a :: a in r.results ==> Picks(r.settled, r.latest, r.results[a].protocol)
  }

  /** Rounds close one after another, each raising the generation by one. */
  ghost predicate RoundsInOrder(g: Group, first: int) {
    && (forall i :: 0 <= i < |g.rounds| ==> ClosedOnce(g.rounds[i]))
    && (forall i :: 0 <= i < |g.rounds| - 1 ==> g.rounds[i].closed)
    && (forall i :: 0 <= i < |g.rounds| && g.rounds[i].closed ==>
          g.rounds[i].generation == first + i + 1 && Agreed(g.rounds[i]) && WellPicked(g.rounds[i]))
    && g.generation == first + |g.rounds| - (if g.Open() then 1 else 0)
  }

  ghost predicate Inv(g: Group, first: int) {
    LeaderIsMember(g) && EveryoneCounted(g) && RoundsInOrder(g, first)
  }

  // ---- every step keeps it --------------------------------------------------------------

  lemma WithoutKeeps(g: Group, gone: set<Id>, first: int)
    requires Inv(g, first)
    ensures Inv(Without(g, gone), first)
  {
  }

  lemma SweptKeeps(g: Group, args: JoinArgs, now: int, first: int)
    requires Inv(g, first)
    ensures Inv(Swept(g, args, now), first)
  {
    var gone := set id | id in g.members && Expired(g, id, now);
    WithoutKeeps(g, gone, first);
    var e := Evict(g, now);
    var same := set id | id in e.members && e.members[id].client == args.client;
    WithoutKeeps(e, same, first);
  }

  lemma OpenedKeeps(g: Group, first: int)
    requires Inv(g, first)
    ensures Inv(Opened(g), first) && Opened(g).Open()
  {
  }

  lemma RegisteredKeeps(g: Group, id: Id, args: JoinArgs, now: int, first: int)
    requires Inv(g, first) && g.Open() && id != ""
    ensures Inv(Registered(g, id, args, now), first)
  {
  }

  lemma JoiningKeeps(g: Group, args: JoinArgs, newId: Id, now: int, first: int)
    requires Inv(g, first) && newId != ""
    ensures Inv(Joining(g, args, newId, now), first)
  {
    var s := Swept(g, args, now);
    SweptKeeps(g, args, now, first);
    OpenedKeeps(s, first);
    RegisteredKeeps(Opened(s), JoinId(args, newId), args, now, first);
  }

  lemma ClosedAgreed(g: Group, leader: Id, protocol: string)
    requires g.Open() && CanClose(g, leader, protocol) && "" !in g.members
    ensures Agreed(Closed(g, leader, protocol).Current()) && WellPicked(Closed(g, leader, protocol).Current())
  {
  }

  lemma ClosedKeeps(g: Group, leader: Id, protocol: string, first: int)
    requires Inv(g, first) && g.Open() && CanClose(g, leader, protocol)
    ensures Inv(Closed(g, leader, protocol), first)
  {
    ClosedAgreed(g, leader, protocol);
  }

  lemma SyncKeeps(g: Group, generation: int, id: Id, assignments: map<Id, string>, now: int, first: int)
    requires Inv(g, first)
    ensures Inv(SyncState(g, generation, id, assignments, now), first)
  {
    if MaySync(g, generation, id) {
      BeatKeeps(g, id, now, first);
      if id == g.leader {
        DistributedKeeps(Beat(g, id, now), assignments, first);
        MarkSyncedKeeps(Distributed(Beat(g, id, now), assignments), first);
      }
    }
  }

  lemma BeatKeeps(g: Group, id: Id, now: int, first: int)
    requires Inv(g, first)
    ensures Inv(Beat(g, id, now), first)
  {
  }

  lemma DistributedKeeps(g: Group, assignments: map<Id, string>, first: int)
    requires Inv(g, first)
    ensures Inv(Distributed(g, assignments), first)
  {
  }

  lemma MarkSyncedKeeps(g: Group, first: int)
    requires Inv(g, first)
    ensures Inv(MarkSynced(g), first)
  {
    if g.HasRound() {
      WithRoundKeeps(g, SyncedRound(g.Current()), first);
    }
  }

  ghost predicate SameAnswers(r: Round, s: Round) {
    s.results == r.results && s.generation == r.generation && s.settled == r.settled && s.latest == r.latest
  }

  lemma WithRoundKeeps(g: Group, r: Round, first: int)
    requires Inv(g, first) && g.HasRound() && ClosedOnce(r) && SameAnswers(g.Current(), r)
    requires r.closed == g.Current().closed && r.expected == g.Current().expected && r.joined == g.Current().joined
    ensures Inv(g.WithRound(r), first)
  {
    var h := g.WithRound(r);
    assert h.Open() == g.Open();
    SameRounds(g, r, h, first);
  }

  lemma {:induction false} SameRounds(g: Group, r: Round, h: Group, first: int)
    requires RoundsInOrder(g, first) && g.HasRound() && ClosedOnce(r) && SameAnswers(g.Current(), r)
    requires r.closed == g.Current().closed && h == g.WithRound(r)
    ensures RoundsInOrder(h, first)
  {
    assert forall i :: 0 <= i < |g.rounds| - 1 ==> h.rounds[i] == g.rounds[i];
    if r.closed {
      StillAgreed(g.Current(), r);
    }
  }

  lemma {:induction false} StillAgreed(r: Round, s: Round)
    requires Agreed(r) && WellPicked(r) && SameAnswers(r, s)
    ensures Agreed(s) && WellPicked(s)
  {
  }

  lemma LeftKeeps(g: Group, id: Id, heir: Id, first: int)
    requires Inv(g, first) && id in g.members && (g.leader == id ==> Inherits(g, id, heir))
    ensures Inv(Left(g, id, heir), first)
  {
  }

  lemma StepKeeps(g: Group, step: Step, first: int)
    requires Inv(g, first) && Enabled(g, step)
    ensures Inv(Next(g, step), first)
  {
    match step
    case JoinStep(args, newId, now, leader, protocol) =>
      SweptKeeps(g, args, now, first);
      JoiningKeeps(g, args, newId, now, first);
      var j := Joining(g, args, newId, now);
      if !Handshake(args) && AllRejoined(j.Current()) {
        ClosedKeeps(j, leader, protocol, first);
      }
    case Expire(r, leader, protocol) =>
      if Fires(g, r) {
        ClosedKeeps(g, leader, protocol, first);
      }
    case Sync(generation, id, assignments, now) => SyncKeeps(g, generation, id, assignments, now, first);
    case Heartbeat(generation, id, now) =>
    case Leave(id, heir) =>
      if id in g.members {
        LeftKeeps(g, id, heir, first);
      }
  }

  ghost predicate CanRun(g: Group, steps: seq<Step>)
    decreases |steps|
  {
    steps != [] ==> Enabled(g, steps[0]) && CanRun(Next(g, steps[0]), steps[1..])
  }

  ghost function Run(g: Group, steps: seq<Step>): Group
    requires CanRun(g, steps)
    decreases |steps|
  {
    if steps == [] then g else Run(Next(g, steps[0]), steps[1..])
  }

  lemma {:induction false} RunKeeps(g: Group, steps: seq<Step>, first: int)
    requires Inv(g, first) && CanRun(g, steps)
    ensures Inv(Run(g, steps), first)
    decreases |steps|
  {
    if steps != [] {
      StepKeeps(g, steps[0], first);
      RunKeeps(Next(g, steps[0]), steps[1..], first);
    }
  }

  /** A group as the coordinator finds it at start-up: members of an earlier process perhaps,
      with assignments of the persisted generation, but no leader, no heartbeat and no round. */
  ghost predicate Initial(g: Group) {
    && g.leader == "" && "" !in g.members && g.beats == map[] && g.rounds == []
    && forall id :: id in g.members && g.members[id].assignment.Given? ==>
         g.members[id].assignment.generation == g.generation
  }

  /** In every reachable state the leader is empty or a member, every channel was
      closed at most once, and every closed round answered with one voice. */
  lemma {:induction false} EveryRunIsSafe(g: Group, steps: seq<Step>)
    requires Initial(g) && CanRun(g, steps)
    ensures Inv(Run(g, steps), g.generation)
  {
    RunKeeps(g, steps, g.generation);
  }

  lemma {:induction false} RunConcat(g: Group, a: seq<Step>, b: seq<Step>)
    requires CanRun(g, a) && CanRun(Run(g, a), b)
    ensures CanRun(g, a + b) && Run(g, a + b) == Run(Run(g, a), b)
    decreases |a|
  {
    if a == [] {
      assert a + b == b;
    } else {
      assert (a + b)[1..] == a[1..] + b;
      RunConcat(Next(g, a[0]), a[1..], b);
    }
  }

  // ---- the answers of a generation ----------------------------------------------------------

  /** Nothing a closed round decided has changed from g to h. */
  ghost predicate AnswersKept(g: Group, h: Group) {
    |g.rounds| <= |h.rounds| &&
    forall i :: 0 <= i < |g.rounds| && g.rounds[i].closed ==>
      h.rounds[i].closed && SameAnswers(g.rounds[i], h.rounds[i])
  }

  lemma JoiningKeepsAnswers(g: Group, args: JoinArgs, newId: Id, now: int)
    ensures AnswersKept(g, Swept(g, args, now)) && AnswersKept(g, Joining(g, args, newId, now))
  {
    assert Swept(g, args, now).rounds == g.rounds;
  }

  lemma ClosedKeepsAnswers(g: Group, leader: Id, protocol: string)
    requires g.Open()
    ensures AnswersKept(g, Closed(g, leader, protocol))
  {
  }

  /** The answers of a closed round never change. */
  lemma StepKeepsAnswers(g: Group, step: Step)
    requires Enabled(g, step)
    ensures AnswersKept(g, Next(g, step))
  {
    match step
    case JoinStep(args, newId, now, leader, protocol) =>
      JoiningKeepsAnswers(g, args, newId, now);
      ClosedKeepsAnswers(Joining(g, args, newId, now), leader, protocol);
    case Expire(r, leader, protocol) =>
      if Fires(g, r) {
        ClosedKeepsAnswers(g, leader, protocol);
      }
    case Sync(_, _, _, _) =>
    case Heartbeat(_, _, _) =>
    case Leave(_, _) =>
  }

  lemma {:induction false} RunKeepsAnswers(g: Group, steps: seq<Step>, i: nat)
    requires CanRun(g, steps) && i < |g.rounds| && g.rounds[i].closed
    ensures i < |Run(g, steps).rounds|
    ensures var r := Run(g, steps).rounds[i];
            r.closed && SameAnswers(g.rounds[i], r)
    decreases |steps|
  {
    if steps != [] {
      StepKeepsAnswers(g, steps[0]);
      RunKeepsAnswers(Next(g, steps[0]), steps[1..], i);
    }
  }

  /** A JoinGroup request that waited on round i is given this answer. */
  ghost predicate Answered(g: Group, i: nat, id: Id, a: JoinResult) {
    i < |g.rounds| && g.rounds[i].closed && id in g.rounds[i].results && g.rounds[i].results[id] == a
  }

  /** Any two answers of one generation, read at any two moments of a run, come from
      one round and agree on leader and protocol. */
  lemma {:induction false} AnswersAgree(g: Group, steps: seq<Step>, more: seq<Step>, i: nat, a: Id, x: JoinResult,
                                        j: nat, b: Id, y: JoinResult)
    requires Initial(g) && CanRun(g, steps) && CanRun(Run(g, steps), more)
    requires Answered(Run(g, steps), i, a, x) && Answered(Run(Run(g, steps), more), j, b, y)
    requires x.generation == y.generation
    ensures i == j && x.leader == y.leader && x.protocol == y.protocol
    ensures x.isLeader && y.isLeader ==> x == y
  {
    var mid := Run(g, steps);
    EveryRunIsSafe(g, steps);
    RunKeeps(mid, more, g.generation);
    RunKeepsAnswers(mid, more, i);
    AgreeNow(Run(mid, more), g.generation, i, a, x, j, b, y);
  }

  lemma {:induction false} AgreeNow(g: Group, first: int, i: nat, a: Id, x: JoinResult, j: nat, b: Id, y: JoinResult)
    requires Inv(g, first) && Answered(g, i, a, x) && Answered(g, j, b, y) && x.generation == y.generation
    ensures i == j && x.leader == y.leader && x.protocol == y.protocol
    ensures x.isLeader && y.isLeader ==> x == y
  {
    AnsweredIs(g, first, i, a, x);
    AnsweredIs(g, first, j, b, y);
  }

  lemma {:induction false} AnsweredIs(g: Group, first: int, i: nat, a: Id, x: JoinResult)
    requires Inv(g, first) && Answered(g, i, a, x)
    ensures x.generation == first + i + 1 && x.member == a && Agreed(g.rounds[i]) && WellPicked(g.rounds[i])
  {
    assert g.rounds[i].closed;
  }

  /** In every run, a closed round with any answer at all has exactly one that goes to the
      leader, and it lists exactly the members answered, with their subscriptions. */
  lemma {:induction false} OneLeaderHearsOfAll(g: Group, steps: seq<Step>, i: nat, a: Id, x: JoinResult)
    requires Initial(g) && CanRun(g, steps) && Answered(Run(g, steps), i, a, x)
    ensures var r := Run(g, steps).rounds[i];
            && r.results.Keys == r.settled.Keys
            && x.leader in r.results && r.results[x.leader].isLeader
            && r.results[x.leader].members == Subscriptions(r.settled)
            && forall b :: b in r.results && r.results[b].isLeader ==> b == x.leader
  {
    EveryRunIsSafe(g, steps);
    assert Agreed(Run(g, steps).rounds[i]) && WellPicked(Run(g, steps).rounds[i]);
  }

  /** Everyone answered in the round had advertised the protocol. */
  ghost predicate Advertised(r: Round, name: string) {
    forall id :: id in r.results ==> id in r.settled && name in r.settled[id].protocols
  }

  /** In every run, the protocol of a generation is one that every member answered in it had
      advertised, whenever there is one; otherwise the first that the last joiner named. */
  lemma {:induction false} ProtocolIsCommon(g: Group, steps: seq<Step>, i: nat, a: Id, x: JoinResult)
    requires Initial(g) && CanRun(g, steps) && Answered(Run(g, steps), i, a, x)
    ensures var r := Run(g, steps).rounds[i];
            if exists name :: Advertised(r, name) then Advertised(r, x.protocol)
            else x.protocol == if r.latest == [] then "" else r.latest[0]
  {
    EveryRunIsSafe(g, steps);
    var r := Run(g, steps).rounds[i];
    assert WellPicked(r);
    forall name
      ensures Common(r.settled, name) <==> Advertised(r, name)
    {
    }
  }

  /** A join that brings the last expected member back closes the round at once, and that drops
      nobody: everyone left after the sweep, and the joiner, is answered. */
  lemma {:induction false} EarlyCloseDropsNobody(g: Group, steps: seq<Step>, step: Step)
    requires Initial(g) && CanRun(g, steps) && step.JoinStep? && Enabled(Run(g, steps), step) && !Handshake(step.args)
    requires AllRejoined(Joining(Run(g, steps), step.args, step.newId, step.now).Current())
    ensures var j, h := Joining(Run(g, steps), step.args, step.newId, step.now), Next(Run(g, steps), step);
            && h.HasRound() && h.Current().closed && h.members == j.members
            && h.Current().results.Keys == j.members.Keys
  {
    EveryRunIsSafe(g, steps);
    JoiningKeeps(Run(g, steps), step.args, step.newId, step.now, g.generation);
  }

  /** In every run from start-up, an open round is closed by its own timer and no other, or by the
      join that brings the last member it expected back. */
  lemma {:induction false} ClosesExactlyWhen(g: Group, steps: seq<Step>, step: Step, i: nat)
    requires Initial(g) && CanRun(g, steps) && Enabled(Run(g, steps), step)
    requires i < |Run(g, steps).rounds| && !Run(g, steps).rounds[i].closed
    ensures var h := Run(g, steps);
            && i < |Next(h, step).rounds|
            && (Next(h, step).rounds[i].closed <==>
                  || (step.Expire? && step.round == i)
                  || (step.JoinStep? && !Handshake(step.args) && h.rounds[i].expected != {}
                      && h.rounds[i].expected <= h.rounds[i].joined + {JoinId(step.args, step.newId)}))
  {
    var h := Run(g, steps);
    EveryRunIsSafe(g, steps);
    assert i == |h.rounds| - 1 && h.Open();
    OpenCloses(h, step);
  }

  lemma OpenCloses(g: Group, step: Step)
    requires g.Open() && Enabled(g, step)
    ensures var i, n := |g.rounds| - 1, Next(g, step);
            && i < |n.rounds|
            && (n.rounds[i].closed <==>
                  || (step.Expire? && step.round == i)
                  || (step.JoinStep? && !Handshake(step.args) && g.rounds[i].expected != {}
                      && g.rounds[i].expected <= g.rounds[i].joined + {JoinId(step.args, step.newId)}))
  {
    if step.JoinStep? {
      JoinedRound(g, step.args, step.newId, step.now);
    }
  }

  lemma JoinedRound(g: Group, args: JoinArgs, newId: Id, now: int)
    requires g.Open()
    ensures Swept(g, args, now).rounds == g.rounds
    ensures var j := Joining(g, args, newId, now);
            && |j.rounds| == |g.rounds| && j.Current().expected == g.Current().expected
            && j.Current().joined == g.Current().joined + {JoinId(args, newId)}
  {
  }

  /** No heartbeat in this process, or none for three seconds, or for a shorter session timeout. */
  predicate Silent(g: Group, id: Id, now: int)
    requires id in g.members
  {
    || id !in g.beats
    || now - g.beats[id] > 3000
    || 0 < g.members[id].sessionMs < now - g.beats[id]
  }

  /** A join looks at every member first: it evicts those that are silent too long, and a
      process without an id takes the place of earlier ones with its client id. */
  predicate SweptAway(g: Group, step: Step, id: Id)
    requires step.JoinStep? && id in g.members
  {
    || Silent(g, id, step.now)
    || (step.args.memberId == "" && step.args.client != "" && g.members[id].client == step.args.client)
  }

  /** In every reachable state, a step costs a member its place if and only if it leaves, a join
      sweeps it away without registering it anew, or the deadline passes and it has not joined. */
  lemma {:induction false} DroppedExactlyWhen(g: Group, steps: seq<Step>, step: Step, id: Id)
    requires Initial(g) && CanRun(g, steps) && Enabled(Run(g, steps), step) && id in Run(g, steps).members
    ensures var h := Run(g, steps);
            id !in Next(h, step).members <==>
              || (step.Leave? && step.id == id)
              || (step.JoinStep? && SweptAway(h, step, id)
                  && (Handshake(step.args) || JoinId(step.args, step.newId) != id))
              || (step.Expire? && step.round < |h.rounds| && !h.rounds[step.round].closed
                  && id !in h.rounds[step.round].joined)
  {
    var h := Run(g, steps);
    EveryRunIsSafe(g, steps);
    if step.JoinStep? {
      SweptWithout(h, step, id);
      if !Handshake(step.args) && AllRejoined(Joining(h, step.args, step.newId, step.now).Current()) {
        EarlyCloseDropsNobody(g, steps, step);
      }
    }
  }

  lemma SweptWithout(g: Group, step: Step, id: Id)
    requires step.JoinStep? && id in g.members
    ensures id in Swept(g, step.args, step.now).members <==> !SweptAway(g, step, id)
  {
    var e := Evict(g, step.now);
    assert id in e.members <==> !Silent(g, id, step.now);
    assert id in e.members ==> e.members[id] == g.members[id];
  }

  // ---- what is kept of a member ------------------------------------------------------------------

  /** A join that is not only answered with a new id. */
  predicate Registers(step: Step) {
    step.JoinStep? && !(step.args.memberId == "" && step.args.apiVersion >= 4)
  }

  /** What a member said last, once this step is taken. */
  function Said(step: Step, id: Id, before: Option<JoinArgs>): Option<JoinArgs> {
    if Registers(step) && id == (if step.args.memberId == "" then step.newId else step.args.memberId)
    then Some(step.args) else before
  }

  /** The last join of a member under this id, or what was known of it before. */
  function LastJoin(steps: seq<Step>, id: Id, before: Option<JoinArgs>): Option<JoinArgs>
    decreases |steps|
  {
    if steps == [] then before else LastJoin(steps[1..], id, Said(steps[0], id, before))
  }

  /** What the group keeps of a member is what it said then. */
  ghost predicate Remembers(g: Group, id: Id, said: Option<JoinArgs>) {
    id in g.members ==>
      && said.Some?
      && var m, args := g.members[id], said.value;
         m.client == args.client && m.sessionMs == args.sessionMs && m.subscription == args.subscription
         && m.protocols == args.protocols
  }

  function FromFile(g: Group, id: Id): Option<JoinArgs> {
    if id !in g.members then None
    else
      var m := g.members[id];
      Some(JoinArgs(id, m.client, m.sessionMs, m.subscription, m.protocols, 0))
  }

  lemma StepRemembers(g: Group, step: Step, id: Id, said: Option<JoinArgs>)
    requires Enabled(g, step) && Remembers(g, id, said)
    ensures Remembers(Next(g, step), id, Said(step, id, said))
  {
    if step.JoinStep? {
      SweptSame(g, step.args, step.now, id);
    }
  }

  lemma SweptSame(g: Group, args: JoinArgs, now: int, id: Id)
    ensures var s := Swept(g, args, now); id in s.members ==> id in g.members && s.members[id] == g.members[id]
  {
  }

  lemma {:induction false} RunRemembers(g: Group, steps: seq<Step>, id: Id, said: Option<JoinArgs>)
    requires CanRun(g, steps) && Remembers(g, id, said)
    ensures Remembers(Run(g, steps), id, LastJoin(steps, id, said))
    decreases |steps|
  {
    if steps != [] {
      StepRemembers(g, steps[0], id, said);
      RunRemembers(Next(g, steps[0]), steps[1..], id, Said(steps[0], id, said));
    }
  }

  /** In every run, client id, session timeout, subscription and protocols of a member are those
      of its last join, or of the file the group was read from. */
  lemma {:induction false} RecordIsLastJoin(g: Group, steps: seq<Step>, id: Id)
    requires CanRun(g, steps)
    ensures Remembers(Run(g, steps), id, LastJoin(steps, id, FromFile(g, id)))
  {
    RunRemembers(g, steps, id, FromFile(g, id));
  }

  /** When a member was last heard of, once this step is taken: a join, or a sync or heartbeat of the
      current generation; of who is no member nothing is known. */
  ghost function HeardAfter(g: Group, step: Step, id: Id, before: Option<int>): Option<int>
    requires Enabled(g, step)
  {
    if id !in Next(g, step).members then None
    else if Registers(step) && id == (if step.args.memberId == "" then step.newId else step.args.memberId)
    then Some(step.now)
    else if (step.Sync? || step.Heartbeat?) && step.id == id && step.generation == g.generation && id in g.members
    then Some(step.now)
    else before
  }

  ghost function LastHeard(g: Group, steps: seq<Step>, id: Id, before: Option<int>): Option<int>
    requires CanRun(g, steps)
    decreases |steps|
  {
    if steps == [] then before
    else LastHeard(Next(g, steps[0]), steps[1..], id, HeardAfter(g, steps[0], id, before))
  }

  function Heard(g: Group, id: Id): Option<int> {
    if id in g.beats then Some(g.beats[id]) else None
  }

  lemma StepHears(g: Group, step: Step, id: Id)
    requires Enabled(g, step) && (id in g.beats ==> id in g.members)
    ensures Heard(Next(g, step), id) == HeardAfter(g, step, id, Heard(g, id))
  {
    if step.JoinStep? {
      JoinHears(g, step, id);
    }
  }

  lemma JoinHears(g: Group, step: Step, id: Id)
    requires Enabled(g, step) && step.JoinStep? && (id in g.beats ==> id in g.members)
    ensures Heard(Next(g, step), id) == HeardAfter(g, step, id, Heard(g, id))
  {
    SweptHears(g, step.args, step.now, id);
    if !Handshake(step.args) {
      var j := Joining(g, step.args, step.newId, step.now);
      RegisteredHears(Opened(Swept(g, step.args, step.now)), JoinId(step.args, step.newId), step.args, step.now, id);
      if AllRejoined(j.Current()) {
        ClosedHears(j, step.leader, step.protocol, id);
      }
    }
  }

  lemma RegisteredHears(g: Group, joiner: Id, args: JoinArgs, now: int, id: Id)
    requires g.Open() && (id in g.beats ==> id in g.members)
    ensures var r := Registered(g, joiner, args, now);
            && Heard(r, id) == (if id == joiner then Some(now) else Heard(g, id))
            && (id in r.members <==> id == joiner || id in g.members)
  {
  }

  lemma ClosedHears(g: Group, leader: Id, protocol: string, id: Id)
    requires g.Open() && (id in g.beats ==> id in g.members)
    ensures Heard(Closed(g, leader, protocol), id)
            == if id in Closed(g, leader, protocol).members then Heard(g, id) else None
  {
  }

  lemma SweptHears(g: Group, args: JoinArgs, now: int, id: Id)
    requires id in g.beats ==> id in g.members
    ensures Heard(Swept(g, args, now), id) == if id in Swept(g, args, now).members then Heard(g, id) else None
  {
  }

  /** In every run, the heartbeats kept are those: when a member joined last, or synced or beat in
      the generation of the time, and none of anyone else. */
  lemma {:induction false} BeatIsLastHeard(g: Group, steps: seq<Step>, id: Id)
    requires CanRun(g, steps) && (id in g.beats ==> id in g.members)
    ensures Heard(Run(g, steps), id) == LastHeard(g, steps, id, Heard(g, id))
    decreases |steps|
  {
    if steps != [] {
      StepHears(g, steps[0], id);
      BeatIsLastHeard(Next(g, steps[0]), steps[1..], id);
    }
  }

  /** The protocols of the last join by anyone. */
  function LastNamed(steps: seq<Step>, before: seq<string>): seq<string>
    decreases |steps|
  {
    if steps == [] then before
    else LastNamed(steps[1..], if Registers(steps[0]) then steps[0].args.protocols else before)
  }

  /** Those are the ones a round without a common protocol falls back on. */
  lemma {:induction false} LatestIsLastNamed(g: Group, steps: seq<Step>)
    requires CanRun(g, steps)
    ensures Run(g, steps).latest == LastNamed(steps, g.latest)
    decreases |steps|
  {
    if steps != [] {
      LatestIsLastNamed(Next(g, steps[0]), steps[1..]);
    }
  }

  lemma JoinMoves(g: Group, step: Step)
    requires Enabled(g, step) && step.JoinStep?
    ensures var h := Next(g, step);
            && (h.Open() && |h.rounds| == |g.rounds| ==> h.status == g.status)
            && (h.Open() && |h.rounds| > |g.rounds| ==> h.status == PreparingRebalance)
            && (!h.Open() && (g.Open() || |h.rounds| > |g.rounds|) ==> h.status == CompletingRebalance)
            && (!h.Open() && !g.Open() && |h.rounds| == |g.rounds| ==> h.status == g.status)
            && |h.rounds| >= |g.rounds|
  {
    var s := Swept(g, step.args, step.now);
    assert s.rounds == g.rounds && s.status == g.status;
  }

  /** The states of a group: preparing when a round opens or a member leaves, completing when a
      round closes, stable when the leader has synced, empty when the last one leaves. */
  lemma StatusMoves(g: Group, step: Step)
    requires Enabled(g, step)
    ensures var h := Next(g, step);
            h.status ==
            if h.HasRound() && h.Current().closed && (g.Open() || |h.rounds| > |g.rounds|) then CompletingRebalance
            else if |h.rounds| > |g.rounds| then PreparingRebalance
            else if step.Leave? && step.id in g.members then
              if g.members.Keys == {step.id} then Empty else PreparingRebalance
            else if step.Sync? && step.generation == g.generation && step.id in g.members && step.id == g.leader
            then Stable
            else g.status
  {
    if step.JoinStep? {
      JoinMoves(g, step);
    } else if step.Leave? && step.id in g.members {
      assert g.members.Keys - {step.id} == {} <==> g.members.Keys == {step.id};
    }
  }

  // ---- freshness of assignments ----------------------------------------------------------------

  /** Assignments date from the current generation, and those who have joined an open round
      have none; without `strict`, but for the leader's own. */
  ghost predicate Fresh(g: Group, strict: bool) {
    && "" !in g.members
    && (forall id :: id in g.members && (strict || id != g.leader) && g.members[id].assignment.Given? ==>
          g.members[id].assignment.generation == g.generation)
    && (g.Open() ==> forall id :: id in g.members && (strict || id != g.leader) && id in g.Current().joined ==>
          g.members[id].assignment.Unassigned?)
  }

  /** A SyncGroup by the leader that arrives with the next round already open. */
  predicate Late(g: Group, step: Step) {
    step.Sync? && g.Open() && MaySync(g, step.generation, step.id) && step.id == g.leader
  }

  /** The step that breaks freshness: a late sync that hands an assignment to a member that
      has already joined the new round; without `strict`, to another than the leader. */
  predicate Premature(g: Group, step: Step, strict: bool) {
    Late(g, step) &&
    exists id :: id in step.assignments && id in g.members && id in g.Current().joined && (strict || id != g.leader)
  }

  lemma JoiningFresh(g: Group, args: JoinArgs, newId: Id, now: int, strict: bool)
    requires Fresh(g, strict) && newId != ""
    ensures Fresh(Swept(g, args, now), strict) && Fresh(Joining(g, args, newId, now), strict)
  {
    var s := Swept(g, args, now);
    SweptFresh(g, args, now, strict);
    assert Fresh(Opened(s), strict);
    RegisteredFresh(Opened(s), JoinId(args, newId), args, now, strict);
  }

  lemma SweptFresh(g: Group, args: JoinArgs, now: int, strict: bool)
    requires Fresh(g, strict)
    ensures Fresh(Swept(g, args, now), strict)
  {
    var s := Swept(g, args, now);
    assert s.rounds == g.rounds && s.generation == g.generation;
    assert forall id :: id in s.members ==> id in g.members && s.members[id] == g.members[id];
    assert s.leader == g.leader || g.leader !in s.members;
  }

  lemma RegisteredFresh(g: Group, id: Id, args: JoinArgs, now: int, strict: bool)
    requires Fresh(g, strict) && g.Open() && id != ""
    ensures Fresh(Registered(g, id, args, now), strict)
  {
  }

  lemma ClosedFresh(g: Group, leader: Id, protocol: string, strict: bool)
    requires Fresh(g, strict) && g.Open() && CanClose(g, leader, protocol)
    ensures Fresh(Closed(g, leader, protocol), strict)
  {
  }

  lemma SyncFresh(g: Group, step: Step, strict: bool)
    requires Fresh(g, strict) && step.Sync? && !Premature(g, step, strict)
    ensures Fresh(SyncState(g, step.generation, step.id, step.assignments, step.now), strict)
  {
  }

  lemma StepFresh(g: Group, step: Step, strict: bool)
    requires Fresh(g, strict) && Enabled(g, step) && !Premature(g, step, strict)
    ensures Fresh(Next(g, step), strict)
  {
    match step
    case JoinStep(args, newId, now, leader, protocol) =>
      JoiningFresh(g, args, newId, now, strict);
      var j := Joining(g, args, newId, now);
      if !Handshake(args) && AllRejoined(j.Current()) {
        ClosedFresh(j, leader, protocol, strict);
      }
    case Expire(r, leader, protocol) =>
      if Fires(g, r) {
        ClosedFresh(g, leader, protocol, strict);
      }
    case Sync(_, _, _, _) => SyncFresh(g, step, strict);
    case Heartbeat(_, _, _) =>
    case Leave(_, _) =>
  }

  ghost predicate NeverPremature(g: Group, steps: seq<Step>, strict: bool)
    requires CanRun(g, steps)
    decreases |steps|
  {
    steps != [] ==> !Premature(g, steps[0], strict) && NeverPremature(Next(g, steps[0]), steps[1..], strict)
  }

  lemma {:induction false} RunFresh(g: Group, steps: seq<Step>, strict: bool)
    requires Fresh(g, strict) && CanRun(g, steps) && NeverPremature(g, steps, strict)
    ensures Fresh(Run(g, steps), strict)
    decreases |steps|
  {
    if steps != [] {
      StepFresh(g, steps[0], strict);
      RunFresh(Next(g, steps[0]), steps[1..], strict);
    }
  }

  /** A reply that carries an assignment of another generation than the one asked for. */
  predicate Stale(r: SyncReply, generation: int) {
    r.Assigned? && r.assignment.Given? && r.assignment.generation != generation
  }

  /** Some member would be answered with a stale assignment, at once or on waking; without
      `strict`, one that does not lead. */
  ghost predicate Misleads(g: Group, generation: int, id: Id, assignments: map<Id, string>, now: int, strict: bool) {
    && (strict || id != g.leader)
    && (|| Stale(SyncAnswer(g, generation, id, assignments, now), generation)
        || Stale(WakeAnswer(g, generation, id), generation))
  }

  lemma FreshAnswers(g: Group, generation: int, id: Id, assignments: map<Id, string>, now: int, strict: bool)
    requires Fresh(g, strict)
    ensures !Misleads(g, generation, id, assignments, now, strict)
  {
  }

  /** From start-up on, as long as no premature sync is processed, no SyncGroup reply is
      stale: not the leader's, not a follower's, not one to a follower that blocked and woke
      later. */
  lemma {:induction false} NoStaleReply(g: Group, steps: seq<Step>, generation: int, id: Id,
                                        assignments: map<Id, string>, now: int, strict: bool)
    requires Initial(g) && CanRun(g, steps) && NeverPremature(g, steps, strict)
    ensures !Misleads(Run(g, steps), generation, id, assignments, now, strict)
  {
    RunFresh(g, steps, strict);
    FreshAnswers(Run(g, steps), generation, id, assignments, now, strict);
  }

  /** What a restart reads back from the group's file, written at a close, a sync or a leave. */
  function Restarted(g: Group): Group {
    Group(g.members, map[], "", g.generation, g.protocol, [], Empty, [])
  }

  /** A later process starts as this one did. */
  lemma {:induction false} RestartIsInitial(g: Group, steps: seq<Step>)
    requires Initial(g) && CanRun(g, steps) && NeverPremature(g, steps, true)
    ensures Initial(Restarted(Run(g, steps)))
  {
    RunFresh(g, steps, true);
    EveryRunIsSafe(g, steps);
  }

  // ---- what a late sync leads to -------------------------------------------------------------------

  lemma {:induction false} RunOne(g: Group, step: Step, h: Group)
    requires Enabled(g, step) && h == Next(g, step)
    ensures CanRun(g, [step]) && Run(g, [step]) == h
  {
    assert [step][1..] == [];
  }

  lemma {:induction false} RunMore(g: Group, step: Step, h: Group, rest: seq<Step>)
    requires Enabled(g, step) && h == Next(g, step) && CanRun(h, rest)
    ensures CanRun(g, [step] + rest) && Run(g, [step] + rest) == Run(h, rest)
  {
    assert ([step] + rest)[1..] == rest;
  }

  ghost predicate NoSync(steps: seq<Step>) {
    forall i :: 0 <= i < |steps| ==> !steps[i].Sync?
  }

  lemma {:induction false} NoSyncIsHarmless(g: Group, steps: seq<Step>, strict: bool)
    requires CanRun(g, steps) && NoSync(steps)
    ensures NeverPremature(g, steps, strict)
    decreases |steps|
  {
    if steps != [] {
      NoSyncIsHarmless(Next(g, steps[0]), steps[1..], strict);
    }
  }

  lemma PickExists(members: map<Id, Member>, latest: seq<string>) returns (name: string)
    ensures Picks(members, latest, name)
  {
    if n :| Common(members, n) {
      name := n;
    } else {
      name := Fallback(latest);
    }
  }

  /** An open round of a group with this leader, who is not about to be evicted. */
  ghost predicate Rebalancing(g: Group, leader: Id, now: int) {
    && g.Open() && g.leader == leader != "" && Present(g, leader, now)
    && leader in g.Current().expected + g.Current().joined
  }

  ghost predicate Present(g: Group, id: Id, now: int) {
    id in g.members && id in g.beats && g.beats[id] == now
  }

  /** h is g after its open round closed under the same leader, with this member still in it. */
  ghost predicate ClosedWith(g: Group, h: Group, id: Id) {
    && h.HasRound() && h.Current().closed && h.leader == g.leader != id && h.generation == g.generation + 1
    && id in g.members && id in h.members && h.members[id] == g.members[id]
    && g.HasRound() && h.Current().synced == g.Current().synced && h.Current().served == g.Current().served
  }

  /** The round closes with the leader and another member joined. */
  lemma CloseWith(g: Group, protocol: string, id: Id)
    requires g.Open() && g.leader != "" && g.leader in g.members && g.leader in g.Current().joined
    requires id in g.members && id in g.Current().joined && id != g.leader
    requires Picks(Keep(g.members, g.Current().joined), g.latest, protocol)
    ensures CanClose(g, g.leader, protocol) && ClosedWith(g, Closed(g, g.leader, protocol), id)
  {
  }

  /** A member joins the open round under its id. */
  function Rejoin(id: Id, now: int, leader: Id, protocol: string): Step {
    JoinStep(JoinArgs(id, "", 0, "", [], 0), "new", now, leader, protocol)
  }

  /** Nobody present is lost to it. */
  lemma RejoinOpen(g: Group, id: Id, now: int, leader: Id, other: Id)
    requires Rebalancing(g, leader, now) && id != ""
    ensures var j := Joining(g, JoinArgs(id, "", 0, "", [], 0), "new", now);
            && Rebalancing(j, leader, now) && Present(j, id, now) && id in j.Current().joined
            && j.generation == g.generation && |j.rounds| == |g.rounds|
            && j.Current().synced == g.Current().synced && j.Current().served == g.Current().served
            && g.Current().joined <= j.Current().joined
            && (id != leader ==> j.members[id].assignment == Unassigned)
            && (Present(g, other, now) && other != id ==>
                  Present(j, other, now) && j.members[other] == g.members[other])
  {
    assert EvictAfter(g.members[leader]) > 0;
    if other in g.members {
      assert EvictAfter(g.members[other]) > 0;
    }
  }

  /** With one member joined, the leader joins too and the round closes, then or at its
      deadline. */
  lemma LeaderRejoins(g: Group, id: Id, now: int) returns (steps: seq<Step>, h: Group)
    requires Rebalancing(g, g.leader, now) && Present(g, id, now) && id in g.Current().joined && id != g.leader
    ensures CanRun(g, steps) && NoSync(steps) && h == Run(g, steps) && ClosedWith(g, h, id)
  {
    var l := g.leader;
    var j := Joining(g, JoinArgs(l, "", 0, "", [], 0), "new", now);
    RejoinOpen(g, l, now, l, id);
    var protocol := PickExists(Keep(j.members, j.Current().joined), j.latest);
    CloseWith(j, protocol, id);
    var first := Rejoin(l, now, l, protocol);
    h := Closed(j, l, protocol);
    if AllRejoined(j.Current()) {
      steps := [first];
      RunOne(g, first, h);
    } else {
      var second := Expire(|j.rounds| - 1, l, protocol);
      steps := [first, second];
      RunOne(j, second, h);
      RunMore(g, first, j, [second]);
    }
  }

  // ---- exactly when replies are fresh ----------------------------------------------------------------

  /** Whatever follows, as long as no further premature sync is processed, misleads nobody. */
  ghost predicate AlwaysFresh(g: Group, strict: bool) {
    forall more, generation, id, assignments, now ::
      CanRun(g, more) && NeverPremature(g, more, strict) ==>
        !Misleads(Run(g, more), generation, id, assignments, now, strict)
  }

  lemma {:induction false} FreshForever(g: Group, strict: bool)
    requires Fresh(g, strict)
    ensures AlwaysFresh(g, strict)
  {
    forall more, generation, id, assignments, now | CanRun(g, more) && NeverPremature(g, more, strict)
      ensures !Misleads(Run(g, more), generation, id, assignments, now, strict)
    {
      RunFresh(g, more, strict);
      FreshAnswers(Run(g, more), generation, id, assignments, now, strict);
    }
  }

  /** After a premature sync that names another member, that member is answered with the old
      assignment in the new generation, though it does not lead it. */
  lemma PrematureGoesStale(g: Group, step: Step, first: int, id: Id) returns (more: seq<Step>, h: Group)
    requires Inv(g, first) && Late(g, step) && id in step.assignments && id != g.leader
    requires id in g.members && id in g.Current().joined
    ensures CanRun(Next(g, step), more) && NoSync(more) && h == Run(Next(g, step), more)
    ensures id != h.leader && id in h.members
    ensures Stale(SyncAnswer(h, h.generation, id, map[], 0), h.generation)
  {
    var s := Next(g, step);
    var beat := Step.Heartbeat(g.generation, id, step.now);
    assert s.Open() && s.Current().synced && s.members[id].assignment == Given(step.assignments[id], g.generation);
    var b := Next(s, beat);
    assert Rebalancing(b, g.leader, step.now) && Present(b, id, step.now);
    var rest;
    rest, h := LeaderRejoins(b, id, step.now);
    more := [beat] + rest;
    RunMore(s, beat, b, rest);
  }

  /** A leader that names itself so is answered with that by a later sync that leaves it out. */
  lemma SelfGoesStale(g: Group, step: Step, first: int) returns (more: seq<Step>, h: Group)
    requires Inv(g, first) && Late(g, step) && g.leader in step.assignments && g.leader in g.Current().joined
    ensures CanRun(Next(g, step), more) && NoSync(more) && h == Run(Next(g, step), more)
    ensures Stale(SyncAnswer(h, h.generation, g.leader, map[], 0), h.generation)
  {
    var s, l := Next(g, step), g.leader;
    assert s.Open() && s.members[l].assignment == Given(step.assignments[l], g.generation);
    var protocol := PickExists(Keep(s.members, s.Current().joined), s.latest);
    var last := Expire(|s.rounds| - 1, l, protocol);
    h := Closed(s, l, protocol);
    more := [last];
    RunOne(s, last, h);
  }

  lemma {:induction false} PrematureMisleads(g: Group, step: Step, first: int, strict: bool)
    requires Inv(g, first) && Premature(g, step, strict)
    ensures !AlwaysFresh(Next(g, step), strict)
  {
    var id :| id in step.assignments && id in g.members && id in g.Current().joined && (strict || id != g.leader);
    var more, h;
    if id != g.leader {
      more, h := PrematureGoesStale(g, step, first, id);
    } else {
      more, h := SelfGoesStale(g, step, first);
    }
    NoSyncIsHarmless(Next(g, step), more, strict);
    assert Misleads(h, h.generation, id, map[], 0, strict);
  }

  /** After a run without premature syncs, one more step leaves all later replies fresh if and
      only if it is not a premature sync. With `strict` that is about every reply, without it
      about those to members that do not lead. */
  lemma {:induction false} FreshExactlyWhen(g: Group, steps: seq<Step>, step: Step, strict: bool)
    requires Initial(g) && CanRun(g, steps) && NeverPremature(g, steps, strict) && Enabled(Run(g, steps), step)
    ensures AlwaysFresh(Next(Run(g, steps), step), strict) <==> !Premature(Run(g, steps), step, strict)
  {
    var h := Run(g, steps);
    EveryRunIsSafe(g, steps);
    RunFresh(g, steps, strict);
    if Premature(h, step, strict) {
      PrematureMisleads(h, step, g.generation, strict);
    } else {
      StepFresh(h, step, strict);
      FreshForever(Next(h, step), strict);
    }
  }

  // ---- a stale reply from scratch ------------------------------------------------------------------

  /** What one join does to a group, with the members heard from just now still there. */
  lemma Enters(g: Group, id: Id, now: int, other: Id)
    requires id != ""
    ensures var j := Joining(g, JoinArgs(id, "", 0, "", [], 0), "new", now);
            && Present(j, id, now) && j.generation == g.generation
            && (Present(g, other, now) ==> Present(j, other, now))
            && (g.leader == "" || Present(g, g.leader, now) ==> j.leader == g.leader)
            && j.Current().joined == (if g.Open() then g.Current().joined else {}) + {id}
            && (g.Open() ==> j.Current().expected == g.Current().expected)
            && (!g.Open() && Present(g, other, now) ==> other in j.Current().expected)
            && (!g.Open() ==> j.Current().expected <= g.members.Keys) && j.members.Keys <= g.members.Keys + {id}
  {
    var e := Evict(g, now);
    if Present(g, other, now) {
      StaysOn(g, now, other);
    }
    if Present(g, g.leader, now) {
      StaysOn(g, now, g.leader);
    }
    assert e.rounds == g.rounds && Swept(g, JoinArgs(id, "", 0, "", [], 0), now) == e;
  }

  lemma StaysOn(g: Group, now: int, id: Id)
    requires Present(g, id, now)
    ensures Present(Evict(g, now), id, now) && (g.leader == id ==> Evict(g, now).leader == id)
  {
    assert EvictAfter(g.members[id]) > 0;
  }

  /** A and B join a new group. */
  lemma TwoJoin(g: Group) returns (steps: seq<Step>, h: Group)
    requires Initial(g) && g.members == map[]
    ensures CanRun(g, steps) && NoSync(steps) && h == Run(g, steps)
    ensures h.Open() && h.leader == "" && Present(h, "A", 0) && Present(h, "B", 0) && h.members.Keys == {"A", "B"}
    ensures "A" in h.Current().joined && "B" in h.Current().joined
  {
    var a, b := Rejoin("A", 0, "", ""), Rejoin("B", 0, "", "");
    var j := FirstJoins(g, a);
    h := SecondJoins(j, b);
    steps := RunTwo(g, a, j, b, h);
  }

  lemma {:induction false} RunTwo(g: Group, a: Step, j: Group, b: Step, h: Group) returns (steps: seq<Step>)
    requires Enabled(g, a) && j == Next(g, a) && Enabled(j, b) && h == Next(j, b) && !a.Sync? && !b.Sync?
    ensures steps == [a, b] && CanRun(g, steps) && NoSync(steps) && Run(g, steps) == h
  {
    RunOne(j, b, h);
    RunMore(g, a, j, [b]);
    steps := [a] + [b];
  }

  lemma FirstJoins(g: Group, step: Step) returns (h: Group)
    requires Initial(g) && g.members == map[] && step == Rejoin("A", 0, "", "")
    ensures Enabled(g, step) && h == Next(g, step) && h.Open() && h.leader == ""
    ensures Present(h, "A", 0) && "A" in h.Current().joined && h.Current().expected == {} && h.members.Keys == {"A"}
  {
    Enters(g, "A", 0, "A");
    h := Next(g, step);
  }

  lemma SecondJoins(g: Group, step: Step) returns (h: Group)
    requires g.Open() && g.Current().expected == {} && g.leader == "" && Present(g, "A", 0)
    requires "A" in g.Current().joined && step == Rejoin("B", 0, "", "") && g.members.Keys == {"A"}
    ensures h.members.Keys == {"A", "B"}
    ensures Enabled(g, step) && h == Next(g, step) && h.Open() && h.leader == ""
    ensures Present(h, "A", 0) && Present(h, "B", 0) && "A" in h.Current().joined && "B" in h.Current().joined
  {
    Enters(g, "B", 0, "A");
    h := Next(g, step);
  }

  /** The deadline passes and A leads the two. */
  lemma FirstCloses(g: Group) returns (step: Step, h: Group)
    requires g.Open() && g.leader == "" && Present(g, "A", 0) && Present(g, "B", 0)
    requires "A" in g.Current().joined && "B" in g.Current().joined
    ensures !step.Sync? && Enabled(g, step) && h == Next(g, step)
    ensures !h.Open() && h.leader == "A" && Present(h, "A", 0) && Present(h, "B", 0)
    ensures h.members.Keys <= g.members.Keys
  {
    var protocol := PickExists(Keep(g.members, g.Current().joined), g.latest);
    step := Expire(|g.rounds| - 1, "A", protocol);
    h := Closed(g, "A", protocol);
  }

  /** B rejoins, and A's sync of the generation before comes late. */
  lemma SecondOpens(g: Group) returns (step: Step, h: Group)
    requires !g.Open() && g.leader == "A" && Present(g, "A", 0) && Present(g, "B", 0)
    ensures !step.Sync? && Enabled(g, step) && h == Next(g, step)
    ensures Late(h, Sync(h.generation, "A", map["B" := "partition 0"], 0)) && h.leader == "A"
    ensures "B" in h.members && "B" in h.Current().joined && Present(h, "A", 0) && Present(h, "B", 0)
    ensures h.members.Keys <= g.members.Keys && {"A"} <= h.Current().expected <= g.members.Keys
  {
    step := Rejoin("B", 0, "", "");
    Enters(g, "B", 0, "A");
    h := Next(g, step);
  }

  /** A run from start-up in which B, who does not lead, is answered in the second generation
      with its assignment of the first. */
  lemma {:induction false} StaleReplyHappens(g: Group) returns (steps: seq<Step>, h: Group)
    requires Initial(g) && g.members == map[]
    ensures CanRun(g, steps) && h == Run(g, steps) && h.leader != "B" && "B" in h.members
    ensures Stale(SyncAnswer(h, h.generation, "B", map[], 0), h.generation)
  {
    var joins, g1 := TwoJoin(g);
    var close, g2 := FirstCloses(g1);
    var rejoin, g3 := SecondOpens(g2);
    var late := Sync(g3.generation, "A", map["B" := "partition 0"], 0);
    RunOne(g2, rejoin, g3);
    RunMore(g1, close, g2, [rejoin]);
    RunConcat(g, joins, [close] + [rejoin]);
    EveryRunIsSafe(g, joins + ([close] + [rejoin]));
    var more;
    more, h := PrematureGoesStale(g3, late, g.generation, "B");
    RunMore(g3, late, Next(g3, late), more);
    steps := (joins + ([close] + [rejoin])) + ([late] + more);
    RunConcat(g, joins + ([close] + [rejoin]), [late] + more);
  }

  /** A run from start-up that ends with a round closed early, the timer of which never fires:
      A and B rejoin after their first generation. */
  lemma {:induction false} EarlyCloseHappens(g: Group) returns (steps: seq<Step>, step: Step)
    requires Initial(g) && g.members == map[]
    ensures CanRun(g, steps) && step.JoinStep? && Enabled(Run(g, steps), step) && !Handshake(step.args)
    ensures AllRejoined(Joining(Run(g, steps), step.args, step.newId, step.now).Current())
    ensures Next(Run(g, steps), step).members.Keys == {"A", "B"}
  {
    var joins, g1 := TwoJoin(g);
    var close, g2 := FirstCloses(g1);
    var rejoin, g3 := SecondOpens(g2);
    RunOne(g2, rejoin, g3);
    RunMore(g1, close, g2, [rejoin]);
    RunConcat(g, joins, [close] + [rejoin]);
    steps := joins + ([close] + [rejoin]);
    step := LastBack(g3);
    EarlyCloseDropsNobody(g, steps, step);
  }

  lemma LastBack(g: Group) returns (step: Step)
    requires g.Open() && g.leader == "A" && Present(g, "A", 0) && Present(g, "B", 0) && g.members.Keys <= {"A", "B"}
    requires "B" in g.Current().joined && {"A"} <= g.Current().expected <= {"A", "B"}
    ensures step.JoinStep? && Enabled(g, step) && !Handshake(step.args)
    ensures var j := Joining(g, step.args, step.newId, step.now);
            AllRejoined(j.Current()) && j.members.Keys == {"A", "B"}
  {
    var j := Joining(g, JoinArgs("A", "", 0, "", [], 0), "new", 0);
    Enters(g, "A", 0, "B");
    var protocol := PickExists(Keep(j.members, j.Current().joined), j.latest);
    step := Rejoin("A", 0, "A", protocol);
  }

  // ---- exactly when followers are answered by their own leader -------------------------------------------

  /** A synced round is one that closed and whose own leader synced. */
  ghost predicate Prompt(g: Group) {
    forall i :: 0 <= i < |g.rounds| && g.rounds[i].synced ==> g.rounds[i].closed && g.rounds[i].served
  }

  lemma JoiningPrompt(g: Group, args: JoinArgs, newId: Id, now: int)
    requires Prompt(g)
    ensures Prompt(Swept(g, args, now)) && Prompt(Joining(g, args, newId, now))
  {
    assert Swept(g, args, now).rounds == g.rounds;
  }

  lemma StepPrompt(g: Group, step: Step)
    requires Prompt(g) && Enabled(g, step) && !Late(g, step)
    ensures Prompt(Next(g, step))
  {
    match step
    case JoinStep(args, newId, now, leader, protocol) =>
      JoiningPrompt(g, args, newId, now);
      var j := Joining(g, args, newId, now);
      if !Handshake(args) && AllRejoined(j.Current()) {
        ClosedPrompt(j, leader, protocol);
      }
    case Expire(r, leader, protocol) =>
      if Fires(g, r) {
        ClosedPrompt(g, leader, protocol);
      }
    case Sync(_, _, _, _) =>
    case Heartbeat(_, _, _) =>
    case Leave(_, _) =>
  }

  lemma ClosedPrompt(g: Group, leader: Id, protocol: string)
    requires Prompt(g) && g.Open()
    ensures Prompt(Closed(g, leader, protocol))
  {
  }

  ghost predicate NeverLate(g: Group, steps: seq<Step>)
    requires CanRun(g, steps)
    decreases |steps|
  {
    steps != [] ==> !Late(g, steps[0]) && NeverLate(Next(g, steps[0]), steps[1..])
  }

  lemma {:induction false} RunPrompt(g: Group, steps: seq<Step>)
    requires Prompt(g) && CanRun(g, steps) && NeverLate(g, steps)
    ensures Prompt(Run(g, steps))
    decreases |steps|
  {
    if steps != [] {
      StepPrompt(g, steps[0]);
      RunPrompt(Next(g, steps[0]), steps[1..]);
    }
  }

  lemma {:induction false} NoSyncIsPrompt(g: Group, steps: seq<Step>)
    requires CanRun(g, steps) && NoSync(steps)
    ensures NeverLate(g, steps)
    decreases |steps|
  {
    if steps != [] {
      NoSyncIsPrompt(Next(g, steps[0]), steps[1..]);
    }
  }

  /** A follower is answered with success though the leader of its generation has not synced. */
  ghost predicate Unserved(g: Group, generation: int, id: Id, assignments: map<Id, string>, now: int) {
    && id != g.leader && g.HasRound() && SyncAnswer(g, generation, id, assignments, now).Assigned?
    && !(g.Current().served && g.Current().generation == generation)
  }

  ghost predicate AlwaysServed(g: Group) {
    forall more, generation, id, assignments, now ::
      CanRun(g, more) && NeverLate(g, more) ==> !Unserved(Run(g, more), generation, id, assignments, now)
  }

  lemma {:induction false} ServedForever(g: Group, first: int)
    requires Inv(g, first) && Prompt(g)
    ensures AlwaysServed(g)
  {
    forall more, generation, id, assignments, now | CanRun(g, more) && NeverLate(g, more)
      ensures !Unserved(Run(g, more), generation, id, assignments, now)
    {
      RunPrompt(g, more);
      RunKeeps(g, more, first);
    }
  }

  /** After any late sync, another member joins and then the leader: the other one's sync is
      answered at once, with nothing. */
  lemma LateGoesUnserved(g: Group, step: Step, first: int, id: Id) returns (more: seq<Step>, h: Group)
    requires Inv(g, first) && Late(g, step) && id != "" && id != g.leader
    ensures CanRun(Next(g, step), more) && NoSync(more) && h == Run(Next(g, step), more)
    ensures Unserved(h, h.generation, id, map[], 0)
    ensures SyncAnswer(h, h.generation, id, map[], 0) == Assigned(Unassigned)
  {
    var s := Next(g, step);
    assert Rebalancing(s, g.leader, step.now) && s.Current().synced && !s.Current().served;
    more, h := BothJoin(s, id, step.now);
  }

  /** A member joins, then the leader, and the round closes. */
  lemma BothJoin(s: Group, id: Id, now: int) returns (more: seq<Step>, h: Group)
    requires Rebalancing(s, s.leader, now) && id != "" && id != s.leader
    ensures CanRun(s, more) && NoSync(more) && h == Run(s, more)
    ensures h.HasRound() && h.Current().synced == s.Current().synced && h.Current().served == s.Current().served
    ensures id in h.members && id != h.leader && h.members[id].assignment == Unassigned
  {
    var l, j := s.leader, Joining(s, JoinArgs(id, "", 0, "", [], 0), "new", now);
    RejoinOpen(s, id, now, l, l);
    if AllRejoined(j.Current()) {
      var protocol := PickExists(Keep(j.members, j.Current().joined), j.latest);
      CloseWith(j, protocol, id);
      h := Closed(j, l, protocol);
      more := [Rejoin(id, now, l, protocol)];
      RunOne(s, Rejoin(id, now, l, protocol), h);
    } else {
      var rest;
      rest, h := LeaderRejoins(j, id, now);
      more := [Rejoin(id, now, "", "")] + rest;
      RunMore(s, Rejoin(id, now, "", ""), j, rest);
    }
  }

  /** After a run without late syncs, one more step leaves every later success of a follower
      to follow the sync of its own generation's leader if and only if it is not a late sync. */
  lemma {:induction false} ServedExactlyWhen(g: Group, steps: seq<Step>, step: Step)
    requires Initial(g) && CanRun(g, steps) && NeverLate(g, steps) && Enabled(Run(g, steps), step)
    ensures AlwaysServed(Next(Run(g, steps), step)) <==> !Late(Run(g, steps), step)
  {
    var h := Run(g, steps);
    EveryRunIsSafe(g, steps);
    RunPrompt(g, steps);
    if Late(h, step) {
      var id := if h.leader == "A" then "B" else "A";
      var more, u := LateGoesUnserved(h, step, g.generation, id);
      NoSyncIsPrompt(Next(h, step), more);
    } else {
      StepPrompt(h, step);
      StepKeeps(h, step, g.generation);
      ServedForever(Next(h, step), g.generation);
    }
  }

  /** A follower that waits on a round and is woken with success has been served by the leader
      of the generation it asked for. */
  lemma {:induction false} WokenIsServed(g: Group, steps: seq<Step>, more: seq<Step>, generation: int, id: Id,
                                         assignments: map<Id, string>, now: int)
    requires Initial(g) && CanRun(g, steps) && CanRun(Run(g, steps), more)
    requires NeverLate(g, steps) && NeverLate(Run(g, steps), more)
    requires SyncAnswer(Run(g, steps), generation, id, assignments, now) == Waits
    ensures var i, h := |Run(g, steps).rounds| - 1, Run(Run(g, steps), more);
            0 <= i < |h.rounds|
    ensures var i, h := |Run(g, steps).rounds| - 1, Run(Run(g, steps), more);
            h.rounds[i].synced && WakeAnswer(h, generation, id).Assigned? ==>
              h.rounds[i].served && h.rounds[i].generation == generation
  {
    var start, h := Run(g, steps), Run(Run(g, steps), more);
    EveryRunIsSafe(g, steps);
    RunPrompt(g, steps);
    RunPrompt(start, more);
    RunKeeps(start, more, g.generation);
    RoundsGrow(start, more);
    var i := |start.rounds| - 1;
    if start.Current().closed {
      RunKeepsAnswers(start, more, i);
    }
  }

  lemma {:induction false} RoundsGrow(g: Group, steps: seq<Step>)
    requires CanRun(g, steps)
    ensures |g.rounds| <= |Run(g, steps).rounds|
    decreases |steps|
  {
    if steps != [] {
      StepKeepsAnswers(g, steps[0]);
      RoundsGrow(Next(g, steps[0]), steps[1..]);
    }
  }

  // ---- whose assignment a reply carries -------------------------------------------------------------

  /** By this step the leader of generation n hands an assignment to a member. */
  predicate Hands(g: Group, step: Step, n: int, id: Id) {
    && step.Sync? && step.generation == g.generation == n
    && step.id in g.members && step.id == g.leader && id in step.assignments
  }

  /** What the leader of generation n last handed out for a member, or what there was before. */
  ghost function LastHanded(g: Group, steps: seq<Step>, n: int, id: Id, before: Option<string>): Option<string>
    requires CanRun(g, steps)
    decreases |steps|
  {
    if steps == [] then before
    else
      LastHanded(Next(g, steps[0]), steps[1..], n, id,
                 if Hands(g, steps[0], n, id) then Some(steps[0].assignments[id]) else before)
  }

  /** An assignment of generation n is that one. */
  ghost predicate Holds(g: Group, n: int, id: Id, handed: Option<string>) {
    id in g.members && g.members[id].assignment.Given? && g.members[id].assignment.generation == n ==>
      handed == Some(g.members[id].assignment.data)
  }

  lemma StepHolds(g: Group, step: Step, n: int, id: Id, handed: Option<string>)
    requires Enabled(g, step) && Holds(g, n, id, handed)
    ensures Holds(Next(g, step), n, id, if Hands(g, step, n, id) then Some(step.assignments[id]) else handed)
  {
    if step.JoinStep? {
      SweptSame(g, step.args, step.now, id);
    }
  }

  lemma {:induction false} RunHolds(g: Group, steps: seq<Step>, n: int, id: Id, handed: Option<string>)
    requires CanRun(g, steps) && Holds(g, n, id, handed)
    ensures Holds(Run(g, steps), n, id, LastHanded(g, steps, n, id, handed))
    decreases |steps|
  {
    if steps != [] {
      StepHolds(g, steps[0], n, id, handed);
      RunHolds(Next(g, steps[0]), steps[1..], n, id,
               if Hands(g, steps[0], n, id) then Some(steps[0].assignments[id]) else handed);
    }
  }

  /** The assignment of generation n that start-up read back, if any. */
  function OnFile(g: Group, n: int, id: Id): Option<string> {
    if id in g.members && g.members[id].assignment.Given? && g.members[id].assignment.generation == n
    then Some(g.members[id].assignment.data) else None
  }

  /** A reply with an assignment says this. */
  predicate Carries(r: SyncReply, n: int, handed: Option<string>) {
    r.Assigned? && r.assignment.Given? ==> r.assignment.generation == n && handed == Some(r.assignment.data)
  }

  /** From start-up on, as long as no premature sync is processed, an assignment in a SyncGroup
      reply, at once or on waking, is the one that the leader of the generation asked for last
      handed out for that member, this very request included. */
  lemma {:induction false} RepliesAreHandedOut(g: Group, steps: seq<Step>, n: int, id: Id, assignments: map<Id, string>,
                                               now: int)
    requires Initial(g) && CanRun(g, steps) && NeverPremature(g, steps, true)
    ensures var h, handed := Run(g, steps), LastHanded(g, steps, n, id, OnFile(g, n, id));
            && Carries(WakeAnswer(h, n, id), n, handed)
            && Carries(SyncAnswer(h, n, id, assignments, now), n,
                       if Hands(h, Sync(n, id, assignments, now), n, id) then Some(assignments[id]) else handed)
  {
    NoStaleReply(g, steps, n, id, assignments, now, true);
    RunHolds(g, steps, n, id, OnFile(g, n, id));
  }

  /** The leader's own reply carries what it just sent for itself, and whoever else it names in
      its group is answered with theirs. */
  lemma {:induction false} HandedIsAnswered(g: Group, n: int, leader: Id, assignments: map<Id, string>, now: int,
                                            id: Id)
    requires g.generation == n && leader == g.leader && leader in g.members && id in g.members
    ensures leader in assignments ==>
              SyncAnswer(g, n, leader, assignments, now) == Assigned(Given(assignments[leader], n))
    ensures WakeAnswer(Next(g, Sync(n, leader, assignments, now)), n, id)
            == if id in assignments then Assigned(Given(assignments[id], n)) else Assigned(g.members[id].assignment)
  {
  }
}
