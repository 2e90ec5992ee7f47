/** The coordinator's group object, changed in place by the lock-held parts of
    each request. */
module GroupCoordinator {
  import opened GroupModel

  // ---- picking a leader ---------------------------------------------------------------

  /** Byte-wise string order, as sort.Strings uses it. */
  predicate LessEq(a: string, b: string) {
    a == [] || (b != [] && (a[0] < b[0] || (a[0] == b[0] && LessEq(a[1..], b[1..]))))
  }

  lemma {:induction false} LessEqTotal(a: string, b: string)
    ensures LessEq(a, b) || LessEq(b, a)
  {
    if a != [] && b != [] && a[0] == b[0] {
      LessEqTotal(a[1..], b[1..]);
    }
  }

  lemma {:induction false} LessEqTransitive(a: string, b: string, c: string)
    requires LessEq(a, b) && LessEq(b, c)
    ensures LessEq(a, c)
  {
    if a != [] && a[0] == b[0] == c[0] {
      LessEqTransitive(a[1..], b[1..], c[1..]);
    }
  }

  /** No member id comes before it. */
  ghost predicate First(ids: set<Id>, leader: Id) {
    leader in ids && forall id :: id in ids ==> LessEq(leader, id)
  }

  /** The first member id in order, or none. */
  method PickLeader(ids: set<Id>) returns (leader: Id)
    ensures ids == {} ==> leader == ""
    ensures ids != {} ==> First(ids, leader)
  {
    leader := "";
    if ids == {} {
      return;
    }
    leader :| leader in ids;
    var rest := ids - {leader};
    LessEqTotal(leader, leader);
    while rest != {}
      invariant rest <= ids && leader in ids
      invariant forall id :: id in ids - rest ==> LessEq(leader, id)
      decreases |rest|
    {
      var id :| id in rest;
      LessEqTotal(leader, id);
      if !LessEq(leader, id) {
        forall other | other in ids - rest
          ensures LessEq(id, other)
        {
          LessEqTransitive(id, leader, other);
        }
        LessEqTotal(id, id);
        leader := id;
      }
      rest := rest - {id};
    }
  }

  // ---- picking a protocol -----------------------------------------------------------------

  ghost function Having(members: map<Id, Member>, ids: set<Id>, name: string): set<Id> {
    set id | id in ids && id in members && name in members[id].protocols
  }

  /** `counts` says how many of the members seen so far advertise each name, and
      `order` lists the names that anyone does. */
  ghost predicate Tallied(members: map<Id, Member>, seen: set<Id>, counts: map<string, nat>, order: seq<string>) {
    && seen <= members.Keys
    && (forall n :: n in counts ==> counts[n] == |Having(members, seen, n)| > 0)
    && (forall n :: n !in counts ==> Having(members, seen, n) == {})
    && (forall n :: n in order <==> n in counts)
  }

  /** Counts one member's names, each once. */
  method Tally(members: map<Id, Member>, ghost seen: set<Id>, id: Id, counts0: map<string, nat>, order0: seq<string>)
    returns (counts: map<string, nat>, order: seq<string>)
    requires id in members && id !in seen && Tallied(members, seen, counts0, order0)
    ensures Tallied(members, seen + {id}, counts, order)
  {
    counts, order := counts0, order0;
    var names := members[id].protocols;
    var done: set<string> := {};
    var i := 0;
    while i < |names|
      invariant 0 <= i <= |names| && done == set k | 0 <= k < i :: names[k]
      invariant Halfway(members, seen, done, counts, order)
    {
      var name := names[i];
      if name !in done {
        if name !in counts {
          order := order + [name];
          counts := counts[name := 1];
        } else {
          counts := counts[name := counts[name] + 1];
        }
      }
      done := done + {name};
      i := i + 1;
    }
    WholeMember(members, seen, id, done, counts, order);
  }

  /** The tally with one more member counted for the names in `done` only. */
  ghost predicate Halfway(members: map<Id, Member>, seen: set<Id>, done: set<string>, counts: map<string, nat>,
                          order: seq<string>) {
    && (forall n :: n in counts ==>
          counts[n] == |Having(members, seen, n)| + (if n in done then 1 else 0) && counts[n] > 0)
    && (forall n :: n !in counts ==> n !in done && Having(members, seen, n) == {})
    && (forall n :: n in order <==> n in counts)
  }

  lemma WholeMember(members: map<Id, Member>, seen: set<Id>, id: Id, done: set<string>,
                    counts: map<string, nat>, order: seq<string>)
    requires id in members && id !in seen && seen <= members.Keys && Halfway(members, seen, done, counts, order)
    requires forall n :: n in done <==> n in members[id].protocols
    ensures Tallied(members, seen + {id}, counts, order)
  {
    forall n
      ensures Having(members, seen + {id}, n) == Having(members, seen, n) + (if n in done then {id} else {})
    {
    }
  }

  /** A name all members advertise if there is one, whatever order they come in. */
  method PickCommonProtocol(members: map<Id, Member>, latest: seq<string>) returns (name: string)
    ensures Picks(members, latest, name)
  {
    var counts, order, total := CountAll(members);
    var i := 0;
    while i < |order|
      invariant 0 <= i <= |order|
      invariant forall k :: 0 <= k < i ==> !Common(members, order[k])
    {
      CommonWhenCounted(members, counts, order, order[i]);
      if counts[order[i]] == total {
        return order[i];
      }
      i := i + 1;
    }
    forall n | Common(members, n)
      ensures false
    {
      CommonIsCounted(members, counts, order, n);
    }
    name := if |latest| > 0 then latest[0] else "";
  }

  method CountAll(members: map<Id, Member>) returns (counts: map<string, nat>, order: seq<string>, total: nat)
    ensures Tallied(members, members.Keys, counts, order) && total == |members.Keys|
  {
    counts, order, total := map[], [], 0;
    var todo := members.Keys;
    ghost var seen: set<Id> := {};
    while todo != {}
      invariant seen !! todo && seen + todo == members.Keys && total == |seen|
      invariant Tallied(members, seen, counts, order)
      decreases |todo|
    {
      var id :| id in todo;
      total := total + 1;
      counts, order := Tally(members, seen, id, counts, order);
      ghost var more := seen + {id};
      assert more + (todo - {id}) == members.Keys;
      seen := more;
      todo := todo - {id};
    }
    assert seen == members.Keys;
  }

  lemma CommonWhenCounted(members: map<Id, Member>, counts: map<string, nat>, order: seq<string>, name: string)
    requires Tallied(members, members.Keys, counts, order) && name in order
    ensures counts[name] == |members.Keys| <==> Common(members, name)
  {
    var having := Having(members, members.Keys, name);
    SameSize(having, members.Keys);
  }

  lemma CommonIsCounted(members: map<Id, Member>, counts: map<string, nat>, order: seq<string>, name: string)
    requires Tallied(members, members.Keys, counts, order) && Common(members, name)
    ensures name in order
  {
    var id :| id in members.Keys;
    assert id in Having(members, members.Keys, name);
  }

  lemma SameSize(a: set<Id>, b: set<Id>)
    requires a <= b
    ensures |a| == |b| <==> a == b
  {
    assert b == a + (b - a);
    assert |b| == |a| + |b - a|;
  }

  // ---- the group object -----------------------------------------------------------------

  datatype Entry = NeedsId(id: Id) | WaitsOn(round: nat, id: Id)

  datatype Code = NoError | IllegalGenerationCode | UnknownMemberCode | RebalanceInProgress

  class LiveGroup {
    var members: map<Id, Member>
    var beats: map<Id, int>
    var leader: Id
    var generation: int
    var protocol: string
    var latest: seq<string>
    var status: Status
    var rounds: seq<Round>

    ghost function View(): Group
      reads this
    {
      Group(members, beats, leader, generation, protocol, latest, status, rounds)
    }

    /** A group adopted from its persisted state has no leader, heartbeat or round. */
    constructor (members: map<Id, Member>, generation: int, protocol: string)
      ensures View() == Group(members, map[], "", generation, protocol, [], Empty, [])
    {
      this.members, this.generation, this.protocol := members, generation, protocol;
      beats, leader, latest, status, rounds := map[], "", [], Empty, [];
    }

    method Remove(id: Id)
      modifies this
      ensures View() == Without(old(View()), {id})
    {
      members := members - {id};
      beats := beats - {id};
      if leader == id {
        leader := "";
      }
      assert members == Keep(old(members), old(members).Keys - {id});
      assert beats == Keep(old(beats), old(beats).Keys - {id});
    }

    method EvictExpired(now: int)
      modifies this
      ensures View() == Evict(old(View()), now)
    {
      ghost var g := View();
      var todo := members.Keys;
      EvictNone(g, now);
      while todo != {}
        invariant todo <= g.members.Keys
        invariant View() == Without(g, Late(g, g.members.Keys - todo, now))
        decreases |todo|
      {
        var id :| id in todo;
        EvictStep(g, todo, id, now);
        EvictIfExpired(id, now);
        todo := todo - {id};
      }
      assert Late(g, g.members.Keys - {}, now) == set id | id in g.members && Expired(g, id, now);
    }

    method EvictIfExpired(id: Id, now: int)
      requires id in members
      modifies this
      ensures View() == if Expired(old(View()), id, now) then Without(old(View()), {id}) else old(View())
    {
      if id !in beats || now - beats[id] > EvictAfter(members[id]) {
        Remove(id);
      }
    }

    method DropSameClient(client: string)
      modifies this
      ensures View() == DropClient(old(View()), client)
    {
      if client == "" {
        return;
      }
      ghost var g := View();
      var todo := members.Keys;
      ghost var gone: set<Id> := {};
      WithoutNone(g);
      while todo != {}
        invariant todo <= g.members.Keys && gone <= g.members.Keys - todo
        invariant forall id :: id in g.members && id !in todo ==> (id in gone <==> g.members[id].client == client)
        invariant View() == Without(g, gone)
        decreases |todo|
      {
        var id :| id in todo;
        todo := todo - {id};
        WithoutKeeps(g, gone, id, 0);
        if members[id].client == client {
          WithoutMore(g, gone, id);
          Remove(id);
          gone := gone + {id};
        }
      }
      assert gone == set id | id in g.members && g.members[id].client == client;
    }

    /** Decides the open round and answers everyone in it. */
    method CloseRound() returns (ghost newLeader: Id, ghost newProtocol: string)
      requires View().Open()
      modifies this
      ensures CanClose(old(View()), newLeader, newProtocol)
      ensures View() == Closed(old(View()), newLeader, newProtocol)
      ensures members.Keys != {} && (old(leader) == "" || old(leader) !in members) ==> First(members.Keys, leader)
    {
      newLeader, newProtocol := Settle();
      var round := rounds[|rounds| - 1];
      assert round.joined * members.Keys == members.Keys;
      var answers := AnswerAll(round.joined);
      rounds := rounds[..|rounds| - 1] +
                [round.(closed := true, generation := generation, results := answers,
                        doneCloses := round.doneCloses + 1, settled := members, latest := latest)];
    }

    /** Drops those who did not join and settles leader, generation and protocol. */
    method Settle() returns (ghost newLeader: Id, ghost newProtocol: string)
      requires View().Open()
      modifies this
      ensures CanClose(old(View()), newLeader, newProtocol)
      ensures View() == Settled(old(View()), newLeader, newProtocol)
      ensures members.Keys != {} && (old(leader) == "" || old(leader) !in members) ==> First(members.Keys, leader)
    {
      var round := rounds[|rounds| - 1];
      var dropped := members.Keys - round.joined;
      members := Keep(members, round.joined);
      beats := Keep(beats, beats.Keys - dropped);
      if leader == "" || leader !in members {
        leader := PickLeader(members.Keys);
      }
      generation := generation + 1;
      protocol := PickCommonProtocol(members, latest);
      status := CompletingRebalance;
      newLeader, newProtocol := leader, protocol;
    }

    /** One answer for each member that joined; the leader's lists them all. */
    method AnswerAll(joined: set<Id>) returns (answers: map<Id, JoinResult>)
      ensures answers == Answers(View(), joined * members.Keys)
    {
      var list := map m | m in members :: members[m].subscription;
      answers := map[];
      var todo := joined;
      ghost var done: set<Id> := {};
      while todo != {}
        invariant todo <= joined && done == (joined - todo) * members.Keys
        invariant answers == Answers(View(), done)
        decreases |todo|
      {
        var id :| id in todo;
        todo := todo - {id};
        if id in members {
          AnswersMore(View(), done, id);
          var known := if id == leader then list else map[];
          answers := answers[id := JoinResult(generation, protocol, leader, id, id == leader, known)];
          done := done + {id};
        }
      }
      assert done == joined * members.Keys;
    }

    /** The lock-held part of JoinGroup, up to the wait for the round. */
    method JoinGroup(args: JoinArgs, newId: Id, now: int) returns (r: Entry, ghost step: Step)
      requires newId != ""
      modifies this
      ensures step.JoinStep? && step.args == args && step.newId == newId && step.now == now
      ensures Enabled(old(View()), step) && View() == Next(old(View()), step)
      ensures r == if Handshake(args) then NeedsId(newId) else WaitsOn(|rounds| - 1, JoinId(args, newId))
    {
      ghost var g := View();
      EvictExpired(now);
      var memberId := args.memberId;
      if memberId == "" {
        DropSameClient(args.client);
        memberId := newId;
        if args.apiVersion >= 4 {
          step := JoinStep(args, newId, now, "", "");
          return NeedsId(memberId), step;
        }
      }
      assert View() == Swept(g, args, now);
      Register(memberId, args, now);
      r := WaitsOn(|rounds| - 1, memberId);
      ghost var newLeader, newProtocol := "", "";
      var round := rounds[|rounds| - 1];
      var all := AllBack(round);
      if round.expected != {} && all {
        newLeader, newProtocol := CloseRound();
      }
      step := JoinStep(args, newId, now, newLeader, newProtocol);
    }

    method Register(id: Id, args: JoinArgs, now: int)
      modifies this
      ensures View() == Registered(Opened(old(View())), id, args, now)
    {
      if |rounds| == 0 || rounds[|rounds| - 1].closed {
        rounds := rounds + [NewRound(members.Keys)];
        status := PreparingRebalance;
      }
      members := members[id := Member(args.client, args.sessionMs, args.subscription, args.protocols, Unassigned)];
      beats := beats[id := now];
      latest := args.protocols;
      var round := rounds[|rounds| - 1];
      rounds := rounds[..|rounds| - 1] + [round.(joined := round.joined + {id})];
    }

    /** The timer of round r. */
    method ExpireRound(r: nat) returns (ghost step: Step)
      modifies this
      ensures step.Expire? && step.round == r
      ensures Enabled(old(View()), step) && View() == Next(old(View()), step)
    {
      step := Expire(r, "", "");
      if |rounds| == 0 || r != |rounds| - 1 || rounds[r].closed {
        return;
      }
      ghost var newLeader, newProtocol := CloseRound();
      step := Expire(r, newLeader, newProtocol);
    }

    /** SyncGroup up to its answer, or to the wait for the leader. */
    method SyncGroup(gen: int, id: Id, assignments: map<Id, string>, now: int) returns (r: SyncReply)
      modifies this
      ensures View() == Next(old(View()), Sync(gen, id, assignments, now))
      ensures r == SyncAnswer(old(View()), gen, id, assignments, now)
    {
      if generation != gen {
        return IllegalGeneration;
      }
      if id !in members {
        return UnknownMember;
      }
      beats := beats[id := now];
      if id == leader {
        Distribute(assignments);
        SignalSync();
        return Assigned(members[id].assignment);
      }
      if |rounds| == 0 || rounds[|rounds| - 1].synced {
        return Assigned(members[id].assignment);
      }
      return Waits;
    }

    /** Writes the leader's map into the members it names. */
    method Distribute(assignments: map<Id, string>)
      modifies this
      ensures View() == Distributed(old(View()), assignments)
    {
      members := map m | m in members.Keys ::
                   if m !in assignments then members[m]
                   else members[m].(assignment := Given(assignments[m], generation));
      status := Stable;
    }

    /** Closes the current round's sync channel, unless it is closed already. */
    method SignalSync()
      modifies this`rounds
      ensures View() == MarkSynced(old(View()))
    {
      if |rounds| == 0 {
        return;
      }
      var round := rounds[|rounds| - 1];
      if !round.synced {
        round := round.(synced := true, syncCloses := round.syncCloses + 1);
      }
      rounds := rounds[..|rounds| - 1] + [round.(served := round.served || round.closed)];
    }

    /** A follower that waited, once its round is synced. */
    method SyncWake(gen: int, id: Id) returns (r: SyncReply)
      ensures r == WakeAnswer(View(), gen, id)
    {
      if generation != gen {
        return IllegalGeneration;
      }
      if id !in members {
        return UnknownMember;
      }
      return Assigned(members[id].assignment);
    }

    method Heartbeat(gen: int, id: Id, now: int) returns (code: Code)
      modifies this`beats
      ensures View() == Next(old(View()), Step.Heartbeat(gen, id, now))
      ensures code == if old(generation) != gen then IllegalGenerationCode
                      else if id !in old(members) then UnknownMemberCode
                      else if status == PreparingRebalance then RebalanceInProgress else NoError
    {
      if generation != gen {
        return IllegalGenerationCode;
      }
      if id !in members {
        return UnknownMemberCode;
      }
      beats := beats[id := now];
      if status == PreparingRebalance {
        return RebalanceInProgress;
      }
      return NoError;
    }

    method LeaveGroup(id: Id) returns (code: Code, ghost step: Step)
      modifies this
      ensures step.Leave? && step.id == id
      ensures Enabled(old(View()), step) && View() == Next(old(View()), step)
      ensures code == if id in old(members) then NoError else UnknownMemberCode
      ensures id in old(members) && old(leader) == id && members.Keys != {} ==> First(members.Keys, leader)
    {
      step := Leave(id, "");
      if id !in members {
        return UnknownMemberCode, step;
      }
      members := members - {id};
      beats := beats - {id};
      if leader == id {
        leader := PickLeader(members.Keys);
        step := Leave(id, leader);
      }
      status := if members.Keys == {} then Empty else PreparingRebalance;
      return NoError, step;
    }
  }

  lemma AnswersMore(g: Group, ids: set<Id>, id: Id)
    ensures Answers(g, ids + {id}) == Answers(g, ids)[id := Answer(g, id)]
  {
  }

  lemma WithoutNone(g: Group)
    ensures Without(g, {}) == g
  {
  }

  /** Those of some members that are expired. */
  ghost function Late(g: Group, among: set<Id>, now: int): set<Id> {
    set id | id in among && id in g.members && Expired(g, id, now)
  }

  lemma EvictNone(g: Group, now: int)
    ensures Without(g, Late(g, g.members.Keys - g.members.Keys, now)) == g
  {
    WithoutNone(g);
    assert Late(g, g.members.Keys - g.members.Keys, now) == {};
  }

  lemma LateMore(g: Group, todo: set<Id>, id: Id, now: int)
    requires id in todo && todo <= g.members.Keys
    ensures var late := Late(g, g.members.Keys - todo, now);
            id !in late
            && Late(g, g.members.Keys - (todo - {id}), now) == if Expired(g, id, now) then late + {id} else late
  {
  }

  /** Looking at one more member evicts it just if it is expired. */
  lemma EvictStep(g: Group, todo: set<Id>, id: Id, now: int)
    requires id in todo && todo <= g.members.Keys
    ensures var r := Without(g, Late(g, g.members.Keys - todo, now));
            && id in r.members
            && Without(g, Late(g, g.members.Keys - (todo - {id}), now))
               == if Expired(r, id, now) then Without(r, {id}) else r
  {
    var late := Late(g, g.members.Keys - todo, now);
    LateMore(g, todo, id, now);
    WithoutKeeps(g, late, id, now);
    WithoutMore(g, late, id);
  }

  /** Who stays keeps its record, and is as late as before. */
  lemma WithoutKeeps(g: Group, gone: set<Id>, id: Id, now: int)
    requires id in g.members && id !in gone
    ensures var r := Without(g, gone);
            && id in r.members && r.members[id] == g.members[id]
            && (Expired(r, id, now) <==> Expired(g, id, now))
  {
  }

  lemma WithoutMore(g: Group, gone: set<Id>, id: Id)
    ensures Without(Without(g, gone), {id}) == Without(g, gone + {id})
  {
  }

  /** Has everyone the round expected joined it? */
  method AllBack(r: Round) returns (all: bool)
    ensures all <==> r.expected <= r.joined
  {
    var todo := r.expected;
    while todo != {}
      invariant todo <= r.expected && r.expected - todo <= r.joined
      decreases |todo|
    {
      var id :| id in todo;
      if id !in r.joined {
        return false;
      }
      todo := todo - {id};
    }
    return true;
  }
}
