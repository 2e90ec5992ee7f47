/** The webhook dead-letter queue of one subscription: a queue file, and a claim
    file a redelivery renames it to. */
module DeadLetters {
  import opened Options

  /** One line of a queue file: a parked record with its last error, bytes that do not
      parse, or white space. Records are compared without the error, which a failed
      redelivery rewrites. */
  datatype Line = Parked(record: string, error: string) | Garbled(text: string) | Blank
  datatype Item = Record(record: string) | Text(text: string)

  function ItemOf(l: Line): multiset<Item> {
    match l
    case Parked(r, _) => multiset{Record(r)}
    case Garbled(t) => multiset{Text(t)}
    case Blank => multiset{}
  }

  function Items(ls: seq<Line>): multiset<Item> {
    if ls == [] then multiset{} else ItemOf(ls[0]) + Items(ls[1..])
  }

  /** The lines that are not blank. */
  function Filled(ls: seq<Line>): (r: seq<Line>)
    ensures |r| <= |ls|
  {
    if ls == [] then [] else if ls[0].Blank? then Filled(ls[1..]) else [ls[0]] + Filled(ls[1..])
  }

  function Lines(file: Option<seq<Line>>): seq<Line> {
    if file.None? then [] else file.value
  }

  /** appendRawLocked: nothing but white space to append leaves the file alone. */
  function Appended(file: Option<seq<Line>>, ls: seq<Line>): Option<seq<Line>> {
    if Filled(ls) == [] then file else Some(Lines(file) + ls)
  }

  lemma {:induction false} ItemsConcat(a: seq<Line>, b: seq<Line>)
    ensures Items(a + b) == Items(a) + Items(b)
  {
    if a == [] {
      assert a + b == b;
    } else {
      assert (a + b)[1..] == a[1..] + b;
      ItemsConcat(a[1..], b);
    }
  }

  lemma {:induction false} FilledConcat(a: seq<Line>, b: seq<Line>)
    ensures Filled(a + b) == Filled(a) + Filled(b)
  {
    if a == [] {
      assert a + b == b;
    } else {
      assert (a + b)[1..] == a[1..] + b;
      FilledConcat(a[1..], b);
    }
  }

  lemma {:induction false} ItemsOne(l: Line)
    ensures Items([l]) == ItemOf(l) && Filled([l]) == if l.Blank? then [] else [l]
  {
    assert [l][1..] == [];
  }

  lemma {:induction false} ItemsSnoc(a: seq<Line>, l: Line)
    ensures Items(a + [l]) == Items(a) + ItemOf(l)
    ensures Filled(a + [l]) == Filled(a) + if l.Blank? then [] else [l]
  {
    ItemsConcat(a, [l]);
    FilledConcat(a, [l]);
    ItemsOne(l);
  }

  /** Blank lines hold nothing: the others account for everything, one item each. */
  lemma {:induction false} FilledHoldAll(ls: seq<Line>)
    ensures Items(Filled(ls)) == Items(ls) && |Items(ls)| == |Filled(ls)| && Filled(Filled(ls)) == Filled(ls)
  {
    if ls != [] {
      FilledHoldAll(ls[1..]);
      if !ls[0].Blank? {
        assert Filled(ls)[1..] == Filled(ls[1..]);
      }
    }
  }

  lemma {:induction false} AppendedItems(file: Option<seq<Line>>, ls: seq<Line>)
    ensures Items(Lines(Appended(file, ls))) == Items(Lines(file)) + Items(ls)
    ensures Filled(Lines(Appended(file, ls))) == Filled(Lines(file)) + Filled(ls)
  {
    ItemsConcat(Lines(file), ls);
    FilledConcat(Lines(file), ls);
    FilledHoldAll(ls);
  }

  // ---- counting -----------------------------------------------------------------------

  /** A scanner stops before a line of this many bytes. */
  const MAX_LINE := 8 * 1024 * 1024

  /** What a scanner shows of a file, given the length of each line. */
  function Scanned(ls: seq<Line>, size: Line -> nat): seq<Line> {
    if ls == [] || size(ls[0]) >= MAX_LINE then [] else [ls[0]] + Scanned(ls[1..], size)
  }

  /** From the first line that is too long on, if there is one, all lines are blank. */
  predicate Readable(ls: seq<Line>, size: Line -> nat) {
    ls == [] || if size(ls[0]) >= MAX_LINE then Filled(ls) == [] else Readable(ls[1..], size)
  }

  /** That is exactly when the scanner shows everything a file holds. */
  lemma {:induction false} ScanShowsAll(ls: seq<Line>, size: Line -> nat)
    ensures |Filled(Scanned(ls, size))| <= |Filled(ls)|
    ensures |Filled(Scanned(ls, size))| == |Filled(ls)| <==> Readable(ls, size)
  {
    if ls != [] && size(ls[0]) < MAX_LINE {
      ScanShowsAll(ls[1..], size);
      assert Scanned(ls, size)[1..] == Scanned(ls[1..], size);
    }
  }

  /** A file that holds two records and shows none: the first line is as long as a scanner's
      buffer, so the record parked behind it is not reached either. */
  lemma {:induction false} LongLineHides(size: Line -> nat, record: string, error: string)
    requires forall text :: size(Garbled(text)) >= |text|
    ensures var ls := [Garbled(seq(MAX_LINE, i => 'x')), Parked(record, error)];
            |Items(ls)| == 2 && Filled(Scanned(ls, size)) == []
  {
    var long, last := Garbled(seq(MAX_LINE, i => 'x')), Parked(record, error);
    ItemsConcat([long], [last]);
    ItemsOne(long);
    ItemsOne(last);
    assert [long] + [last] == [long, last];
    assert size(long) >= MAX_LINE;
  }

  /** Counts the lines that are not blank, as far as the scanner gets. */
  method CountLines(ls: seq<Line>, size: Line -> nat) returns (n: nat)
    ensures n == |Filled(Scanned(ls, size))|
  {
    n := 0;
    var rest := ls;
    while rest != [] && size(rest[0]) < MAX_LINE
      invariant n + |Filled(Scanned(rest, size))| == |Filled(Scanned(ls, size))|
      decreases |rest|
    {
      assert Scanned(rest, size)[1..] == Scanned(rest[1..], size);
      if !rest[0].Blank? {
        n := n + 1;
      }
      rest := rest[1..];
    }
  }

  // ---- the files, as the methods change them ----------------------------------------

  /** What became of one delivery attempt. */
  datatype Attempt = Delivered | FailedWith(error: string)

  class Queue {
    var queue: Option<seq<Line>>
    var claim: Option<seq<Line>>
    var busy: bool

    constructor ()
      ensures queue == None && claim == None && !busy
    {
      queue, claim, busy := None, None, false;
    }

    /** The state machine's state s is about these files, with nobody holding the lock. */
    ghost predicate Shows(s: State)
      reads this
    {
      s.queue == queue && s.claim == claim && !Locked(s.phase) && (busy <==> s.phase.Working?)
    }

    method AppendDLQ(record: string, error: string)
      modifies this`queue
      ensures queue == Some(old(Lines(queue)) + [Parked(record, error)])
    {
      queue := Some(Lines(queue) + [Parked(record, error)]);
    }

    method AppendRaw(ls: seq<Line>)
      modifies this`queue
      ensures queue == Appended(old(queue), ls)
    {
      var rest := ls;
      while rest != [] && rest[0].Blank?
        invariant Filled(rest) == Filled(ls)
        decreases |rest|
      {
        rest := rest[1..];
      }
      if rest == [] {
        return;
      }
      queue := Some(Lines(queue) + ls);
    }

    /** How many records both files hold, those in redelivery included: never more than there
        are, and exactly as many if and only if no line of theirs is too long for the scanner,
        blanks at the end aside. */
    method Count(size: Line -> nat) returns (n: nat)
      ensures n <= |Items(Lines(queue))| + |Items(Lines(claim))|
      ensures n == |Items(Lines(queue))| + |Items(Lines(claim))| <==>
                Readable(Lines(queue), size) && Readable(Lines(claim), size)
    {
      var a := CountLines(Lines(queue), size);
      var b := CountLines(Lines(claim), size);
      ScanShowsAll(Lines(queue), size);
      ScanShowsAll(Lines(claim), size);
      FilledHoldAll(Lines(queue));
      FilledHoldAll(Lines(claim));
      n := a + b;
    }

    /** Folds back a leftover claim, then claims the queue by renaming it. */
    method Claim(ghost s: State) returns (claimed: bool, ghost steps: seq<Step>)
      requires !busy && Shows(s)
      modifies this
      ensures busy <==> claimed
      ensures claimed ==>
                && queue == None && claim.Some? && CanRun(s, steps)
                && Items(claim.value) == old(Items(Lines(queue)) + Items(Lines(claim)))
                && Filled(claim.value) == old(Filled(Lines(queue)) + Filled(Lines(claim)))
                && Run(s, steps) == s.(queue := None, claim := claim,
                                       phase := Working(Filled(claim.value), [], multiset{}))
      ensures !claimed ==>
                && queue == None && claim == None && old(Items(Lines(queue)) + Items(Lines(claim))) == multiset{}
                && old(Filled(Lines(queue)) + Filled(Lines(claim))) == []
                && CanRun(s, steps) && Run(s, steps) == s.(queue := None, claim := None)
    {
      steps := FoldBack(s);
      ghost var t;
      steps, t := Take(s, steps, Rename);
      if queue.None? {
        return false, steps;
      }
      claim, queue := queue, None;
      busy := true;
      return true, steps;
    }

    /** Appends a leftover claim to the queue and removes it. */
    method FoldBack(ghost s: State) returns (ghost steps: seq<Step>)
      requires !busy && Shows(s)
      modifies `queue, `claim
      ensures claim == None && Items(Lines(queue)) == old(Items(Lines(queue)) + Items(Lines(claim)))
      ensures Filled(Lines(queue)) == old(Filled(Lines(queue)) + Filled(Lines(claim)))
      ensures CanRun(s, steps) && Run(s, steps) == s.(queue := queue, claim := None, phase := ReadyToClaim)
    {
      steps := [];
      ghost var t := s;
      RunNone(s);
      steps, t := Take(s, steps, Begin);
      if claim.Some? {
        AppendedItems(queue, claim.value);
        AppendRaw(claim.value);
        claim := None;
        steps, t := Take(s, steps, RemoveLeftover);
      }
    }

    /** Records that live deliveries park. */
    method ParkAll(arrivals: seq<(string, string)>)
      modifies this`queue
      ensures queue == Parks(old(queue), arrivals)
    {
      var rest := arrivals;
      while rest != []
        invariant Parks(queue, rest) == Parks(old(queue), arrivals)
        decreases |rest|
      {
        AppendDLQ(rest[0].0, rest[0].1);
        rest := rest[1..];
      }
    }

    /** One redelivery. `attempts` stands for the network, one entry per record; `cancelAt` is
        the record at which the caller gives up; `arrivals` are parked while the lock is free.
        What is sent and what is queued again are all that was queued, claimed or parked
        meanwhile; sent is exactly what parses and was delivered, the rest goes behind the
        arrivals. On the files it is a run of the steps below. */
    method Redeliver(attempts: seq<Attempt>, cancelAt: nat, arrivals: seq<(string, string)>, ghost s: State)
      returns (started: bool, redelivered: nat, remaining: nat, sent: seq<Line>, ghost steps: seq<Step>)
      requires Shows(s) && |attempts| >= |Items(Lines(queue)) + Items(Lines(claim))|
      modifies this
      ensures started <==> !old(busy)
      ensures busy == old(busy) && |sent| == redelivered
      ensures !started ==> queue == old(queue) && claim == old(claim) && redelivered == remaining == 0
      ensures started ==>
                && claim == None
                && Items(sent) + Items(Lines(queue))
                   == old(Items(Lines(queue)) + Items(Lines(claim))) + Arrived(arrivals)
                && redelivered + remaining == |old(Items(Lines(queue)) + Items(Lines(claim)))|
      ensures started ==>
                Settles(old(Filled(Lines(queue)) + Filled(Lines(claim))), attempts, cancelAt, sent,
                        Filled(Lines(queue)), ArrivedLines(arrivals))
      ensures CanRun(s, steps) && Shows(Run(s, steps)) && Run(s, steps).delivered == s.delivered + Items(sent)
    {
      started, redelivered, remaining, sent, steps := !busy, 0, 0, [], [];
      RunNone(s);
      if busy {
        return;
      }
      var claimed;
      claimed, steps := Claim(s);
      ghost var t := Run(s, steps);
      ghost var rest;
      if claimed {
        redelivered, remaining, sent, rest := Serve(attempts, cancelAt, arrivals, t);
      } else {
        ParksHold(queue, arrivals);
        ParksFill(queue, arrivals);
        ParkAll(arrivals);
        rest := ParksRun(t, arrivals);
      }
      RunConcat(s, steps, rest);
      steps := steps + rest;
    }

    /** The unlocked part, and the lock-held end of it. */
    method Serve(attempts: seq<Attempt>, cancelAt: nat, arrivals: seq<(string, string)>, ghost t: State)
      returns (redelivered: nat, remaining: nat, sent: seq<Line>, ghost rest: seq<Step>)
      requires busy && queue == None && claim.Some? && |attempts| >= |Items(claim.value)|
      requires t.queue == queue && t.claim == claim && t.phase == Working(Filled(claim.value), [], multiset{})
      modifies this
      ensures claim == None && !busy && |sent| == redelivered
      ensures redelivered + remaining == |old(Items(claim.value))|
      ensures Items(sent) + Items(Lines(queue)) == old(Items(claim.value)) + Arrived(arrivals)
      ensures Settles(old(Filled(claim.value)), attempts, cancelAt, sent, Filled(Lines(queue)), ArrivedLines(arrivals))
      ensures CanRun(t, rest) && Shows(Run(t, rest)) && Run(t, rest).delivered == t.delivered + Items(sent)
    {
      ghost var lines := claim.value;
      FilledHoldAll(lines);
      rest := ServeRuns(t, lines, arrivals, attempts, cancelAt);
      ServeSettles(lines, arrivals, attempts, cancelAt);
      ParkAll(arrivals);
      redelivered, remaining, sent := Finish(attempts, cancelAt);
    }

    /** The claimed records are sent or put back, and the claim is given up. */
    method Finish(attempts: seq<Attempt>, cancelAt: nat)
      returns (redelivered: nat, remaining: nat, sent: seq<Line>)
      requires busy && claim.Some? && |attempts| >= |Items(claim.value)|
      modifies this
      ensures claim == None && !busy && |attempts| >= |Filled(old(claim.value))|
      ensures sent == Sent(old(claim.value), attempts, cancelAt) && redelivered == |sent|
      ensures queue == Appended(old(queue), Kept(old(claim.value), attempts, cancelAt))
      ensures remaining == |Kept(old(claim.value), attempts, cancelAt)|
    {
      FilledHoldAll(claim.value);
      var kept;
      redelivered, kept, sent := Replay(claim.value, attempts, cancelAt);
      AppendRaw(kept);
      claim := None;
      busy := false;
      remaining := |kept|;
    }
  }

  function Arrived(arrivals: seq<(string, string)>): multiset<Item> {
    if arrivals == [] then multiset{} else multiset{Record(arrivals[0].0)} + Arrived(arrivals[1..])
  }

  function ArrivedLines(arrivals: seq<(string, string)>): (ls: seq<Line>)
    ensures |ls| == |arrivals|
  {
    seq(|arrivals|, i requires 0 <= i < |arrivals| => Parked(arrivals[i].0, arrivals[i].1))
  }

  /** The queue file with records parked one by one. */
  function Parks(file: Option<seq<Line>>, arrivals: seq<(string, string)>): Option<seq<Line>>
    decreases |arrivals|
  {
    if arrivals == [] then file
    else Parks(Some(Lines(file) + [Parked(arrivals[0].0, arrivals[0].1)]), arrivals[1..])
  }

  lemma {:induction false} ParksHold(file: Option<seq<Line>>, arrivals: seq<(string, string)>)
    ensures Items(Lines(Parks(file, arrivals))) == Items(Lines(file)) + Arrived(arrivals)
    decreases |arrivals|
  {
    if arrivals != [] {
      var l := Parked(arrivals[0].0, arrivals[0].1);
      ItemsSnoc(Lines(file), l);
      ParksHold(Some(Lines(file) + [l]), arrivals[1..]);
    }
  }

  lemma {:induction false} ParksFill(file: Option<seq<Line>>, arrivals: seq<(string, string)>)
    ensures Filled(Lines(Parks(file, arrivals))) == Filled(Lines(file)) + ArrivedLines(arrivals)
    decreases |arrivals|
  {
    if arrivals != [] {
      var l := Parked(arrivals[0].0, arrivals[0].1);
      ItemsSnoc(Lines(file), l);
      ParksFill(Some(Lines(file) + [l]), arrivals[1..]);
      assert [l] + ArrivedLines(arrivals[1..]) == ArrivedLines(arrivals);
    }
  }

  /** Every claimed record is sent exactly when it succeeds, and goes back behind the arrivals
      otherwise; nothing else is sent or queued. */
  ghost predicate Settles(records: seq<Line>, attempts: seq<Attempt>, budget: nat, sent: seq<Line>, left: seq<Line>,
                          arrived: seq<Line>) {
    && arrived <= left && |records| == |sent| + |left| - |arrived| && |records| <= |attempts|
    && forall k :: 0 <= k < |records| ==> Placed(records, attempts, budget, sent, left[|arrived|..], k)
  }

  /** The fate of every claimed record, told of the queue behind the arrivals. */
  lemma {:induction false} AllPlaced(lines: seq<Line>, attempts: seq<Attempt>, budget: nat, arrived: seq<Line>,
                                     left: seq<Line>)
    requires |attempts| >= |Filled(lines)| && left == arrived + Kept(lines, attempts, budget)
    ensures Settles(Filled(lines), attempts, budget, Sent(lines, attempts, budget), left, arrived)
  {
    SentAndKeptCount(lines, attempts, budget);
    assert left[|arrived|..] == Kept(lines, attempts, budget);
    forall k | 0 <= k < |Filled(lines)|
      ensures Placed(Filled(lines), attempts, budget, Sent(lines, attempts, budget), left[|arrived|..], k)
    {
      RecordFate(lines, attempts, budget, k);
    }
  }

  lemma {:induction false} ParksRun(s: State, arrivals: seq<(string, string)>) returns (steps: seq<Step>)
    requires !Locked(s.phase)
    ensures CanRun(s, steps)
    ensures Run(s, steps) == s.(queue := Parks(s.queue, arrivals), parked := s.parked + Arrived(arrivals))
    decreases |arrivals|
  {
    if arrivals == [] {
      steps := [];
      assert s.parked + multiset{} == s.parked;
    } else {
      var l, rest := Parked(arrivals[0].0, arrivals[0].1), Arrived(arrivals[1..]);
      var t := Next(s, Park(l));
      steps := ParksRun(t, arrivals[1..]);
      RunMore(s, Park(l), steps);
      assert t.parked + rest == s.parked + (ItemOf(l) + rest);
      steps := [Park(l)] + steps;
    }
  }

  /** The lines that go back to the queue. */
  function Kept(lines: seq<Line>, attempts: seq<Attempt>, budget: nat): (kept: seq<Line>)
    requires |attempts| >= |Filled(lines)|
  {
    if lines == [] then []
    else if lines[0].Blank? then Kept(lines[1..], attempts, budget)
    else if budget == 0 then Filled(lines)
    else
      var rest := Kept(lines[1..], attempts[1..], budget - 1);
      match ReplayLine(lines[0], attempts[0])
      case None => rest
      case Some(back) => [back] + rest
  }

  /** The lines that are delivered. */
  function Sent(lines: seq<Line>, attempts: seq<Attempt>, budget: nat): (sent: seq<Line>)
    requires |attempts| >= |Filled(lines)|
  {
    if lines == [] then []
    else if lines[0].Blank? then Sent(lines[1..], attempts, budget)
    else if budget == 0 then []
    else
      var rest := Sent(lines[1..], attempts[1..], budget - 1);
      if ReplayLine(lines[0], attempts[0]).None? then [lines[0]] + rest else rest
  }

  /** Record k is delivered: it is reached before the cancellation, it parses, and its attempt
      succeeds. */
  predicate Succeeds(records: seq<Line>, attempts: seq<Attempt>, budget: nat, k: nat)
    requires k < |records| <= |attempts|
  {
    k < budget && records[k].Parked? && attempts[k].Delivered?
  }

  /** How many of the first k are. */
  function Successes(records: seq<Line>, attempts: seq<Attempt>, budget: nat, k: nat): (n: nat)
    requires k <= |records| <= |attempts|
    ensures n <= k
  {
    if k == 0 then 0
    else Successes(records, attempts, budget, k - 1) + if Succeeds(records, attempts, budget, k - 1) then 1 else 0
  }

  /** What goes back for record k otherwise: a parked one that was tried with the error of this
      attempt, anything else as it is. */
  function Returned(records: seq<Line>, attempts: seq<Attempt>, budget: nat, k: nat): Line
    requires k < |records| <= |attempts| && !Succeeds(records, attempts, budget, k)
  {
    if k < budget && records[k].Parked? then Parked(records[k].record, attempts[k].error) else records[k]
  }

  lemma {:induction false} SuccessesTail(records: seq<Line>, attempts: seq<Attempt>, budget: nat, k: nat)
    requires 0 < k <= |records| <= |attempts| && budget > 0
    ensures Successes(records, attempts, budget, k)
            == (if Succeeds(records, attempts, budget, 0) then 1 else 0)
               + Successes(records[1..], attempts[1..], budget - 1, k - 1)
  {
    if k > 1 {
      SuccessesTail(records, attempts, budget, k - 1);
      assert Succeeds(records, attempts, budget, k - 1) <==> Succeeds(records[1..], attempts[1..], budget - 1, k - 2);
    }
  }

  lemma {:induction false} NoSuccesses(records: seq<Line>, attempts: seq<Attempt>, k: nat)
    requires k <= |records| <= |attempts|
    ensures Successes(records, attempts, 0, k) == 0
  {
    if k > 0 {
      NoSuccesses(records, attempts, k - 1);
    }
  }

  /** What the first record adds to the two. */
  lemma {:induction false} HeadFate(lines: seq<Line>, attempts: seq<Attempt>, budget: nat)
    requires |attempts| >= |Filled(lines)| && lines != [] && !lines[0].Blank? && budget > 0
    ensures Filled(lines)[0] == lines[0] && Filled(lines)[1..] == Filled(lines[1..])
    ensures Sent(lines, attempts, budget)
            == (if Succeeds(Filled(lines), attempts, budget, 0) then [lines[0]] else [])
               + Sent(lines[1..], attempts[1..], budget - 1)
    ensures Kept(lines, attempts, budget)
            == (if Succeeds(Filled(lines), attempts, budget, 0) then []
                else [Returned(Filled(lines), attempts, budget, 0)])
               + Kept(lines[1..], attempts[1..], budget - 1)
  {
  }

  lemma {:induction false} TailFate(records: seq<Line>, attempts: seq<Attempt>, budget: nat, k: nat)
    requires 0 < k < |records| <= |attempts| && budget > 0
    ensures Succeeds(records, attempts, budget, k) <==> Succeeds(records[1..], attempts[1..], budget - 1, k - 1)
    ensures !Succeeds(records, attempts, budget, k) ==>
              Returned(records, attempts, budget, k) == Returned(records[1..], attempts[1..], budget - 1, k - 1)
  {
  }

  /** Where record k ends up among those sent and those kept. */
  ghost predicate Placed(records: seq<Line>, attempts: seq<Attempt>, budget: nat, sent: seq<Line>, kept: seq<Line>,
                         k: nat)
    requires k < |records| <= |attempts|
  {
    var n := Successes(records, attempts, budget, k);
    if Succeeds(records, attempts, budget, k) then n < |sent| && sent[n] == records[k]
    else k - n < |kept| && kept[k - n] == Returned(records, attempts, budget, k)
  }

  /** What becomes of each record of a claimed file, in order: sent exactly when it parses and its
      attempt succeeds before the cancellation, put back otherwise. */
  lemma {:induction false} RecordFate(lines: seq<Line>, attempts: seq<Attempt>, budget: nat, k: nat)
    requires |attempts| >= |Filled(lines)| && k < |Filled(lines)|
    ensures Placed(Filled(lines), attempts, budget, Sent(lines, attempts, budget), Kept(lines, attempts, budget), k)
    decreases |lines|
  {
    var records := Filled(lines);
    if lines[0].Blank? {
      RecordFate(lines[1..], attempts, budget, k);
    } else if budget == 0 {
      NoSuccesses(records, attempts, k);
    } else {
      HeadFate(lines, attempts, budget);
      if k > 0 {
        RecordFate(lines[1..], attempts[1..], budget - 1, k - 1);
        PlacedBehind(records, attempts, budget, Sent(lines[1..], attempts[1..], budget - 1),
                     Kept(lines[1..], attempts[1..], budget - 1), k);
      }
    }
  }

  lemma {:induction false} PlacedBehind(records: seq<Line>, attempts: seq<Attempt>, budget: nat, sent: seq<Line>,
                                        kept: seq<Line>, k: nat)
    requires 0 < k < |records| <= |attempts| && budget > 0
    requires Placed(records[1..], attempts[1..], budget - 1, sent, kept, k - 1)
    ensures var first := Succeeds(records, attempts, budget, 0);
            Placed(records, attempts, budget, (if first then [records[0]] else []) + sent,
                   (if first then [] else [Returned(records, attempts, budget, 0)]) + kept, k)
  {
    SuccessesTail(records, attempts, budget, k);
    TailFate(records, attempts, budget, k);
  }

  /** Blank lines make no difference, and none goes back. */
  lemma {:induction false} BlanksDoNotMatter(lines: seq<Line>, attempts: seq<Attempt>, budget: nat)
    requires |attempts| >= |Filled(lines)|
    ensures Filled(Filled(lines)) == Filled(lines)
    ensures Sent(Filled(lines), attempts, budget) == Sent(lines, attempts, budget)
    ensures Kept(Filled(lines), attempts, budget) == Kept(lines, attempts, budget)
    ensures Filled(Kept(lines, attempts, budget)) == Kept(lines, attempts, budget)
    decreases |lines|
  {
    FilledHoldAll(lines);
    if lines == [] {
    } else if lines[0].Blank? {
      BlanksDoNotMatter(lines[1..], attempts, budget);
    } else if budget > 0 {
      BlanksDoNotMatter(lines[1..], attempts[1..], budget - 1);
      HeadFate(lines, attempts, budget);
      FilledHoldAll(lines[1..]);
      HeadFate(Filled(lines), attempts, budget);
      KeptIsFilled(ReplayLine(lines[0], attempts[0]), Kept(lines[1..], attempts[1..], budget - 1));
    }
  }

  lemma {:induction false} KeptIsFilled(back: Option<Line>, rest: seq<Line>)
    requires Filled(rest) == rest && (back.Some? ==> !back.value.Blank?)
    ensures back.Some? ==> Filled([back.value] + rest) == [back.value] + rest
  {
    if back.Some? {
      FilledConcat([back.value], rest);
      ItemsOne(back.value);
    }
  }

  /** And as many are sent as succeed. */
  lemma {:induction false} SentCount(lines: seq<Line>, attempts: seq<Attempt>, budget: nat)
    requires |attempts| >= |Filled(lines)|
    ensures |Sent(lines, attempts, budget)| == Successes(Filled(lines), attempts, budget, |Filled(lines)|)
    decreases |lines|
  {
    var records := Filled(lines);
    if lines == [] {
    } else if lines[0].Blank? {
      SentCount(lines[1..], attempts, budget);
    } else if budget == 0 {
      NoSuccesses(records, attempts, |records|);
    } else {
      HeadFate(lines, attempts, budget);
      SuccessesTail(records, attempts, budget, |records|);
      SentCount(lines[1..], attempts[1..], budget - 1);
    }
  }

  /** Every record is delivered or goes back. */
  lemma {:induction false} SentOrKept(lines: seq<Line>, attempts: seq<Attempt>, budget: nat)
    requires |attempts| >= |Filled(lines)|
    ensures Items(lines) == Items(Sent(lines, attempts, budget)) + Items(Kept(lines, attempts, budget))
  {
    if lines == [] {
    } else if lines[0].Blank? {
      SentOrKept(lines[1..], attempts, budget);
      assert Items(lines) == multiset{} + Items(lines[1..]) == Items(lines[1..]);
    } else if budget == 0 {
      FilledHoldAll(lines);
      assert Items(lines) == multiset{} + Items(Filled(lines));
    } else {
      SentOrKept(lines[1..], attempts[1..], budget - 1);
      SentOrKeptMore(lines[0], ReplayLine(lines[0], attempts[0]), Items(lines[1..]),
                     Sent(lines[1..], attempts[1..], budget - 1), Kept(lines[1..], attempts[1..], budget - 1));
    }
  }

  lemma {:induction false} SentOrKeptMore(l: Line, back: Option<Line>, rest: multiset<Item>, sent: seq<Line>,
                                          kept: seq<Line>)
    requires rest == Items(sent) + Items(kept) && (back.Some? ==> ItemOf(back.value) == ItemOf(l))
    ensures ItemOf(l) + rest
            == if back.None? then Items([l] + sent) + Items(kept) else Items(sent) + Items([back.value] + kept)
  {
    if back.None? {
      ItemsConcat([l], sent);
      ItemsOne(l);
    } else {
      ItemsConcat([back.value], kept);
      ItemsOne(back.value);
    }
  }

  lemma {:induction false} SentAndKeptCount(lines: seq<Line>, attempts: seq<Attempt>, budget: nat)
    requires |attempts| >= |Filled(lines)|
    ensures |Sent(lines, attempts, budget)| + |Kept(lines, attempts, budget)| == |Filled(lines)|
  {
    if lines == [] {
    } else if lines[0].Blank? {
      SentAndKeptCount(lines[1..], attempts, budget);
    } else if budget > 0 {
      SentAndKeptCount(lines[1..], attempts[1..], budget - 1);
    }
  }

  /** The network phase over the claimed lines: every record is sent or kept. */
  method Replay(lines: seq<Line>, attempts: seq<Attempt>, cancelAt: nat)
    returns (redelivered: nat, kept: seq<Line>, sent: seq<Line>)
    requires |attempts| >= |Filled(lines)|
    ensures kept == Kept(lines, attempts, cancelAt) && sent == Sent(lines, attempts, cancelAt)
    ensures |sent| == redelivered
  {
    redelivered, kept, sent := 0, [], [];
    var todo, i := lines, 0;
    assert attempts[0..] == attempts;
    while todo != []
      invariant i <= cancelAt && |attempts| - i >= |Filled(todo)| && |sent| == redelivered
      invariant kept + Kept(todo, attempts[i..], cancelAt - i) == Kept(lines, attempts, cancelAt)
      invariant sent + Sent(todo, attempts[i..], cancelAt - i) == Sent(lines, attempts, cancelAt)
      decreases |todo|
    {
      if !todo[0].Blank? {
        if i == cancelAt {
          kept := KeepRest(kept, todo);
          break;
        }
        assert attempts[i..][1..] == attempts[i + 1..];
        match ReplayLine(todo[0], attempts[i]) {
          case None =>
            sent := sent + [todo[0]];
            redelivered := redelivered + 1;
          case Some(back) =>
            kept := kept + [back];
        }
        i := i + 1;
      }
      todo := todo[1..];
    }
  }

  /** The redelivery after these records went back and these were sent. */
  function Worked(s: State, kept: seq<Line>, sent: seq<Line>): State
    requires s.phase.Working?
  {
    s.(phase := Working([], s.phase.kept + kept, s.phase.sent + Items(sent)), delivered := s.delivered + Items(sent))
  }

  lemma WorkedNone(s: State)
    requires s.phase.Working?
    ensures Worked(s, s.phase.todo, []) == s.(phase := s.phase.(todo := [], kept := s.phase.kept + s.phase.todo))
  {
    assert s.phase.sent + multiset{} == s.phase.sent && s.delivered + multiset{} == s.delivered;
  }

  lemma WorkedMore(s: State, outcome: Attempt, kept: seq<Line>, sent: seq<Line>)
    requires Enabled(s, Attempted(outcome))
    ensures var l, t := s.phase.todo[0], Next(s, Attempted(outcome));
            match ReplayLine(l, outcome) {
              case None => Worked(t, kept, sent) == Worked(s, kept, [l] + sent)
              case Some(back) => Worked(t, kept, sent) == Worked(s, [back] + kept, sent)
            }
  {
    var l, p := s.phase.todo[0], s.phase;
    match ReplayLine(l, outcome)
    case None =>
      ItemsConcat([l], sent);
      ItemsOne(l);
      assert p.sent + ItemOf(l) + Items(sent) == p.sent + (ItemOf(l) + Items(sent));
      assert s.delivered + ItemOf(l) + Items(sent) == s.delivered + (ItemOf(l) + Items(sent));
    case Some(back) =>
      assert p.kept + [back] + kept == p.kept + ([back] + kept);
  }

  lemma {:induction false} AttemptsRun(s: State, lines: seq<Line>, attempts: seq<Attempt>, budget: nat)
    returns (steps: seq<Step>)
    requires s.phase.Working? && s.phase.todo == Filled(lines) && |attempts| >= |Filled(lines)|
    ensures CanRun(s, steps)
    ensures Run(s, steps) == Worked(s, Kept(lines, attempts, budget), Sent(lines, attempts, budget))
    decreases |lines|
  {
    WorkedNone(s);
    if lines == [] {
      steps := [];
      assert s.phase.kept + [] == s.phase.kept;
    } else if lines[0].Blank? {
      steps := AttemptsRun(s, lines[1..], attempts, budget);
    } else if budget == 0 {
      steps := [Cancel] + [];
      RunMore(s, Cancel, []);
    } else {
      var step := Attempted(attempts[0]);
      var t := Next(s, step);
      assert Filled(lines)[1..] == Filled(lines[1..]);
      steps := AttemptsRun(t, lines[1..], attempts[1..], budget - 1);
      RunMore(s, step, steps);
      WorkedMore(s, attempts[0], Kept(lines[1..], attempts[1..], budget - 1),
                 Sent(lines[1..], attempts[1..], budget - 1));
      steps := [step] + steps;
    }
  }

  /** On the state machine that is one step per record, a cancellation perhaps, and the two
      file operations at the end. */
  lemma {:induction false} ReplayRuns(s: State, lines: seq<Line>, attempts: seq<Attempt>, cancelAt: nat)
    returns (steps: seq<Step>)
    requires |attempts| >= |Filled(lines)| && s.phase == Working(Filled(lines), [], multiset{})
    ensures CanRun(s, steps)
    ensures Run(s, steps) == s.(queue := Appended(s.queue, Kept(lines, attempts, cancelAt)), claim := None,
                                phase := Idle,
                                delivered := s.delivered + Items(Sent(lines, attempts, cancelAt)))
  {
    steps := AttemptsRun(s, lines, attempts, cancelAt);
    assert [] + Kept(lines, attempts, cancelAt) == Kept(lines, attempts, cancelAt);
    var t;
    steps, t := Take(s, steps, AppendKept);
    steps, t := Take(s, steps, RemoveClaim);
  }

  /** Nothing is lost or made up by it, and every record has its fate. */
  lemma {:induction false} ServeSettles(lines: seq<Line>, arrivals: seq<(string, string)>, attempts: seq<Attempt>,
                                        cancelAt: nat)
    requires |attempts| >= |Filled(lines)|
    ensures var sent, kept := Sent(lines, attempts, cancelAt), Kept(lines, attempts, cancelAt);
            var left := Lines(Appended(Parks(None, arrivals), kept));
            && Items(sent) + Items(left) == Items(lines) + Arrived(arrivals)
            && |sent| + |kept| == |Items(lines)|
            && Settles(Filled(lines), attempts, cancelAt, sent, Filled(left), ArrivedLines(arrivals))
  {
    var sent, kept := Sent(lines, attempts, cancelAt), Kept(lines, attempts, cancelAt);
    var parked: Option<seq<Line>> := Parks(None, arrivals);
    var left := Lines(Appended(parked, kept));
    FilledHoldAll(lines);
    SentAndKeptCount(lines, attempts, cancelAt);
    BlanksDoNotMatter(lines, attempts, cancelAt);
    ParksFill(None, arrivals);
    AppendedItems(parked, kept);
    assert [] + ArrivedLines(arrivals) == ArrivedLines(arrivals);
    AllPlaced(lines, attempts, cancelAt, ArrivedLines(arrivals), Filled(left));
    ServeBalances(lines, arrivals, attempts, cancelAt, parked);
  }

  lemma {:induction false} ServeBalances(lines: seq<Line>, arrivals: seq<(string, string)>, attempts: seq<Attempt>,
                                         cancelAt: nat, parked: Option<seq<Line>>)
    requires |attempts| >= |Filled(lines)| && parked == Parks(None, arrivals)
    ensures Items(Sent(lines, attempts, cancelAt)) + Items(Lines(Appended(parked, Kept(lines, attempts, cancelAt))))
            == Items(lines) + Arrived(arrivals)
  {
    ParksHold(None, arrivals);
    AppendedItems(parked, Kept(lines, attempts, cancelAt));
    SentOrKept(lines, attempts, cancelAt);
  }

  lemma {:induction false} ServeRuns(t: State, lines: seq<Line>, arrivals: seq<(string, string)>,
                                     attempts: seq<Attempt>, cancelAt: nat)
    returns (rest: seq<Step>)
    requires |attempts| >= |Filled(lines)| && t.phase == Working(Filled(lines), [], multiset{})
    ensures CanRun(t, rest)
    ensures Run(t, rest).queue == Appended(Parks(t.queue, arrivals), Kept(lines, attempts, cancelAt))
    ensures Run(t, rest).claim == None && Run(t, rest).phase == Idle
    ensures Run(t, rest).delivered == t.delivered + Items(Sent(lines, attempts, cancelAt))
  {
    rest := ParksRun(t, arrivals);
    var finish := ReplayRuns(Run(t, rest), lines, attempts, cancelAt);
    RunConcat(t, rest, finish);
    rest := rest + finish;
  }

  /** Cancelled: the records not tried go back as they are. */
  method KeepRest(kept0: seq<Line>, todo: seq<Line>) returns (kept: seq<Line>)
    ensures kept == kept0 + Filled(todo)
  {
    kept := kept0;
    var rest := todo;
    while rest != []
      invariant kept + Filled(rest) == kept0 + Filled(todo)
      decreases |rest|
    {
      if !rest[0].Blank? {
        kept := kept + [rest[0]];
      }
      rest := rest[1..];
    }
  }

  /** What goes back to the queue for a line: nothing once it is delivered. */
  function ReplayLine(l: Line, attempt: Attempt): (back: Option<Line>)
    requires !l.Blank?
    ensures back.Some? ==> ItemOf(back.value) == ItemOf(l) && !back.value.Blank?
  {
    match l
    case Garbled(_) => Some(l)
    case Parked(r, _) => if attempt.Delivered? then None else Some(Parked(r, attempt.error))
  }

  // ---- every interleaving, with crashes ------------------------------------------------

  /** How far a redelivery has got. Folding and finishing hold the lock; the
      network phase does not. */
  datatype Phase =
    | Idle
    | LeftoverAppended
    | ReadyToClaim
    | Working(todo: seq<Line>, kept: seq<Line>, sent: multiset<Item>)
    | KeptAppended(count: nat)

  datatype State = State(
    queue: Option<seq<Line>>, claim: Option<seq<Line>>, phase: Phase,
    delivered: multiset<Item>, parked: multiset<Item>, crashed: bool)

  const INITIAL := State(None, None, Idle, multiset{}, multiset{}, false)

  datatype Step =
    | Park(line: Line)
    | Begin
    | RemoveLeftover
    | Rename
    | Attempted(outcome: Attempt)
    | Cancel
    | AppendKept
    | RemoveClaim
    | Crash

  predicate Locked(p: Phase) { p.LeftoverAppended? || p.ReadyToClaim? || p.KeptAppended? }

  predicate Enabled(s: State, step: Step) {
    match step
    case Park(l) => l.Parked? && !Locked(s.phase)
    case Begin => s.phase.Idle?
    case RemoveLeftover => s.phase.LeftoverAppended?
    case Rename => s.phase.ReadyToClaim?
    case Attempted(_) => s.phase.Working? && s.phase.todo != [] && !s.phase.todo[0].Blank?
    case Cancel => s.phase.Working? && s.phase.todo != []
    case AppendKept => s.phase.Working? && s.phase.todo == []
    case RemoveClaim => s.phase.KeptAppended?
    case Crash => true
  }

  function Next(s: State, step: Step): State
    requires Enabled(s, step)
  {
    match step
    case Park(l) =>
      s.(queue := Some(Lines(s.queue) + [l]), parked := s.parked + ItemOf(l))
    case Begin =>
      if s.claim.None? then s.(phase := ReadyToClaim)
      else s.(queue := Appended(s.queue, s.claim.value), phase := LeftoverAppended)
    case RemoveLeftover => s.(claim := None, phase := ReadyToClaim)
    case Rename =>
      if s.queue.None? then s.(phase := Idle)
      else s.(claim := s.queue, queue := None, phase := Working(Filled(s.queue.value), [], multiset{}))
    case Attempted(outcome) => AfterAttempt(s, outcome)
    case Cancel =>
      s.(phase := s.phase.(todo := [], kept := s.phase.kept + s.phase.todo))
    case AppendKept =>
      s.(queue := Appended(s.queue, s.phase.kept), phase := KeptAppended(|s.phase.kept|))
    case RemoveClaim => s.(claim := None, phase := Idle)
    case Crash => s.(phase := Idle, crashed := true)
  }

  function AfterAttempt(s: State, outcome: Attempt): State
    requires s.phase.Working? && s.phase.todo != [] && !s.phase.todo[0].Blank?
  {
    var l, p := s.phase.todo[0], s.phase;
    match ReplayLine(l, outcome)
    case Some(back) => s.(phase := Working(p.todo[1..], p.kept + [back], p.sent))
    case None =>
      s.(phase := Working(p.todo[1..], p.kept, p.sent + ItemOf(l)),
         delivered := s.delivered + ItemOf(l))
  }

  /** What the files and the receiver hold between them. */
  function Accounted(s: State): multiset<Item> {
    s.delivered + Items(Lines(s.queue)) + Items(Lines(s.claim))
  }

  /** While a claim is replayed, the claim file still holds everything it was
      made of: what was sent since, what was kept, and what is to do. */
  ghost predicate ClaimBalanced(s: State) {
    s.phase.Working? ==>
      && s.claim.Some? && s.phase.sent <= s.delivered
      && Items(s.claim.value) == s.phase.sent + Items(s.phase.kept) + Items(s.phase.todo)
      && Filled(s.phase.kept) == s.phase.kept && Filled(s.phase.todo) == s.phase.todo
  }

  /** What is safe without the claim file, when that is about to be removed or gone. */
  ghost predicate NothingOnlyClaimed(s: State) {
    && (s.phase.LeftoverAppended? || s.phase.KeptAppended? ==> s.parked <= s.delivered + Items(Lines(s.queue)))
    && (s.phase.ReadyToClaim? ==> s.claim.None?)
    && (s.phase.Working? ==> s.parked + s.phase.sent <= Accounted(s))
  }

  ghost predicate Safe(s: State) {
    s.parked <= Accounted(s) && ClaimBalanced(s) && NothingOnlyClaimed(s)
  }

  lemma StepSafe(s: State, step: Step)
    requires Safe(s) && Enabled(s, step)
    ensures Safe(Next(s, step))
  {
    match step
    case Park(l) => ParkSafe(s, l);
    case Begin => BeginSafe(s);
    case RemoveLeftover =>
    case Rename => RenameSafe(s);
    case Attempted(outcome) => AttemptSafe(s, outcome);
    case Cancel => CancelSafe(s);
    case AppendKept => AppendKeptSafe(s);
    case RemoveClaim =>
    case Crash =>
  }

  lemma ParkSafe(s: State, l: Line)
    requires Safe(s) && Enabled(s, Park(l))
    ensures Safe(Next(s, Park(l)))
  {
    ItemsSnoc(Lines(s.queue), l);
    var t := Next(s, Park(l));
    assert Accounted(t) == Accounted(s) + ItemOf(l);
  }

  lemma BeginSafe(s: State)
    requires Safe(s) && s.phase.Idle?
    ensures Safe(Next(s, Begin))
  {
    if s.claim.Some? {
      AppendedItems(s.queue, s.claim.value);
    }
  }

  lemma RenameSafe(s: State)
    requires Safe(s) && s.phase.ReadyToClaim?
    ensures Safe(Next(s, Rename))
  {
    assert Accounted(Next(s, Rename)) == Accounted(s);
    FilledHoldAll(Lines(s.queue));
  }

  lemma AttemptSafe(s: State, outcome: Attempt)
    requires Safe(s) && s.phase.Working? && s.phase.todo != [] && !s.phase.todo[0].Blank?
    ensures Safe(AfterAttempt(s, outcome))
  {
    var l, p := s.phase.todo[0], s.phase;
    var t := AfterAttempt(s, outcome);
    var x := ItemOf(l);
    MoveOne(Items(s.claim.value), p.sent, Items(p.kept), Items(p.todo), x, Items(p.todo[1..]));
    assert Filled(p.todo[1..]) == p.todo[1..] by { assert Filled(p.todo) == [l] + Filled(p.todo[1..]); }
    match ReplayLine(l, outcome) {
      case Some(back) =>
        ItemsSnoc(p.kept, back);
      case None =>
        assert Accounted(t) == Accounted(s) + x;
    }
  }

  lemma MoveOne(all: multiset<Item>, sent: multiset<Item>, kept: multiset<Item>, todo: multiset<Item>,
                x: multiset<Item>, rest: multiset<Item>)
    requires all == sent + kept + todo && todo == x + rest
    ensures all == sent + x + kept + rest && all == sent + (kept + x) + rest
  {
  }

  lemma CancelSafe(s: State)
    requires Safe(s) && s.phase.Working?
    ensures Safe(s.(phase := s.phase.(todo := [], kept := s.phase.kept + s.phase.todo)))
  {
    ItemsConcat(s.phase.kept, s.phase.todo);
    FilledConcat(s.phase.kept, s.phase.todo);
  }

  lemma AppendKeptSafe(s: State)
    requires Safe(s) && s.phase.Working? && s.phase.todo == []
    ensures Safe(Next(s, AppendKept))
  {
    AppendedItems(s.queue, s.phase.kept);
  }

  ghost predicate CanRun(s: State, steps: seq<Step>)
    decreases |steps|
  {
    steps != [] ==> Enabled(s, steps[0]) && CanRun(Next(s, steps[0]), steps[1..])
  }

  ghost function Run(s: State, steps: seq<Step>): State
    requires CanRun(s, steps)
    decreases |steps|
  {
    if steps == [] then s else Run(Next(s, steps[0]), steps[1..])
  }

  lemma {:induction false} RunNone(s: State)
    ensures CanRun(s, []) && Run(s, []) == s
  {
  }

  lemma {:induction false} RunConcat(s: State, a: seq<Step>, b: seq<Step>)
    requires CanRun(s, a) && CanRun(Run(s, a), b)
    ensures CanRun(s, a + b) && Run(s, a + b) == Run(Run(s, a), b)
    decreases |a|
  {
    if a == [] {
      assert a + b == b;
    } else {
      assert (a + b)[1..] == a[1..] + b;
      RunConcat(Next(s, a[0]), a[1..], b);
    }
  }

  lemma {:induction false} RunMore(s: State, step: Step, rest: seq<Step>)
    requires Enabled(s, step) && CanRun(Next(s, step), rest)
    ensures CanRun(s, [step] + rest) && Run(s, [step] + rest) == Run(Next(s, step), rest)
  {
    assert ([step] + rest)[1..] == rest;
  }

  /** A run goes on for one step. */
  lemma {:induction false} Take(s: State, steps: seq<Step>, step: Step) returns (more: seq<Step>, t: State)
    requires CanRun(s, steps) && Enabled(Run(s, steps), step)
    ensures more == steps + [step] && CanRun(s, more) && t == Run(s, more) == Next(Run(s, steps), step)
  {
    more := steps + [step];
    t := Next(Run(s, steps), step);
    assert [step][1..] == [];
    assert CanRun(Run(s, steps), [step]);
    RunConcat(s, steps, [step]);
  }

  lemma {:induction false} RunSafe(s: State, steps: seq<Step>)
    requires Safe(s) && CanRun(s, steps)
    ensures Safe(Run(s, steps))
    decreases |steps|
  {
    if steps != [] {
      StepSafe(s, steps[0]);
      RunSafe(Next(s, steps[0]), steps[1..]);
    }
  }

  /** Over every run of parkings, redeliveries, cancellations and crashes between
      any two file operations, each parked record is delivered, in the queue file or
      in the claim file, as often as it was parked. */
  lemma {:induction false} NeverLost(steps: seq<Step>)
    requires CanRun(INITIAL, steps)
    ensures Run(INITIAL, steps).parked <= Accounted(Run(INITIAL, steps))
  {
    RunSafe(INITIAL, steps);
  }

  /** When a redelivery finishes, what it sent and what it kept add up to the
      number of records it claimed. */
  lemma CountsAddUp(s: State)
    requires Safe(s) && s.phase.Working? && s.phase.todo == []
    ensures |s.phase.sent| + |s.phase.kept| == |Filled(s.claim.value)|
  {
    FilledHoldAll(s.claim.value);
    FilledHoldAll(s.phase.kept);
  }

  // ---- without crashes, exactly once ---------------------------------------------------

  /** What the running redelivery still has to send or to put back. */
  function Outstanding(p: Phase): multiset<Item> {
    if p.Working? then Items(p.kept) + Items(p.todo) else multiset{}
  }

  ghost predicate Exact(s: State) {
    !s.crashed ==>
      && s.parked == s.delivered + Items(Lines(s.queue)) + Outstanding(s.phase)
      && !s.phase.LeftoverAppended?
      && (s.phase.Idle? || s.phase.ReadyToClaim? ==> s.claim.None?)
  }

  lemma StepExact(s: State, step: Step)
    requires Exact(s) && Enabled(s, step)
    ensures Exact(Next(s, step))
  {
    if !s.crashed {
      match step
      case Park(l) => ParkExact(s, l);
      case Begin =>
      case RemoveLeftover =>
      case Rename => RenameExact(s);
      case Attempted(outcome) => AttemptExact(s, outcome);
      case Cancel => CancelExact(s);
      case AppendKept => AppendedItems(s.queue, s.phase.kept);
      case RemoveClaim =>
      case Crash =>
    }
  }

  lemma ParkExact(s: State, l: Line)
    requires Exact(s) && Enabled(s, Park(l))
    ensures Exact(Next(s, Park(l)))
  {
    ItemsSnoc(Lines(s.queue), l);
  }

  lemma CancelExact(s: State)
    requires Exact(s) && s.phase.Working?
    ensures Exact(s.(phase := s.phase.(todo := [], kept := s.phase.kept + s.phase.todo)))
  {
    ItemsConcat(s.phase.kept, s.phase.todo);
  }

  lemma RenameExact(s: State)
    requires Exact(s) && !s.crashed && s.phase.ReadyToClaim?
    ensures Exact(Next(s, Rename))
  {
    var t := Next(s, Rename);
    FilledHoldAll(Lines(s.queue));
    if s.queue.Some? {
      assert Outstanding(t.phase) == multiset{} + Items(s.queue.value);
      assert s.parked == s.delivered + Items(s.queue.value) + multiset{};
    }
  }

  lemma AttemptExact(s: State, outcome: Attempt)
    requires Exact(s) && !s.crashed && s.phase.Working? && s.phase.todo != [] && !s.phase.todo[0].Blank?
    ensures Exact(AfterAttempt(s, outcome))
  {
    var l, p := s.phase.todo[0], s.phase;
    var x, rest := ItemOf(l), Items(p.todo[1..]);
    MoveOne(Outstanding(p), multiset{}, Items(p.kept), Items(p.todo), x, rest);
    match ReplayLine(l, outcome) {
      case Some(back) => ItemsSnoc(p.kept, back);
      case None =>
    }
  }

  lemma {:induction false} RunExact(s: State, steps: seq<Step>)
    requires Exact(s) && CanRun(s, steps)
    ensures Exact(Run(s, steps))
    decreases |steps|
  {
    if steps != [] {
      StepExact(s, steps[0]);
      RunExact(Next(s, steps[0]), steps[1..]);
    }
  }

  /** In a run without crashes nothing is lost and nothing is duplicated. */
  lemma {:induction false} ExactWithoutCrashes(steps: seq<Step>)
    requires CanRun(INITIAL, steps) && !Run(INITIAL, steps).crashed
    ensures var s := Run(INITIAL, steps); s.parked == s.delivered + Items(Lines(s.queue)) + Outstanding(s.phase)
  {
    RunExact(INITIAL, steps);
  }

  /** When a record is parked during the network phase makes no difference. */
  lemma ParkCommutes(s: State, l: Line, outcome: Attempt)
    requires Enabled(s, Park(l)) && Enabled(s, Attempted(outcome))
    ensures Enabled(Next(s, Park(l)), Attempted(outcome)) && Enabled(Next(s, Attempted(outcome)), Park(l))
    ensures Next(Next(s, Park(l)), Attempted(outcome)) == Next(Next(s, Attempted(outcome)), Park(l))
  {
  }

  // ---- what delivered means ------------------------------------------------------------------

  /** The record that a step delivers: the one whose turn it is, when the attempt succeeds. */
  function Acknowledged(s: State, step: Step): multiset<Item>
    requires Enabled(s, step)
  {
    if step == Attempted(Delivered) && s.phase.todo[0].Parked? then multiset{Record(s.phase.todo[0].record)}
    else multiset{}
  }

  ghost function AllAcknowledged(s: State, steps: seq<Step>): multiset<Item>
    requires CanRun(s, steps)
    decreases |steps|
  {
    if steps == [] then multiset{}
    else Acknowledged(s, steps[0]) + AllAcknowledged(Next(s, steps[0]), steps[1..])
  }

  /** A step delivers what is acknowledged, and nothing else. A failed attempt puts the record
      back with its error. */
  lemma StepDelivers(s: State, step: Step)
    requires Enabled(s, step)
    ensures Next(s, step).delivered == s.delivered + Acknowledged(s, step)
    ensures step.Attempted? && step.outcome.FailedWith? && s.phase.todo[0].Parked? ==>
              Next(s, step).phase.kept == s.phase.kept + [Parked(s.phase.todo[0].record, step.outcome.error)]
    ensures step.Attempted? && s.phase.todo[0].Garbled? ==>
              Next(s, step).phase.kept == s.phase.kept + [s.phase.todo[0]]
  {
  }

  /** In every run, the records delivered are exactly those that were next when an attempt
      succeeded. */
  lemma {:induction false} DeliveredAre(s: State, steps: seq<Step>)
    requires CanRun(s, steps)
    ensures Run(s, steps).delivered == s.delivered + AllAcknowledged(s, steps)
    decreases |steps|
  {
    if steps != [] {
      StepDelivers(s, steps[0]);
      DeliveredAre(Next(s, steps[0]), steps[1..]);
    }
  }
}
