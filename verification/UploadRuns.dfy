/** An upload done by the uploader's method is a run of the cold tier's events. */
module UploadRuns {
  import opened Bytes
  import opened Options
  import opened ObjectStore
  import opened Manifests
  import opened Uploader
  import A = Archive

  ghost predicate CanRun(c: A.Config, all: A.Pieces, gone: set<Key>, a: A.State, k: Key, evs: seq<A.Event>)
    decreases |evs|
  {
    evs != [] ==>
      A.Enabled(c, all, gone, a, k, evs[0]) && CanRun(c, all, gone, A.Step(c, all, gone, a, k, evs[0]), k, evs[1..])
  }

  ghost function Run(c: A.Config, all: A.Pieces, gone: set<Key>, a: A.State, k: Key, evs: seq<A.Event>): A.State
    requires CanRun(c, all, gone, a, k, evs)
    decreases |evs|
  {
    if evs == [] then a else Run(c, all, gone, A.Step(c, all, gone, a, k, evs[0]), k, evs[1..])
  }

  /** Events of segment k lead from a to b. */
  ghost predicate Leads(c: A.Config, all: A.Pieces, gone: set<Key>, a: A.State, k: Key, b: A.State) {
    exists evs :: CanRun(c, all, gone, a, k, evs) && Run(c, all, gone, a, k, evs) == b
  }

  lemma {:induction false} RunSnoc(c: A.Config, all: A.Pieces, gone: set<Key>, a: A.State, k: Key, evs: seq<A.Event>,
                                   ev: A.Event)
    requires CanRun(c, all, gone, a, k, evs) && A.Enabled(c, all, gone, Run(c, all, gone, a, k, evs), k, ev)
    ensures CanRun(c, all, gone, a, k, evs + [ev])
    ensures Run(c, all, gone, a, k, evs + [ev]) == A.Step(c, all, gone, Run(c, all, gone, a, k, evs), k, ev)
    decreases |evs|
  {
    if evs == [] {
      assert [] + [ev] == [ev];
      assert [ev][1..] == [];
    } else {
      assert (evs + [ev])[1..] == evs[1..] + [ev];
      RunSnoc(c, all, gone, A.Step(c, all, gone, a, k, evs[0]), k, evs[1..], ev);
    }
  }

  lemma {:induction false} Stay(c: A.Config, all: A.Pieces, gone: set<Key>, a: A.State, k: Key)
    ensures Leads(c, all, gone, a, k, a)
  {
    assert CanRun(c, all, gone, a, k, []) && Run(c, all, gone, a, k, []) == a;
  }

  lemma {:induction false} Go(c: A.Config, all: A.Pieces, gone: set<Key>, a: A.State, k: Key, b: A.State, ev: A.Event,
                              d: A.State)
    requires Leads(c, all, gone, a, k, b) && A.Enabled(c, all, gone, b, k, ev) && d == A.Step(c, all, gone, b, k, ev)
    ensures Leads(c, all, gone, a, k, d)
  {
    var evs :| CanRun(c, all, gone, a, k, evs) && Run(c, all, gone, a, k, evs) == b;
    RunSnoc(c, all, gone, a, k, evs, ev);
  }

  // ---- the states of one upload -------------------------------------------------------------

  /** The upload of segment k in state a: its id, its digest and the checkpoints with its own. */
  datatype Job = Job(k: Key, id: int, digest: Digest, pending: map<Key, Pending>)

  function Underway(a: A.State, j: Job, parts: map<nat, bytes>, phase: A.Phase, n: nat): A.State {
    a.(uploads := a.uploads[j.id := Upload(j.k, j.digest, parts)], memPending := j.pending, diskPending := j.pending,
       flights := map[j.k := A.Flight(phase, j.id, n)])
  }

  function Stored(a: A.State, j: Job, file: bytes, n: nat): A.State {
    a.(objects := a.objects[j.k := Object(file, Some(j.digest))], uploads := a.uploads - {j.id},
       memPending := j.pending, diskPending := j.pending, flights := map[j.k := A.Flight(A.Stored, j.id, n)])
  }

  /** A segment not yet archived, with nothing else going on. */
  ghost predicate Ready(c: A.Config, all: A.Pieces, gone: set<Key>, a: A.State, src: Source, newId: int) {
    && A.Right(c, all, a) && a.flights == map[] && a.boot == {} && c.limit >= 1 && c.partSize > 0
    && src.key in all && all[src.key] == A.Piece(src.next, src.file) && src.key !in gone
    && Lookup(a.mem, src.key).None? && A.Unused(a, newId)
  }

  /** How many parts are kept. */
  function Resumes(c: A.Config, a: A.State, src: Source, up: bool): nat {
    KeptIf(up, a.uploads, a.memPending, src.key, c.sha(src.file), c.partSize)
  }

  function JobOf(c: A.Config, a: A.State, src: Source, newId: int, up: bool): Job {
    var digest := c.sha(src.file);
    if Resumes(c, a, src, up) > 0 then Job(src.key, a.memPending[src.key].upload, digest, a.memPending)
    else Job(src.key, newId, digest, a.memPending[src.key := Pending(src.next, Some(digest), newId)])
  }

  function Fits(c: A.Config, src: Source): bool {
    PartStart(src.file, c.partSize, MAX_PARTS) == |src.file|
  }

  /** What the upload leaves behind. */
  function Result(c: A.Config, a: A.State, src: Source, newId: int, up: bool, same: bool): A.State {
    var j, pending := JobOf(c, a, src, newId, up), a.memPending - {src.key};
    var objects := if Fits(c, src) then a.objects[src.key := Object(src.file, Some(j.digest))] else a.objects;
    var size := RecordedSize(Resumes(c, a, src, up), src.file, c.partSize);
    var b := a.(objects := objects, uploads := a.uploads - {j.id}, memPending := pending, diskPending := pending);
    if !Fits(c, src) || !same then b
    else
      var mem := Added(a.mem, Entry(src.key, src.next, size, Some(j.digest)));
      b.(mem := mem, disk := mem)
  }

  // ---- event by event ------------------------------------------------------------------------

  lemma {:induction false} Opens(c: A.Config, all: A.Pieces, gone: set<Key>, a: A.State, src: Source, newId: int,
                                 up: bool)
    returns (parts: map<nat, bytes>)
    requires Ready(c, all, gone, a, src, newId)
    ensures var j, m := JobOf(c, a, src, newId, up), Resumes(c, a, src, up);
            && m <= MAX_PARTS && HasUpTo(parts, m) && Faithful(parts, src.file, c.partSize)
            && A.Begin(c, all[src.key], a, src.key, newId, up)
               == Underway(a, j, parts, A.Opened, m).(diskPending := a.diskPending)
  {
    var j, m := JobOf(c, a, src, newId, up), Resumes(c, a, src, up);
    if m > 0 {
      parts := a.uploads[j.id].parts;
      TrustedAreStored(parts, c.partSize);
      TrustedInRange(parts, c.partSize);
      assert a.uploads[j.id] == Upload(src.key, j.digest, parts);
      assert a.uploads[j.id := a.uploads[j.id]] == a.uploads;
    } else {
      parts := map[];
    }
  }

  lemma {:induction false} FirstFlush(c: A.Config, all: A.Pieces, gone: set<Key>, a: A.State, j: Job,
                                      parts: map<nat, bytes>, m: nat, disk: map<Key, Pending>)
    ensures var b := Underway(a, j, parts, A.Opened, m).(diskPending := disk);
            && A.Enabled(c, all, gone, b, j.k, A.FlushPending)
            && A.Step(c, all, gone, b, j.k, A.FlushPending) == Underway(a, j, parts, A.Sending, m)
  {
    var b := Underway(a, j, parts, A.Opened, m).(diskPending := disk);
    assert A.InPhase(b, j.k, A.Opened);
    assert A.Step(c, all, gone, b, j.k, A.FlushPending) == A.Move(b.(diskPending := j.pending), j.k, A.Sending);
  }

  lemma {:induction false} Begins(c: A.Config, all: A.Pieces, gone: set<Key>, a: A.State, src: Source, newId: int,
                                 up: bool)
    returns (parts: map<nat, bytes>)
    requires Ready(c, all, gone, a, src, newId)
    ensures var j, m := JobOf(c, a, src, newId, up), Resumes(c, a, src, up);
            && m <= MAX_PARTS && HasUpTo(parts, m) && Faithful(parts, src.file, c.partSize)
            && Leads(c, all, gone, a, src.key, Underway(a, j, parts, A.Sending, m))
  {
    var j, m := JobOf(c, a, src, newId, up), Resumes(c, a, src, up);
    parts := Opens(c, all, gone, a, src, newId, up);
    FirstFlush(c, all, gone, a, j, parts, m, a.diskPending);
    var b := A.Begin(c, all[src.key], a, src.key, newId, up);
    Stay(c, all, gone, a, src.key);
    assert |a.flights| == 0;
    Go(c, all, gone, a, src.key, a, A.Start(newId, up), b);
    Go(c, all, gone, a, src.key, b, A.FlushPending, Underway(a, j, parts, A.Sending, m));
  }

  lemma {:induction false} SendStep(c: A.Config, all: A.Pieces, gone: set<Key>, a: A.State, src: Source, j: Job,
                                    parts: map<nat, bytes>, n: nat, more: map<nat, bytes>)
    requires src.key == j.k && j.k in all && all[src.key] == A.Piece(src.next, src.file)
    requires n < MAX_PARTS && PartStart(src.file, c.partSize, n) < |src.file|
    requires more == parts[n + 1 := Chunk(src.file, c.partSize, n + 1)]
    ensures var b, d := Underway(a, j, parts, A.Sending, n), Underway(a, j, more, A.Sending, n + 1);
            A.Enabled(c, all, gone, b, j.k, A.SendPart) && A.Step(c, all, gone, b, j.k, A.SendPart) == d
  {
    var b, d := Underway(a, j, parts, A.Sending, n), Underway(a, j, more, A.Sending, n + 1);
    assert b.uploads[j.id := Upload(j.k, j.digest, more)] == d.uploads;
  }

  lemma {:induction false} FlushStep(c: A.Config, all: A.Pieces, gone: set<Key>, a: A.State, j: Job,
                                     parts: map<nat, bytes>, n: nat)
    ensures var b := Underway(a, j, parts, A.Sending, n);
            A.Enabled(c, all, gone, b, j.k, A.FlushPending) && A.Step(c, all, gone, b, j.k, A.FlushPending) == b
  {
  }

  lemma {:induction false} MorePart(file: bytes, size: nat, parts: map<nat, bytes>, n: nat, more: map<nat, bytes>)
    requires n < MAX_PARTS && HasUpTo(parts, n) && Faithful(parts, file, size) && PartStart(file, size, n) < |file|
    requires more == parts[n + 1 := Chunk(file, size, n + 1)]
    ensures HasUpTo(more, n + 1) && Faithful(more, file, size)
  {
  }

  /** The upload has sent n parts of the segment. */
  ghost predicate HasSent(c: A.Config, all: A.Pieces, gone: set<Key>, a: A.State, src: Source, j: Job,
                          parts: map<nat, bytes>, n: nat)
  {
    && src.key == j.k && j.k in all && all[j.k] == A.Piece(src.next, src.file)
    && n <= MAX_PARTS && HasUpTo(parts, n) && Faithful(parts, src.file, c.partSize)
    && Leads(c, all, gone, a, j.k, Underway(a, j, parts, A.Sending, n))
  }

  lemma {:induction false} SendsOne(c: A.Config, all: A.Pieces, gone: set<Key>, a: A.State, src: Source, j: Job,
                                    parts: map<nat, bytes>, n: nat) returns (more: map<nat, bytes>)
    requires HasSent(c, all, gone, a, src, j, parts, n)
    requires n < MAX_PARTS && PartStart(src.file, c.partSize, n) < |src.file|
    ensures HasSent(c, all, gone, a, src, j, more, n + 1)
  {
    more := parts[n + 1 := Chunk(src.file, c.partSize, n + 1)];
    MorePart(src.file, c.partSize, parts, n, more);
    SendStep(c, all, gone, a, src, j, parts, n, more);
    FlushStep(c, all, gone, a, j, more, n + 1);
    var b, d := Underway(a, j, parts, A.Sending, n), Underway(a, j, more, A.Sending, n + 1);
    GoTwice(c, all, gone, a, j.k, b, A.SendPart, d, A.FlushPending, d);
  }

  lemma {:induction false} GoTwice(c: A.Config, all: A.Pieces, gone: set<Key>, a: A.State, k: Key, b: A.State,
                                   ev: A.Event, d: A.State, next: A.Event, e: A.State)
    requires Leads(c, all, gone, a, k, b) && A.Enabled(c, all, gone, b, k, ev) && d == A.Step(c, all, gone, b, k, ev)
    requires A.Enabled(c, all, gone, d, k, next) && e == A.Step(c, all, gone, d, k, next)
    ensures Leads(c, all, gone, a, k, e)
  {
    Go(c, all, gone, a, k, b, ev, d);
    Go(c, all, gone, a, k, d, next, e);
  }

  /** Part after part goes out, as far as they may be numbered. */
  lemma {:induction false} SendsAll(c: A.Config, all: A.Pieces, gone: set<Key>, a: A.State, src: Source, j: Job,
                                    parts: map<nat, bytes>, n: nat) returns (done: map<nat, bytes>, last: nat)
    requires HasSent(c, all, gone, a, src, j, parts, n)
    ensures HasSent(c, all, gone, a, src, j, done, last)
    ensures PartStart(src.file, c.partSize, last) == |src.file| || last == MAX_PARTS
    decreases MAX_PARTS - n
  {
    if n == MAX_PARTS || PartStart(src.file, c.partSize, n) == |src.file| {
      return parts, n;
    }
    var more := SendsOne(c, all, gone, a, src, j, parts, n);
    done, last := SendsAll(c, all, gone, a, src, j, more, n + 1);
  }

  /** The parts assembled, the object not yet labelled. */
  function Assembled(a: A.State, j: Job, parts: map<nat, bytes>, file: bytes, n: nat): A.State {
    var stamp := if j.k in a.objects then a.objects[j.k].stamp else None;
    Underway(a, j, parts, A.Renamed, n).(objects := a.objects[j.k := Object(file, stamp)])
  }

  lemma {:induction false} RenameStep(c: A.Config, all: A.Pieces, gone: set<Key>, a: A.State, src: Source, j: Job,
                                      parts: map<nat, bytes>, n: nat)
    requires src.key == j.k && j.k in all && all[src.key] == A.Piece(src.next, src.file)
    requires HasUpTo(parts, n) && Assemble(parts, n) == src.file && PartStart(src.file, c.partSize, n) == |src.file|
    ensures var b := Underway(a, j, parts, A.Sending, n);
            && A.Enabled(c, all, gone, b, j.k, A.Rename)
            && A.Step(c, all, gone, b, j.k, A.Rename) == Assembled(a, j, parts, src.file, n)
  {
    var b := Underway(a, j, parts, A.Sending, n);
    assert b.uploads[j.id].parts == parts;
  }

  lemma {:induction false} LabelStep(c: A.Config, all: A.Pieces, gone: set<Key>, a: A.State, j: Job,
                                     parts: map<nat, bytes>, file: bytes, n: nat)
    ensures var b := Assembled(a, j, parts, file, n);
            && A.Enabled(c, all, gone, b, j.k, A.Label)
            && A.Step(c, all, gone, b, j.k, A.Label) == Stored(a, j, file, n)
  {
    var b := Assembled(a, j, parts, file, n);
    assert b.uploads[j.id].sha == j.digest && b.uploads - {j.id} == a.uploads - {j.id};
  }

  lemma {:induction false} Completes(c: A.Config, all: A.Pieces, gone: set<Key>, a: A.State, src: Source, j: Job,
                                     parts: map<nat, bytes>, n: nat)
    requires HasSent(c, all, gone, a, src, j, parts, n) && PartStart(src.file, c.partSize, n) == |src.file|
    ensures Leads(c, all, gone, a, j.k, Stored(a, j, src.file, n))
  {
    AssembledPrefix(parts, src.file, c.partSize, n);
    assert src.file[..|src.file|] == src.file;
    RenameStep(c, all, gone, a, src, j, parts, n);
    LabelStep(c, all, gone, a, j, parts, src.file, n);
    GoTwice(c, all, gone, a, j.k, Underway(a, j, parts, A.Sending, n), A.Rename, Assembled(a, j, parts, src.file, n),
            A.Label, Stored(a, j, src.file, n));
  }

  /** An upload is given up: the checkpoint and the parts go, the object if any stays. */
  function Abandoned(b: A.State, k: Key, id: int): A.State {
    b.(uploads := b.uploads - {id}, memPending := b.memPending - {k}, diskPending := b.memPending - {k},
       flights := map[])
  }

  lemma {:induction false} Abandons(c: A.Config, all: A.Pieces, gone: set<Key>, a: A.State, k: Key, b: A.State, id: int)
    requires Leads(c, all, gone, a, k, b) && k in b.flights && b.flights[k].upload == id && b.flights.Keys == {k}
    requires A.InPhase(b, k, A.Sending) || A.InPhase(b, k, A.Stored)
    ensures Leads(c, all, gone, a, k, Abandoned(b, k, id))
  {
    var d := A.Step(c, all, gone, b, k, A.GiveUp);
    assert d.flights - {k} == map[];
    GoTwice(c, all, gone, a, k, b, A.GiveUp, d, A.Finish, Abandoned(b, k, id));
  }

  /** The entry noted, the entries saved, the checkpoints saved. */
  lemma {:induction false} Records(c: A.Config, all: A.Pieces, gone: set<Key>, a: A.State, src: Source, b: A.State,
                                   size: int, mem: seq<Entry>)
    requires src.key in all && all[src.key] == A.Piece(src.next, src.file) && size >= |src.file|
    requires Leads(c, all, gone, a, src.key, b) && A.InPhase(b, src.key, A.Stored) && b.flights.Keys == {src.key}
    requires mem == Added(b.mem, Entry(src.key, src.next, size, Some(c.sha(src.file))))
    ensures Leads(c, all, gone, a, src.key, Recorded(b, src.key, mem))
  {
    var k := src.key;
    var d := A.Move(b.(mem := mem, memPending := b.memPending - {k}), k, A.Noted);
    Go(c, all, gone, a, k, b, A.Note(size), d);
    var e := A.Move(d.(disk := mem), k, A.Saved);
    Go(c, all, gone, a, k, d, A.FlushCompleted, e);
    assert e.flights - {k} == map[];
    Go(c, all, gone, a, k, e, A.Finish, Recorded(b, k, mem));
  }

  function Recorded(b: A.State, k: Key, mem: seq<Entry>): A.State {
    b.(mem := mem, disk := mem, memPending := b.memPending - {k}, diskPending := b.memPending - {k}, flights := map[])
  }

  lemma {:induction false} WhenTooMany(c: A.Config, a: A.State, src: Source, newId: int, up: bool, same: bool,
                                       parts: map<nat, bytes>, n: nat)
    requires !Fits(c, src) && a.flights == map[]
    ensures var j := JobOf(c, a, src, newId, up);
            Abandoned(Underway(a, j, parts, A.Sending, n), j.k, j.id) == Result(c, a, src, newId, up, same)
  {
    var j := JobOf(c, a, src, newId, up);
    var b := Underway(a, j, parts, A.Sending, n);
    assert b.uploads - {j.id} == a.uploads - {j.id} && j.pending - {j.k} == a.memPending - {j.k};
  }

  lemma {:induction false} WhenReplaced(c: A.Config, a: A.State, src: Source, newId: int, up: bool, n: nat)
    requires Fits(c, src) && a.flights == map[]
    ensures var j := JobOf(c, a, src, newId, up);
            Abandoned(Stored(a, j, src.file, n), j.k, j.id) == Result(c, a, src, newId, up, false)
  {
    var j := JobOf(c, a, src, newId, up);
    assert a.uploads - {j.id} - {j.id} == a.uploads - {j.id} && j.pending - {j.k} == a.memPending - {j.k};
  }

  lemma {:induction false} WhenDone(c: A.Config, a: A.State, src: Source, newId: int, up: bool, n: nat)
    requires Fits(c, src) && a.flights == map[]
    ensures var j, size := JobOf(c, a, src, newId, up), RecordedSize(Resumes(c, a, src, up), src.file, c.partSize);
            var mem := Added(a.mem, Entry(src.key, src.next, size, Some(j.digest)));
            Recorded(Stored(a, j, src.file, n), j.k, mem) == Result(c, a, src, newId, up, true)
  {
    var j := JobOf(c, a, src, newId, up);
    assert j.pending - {j.k} == a.memPending - {j.k};
  }

  /** The whole upload. */
  lemma {:induction false} UploadIsRun(c: A.Config, all: A.Pieces, gone: set<Key>, a: A.State, src: Source, newId: int,
                                       up: bool, same: bool)
    requires Ready(c, all, gone, a, src, newId)
    ensures Leads(c, all, gone, a, src.key, Result(c, a, src, newId, up, same))
  {
    var j, m := JobOf(c, a, src, newId, up), Resumes(c, a, src, up);
    var parts := Begins(c, all, gone, a, src, newId, up);
    var done, n := SendsAll(c, all, gone, a, src, j, parts, m);
    PartStartGrows(src.file, c.partSize, n, MAX_PARTS);
    if !Fits(c, src) {
      Abandons(c, all, gone, a, j.k, Underway(a, j, done, A.Sending, n), j.id);
      WhenTooMany(c, a, src, newId, up, same, done, n);
    } else {
      Completes(c, all, gone, a, src, j, done, n);
      Concludes(c, all, gone, a, src, j, n, m, same);
      WhenReplaced(c, a, src, newId, up, n);
      WhenDone(c, a, src, newId, up, n);
    }
  }

  lemma {:induction false} Concludes(c: A.Config, all: A.Pieces, gone: set<Key>, a: A.State, src: Source, j: Job,
                                     n: nat, m: nat, same: bool)
    requires src.key == j.k && j.k in all && all[j.k] == A.Piece(src.next, src.file) && j.digest == c.sha(src.file)
    requires Leads(c, all, gone, a, j.k, Stored(a, j, src.file, n))
    ensures var mem := Added(a.mem, Entry(src.key, src.next, RecordedSize(m, src.file, c.partSize), Some(j.digest)));
            var b := Stored(a, j, src.file, n);
            Leads(c, all, gone, a, j.k, if same then Recorded(b, j.k, mem) else Abandoned(b, j.k, j.id))
  {
    var b, size := Stored(a, j, src.file, n), RecordedSize(m, src.file, c.partSize);
    RecordedSizeWhen(m, src.file, c.partSize);
    if same {
      Records(c, all, gone, a, src, b, size, Added(a.mem, Entry(src.key, src.next, size, Some(j.digest))));
    } else {
      Abandons(c, all, gone, a, j.k, b, j.id);
    }
  }

  // ---- the method ----------------------------------------------------------------------------

  /** The state machine's state is about this store and this manifest. */
  ghost predicate Shows(store: Store, manifest: Manifest, a: A.State)
    reads store, manifest
  {
    && a.objects == store.objects && a.uploads == store.uploads
    && a.mem == manifest.completed && a.disk == manifest.completedFile
    && a.memPending == manifest.pending && a.diskPending == manifest.pendingFile
  }

  /** Uploading a segment takes the store and the manifest where the events lead, with no
      upload left running. */
  method UploadSegment(store: Store, manifest: Manifest, c: A.Config, src: Source, newId: int, up: bool, same: bool,
                       ghost all: A.Pieces, ghost gone: set<Key>, ghost a: A.State)
    returns (ok: bool, ghost b: A.State)
    requires Shows(store, manifest, a) && Ready(c, all, gone, a, src, newId)
    modifies store, manifest
    ensures Leads(c, all, gone, a, src.key, b) && Shows(store, manifest, b) && b.flights == map[]
    ensures ok <==> same && Fits(c, src)
  {
    UploadIsRun(c, all, gone, a, src, newId, up, same);
    b := Result(c, a, src, newId, up, same);
    ResultIs(c, a, src, newId, up, same);
    ResumeIsSound(c, all, gone, a, src, newId);
    ok := UploadOne(store, manifest, c.sha, src, c.partSize, newId, up, same);
  }

  lemma {:induction false} ResultIs(c: A.Config, a: A.State, src: Source, newId: int, up: bool, same: bool)
    requires newId !in a.uploads
    ensures var b, m := Result(c, a, src, newId, up, same), Resumes(c, a, src, up);
            && b.uploads == (if m == 0 then a.uploads else a.uploads - {a.memPending[src.key].upload})
            && b.memPending == b.diskPending == a.memPending - {src.key}
            && b.flights == a.flights
  {
    assert a.uploads - {newId} == a.uploads;
  }

  lemma ResumeIsSound(c: A.Config, all: A.Pieces, gone: set<Key>, a: A.State, src: Source, newId: int)
    requires Ready(c, all, gone, a, src, newId)
    ensures Sound(a.uploads, a.memPending, src, c.sha(src.file), c.partSize)
  {
  }
}
