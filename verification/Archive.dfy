/** The cold tier as a state machine: uploads interleaved at their store and manifest
    writes, crashes at any point, and the repair done at boot. */
module Archive {
  import opened Bytes
  import opened Record
  import opened Options
  import opened ObjectStore
  import opened Manifests
  import opened Uploader

  /** A sealed segment: end offset and file. */
  datatype Piece = Piece(next: int, file: bytes)

  /** Every segment ever sealed, by key. */
  type Pieces = map<Key, Piece>

  /** Segments of one partition never overlap. */
  ghost predicate Apart(all: Pieces) {
    && (forall k :: k in all ==> k.base < all[k].next)
    && (forall k, l :: k in all && l in all && k != l ==>
          k.topic != l.topic || k.partition != l.partition || all[k].next <= l.base || all[l].next <= k.base)
  }

  /** Where an upload stands: checkpoint in memory, checkpoint saved, object assembled but not
      yet labelled, labelled, entry in memory, entry saved; or given up. */
  datatype Phase = Opened | Sending | Renamed | Stored | Noted | Saved | Aborted

  datatype Flight = Flight(phase: Phase, upload: int, sent: nat)

  /** Memory and files of the manifest, the object store, the uploads running, and the
      checkpoints that boot has still to judge. */
  datatype State = State(
    mem: seq<Entry>, disk: seq<Entry>,
    memPending: map<Key, Pending>, diskPending: map<Key, Pending>,
    objects: map<Key, Object>, uploads: map<int, Upload>,
    flights: map<Key, Flight>, boot: set<Key>, forgetting: bool)

  /** Configuration: digest, checksum, part size, how many uploads may run at a time, and
      whether other topics may be deleted meanwhile. */
  datatype Config = Config(sha: Hash, crc: Checksum, partSize: nat, limit: nat, deletions: bool)

  datatype Event =
    | Start(newId: int, up: bool)
    | FlushPending
    | SendPart
    | Rename
    | Label
    | GiveUp
    | Note(size: int)
    | FlushCompleted
    | Finish
    | Reconcile(listUp: bool)
    | Skip
    | ForgetCompleted
    | ForgetPending

  function Move(a: State, k: Key, phase: Phase): State
    requires k in a.flights
  {
    a.(flights := a.flights[k := a.flights[k].(phase := phase)])
  }

  predicate InPhase(a: State, k: Key, phase: Phase) {
    k in a.flights && a.flights[k].phase == phase
  }

  /** Upload ids are random: a new one is known neither to the store nor to a checkpoint. */
  predicate Unused(a: State, id: int) {
    && id !in a.uploads
    && (forall l :: l in a.memPending ==> a.memPending[l].upload != id)
    && (forall l :: l in a.diskPending ==> a.diskPending[l].upload != id)
  }

  /** When an upload of segment k can take a step. */
  predicate Enabled(c: Config, all: Pieces, gone: set<Key>, a: State, k: Key, ev: Event) {
    match ev
    case Start(id, _) =>
      && a.boot == {} && k in all && k !in gone && Lookup(a.mem, k).None? && k !in a.flights
      && |a.flights| < c.limit && Unused(a, id)
    case FlushPending => InPhase(a, k, Opened) || InPhase(a, k, Sending)
    case SendPart =>
      && InPhase(a, k, Sending) && k in all && a.flights[k].sent < MAX_PARTS && a.flights[k].upload in a.uploads
      && PartStart(all[k].file, c.partSize, a.flights[k].sent) < |all[k].file|
    case Rename =>
      && InPhase(a, k, Sending) && k in all && a.flights[k].upload in a.uploads
      && PartStart(all[k].file, c.partSize, a.flights[k].sent) == |all[k].file|
      && (forall n :: 1 <= n <= a.flights[k].sent ==> n in a.uploads[a.flights[k].upload].parts)
    case Label => InPhase(a, k, Renamed) && k in a.objects && a.flights[k].upload in a.uploads
    case GiveUp => InPhase(a, k, Opened) || InPhase(a, k, Sending) || InPhase(a, k, Renamed) || InPhase(a, k, Stored)
    case Note(size) => InPhase(a, k, Stored) && k in all && size >= |all[k].file|
    case FlushCompleted => InPhase(a, k, Noted)
    case Finish => InPhase(a, k, Saved) || InPhase(a, k, Aborted)
    case Reconcile(_) => k in a.boot && k in a.memPending && a.flights == map[]
    case Skip => k in a.boot && a.flights == map[]
    case ForgetCompleted => c.deletions && !a.forgetting
    case ForgetPending => a.forgetting
  }

  function Step(c: Config, all: Pieces, gone: set<Key>, a: State, k: Key, ev: Event): State
    requires Enabled(c, all, gone, a, k, ev)
  {
    match ev
    case Start(id, up) => Begin(c, all[k], a, k, id, up)
    case FlushPending => Move(a.(diskPending := a.memPending), k, Sending)
    case SendPart => Sent(a, k, Chunk(all[k].file, c.partSize, a.flights[k].sent + 1))
    case Rename =>
      var f := a.flights[k];
      var stamp := if k in a.objects then a.objects[k].stamp else None;
      Move(a.(objects := a.objects[k := Object(Assemble(a.uploads[f.upload].parts, f.sent), stamp)]), k, Renamed)
    case Label =>
      var id := a.flights[k].upload;
      Move(a.(objects := a.objects[k := a.objects[k].(stamp := Some(a.uploads[id].sha))], uploads := a.uploads - {id}),
           k, Stored)
    case GiveUp =>
      Move(a.(uploads := a.uploads - {a.flights[k].upload}, memPending := a.memPending - {k}), k, Aborted)
    case Note(size) =>
      Move(Recorded(a, Entry(k, all[k].next, size, Some(c.sha(all[k].file)))), k, Noted)
    case FlushCompleted => Move(a.(disk := a.mem), k, Saved)
    case Finish => a.(diskPending := a.memPending, flights := a.flights - {k})
    case Reconcile(listUp) => Decide(a.(boot := a.boot - {k}), k, Judgement(a, k, listUp))
    case Skip => a.(boot := a.boot - {k})
    case ForgetCompleted => a.(disk := a.mem, forgetting := true)
    case ForgetPending => a.(diskPending := a.memPending, forgetting := false)
  }

  /** Opens an upload and puts its checkpoint in memory: the old upload's trusted parts, or a
      new upload when there are none or the store does not list them. */
  function Begin(c: Config, piece: Piece, a: State, k: Key, id: int, up: bool): State {
    var digest := c.sha(piece.file);
    var m := KeptIf(up, a.uploads, a.memPending, k, digest, c.partSize);
    if m > 0 then a.(flights := a.flights[k := Flight(Opened, a.memPending[k].upload, m)])
    else a.(uploads := a.uploads[id := Upload(k, digest, map[])],
            memPending := a.memPending[k := Pending(piece.next, Some(digest), id)],
            flights := a.flights[k := Flight(Opened, id, 0)])
  }

  /** One more part in the store. */
  function Sent(a: State, k: Key, data: bytes): State
    requires k in a.flights && a.flights[k].upload in a.uploads
  {
    var f := a.flights[k];
    var u := a.uploads[f.upload];
    a.(uploads := a.uploads[f.upload := u.(parts := u.parts[f.sent + 1 := data])],
       flights := a.flights[k := f.(sent := f.sent + 1)])
  }

  /** AddCompleted before its flushes. */
  function Recorded(a: State, e: Entry): State {
    a.(mem := Added(a.mem, e), memPending := a.memPending - {e.key})
  }

  /** Boot's verdict once the store has answered about the object; it may fail to answer
      about the parts. */
  function Judgement(a: State, k: Key, listUp: bool): Verdict
    requires k in a.memPending
  {
    Judged(a.objects, a.uploads, k, a.memPending[k], true, listUp)
  }

  function Decide(a: State, k: Key, v: Verdict): State
    requires k in a.memPending
  {
    var id := a.memPending[k].upload;
    match v
    case Leave => a
    case Drop => a.(uploads := a.uploads - {id}, memPending := a.memPending - {k},
                    flights := a.flights[k := Flight(Aborted, id, 0)])
    case Adopt(e) => Recorded(a, e).(flights := a.flights[k := Flight(Noted, id, 0)])
  }

  /** Only files survive, and boot has every checkpoint to judge. */
  function Crashed(a: State): State {
    a.(mem := a.disk, memPending := a.diskPending, flights := map[], boot := a.diskPending.Keys,
       forgetting := false)
  }

  // ---- what every step keeps -----------------------------------------------------------------

  /** The object at k is segment k, and its label does not say otherwise. */
  ghost predicate ObjectRight(c: Config, all: Pieces, objects: map<Key, Object>, k: Key) {
    && k in all && k in objects && objects[k].data == all[k].file
    && (objects[k].stamp.Some? ==> objects[k].stamp == Some(c.sha(all[k].file)))
  }

  ghost predicate EntryRight(c: Config, all: Pieces, objects: map<Key, Object>, e: Entry) {
    && ObjectRight(c, all, objects, e.key) && e.next == all[e.key].next && e.size >= |all[e.key].file|
    && e.sha == Some(c.sha(all[e.key].file))
  }

  ghost predicate EntriesRight(c: Config, all: Pieces, objects: map<Key, Object>, list: seq<Entry>) {
    forall e :: e in list ==> EntryRight(c, all, objects, e)
  }

  ghost predicate PendingRight(c: Config, all: Pieces, pending: map<Key, Pending>) {
    forall k :: k in pending ==>
      k in all && pending[k].next == all[k].next && pending[k].sha == Some(c.sha(all[k].file))
  }

  /** A checkpoint's upload, while it lasts, is for the same segment. */
  ghost predicate UploadsMatch(pending: map<Key, Pending>, uploads: map<int, Upload>) {
    forall k :: k in pending && pending[k].upload in uploads ==> uploads[pending[k].upload].key == k
  }

  ghost predicate UploadsRight(c: Config, all: Pieces, uploads: map<int, Upload>) {
    forall id :: id in uploads ==>
      var u := uploads[id];
      u.key in all && u.sha == c.sha(all[u.key].file) && Faithful(u.parts, all[u.key].file, c.partSize)
  }

  /** An object is labelled with its own digest, or is the segment of its key. */
  ghost predicate ObjectsRight(c: Config, all: Pieces, objects: map<Key, Object>) {
    forall k :: k in objects ==>
      objects[k].stamp == Some(c.sha(objects[k].data)) || (k in all && objects[k].data == all[k].file)
  }

  /** An upload under way has its parts; once assembled, its object is the segment. */
  ghost predicate FlightRight(all: Pieces, a: State, k: Key, f: Flight) {
    && k in all
    && (f.phase == Opened || f.phase == Sending ==>
          f.upload in a.uploads && a.uploads[f.upload].key == k && HasUpTo(a.uploads[f.upload].parts, f.sent))
    && (f.phase == Renamed ==>
          && k in a.objects && a.objects[k].data == all[k].file
          && f.upload in a.uploads && a.uploads[f.upload].key == k)
  }

  ghost predicate FlightsRight(all: Pieces, a: State) {
    forall k :: k in a.flights ==> FlightRight(all, a, k, a.flights[k])
  }

  /** What is written down is right. */
  ghost predicate Right(c: Config, all: Pieces, a: State) {
    && EntriesRight(c, all, a.objects, a.mem) && EntriesRight(c, all, a.objects, a.disk)
    && PendingRight(c, all, a.memPending) && PendingRight(c, all, a.diskPending)
    && UploadsMatch(a.memPending, a.uploads) && UploadsMatch(a.diskPending, a.uploads)
    && UploadsRight(c, all, a.uploads) && ObjectsRight(c, all, a.objects)
    && FlightsRight(all, a)
  }

  /** Which segments are where: in the manifest's memory and file, checkpointed in memory
      and file, right in the store, uploading, and still to be judged. */
  datatype View = View(mem: set<Key>, disk: set<Key>, memP: set<Key>, diskP: set<Key>, right: set<Key>,
                       phases: map<Key, Phase>, boot: set<Key>)

  ghost function KeysOf(list: seq<Entry>): set<Key> {
    if list == [] then {} else {list[0].key} + KeysOf(list[1..])
  }

  ghost function RightKeys(c: Config, all: Pieces, objects: map<Key, Object>): set<Key> {
    set k | k in all && ObjectRight(c, all, objects, k)
  }

  ghost function Phases(flights: map<Key, Flight>): map<Key, Phase> {
    map k | k in flights :: flights[k].phase
  }

  ghost function ViewOf(c: Config, all: Pieces, a: State): View {
    View(KeysOf(a.mem), KeysOf(a.disk), a.memPending.Keys, a.diskPending.Keys, RightKeys(c, all, a.objects),
         Phases(a.flights), a.boot)
  }

  /** A segment is in cold storage: in the manifest, or complete in the store with a
      checkpoint from which boot adopts it. */
  ghost predicate Covered(v: View, k: Key) {
    k in v.mem || (k in v.memP && k in v.right)
  }

  /** It would still be after a crash. */
  ghost predicate Lasting(v: View, k: Key) {
    k in v.disk || (k in v.diskP && k in v.right)
  }

  ghost predicate PhaseSafe(gone: set<Key>, v: View, k: Key, phase: Phase) {
    && k !in v.boot
    && match phase {
         case Opened => k !in gone && k !in v.mem && k in v.memP
         case Sending => k !in gone && k !in v.mem && k in v.memP && k in v.diskP
         case Renamed => k !in gone && k !in v.mem && k in v.diskP
         case Stored => k !in gone && k !in v.mem && k in v.diskP && k in v.right
         case Noted => k in v.mem && k in v.diskP
         case Saved => k in v.disk
         case Aborted => k !in gone && k !in v.mem
       }
  }

  /** One upload at a time; memory and files agree but for an entry just noted; every segment
      deleted locally is in cold storage, now and after a crash. */
  ghost predicate Safe(gone: set<Key>, v: View) {
    && (forall k, l :: k in v.phases && l in v.phases ==> k == l)
    && (forall k :: k in v.phases ==> PhaseSafe(gone, v, k, v.phases[k]))
    && (forall k :: k in v.mem ==> k in v.disk || (k in v.phases && v.phases[k] == Noted))
    && v.disk <= v.mem <= v.right && v.boot <= v.memP && v.boot <= v.diskP
    && (forall k :: k in gone ==> Covered(v, k) && Lasting(v, k))
  }

  ghost predicate Inv(c: Config, all: Pieces, gone: set<Key>, a: State) {
    Apart(all) && Right(c, all, a) && Safe(gone, ViewOf(c, all, a))
  }

  // ---- the manifest list -----------------------------------------------------------------------

  lemma {:induction false} KeysAre(list: seq<Entry>, k: Key)
    ensures k in KeysOf(list) <==> Lookup(list, k).Some?
    ensures k in KeysOf(list) <==> exists e :: e in list && e.key == k
  {
    if list != [] {
      KeysAre(list[1..], k);
      if exists e :: e in list && e.key == k {
        var e :| e in list && e.key == k;
        assert e == list[0] || e in list[1..];
      }
    }
  }

  /** Segments do not overlap, so recording one evicts no other. */
  lemma {:induction false} AddedKeys(c: Config, all: Pieces, objects: map<Key, Object>, list: seq<Entry>, e: Entry)
    requires Apart(all) && EntriesRight(c, all, objects, list) && e.key in all && e.next == all[e.key].next
    ensures KeysOf(Added(list, e)) == KeysOf(list) + {e.key}
  {
    forall k
      ensures k in KeysOf(Added(list, e)) <==> k in KeysOf(list) || k == e.key
    {
      AddedKey(c, all, objects, list, e, k);
    }
  }

  lemma {:induction false} AddedKey(c: Config, all: Pieces, objects: map<Key, Object>, list: seq<Entry>, e: Entry,
                                    k: Key)
    requires Apart(all) && EntriesRight(c, all, objects, list) && e.key in all && e.next == all[e.key].next
    ensures k in KeysOf(Added(list, e)) <==> k in KeysOf(list) || k == e.key
  {
    KeysAre(list, k);
    KeysAre(Added(list, e), k);
    if k == e.key {
      AddedAre(list, e, e);
    } else if x :| x in list && x.key == k {
      AddedAre(list, e, x);
    } else if x :| x in Added(list, e) && x.key == k {
      AddedAre(list, e, x);
    }
  }

  lemma AddedRight(c: Config, all: Pieces, objects: map<Key, Object>, list: seq<Entry>, e: Entry)
    requires EntriesRight(c, all, objects, list) && EntryRight(c, all, objects, e)
    ensures EntriesRight(c, all, objects, Added(list, e))
  {
    forall x | x in Added(list, e)
      ensures EntryRight(c, all, objects, x)
    {
      AddedAre(list, e, x);
    }
  }

  // ---- views of a step -----------------------------------------------------------------------------

  lemma SafeStart(gone: set<Key>, v: View, k: Key)
    requires Safe(gone, v) && v.phases == map[] && v.boot == {} && k !in gone && k !in v.mem
    ensures Safe(gone, v.(memP := v.memP + {k}, phases := v.phases[k := Opened]))
  {
  }

  lemma SafeFlushPending(gone: set<Key>, v: View, k: Key)
    requires Safe(gone, v) && k in v.phases && (v.phases[k] == Opened || v.phases[k] == Sending)
    ensures Safe(gone, v.(diskP := v.memP, phases := v.phases[k := Sending]))
  {
  }

  lemma SafeRename(gone: set<Key>, v: View, k: Key, right: set<Key>)
    requires Safe(gone, v) && k in v.phases && v.phases[k] == Sending && right - {k} == v.right - {k}
    ensures Safe(gone, v.(right := right, phases := v.phases[k := Renamed]))
  {
    assert forall l :: l != k ==> (l in right <==> l in right - {k}) && (l in v.right <==> l in v.right - {k});
  }

  lemma SafeLabel(gone: set<Key>, v: View, k: Key)
    requires Safe(gone, v) && k in v.phases && v.phases[k] == Renamed
    ensures Safe(gone, v.(right := v.right + {k}, phases := v.phases[k := Stored]))
  {
  }

  lemma SafeGiveUp(gone: set<Key>, v: View, k: Key)
    requires Safe(gone, v) && k in v.phases && v.phases[k] != Noted && v.phases[k] != Saved && v.phases[k] != Aborted
    ensures Safe(gone, v.(memP := v.memP - {k}, phases := v.phases[k := Aborted]))
  {
  }

  lemma SafeNote(gone: set<Key>, v: View, k: Key)
    requires Safe(gone, v) && k in v.phases && v.phases[k] == Stored
    ensures Safe(gone, v.(mem := v.mem + {k}, memP := v.memP - {k}, phases := v.phases[k := Noted]))
  {
  }

  lemma SafeFlushCompleted(gone: set<Key>, v: View, k: Key)
    requires Safe(gone, v) && k in v.phases && v.phases[k] == Noted
    ensures Safe(gone, v.(disk := v.mem, phases := v.phases[k := Saved]))
  {
  }

  lemma SafeFinish(gone: set<Key>, v: View, k: Key)
    requires Safe(gone, v) && k in v.phases && (v.phases[k] == Saved || v.phases[k] == Aborted)
    ensures Safe(gone, v.(diskP := v.memP, phases := v.phases - {k}))
  {
  }

  lemma SafeDrop(gone: set<Key>, v: View, k: Key)
    requires Safe(gone, v) && v.phases == map[] && k in v.boot && k !in v.right
    ensures Safe(gone, v.(memP := v.memP - {k}, phases := map[k := Aborted], boot := v.boot - {k}))
  {
  }

  lemma SafeAdopt(gone: set<Key>, v: View, k: Key)
    requires Safe(gone, v) && v.phases == map[] && k in v.boot && k in v.right
    ensures Safe(gone, v.(mem := v.mem + {k}, memP := v.memP - {k}, phases := map[k := Noted], boot := v.boot - {k}))
  {
  }

  lemma SafeSkip(gone: set<Key>, v: View, k: Key)
    requires Safe(gone, v)
    ensures Safe(gone, v.(boot := v.boot - {k}))
  {
  }

  lemma SafeCrash(gone: set<Key>, v: View)
    requires Safe(gone, v)
    ensures Safe(gone, v.(mem := v.disk, memP := v.diskP, phases := map[], boot := v.diskP))
  {
  }

  // ---- every step keeps what is written down right ------------------------------------------------------

  lemma ResumeRight(c: Config, all: Pieces, a: State, k: Key, m: nat)
    requires Right(c, all, a) && k in all && k in a.memPending && a.memPending[k].upload in a.uploads
    requires HasUpTo(a.uploads[a.memPending[k].upload].parts, m)
    ensures Right(c, all, a.(flights := a.flights[k := Flight(Opened, a.memPending[k].upload, m)]))
  {
  }

  lemma FreshRight(c: Config, all: Pieces, a: State, k: Key, id: int)
    requires Right(c, all, a) && k in all && k !in a.flights && Unused(a, id)
    ensures var digest := c.sha(all[k].file);
            Right(c, all, a.(uploads := a.uploads[id := Upload(k, digest, map[])],
                             memPending := a.memPending[k := Pending(all[k].next, Some(digest), id)],
                             flights := a.flights[k := Flight(Opened, id, 0)]))
  {
  }

  lemma StartRight(c: Config, all: Pieces, a: State, k: Key, id: int, up: bool)
    requires Right(c, all, a) && k in all && k !in a.flights && Unused(a, id)
    ensures Right(c, all, Begin(c, all[k], a, k, id, up))
  {
    var digest := c.sha(all[k].file);
    var m := KeptIf(up, a.uploads, a.memPending, k, digest, c.partSize);
    if m > 0 {
      KeptAreStored(a.uploads, a.memPending, k, digest, c.partSize);
      ResumeRight(c, all, a, k, m);
    } else {
      FreshRight(c, all, a, k, id);
    }
  }

  lemma FlushPendingRight(c: Config, all: Pieces, a: State, k: Key)
    requires Right(c, all, a) && Enabled(c, all, {}, a, k, FlushPending)
    ensures Right(c, all, Step(c, all, {}, a, k, FlushPending))
  {
    assert FlightRight(all, a, k, a.flights[k]);
  }

  /** The next part is cut from the file. */
  lemma {:induction false} FaithfulMore(parts: map<nat, bytes>, file: bytes, partSize: nat, n: nat)
    requires Faithful(parts, file, partSize) && n < MAX_PARTS && PartStart(file, partSize, n) < |file|
    ensures Faithful(parts[n + 1 := Chunk(file, partSize, n + 1)], file, partSize)
  {
  }

  lemma PutPartRight(c: Config, all: Pieces, a: State, k: Key, data: bytes)
    requires Right(c, all, a) && InPhase(a, k, Sending) && k in all && a.flights[k].upload in a.uploads
    requires var u := a.uploads[a.flights[k].upload];
             Faithful(u.parts[a.flights[k].sent + 1 := data], all[k].file, c.partSize)
    ensures Right(c, all, Sent(a, k, data))
  {
    assert FlightRight(all, a, k, a.flights[k]);
  }

  lemma SentRight(c: Config, all: Pieces, a: State, k: Key)
    requires Right(c, all, a) && InPhase(a, k, Sending) && k in all && a.flights[k].sent < MAX_PARTS
    requires a.flights[k].upload in a.uploads && PartStart(all[k].file, c.partSize, a.flights[k].sent) < |all[k].file|
    ensures Right(c, all, Sent(a, k, Chunk(all[k].file, c.partSize, a.flights[k].sent + 1)))
  {
    var f := a.flights[k];
    assert FlightRight(all, a, k, f);
    FaithfulMore(a.uploads[f.upload].parts, all[k].file, c.partSize, f.sent);
    PutPartRight(c, all, a, k, Chunk(all[k].file, c.partSize, f.sent + 1));
  }

  lemma RenameData(c: Config, all: Pieces, a: State, k: Key)
    requires Right(c, all, a) && Enabled(c, all, {}, a, k, Rename)
    ensures Assemble(a.uploads[a.flights[k].upload].parts, a.flights[k].sent) == all[k].file
  {
    var f := a.flights[k];
    AssembledPrefix(a.uploads[f.upload].parts, all[k].file, c.partSize, f.sent);
    assert all[k].file[..|all[k].file|] == all[k].file;
  }

  lemma {:induction false} EntriesElsewhere(c: Config, all: Pieces, objects: map<Key, Object>,
                                            list: seq<Entry>, k: Key, o: Object)
    requires EntriesRight(c, all, objects, list) && k !in KeysOf(list)
    ensures EntriesRight(c, all, objects[k := o], list)
  {
    KeysAre(list, k);
  }

  lemma RenameRight(c: Config, all: Pieces, a: State, k: Key)
    requires Right(c, all, a) && Enabled(c, all, {}, a, k, Rename) && k !in KeysOf(a.mem) && k !in KeysOf(a.disk)
    ensures Right(c, all, Step(c, all, {}, a, k, Rename))
  {
    var o := Step(c, all, {}, a, k, Rename).objects[k];
    RenameData(c, all, a, k);
    EntriesElsewhere(c, all, a.objects, a.mem, k, o);
    EntriesElsewhere(c, all, a.objects, a.disk, k, o);
    assert FlightRight(all, a, k, a.flights[k]);
  }

  lemma LabelRight(c: Config, all: Pieces, a: State, k: Key)
    requires Right(c, all, a) && Enabled(c, all, {}, a, k, Label) && k !in KeysOf(a.mem) && k !in KeysOf(a.disk)
    requires forall l :: l in a.flights ==> l == k
    ensures Right(c, all, Step(c, all, {}, a, k, Label))
    ensures ObjectRight(c, all, Step(c, all, {}, a, k, Label).objects, k)
  {
    var o := Step(c, all, {}, a, k, Label).objects[k];
    EntriesElsewhere(c, all, a.objects, a.mem, k, o);
    EntriesElsewhere(c, all, a.objects, a.disk, k, o);
    assert FlightRight(all, a, k, a.flights[k]);
  }

  lemma GiveUpRight(c: Config, all: Pieces, a: State, k: Key)
    requires Right(c, all, a) && Enabled(c, all, {}, a, k, GiveUp)
    requires forall l :: l in a.flights ==> l == k
    ensures Right(c, all, Step(c, all, {}, a, k, GiveUp))
  {
    assert FlightRight(all, a, k, a.flights[k]);
  }

  lemma RecordRight(c: Config, all: Pieces, a: State, e: Entry)
    requires Apart(all) && Right(c, all, a) && EntryRight(c, all, a.objects, e)
    ensures Right(c, all, Recorded(a, e))
    ensures KeysOf(Recorded(a, e).mem) == KeysOf(a.mem) + {e.key}
  {
    AddedRight(c, all, a.objects, a.mem, e);
    AddedKeys(c, all, a.objects, a.mem, e);
  }

  /** Moving past the phases that have data to show asks nothing more. */
  lemma MoveRight(c: Config, all: Pieces, a: State, k: Key, phase: Phase)
    requires Right(c, all, a) && k in a.flights && (phase == Noted || phase == Saved)
    ensures Right(c, all, Move(a, k, phase))
  {
    assert FlightRight(all, a, k, a.flights[k]);
  }

  /** Boot adopts an object exactly when it is the checkpointed segment. */
  lemma JudgementRight(c: Config, all: Pieces, a: State, k: Key, listUp: bool)
    requires Injective(c.sha) && Right(c, all, a) && k in a.memPending
    ensures ObjectRight(c, all, a.objects, k) ==> Judgement(a, k, listUp).Adopt?
    ensures Judgement(a, k, listUp).Adopt? ==>
              Judgement(a, k, listUp).entry.key == k && EntryRight(c, all, a.objects, Judgement(a, k, listUp).entry)
  {
    if k in a.objects {
      var o := a.objects[k];
      assert c.sha(o.data) == c.sha(all[k].file) ==> o.data == all[k].file;
    }
  }

  lemma FinishRight(c: Config, all: Pieces, a: State, k: Key)
    requires Right(c, all, a)
    ensures Right(c, all, a.(diskPending := a.memPending, flights := a.flights - {k}))
  {
  }

  lemma DropRight(c: Config, all: Pieces, a: State, k: Key)
    requires Right(c, all, a) && k in a.memPending && a.flights == map[]
    ensures Right(c, all, Decide(a, k, Drop))
  {
  }

  lemma AdoptRight(c: Config, all: Pieces, a: State, k: Key, e: Entry)
    requires Apart(all) && Right(c, all, a) && k in a.memPending && a.flights == map[]
    requires e.key == k && EntryRight(c, all, a.objects, e)
    ensures Right(c, all, Decide(a, k, Adopt(e)))
  {
    RecordRight(c, all, a, e);
    AdoptedFlight(c, all, Recorded(a, e), k, Flight(Noted, a.memPending[k].upload, 0));
  }

  lemma AdoptedFlight(c: Config, all: Pieces, a: State, k: Key, f: Flight)
    requires Right(c, all, a) && k in all && a.flights == map[] && f.phase == Noted
    ensures Right(c, all, a.(flights := a.flights[k := f]))
  {
  }

  // ---- every step keeps the invariant -----------------------------------------------------------------

  lemma InvFrom(c: Config, all: Pieces, gone: set<Key>, a: State, v: View)
    requires Apart(all) && Right(c, all, a) && Safe(gone, v) && ViewOf(c, all, a) == v
    ensures Inv(c, all, gone, a)
  {
  }

  lemma PhasesPut(flights: map<Key, Flight>, k: Key, f: Flight)
    ensures Phases(flights[k := f]) == Phases(flights)[k := f.phase]
  {
  }

  lemma PhasesDrop(flights: map<Key, Flight>, k: Key)
    ensures Phases(flights - {k}) == Phases(flights) - {k}
  {
  }

  lemma PhasesSame(flights: map<Key, Flight>, k: Key, f: Flight)
    requires k in flights && flights[k].phase == f.phase
    ensures Phases(flights[k := f]) == Phases(flights)
  {
  }

  lemma KeysPut<V>(m: map<Key, V>, k: Key, x: V)
    ensures m[k := x].Keys == m.Keys + {k} && (m - {k}).Keys == m.Keys - {k}
  {
  }

  lemma RightElsewhere(c: Config, all: Pieces, objects: map<Key, Object>, k: Key, o: Object)
    ensures RightKeys(c, all, objects[k := o]) - {k} == RightKeys(c, all, objects) - {k}
  {
  }

  lemma RightAdded(c: Config, all: Pieces, objects: map<Key, Object>, k: Key, o: Object)
    requires ObjectRight(c, all, objects[k := o], k)
    ensures RightKeys(c, all, objects[k := o]) == RightKeys(c, all, objects) + {k}
  {
  }

  lemma NoFlights(flights: map<Key, Flight>)
    requires |flights| < 1
    ensures flights == map[] && Phases(flights) == map[]
  {
  }

  lemma BeginChanges(c: Config, piece: Piece, a: State, k: Key, id: int, up: bool)
    ensures var b := Begin(c, piece, a, k, id, up);
            && b.mem == a.mem && b.disk == a.disk && b.diskPending == a.diskPending
                    && b.objects == a.objects && b.boot == a.boot
            && b.memPending.Keys == a.memPending.Keys + {k}
            && k in b.flights && b.flights == a.flights[k := b.flights[k]] && b.flights[k].phase == Opened
  {
    KeysPut(a.memPending, k, Pending(piece.next, Some(c.sha(piece.file)), id));
  }

  lemma StartView(c: Config, all: Pieces, gone: set<Key>, a: State, k: Key, id: int, up: bool, v: View)
    requires ViewOf(c, all, a) == v && c.limit <= 1 && Enabled(c, all, gone, a, k, Start(id, up))
    ensures v.phases == map[] && v.boot == {} && k !in gone && k !in v.mem
    ensures ViewOf(c, all, Begin(c, all[k], a, k, id, up)) == v.(memP := v.memP + {k}, phases := v.phases[k := Opened])
  {
    KeysAre(a.mem, k);
    NoFlights(a.flights);
    BeginChanges(c, all[k], a, k, id, up);
    PhasesPut(a.flights, k, Begin(c, all[k], a, k, id, up).flights[k]);
  }

  lemma StartKeeps(c: Config, all: Pieces, gone: set<Key>, a: State, k: Key, id: int, up: bool, v: View)
    requires Apart(all) && Right(c, all, a) && Safe(gone, v) && ViewOf(c, all, a) == v
    requires c.limit <= 1 && Enabled(c, all, gone, a, k, Start(id, up))
    ensures Inv(c, all, gone, Step(c, all, gone, a, k, Start(id, up)))
  {
    StartRight(c, all, a, k, id, up);
    StartView(c, all, gone, a, k, id, up, v);
    SafeStart(gone, v, k);
    InvFrom(c, all, gone, Begin(c, all[k], a, k, id, up), v.(memP := v.memP + {k}, phases := v.phases[k := Opened]));
  }

  /** The invariant with its view named. */
  ghost predicate Held(c: Config, all: Pieces, gone: set<Key>, a: State, v: View) {
    Apart(all) && Right(c, all, a) && Safe(gone, v) && ViewOf(c, all, a) == v
  }

  lemma FlushPendingKeeps(c: Config, all: Pieces, gone: set<Key>, a: State, k: Key, v: View)
    requires Held(c, all, gone, a, v) && Enabled(c, all, gone, a, k, FlushPending)
    ensures Inv(c, all, gone, Step(c, all, gone, a, k, FlushPending))
  {
    var b := Step(c, all, gone, a, k, FlushPending);
    FlushPendingRight(c, all, a, k);
    PhasesPut(a.flights, k, b.flights[k]);
    SafeFlushPending(gone, v, k);
    InvFrom(c, all, gone, b, v.(diskP := v.memP, phases := v.phases[k := Sending]));
  }

  lemma SentKeeps(c: Config, all: Pieces, gone: set<Key>, a: State, k: Key, data: bytes, v: View)
    requires Held(c, all, gone, a, v) && k in a.flights && a.flights[k].upload in a.uploads
    requires Right(c, all, Sent(a, k, data))
    ensures Inv(c, all, gone, Sent(a, k, data))
  {
    PhasesSame(a.flights, k, Sent(a, k, data).flights[k]);
    InvFrom(c, all, gone, Sent(a, k, data), v);
  }

  lemma SendPartKeeps(c: Config, all: Pieces, gone: set<Key>, a: State, k: Key, v: View)
    requires Held(c, all, gone, a, v) && Enabled(c, all, gone, a, k, SendPart)
    ensures Inv(c, all, gone, Step(c, all, gone, a, k, SendPart))
  {
    SentRight(c, all, a, k);
    SentKeeps(c, all, gone, a, k, Chunk(all[k].file, c.partSize, a.flights[k].sent + 1), v);
  }

  lemma RenameKeeps(c: Config, all: Pieces, gone: set<Key>, a: State, k: Key, v: View)
    requires Held(c, all, gone, a, v) && Enabled(c, all, gone, a, k, Rename)
    ensures Inv(c, all, gone, Step(c, all, gone, a, k, Rename))
  {
    var b := Step(c, all, gone, a, k, Rename);
    var right := RightKeys(c, all, b.objects);
    assert PhaseSafe(gone, v, k, v.phases[k]);
    RenameRight(c, all, a, k);
    RightElsewhere(c, all, a.objects, k, b.objects[k]);
    PhasesPut(a.flights, k, b.flights[k]);
    SafeRename(gone, v, k, right);
    InvFrom(c, all, gone, b, v.(right := right, phases := v.phases[k := Renamed]));
  }

  lemma LabelKeeps(c: Config, all: Pieces, gone: set<Key>, a: State, k: Key, v: View)
    requires Held(c, all, gone, a, v) && Enabled(c, all, gone, a, k, Label)
    ensures Inv(c, all, gone, Step(c, all, gone, a, k, Label))
  {
    var b := Step(c, all, gone, a, k, Label);
    assert PhaseSafe(gone, v, k, v.phases[k]);
    OneFlight(gone, a, k, v);
    LabelRight(c, all, a, k);
    RightAdded(c, all, a.objects, k, b.objects[k]);
    PhasesPut(a.flights, k, b.flights[k]);
    SafeLabel(gone, v, k);
    InvFrom(c, all, gone, b, v.(right := v.right + {k}, phases := v.phases[k := Stored]));
  }

  lemma OneFlight(gone: set<Key>, a: State, k: Key, v: View)
    requires Safe(gone, v) && v.phases == Phases(a.flights) && k in a.flights
    ensures forall l :: l in a.flights ==> l == k
  {
    forall l | l in a.flights
      ensures l == k
    {
      assert l in v.phases && k in v.phases;
    }
  }

  lemma GiveUpKeeps(c: Config, all: Pieces, gone: set<Key>, a: State, k: Key, v: View)
    requires Held(c, all, gone, a, v) && Enabled(c, all, gone, a, k, GiveUp)
    ensures Inv(c, all, gone, Step(c, all, gone, a, k, GiveUp))
  {
    var b := Step(c, all, gone, a, k, GiveUp);
    OneFlight(gone, a, k, v);
    GiveUpRight(c, all, a, k);
    PhasesPut(a.flights, k, b.flights[k]);
    KeysPut(a.memPending, k, Pending(0, None, 0));
    SafeGiveUp(gone, v, k);
    InvFrom(c, all, gone, b, v.(memP := v.memP - {k}, phases := v.phases[k := Aborted]));
  }

  lemma NoteKeeps(c: Config, all: Pieces, gone: set<Key>, a: State, k: Key, size: int, v: View)
    requires Held(c, all, gone, a, v) && Enabled(c, all, gone, a, k, Note(size))
    ensures Inv(c, all, gone, Step(c, all, gone, a, k, Note(size)))
  {
    var e := Entry(k, all[k].next, size, Some(c.sha(all[k].file)));
    var b := Step(c, all, gone, a, k, Note(size));
    assert PhaseSafe(gone, v, k, v.phases[k]);
    RecordRight(c, all, a, e);
    MoveRight(c, all, Recorded(a, e), k, Noted);
    PhasesPut(a.flights, k, b.flights[k]);
    KeysPut(a.memPending, k, Pending(0, None, 0));
    SafeNote(gone, v, k);
    InvFrom(c, all, gone, b, v.(mem := v.mem + {k}, memP := v.memP - {k}, phases := v.phases[k := Noted]));
  }

  lemma FlushCompletedKeeps(c: Config, all: Pieces, gone: set<Key>, a: State, k: Key, v: View)
    requires Held(c, all, gone, a, v) && Enabled(c, all, gone, a, k, FlushCompleted)
    ensures Inv(c, all, gone, Step(c, all, gone, a, k, FlushCompleted))
  {
    var b := Step(c, all, gone, a, k, FlushCompleted);
    MoveRight(c, all, a.(disk := a.mem), k, Saved);
    PhasesPut(a.flights, k, b.flights[k]);
    SafeFlushCompleted(gone, v, k);
    InvFrom(c, all, gone, b, v.(disk := v.mem, phases := v.phases[k := Saved]));
  }

  lemma FinishKeeps(c: Config, all: Pieces, gone: set<Key>, a: State, k: Key, v: View)
    requires Held(c, all, gone, a, v) && Enabled(c, all, gone, a, k, Finish)
    ensures Inv(c, all, gone, Step(c, all, gone, a, k, Finish))
  {
    SafeFinish(gone, v, k);
    PhasesDrop(a.flights, k);
    FinishRight(c, all, a, k);
    InvFrom(c, all, gone, Step(c, all, gone, a, k, Finish), v.(diskP := v.memP, phases := v.phases - {k}));
  }

  lemma DropKeeps(c: Config, all: Pieces, gone: set<Key>, a: State, k: Key, v: View)
    requires Held(c, all, gone, a, v) && Enabled(c, all, gone, a, k, Skip) && k !in v.right
    ensures Inv(c, all, gone, Decide(a.(boot := a.boot - {k}), k, Drop))
  {
    var b := Decide(a.(boot := a.boot - {k}), k, Drop);
    DropRight(c, all, a.(boot := a.boot - {k}), k);
    PhasesPut(a.flights, k, b.flights[k]);
    KeysPut(a.memPending, k, Pending(0, None, 0));
    SafeDrop(gone, v, k);
    InvFrom(c, all, gone, b, v.(memP := v.memP - {k}, phases := map[k := Aborted], boot := v.boot - {k}));
  }

  lemma AdoptKeeps(c: Config, all: Pieces, gone: set<Key>, a: State, k: Key, e: Entry, v: View)
    requires Held(c, all, gone, a, v) && Enabled(c, all, gone, a, k, Skip)
    requires e.key == k && EntryRight(c, all, a.objects, e)
    ensures Inv(c, all, gone, Decide(a.(boot := a.boot - {k}), k, Adopt(e)))
  {
    var b := Decide(a.(boot := a.boot - {k}), k, Adopt(e));
    AdoptRight(c, all, a.(boot := a.boot - {k}), k, e);
    AddedKeys(c, all, a.objects, a.mem, e);
    PhasesPut(a.flights, k, b.flights[k]);
    KeysPut(a.memPending, k, Pending(0, None, 0));
    SafeAdopt(gone, v, k);
    InvFrom(c, all, gone, b, v.(mem := v.mem + {k}, memP := v.memP - {k}, phases := map[k := Noted],
            boot := v.boot - {k}));
  }

  lemma SkipKeeps(c: Config, all: Pieces, gone: set<Key>, a: State, k: Key, v: View)
    requires Held(c, all, gone, a, v)
    ensures Inv(c, all, gone, a.(boot := a.boot - {k}))
  {
    SafeSkip(gone, v, k);
    InvFrom(c, all, gone, a.(boot := a.boot - {k}), v.(boot := v.boot - {k}));
  }

  lemma ReconcileKeeps(c: Config, all: Pieces, gone: set<Key>, a: State, k: Key, listUp: bool, v: View)
    requires Injective(c.sha) && Held(c, all, gone, a, v) && Enabled(c, all, gone, a, k, Reconcile(listUp))
    ensures Inv(c, all, gone, Step(c, all, gone, a, k, Reconcile(listUp)))
  {
    JudgementRight(c, all, a, k, listUp);
    match Judgement(a, k, listUp)
    case Leave => SkipKeeps(c, all, gone, a, k, v);
    case Drop => DropKeeps(c, all, gone, a, k, v);
    case Adopt(e) => AdoptKeeps(c, all, gone, a, k, e, v);
  }

  /** With uploads one at a time and no topic deleted, every step of every upload and of boot
      keeps the invariant, whichever calls the store answers. */
  lemma StepKeeps(c: Config, all: Pieces, gone: set<Key>, a: State, k: Key, ev: Event)
    requires Injective(c.sha) && c.limit <= 1 && !c.deletions && !a.forgetting
    requires Inv(c, all, gone, a) && Enabled(c, all, gone, a, k, ev)
    ensures Inv(c, all, gone, Step(c, all, gone, a, k, ev))
  {
    var v := ViewOf(c, all, a);
    match ev
    case Start(id, up) => StartKeeps(c, all, gone, a, k, id, up, v);
    case FlushPending => FlushPendingKeeps(c, all, gone, a, k, v);
    case SendPart => SendPartKeeps(c, all, gone, a, k, v);
    case Rename => RenameKeeps(c, all, gone, a, k, v);
    case Label => LabelKeeps(c, all, gone, a, k, v);
    case GiveUp => GiveUpKeeps(c, all, gone, a, k, v);
    case Note(size) => NoteKeeps(c, all, gone, a, k, size, v);
    case FlushCompleted => FlushCompletedKeeps(c, all, gone, a, k, v);
    case Finish => FinishKeeps(c, all, gone, a, k, v);
    case Reconcile(listUp) => ReconcileKeeps(c, all, gone, a, k, listUp, v);
    case Skip => SkipKeeps(c, all, gone, a, k, v);
  }

  lemma NeverForgets(c: Config, all: Pieces, gone: set<Key>, a: State, k: Key, ev: Event)
    requires !c.deletions && !a.forgetting && Enabled(c, all, gone, a, k, ev)
    ensures !Step(c, all, gone, a, k, ev).forgetting
  {
  }

  /** So does a crash, at any point. */
  lemma CrashKeeps(c: Config, all: Pieces, gone: set<Key>, a: State)
    requires Inv(c, all, gone, a)
    ensures Inv(c, all, gone, Crashed(a))
  {
    var v := ViewOf(c, all, a);
    SafeCrash(gone, v);
    NoFlights(map[]);
    InvFrom(c, all, gone, Crashed(a), v.(mem := v.disk, memP := v.diskP, phases := map[], boot := v.diskP));
  }

  // ---- the world around it -----------------------------------------------------------------------------

  /** More segments get sealed. */
  lemma GrowKeeps(c: Config, all: Pieces, more: Pieces, gone: set<Key>, a: State)
    requires Inv(c, all, gone, a) && Apart(more) && (forall k :: k in all ==> k in more && more[k] == all[k])
    ensures Inv(c, more, gone, a)
  {
    var v := ViewOf(c, all, a);
    GrowRight(c, all, more, a);
    var right := RightKeys(c, more, a.objects);
    assert v.right <= right;
    SafeGrow(gone, v, right);
    InvFrom(c, more, gone, a, v.(right := right));
  }

  lemma GrowRight(c: Config, all: Pieces, more: Pieces, a: State)
    requires Right(c, all, a) && (forall k :: k in all ==> k in more && more[k] == all[k])
    ensures Right(c, more, a)
  {
  }

  lemma SafeGrow(gone: set<Key>, v: View, right: set<Key>)
    requires Safe(gone, v) && v.right <= right
    ensures Safe(gone, v.(right := right))
  {
  }

  /** Segments listed in memory may go: should the process die now, boot still finds them. */
  lemma DeleteKeeps(c: Config, all: Pieces, gone: set<Key>, a: State, more: set<Key>)
    requires Inv(c, all, gone, a) && more <= KeysOf(a.mem)
    ensures Inv(c, all, gone + more, a)
  {
    SafeDelete(gone, ViewOf(c, all, a), more);
  }

  lemma SafeDelete(gone: set<Key>, v: View, more: set<Key>)
    requires Safe(gone, v) && more <= v.mem
    ensures Safe(gone + more, v)
  {
  }

  /** No step but a crash takes a segment off the manifest. */
  lemma StepLists(c: Config, all: Pieces, gone: set<Key>, a: State, k: Key, ev: Event)
    requires Injective(c.sha) && Apart(all) && Right(c, all, a) && Enabled(c, all, gone, a, k, ev)
    ensures KeysOf(a.mem) <= KeysOf(Step(c, all, gone, a, k, ev).mem)
  {
    match ev
    case Start(id, up) => BeginChanges(c, all[k], a, k, id, up);
    case Note(size) =>
      AddedKeys(c, all, a.objects, a.mem, Entry(k, all[k].next, size, Some(c.sha(all[k].file))));
    case Reconcile(listUp) => DecideLists(c, all, a, k, listUp);
    case _ =>
  }

  lemma DecideLists(c: Config, all: Pieces, a: State, k: Key, listUp: bool)
    requires Injective(c.sha) && Apart(all) && Right(c, all, a) && k in a.memPending
    ensures KeysOf(a.mem) <= KeysOf(Decide(a.(boot := a.boot - {k}), k, Judgement(a, k, listUp)).mem)
  {
    JudgementRight(c, all, a, k, listUp);
    VerdictLists(c, all, a, k, Judgement(a, k, listUp));
  }

  lemma VerdictLists(c: Config, all: Pieces, a: State, k: Key, v: Verdict)
    requires Apart(all) && EntriesRight(c, all, a.objects, a.mem) && k in a.memPending
    requires v.Adopt? ==> v.entry.key in all && v.entry.next == all[v.entry.key].next
    ensures KeysOf(a.mem) <= KeysOf(Decide(a.(boot := a.boot - {k}), k, v).mem)
  {
    if v.Adopt? {
      AddedKeys(c, all, a.objects, a.mem, v.entry);
    }
  }

  /** A segment deleted locally whose entry a crash lost is listed again once boot has judged it. */
  lemma BootLists(c: Config, all: Pieces, gone: set<Key>, a: State, k: Key, listUp: bool)
    requires Injective(c.sha) && Inv(c, all, gone, a) && k in gone && Enabled(c, all, gone, a, k, Reconcile(listUp))
    ensures k in KeysOf(Step(c, all, gone, a, k, Reconcile(listUp)).mem)
  {
    assert Covered(ViewOf(c, all, a), k);
    JudgementRight(c, all, a, k, listUp);
    if Judgement(a, k, listUp).Adopt? {
      AddedKeys(c, all, a.objects, a.mem, Judgement(a, k, listUp).entry);
    }
  }

  /** The checkpoints that boot has still to judge: one fewer when it judges or skips one. */
  lemma StepBoots(c: Config, all: Pieces, gone: set<Key>, a: State, k: Key, ev: Event)
    requires Enabled(c, all, gone, a, k, ev)
    ensures Step(c, all, gone, a, k, ev).boot == if ev.Reconcile? || ev.Skip? then a.boot - {k} else a.boot
  {
    match ev
    case Start(id, up) => BeginChanges(c, all[k], a, k, id, up);
    case Reconcile(listUp) => DecideBoots(a.(boot := a.boot - {k}), k, Judgement(a, k, listUp));
    case _ =>
  }

  lemma DecideBoots(a: State, k: Key, v: Verdict)
    requires k in a.memPending
    ensures Decide(a, k, v).boot == a.boot
  {
  }

  /** A segment deleted locally that is not listed, and that boot will not judge any more, is
      not listed by any step but a crash. */
  lemma StaysOut(c: Config, all: Pieces, gone: set<Key>, a: State, k: Key, ev: Event, l: Key)
    requires Injective(c.sha) && Inv(c, all, gone, a) && Enabled(c, all, gone, a, k, ev)
    requires l in gone && l !in KeysOf(a.mem) && l !in a.boot
    ensures l !in KeysOf(Step(c, all, gone, a, k, ev).mem)
  {
    match ev
    case Start(id, up) => BeginChanges(c, all[k], a, k, id, up);
    case Note(size) =>
      NotedIsHere(c, all, gone, a, k);
      AddedKeys(c, all, a.objects, a.mem, Entry(k, all[k].next, size, Some(c.sha(all[k].file))));
    case Reconcile(listUp) =>
      JudgementRight(c, all, a, k, listUp);
      JudgedOut(c, all, a.(boot := a.boot - {k}), k, Judgement(a, k, listUp), l);
    case _ =>
  }

  lemma NotedIsHere(c: Config, all: Pieces, gone: set<Key>, a: State, k: Key)
    requires Inv(c, all, gone, a) && InPhase(a, k, Stored)
    ensures k !in gone
  {
    var v := ViewOf(c, all, a);
    assert k in v.phases && PhaseSafe(gone, v, k, v.phases[k]);
  }

  lemma JudgedOut(c: Config, all: Pieces, a: State, k: Key, v: Verdict, l: Key)
    requires Apart(all) && EntriesRight(c, all, a.objects, a.mem) && k in a.memPending && l !in KeysOf(a.mem)
    requires v.Adopt? ==> v.entry.key in all && v.entry.next == all[v.entry.key].next && v.entry.key != l
    ensures l !in KeysOf(Decide(a, k, v).mem)
  {
    if v.Adopt? {
      AddedKeys(c, all, a.objects, a.mem, v.entry);
    }
  }

  /** After a crash, every segment deleted locally is listed or for boot to judge. */
  lemma CrashAccounts(c: Config, all: Pieces, gone: set<Key>, a: State, l: Key)
    requires Inv(c, all, gone, a) && l in gone
    ensures l in KeysOf(Crashed(a).mem) || l in Crashed(a).boot
  {
    assert Lasting(ViewOf(c, all, a), l);
  }

  /** Whatever the interleaving, no two entries of the manifest clash, in memory or on disk. */
  ghost predicate NoClash(a: State) {
    Disjoint(a.mem) && Disjoint(a.disk)
  }

  lemma StepNoClash(c: Config, all: Pieces, gone: set<Key>, a: State, k: Key, ev: Event)
    requires NoClash(a) && Enabled(c, all, gone, a, k, ev)
    ensures NoClash(Step(c, all, gone, a, k, ev))
  {
    match ev
    case Start(id, up) => BeginChanges(c, all[k], a, k, id, up);
    case Note(size) => AddedDisjoint(a.mem, Entry(k, all[k].next, size, Some(c.sha(all[k].file))));
    case Reconcile(listUp) => DecideNoClash(a.(boot := a.boot - {k}), k, Judgement(a, k, listUp));
    case _ =>
  }

  lemma DecideNoClash(a: State, k: Key, v: Verdict)
    requires NoClash(a) && k in a.memPending
    ensures NoClash(Decide(a, k, v))
  {
    if v.Adopt? {
      AddedDisjoint(a.mem, v.entry);
    }
  }
}
