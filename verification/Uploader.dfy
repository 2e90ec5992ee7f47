/** Archiving one sealed segment: upload or resume, record, and the repair done at boot. */
module Uploader {
  import opened Bytes
  import opened Options
  import opened ObjectStore
  import opened Manifests

  // ---- what a resumed upload assembles -----------------------------------------------------

  /** A sealed segment as the uploader reads it. */
  datatype Source = Source(key: Key, next: int, file: bytes)

  /** How many parts of an earlier upload are kept: none without a checkpoint for these
      very bytes whose upload the store still knows. */
  function Kept(uploads: map<int, Upload>, pending: map<Key, Pending>, key: Key, digest: Digest,
                partSize: nat): (m: nat) {
    if key in pending && pending[key].sha == Some(digest) && pending[key].upload in uploads
    then Trusted(Listed(uploads[pending[key].upload].parts, 1), partSize, 0)
    else 0
  }

  lemma KeptAreStored(uploads: map<int, Upload>, pending: map<Key, Pending>, key: Key, digest: Digest, partSize: nat)
    requires Kept(uploads, pending, key, digest, partSize) > 0
    ensures HasUpTo(uploads[pending[key].upload].parts, Kept(uploads, pending, key, digest, partSize))
  {
    TrustedAreStored(uploads[pending[key].upload].parts, partSize);
  }

  /** How many are kept when the store may fail to list them. */
  function KeptIf(up: bool, uploads: map<int, Upload>, pending: map<Key, Pending>, key: Key, digest: Digest,
                  partSize: nat): nat
  {
    if up then Kept(uploads, pending, key, digest, partSize) else 0
  }

  /** The object made of m stored parts and of the file from byte m * partSize on. */
  function Resumed(parts: map<nat, bytes>, m: nat, file: bytes, partSize: nat): bytes
    requires forall k :: 1 <= k <= m ==> k in parts
  {
    Assemble(parts, m) + file[PartStart(file, partSize, m)..]
  }

  /** The parts the store holds were cut with some part size, perhaps not today's. The
      object is the file exactly when the kept parts end where reading resumes. */
  lemma {:induction false} ResumedWhen(parts: map<nat, bytes>, m: nat, file: bytes, oldSize: nat, partSize: nat)
    requires Faithful(parts, file, oldSize) && HasUpTo(parts, m)
    ensures Resumed(parts, m, file, partSize) == file
            <==> PartStart(file, oldSize, m) == PartStart(file, partSize, m)
  {
    AssembledPrefix(parts, file, oldSize, m);
    var a, c := PartStart(file, oldSize, m), PartStart(file, partSize, m);
    assert Resumed(parts, m, file, partSize) == file[..a] + file[c..];
    if a == c {
      assert file[..a] + file[a..] == file;
    } else {
      assert |file[..a] + file[c..]| == a + |file| - c;
    }
  }

  /** With the part size unchanged every interruption resumes to the file, whatever parts
      survived: none, a gap after some, leftovers past the gap, or all of them. */
  lemma {:induction false} ResumedIsFile(parts: map<nat, bytes>, file: bytes, partSize: nat)
    requires Faithful(parts, file, partSize)
    ensures var m := Trusted(Listed(parts, 1), partSize, 0);
            HasUpTo(parts, m) && Resumed(parts, m, file, partSize) == file
  {
    TrustedAreStored(parts, partSize);
    ResumedWhen(parts, Trusted(Listed(parts, 1), partSize, 0), file, partSize, partSize);
  }

  /** A lone stored part is trusted whatever its size, so a part size changed between two
      starts can assemble a wrong object: here the middle byte is sent twice. */
  lemma PartSizeChangeCorrupts()
    ensures var file: bytes, parts: map<nat, bytes> := [1, 2, 3], map[1 := [1, 2]];
            && Faithful(parts, file, 2)
            && Trusted(Listed(parts, 1), 1, 0) == 1
            && Resumed(parts, 1, file, 1) == [1, 2, 2, 3]
  {
    var file: bytes, parts: map<nat, bytes> := [1, 2, 3], map[1 := [1, 2]];
    assert PartStart(file, 2, 0) == 0 && PartStart(file, 2, 1) == 2;
    assert PartStart(file, 1, 0) == 0 && PartStart(file, 1, 1) == 1;
    NothingListed(parts, 2);
    assert Listed(parts, 1) == [Part(1, 2)];
    assert Trusted([Part(1, 2)], 1, 1) == 1;
    assert Assemble(parts, 1) == Assemble(parts, 0) + parts[1] == [1, 2];
  }

  lemma {:induction false} NothingListed(parts: map<nat, bytes>, from: nat)
    requires forall n :: n in parts ==> n < from
    ensures Listed(parts, from) == []
    decreases MAX_PARTS + 1 - from
  {
    if from <= MAX_PARTS {
      NothingListed(parts, from + 1);
    }
  }

  // ---- uploading one segment ---------------------------------------------------------------

  /** The size recorded for a segment resumed after m parts. */
  function RecordedSize(m: nat, file: bytes, partSize: nat): int {
    m * partSize + |file| - PartStart(file, partSize, m)
  }

  /** The recorded size is the file's, except when the kept parts include a short last
      one: then it is too large, never too small. */
  lemma RecordedSizeWhen(m: nat, file: bytes, partSize: nat)
    ensures RecordedSize(m, file, partSize) >= |file|
    ensures RecordedSize(m, file, partSize) == |file| <==> m * partSize <= |file|
  {
    PartStartIs(file, partSize, m);
  }

  lemma {:induction false} AssembleSame(a: map<nat, bytes>, b: map<nat, bytes>, n: nat)
    requires HasUpTo(a, n) && HasUpTo(b, n)
    requires forall k :: 1 <= k <= n ==> a[k] == b[k]
    ensures Assemble(a, n) == Assemble(b, n)
  {
    if n > 0 {
      AssembleSame(a, b, n - 1);
    }
  }

  /** One more part numbered n + 1. */
  lemma AssembleMore(parts: map<nat, bytes>, n: nat, data: bytes)
    requires HasUpTo(parts, n)
    ensures HasUpTo(parts[n + 1 := data], n + 1)
    ensures Assemble(parts[n + 1 := data], n + 1) == Assemble(parts, n) + data
  {
    AssembleSame(parts, parts[n + 1 := data], n);
  }

  /** Sends part n + 1 and checkpoints. */
  method SendPart(store: Store, manifest: Manifest, key: Key, id: int, n: nat, data: bytes) returns (ok: bool)
    requires id in store.uploads && HasUpTo(store.uploads[id].parts, n) && key in manifest.pending
    modifies store`uploads, manifest`pending, manifest`pendingFile
    ensures ok <==> n < MAX_PARTS
    ensures id in store.uploads && store.uploads[id].sha == old(store.uploads[id].sha)
    ensures store.uploads == old(store.uploads)[id := store.uploads[id]]
    ensures manifest.pending == old(manifest.pending)
    ensures ok ==> HasUpTo(store.uploads[id].parts, n + 1)
    ensures ok ==> Assemble(store.uploads[id].parts, n + 1) == Assemble(old(store.uploads[id].parts), n) + data
  {
    AssembleMore(store.uploads[id].parts, n, data);
    ok := store.UploadPart(id, n + 1, data);
    if ok {
      manifest.SetPending(key, manifest.pending[key]);
    }
  }

  /** Sends the parts from number m + 1 on, checkpointing after each. */
  method SendParts(store: Store, manifest: Manifest, src: Source, id: int, m: nat, partSize: nat)
    returns (ok: bool, n: nat)
    requires partSize > 0 && m <= MAX_PARTS
    requires id in store.uploads && HasUpTo(store.uploads[id].parts, m) && src.key in manifest.pending
    modifies store`uploads, manifest`pending, manifest`pendingFile
    ensures id in store.uploads && store.uploads[id].sha == old(store.uploads[id].sha)
    ensures store.uploads == old(store.uploads)[id := store.uploads[id]]
    ensures manifest.pending == old(manifest.pending)
    ensures ok <==> PartStart(src.file, partSize, MAX_PARTS) == |src.file|
    ensures ok ==> HasUpTo(store.uploads[id].parts, n)
    ensures ok ==> Assemble(store.uploads[id].parts, n) == Resumed(old(store.uploads[id].parts), m, src.file, partSize)
  {
    ghost var was := store.uploads[id];
    ghost var start := PartStart(src.file, partSize, m);
    n := m;
    var pos := if m * partSize > |src.file| then |src.file| else m * partSize;
    PartStartIs(src.file, partSize, m);
    assert src.file[start..start] == [];
    while pos < |src.file|
      invariant m <= n <= MAX_PARTS && start <= pos == PartStart(src.file, partSize, n)
      invariant id in store.uploads && store.uploads[id].sha == was.sha && HasUpTo(store.uploads[id].parts, n)
      invariant store.uploads == old(store.uploads)[id := store.uploads[id]]
      invariant Assemble(store.uploads[id].parts, n) == Assemble(was.parts, m) + src.file[start..pos]
      invariant manifest.pending == old(manifest.pending)
      decreases |src.file| - pos
    {
      var end := if pos + partSize > |src.file| then |src.file| else pos + partSize;
      var sent := SendPart(store, manifest, src.key, id, n, src.file[pos..end]);
      if !sent {
        return false, n;
      }
      assert src.file[start..pos] + src.file[pos..end] == src.file[start..end];
      n := n + 1;
      pos := end;
    }
    ok := true;
    PartStartGrows(src.file, partSize, n, MAX_PARTS);
    assert src.file[start..pos] == src.file[start..];
  }

  /** Picks up the checkpointed upload where its trusted parts end, or starts a new one.
      `up` tells whether the store answers when asked for the parts: when it does not, the
      checkpoint is replaced although its parts may be there. */
  method OpenUpload(store: Store, manifest: Manifest, src: Source, digest: Digest, partSize: nat, newId: int, up: bool)
    returns (id: int, m: nat)
    requires newId !in store.uploads
    modifies store`uploads, manifest`pending, manifest`pendingFile
    ensures m == KeptIf(up, old(store.uploads), old(manifest.pending), src.key, digest, partSize)
    ensures m > 0 ==> id == old(manifest.pending)[src.key].upload && store.uploads == old(store.uploads)
                      && manifest.pending == old(manifest.pending)
    ensures m == 0 ==> id == newId && store.uploads == old(store.uploads)[id := Upload(src.key, digest, map[])]
                       && manifest.pending == old(manifest.pending)[src.key := Pending(src.next, Some(digest), id)]
    ensures id in store.uploads && m <= MAX_PARTS && HasUpTo(store.uploads[id].parts, m)
    ensures manifest.pendingFile == manifest.pending
  {
    m := 0;
    if src.key in manifest.pending && manifest.pending[src.key].sha == Some(digest) {
      id := manifest.pending[src.key].upload;
      var existing := store.ListParts(id, up);
      if existing.Found? {
        m := CountTrusted(existing.value, partSize);
        TrustedAreStored(store.uploads[id].parts, partSize);
        TrustedInRange(store.uploads[id].parts, partSize);
      }
    }
    if m == 0 {
      id := newId;
      store.CreateMultipart(src.key, digest, id);
      manifest.SetPending(src.key, Pending(src.next, Some(digest), id));
    } else {
      manifest.SetPending(src.key, manifest.pending[src.key]);
    }
  }

  method CountTrusted(existing: seq<Part>, partSize: nat) returns (m: nat)
    ensures m == Trusted(existing, partSize, 0)
  {
    m := 0;
    while m < |existing|
      invariant m <= |existing| && Trusted(existing, partSize, m) == Trusted(existing, partSize, 0)
    {
      if existing[m].number != m + 1 || (m < |existing| - 1 && existing[m].size != partSize) {
        return;
      }
      m := m + 1;
    }
  }

  lemma {:induction false} TrustedInRange(parts: map<nat, bytes>, partSize: nat)
    ensures Trusted(Listed(parts, 1), partSize, 0) <= MAX_PARTS
  {
    var m := Trusted(Listed(parts, 1), partSize, 0);
    if m > 0 {
      TrustedNumbers(Listed(parts, 1), partSize, 0, m - 1);
      ListedAreStored(parts, 1, m - 1);
    }
  }

  /** Sends what is missing and completes the upload, or aborts it when there are too many parts. */
  method Transfer(store: Store, manifest: Manifest, src: Source, id: int, m: nat, partSize: nat) returns (ok: bool)
    requires partSize > 0 && m <= MAX_PARTS
    requires id in store.uploads && HasUpTo(store.uploads[id].parts, m) && src.key in manifest.pending
    modifies store, manifest`pending, manifest`pendingFile
    ensures manifest.pending == old(manifest.pending)
    ensures store.uploads == old(store.uploads) - {id}
    ensures ok <==> PartStart(src.file, partSize, MAX_PARTS) == |src.file|
    ensures store.objects ==
            if !ok then old(store.objects)
            else old(store.objects)[src.key := Object(Resumed(old(store.uploads[id].parts), m, src.file, partSize),
                                                      Some(old(store.uploads[id].sha)))]
  {
    var n;
    ok, n := SendParts(store, manifest, src, id, m, partSize);
    if ok {
      Complete(store, src.key, id, n);
    } else {
      store.AbortMultipart(id);
    }
  }

  /** Completes an upload of n parts. */
  method Complete(store: Store, key: Key, id: int, n: nat)
    requires id in store.uploads && HasUpTo(store.uploads[id].parts, n)
    modifies store
    ensures store.uploads == old(store.uploads) - {id}
    ensures store.objects == old(store.objects)[key := Object(Assemble(old(store.uploads[id].parts), n),
                                                              Some(old(store.uploads[id].sha)))]
  {
    JoinsFirst(store.uploads[id].parts, n);
    var done := store.CompleteMultipart(key, id, FirstParts(n));
  }

  /** The parts an upload starts from are cut from this file and labelled with its digest. */
  ghost predicate Sound(uploads: map<int, Upload>, pending: map<Key, Pending>, src: Source, digest: Digest,
                        partSize: nat) {
    Kept(uploads, pending, src.key, digest, partSize) > 0 ==>
      var u := uploads[pending[src.key].upload];
      Faithful(u.parts, src.file, partSize) && u.sha == digest
  }

  /** A checkpoint may be for other bytes than the file has now, those of a deleted topic of the same
      name say. Then none of its parts are kept: an upload only ever starts from parts of its file. */
  lemma {:induction false} ResumesOnlyItsOwn(sha: Hash, uploads: map<int, Upload>, pending: map<Key, Pending>,
                                             src: Source, was: bytes, partSize: nat)
    requires Injective(sha) && src.key in pending && pending[src.key].sha == Some(sha(was))
    requires pending[src.key].upload in uploads ==>
               var u := uploads[pending[src.key].upload]; Faithful(u.parts, was, partSize) && u.sha == sha(was)
    ensures Sound(uploads, pending, src, sha(src.file), partSize)
  {
    assert sha(was) == sha(src.file) ==> was == src.file;
  }

  /** From such parts, or from none, the object becomes the file. */
  lemma {:induction false} SoundResumes(uploads: map<int, Upload>, pending: map<Key, Pending>, src: Source,
                                        digest: Digest, partSize: nat, up: bool, u: Upload, m: nat)
    requires Sound(uploads, pending, src, digest, partSize)
    requires m == KeptIf(up, uploads, pending, src.key, digest, partSize) && HasUpTo(u.parts, m)
    requires u == if m == 0 then Upload(src.key, digest, map[]) else uploads[pending[src.key].upload]
    ensures Resumed(u.parts, m, src.file, partSize) == src.file && u.sha == digest
  {
    ResumedWhen(u.parts, m, src.file, partSize, partSize);
  }

  /** Brings a segment's bytes into the store, resuming where that is possible. */
  method Send(store: Store, manifest: Manifest, src: Source, digest: Digest, partSize: nat, newId: int, up: bool)
    returns (sent: bool, m: nat)
    requires partSize > 0 && newId !in store.uploads
    modifies store, manifest`pending, manifest`pendingFile
    ensures sent <==> PartStart(src.file, partSize, MAX_PARTS) == |src.file|
    ensures m == KeptIf(up, old(store.uploads), old(manifest.pending), src.key, digest, partSize)
    ensures manifest.pending - {src.key} == old(manifest.pending) - {src.key}
    ensures store.uploads == if m == 0 then old(store.uploads)
                             else old(store.uploads) - {old(manifest.pending)[src.key].upload}
    ensures store.objects - {src.key} == old(store.objects) - {src.key}
    ensures !sent ==> store.objects == old(store.objects)
    ensures sent && Sound(old(store.uploads), old(manifest.pending), src, digest, partSize) ==>
              store.objects == old(store.objects)[src.key := Object(src.file, Some(digest))]
  {
    var id;
    id, m := OpenUpload(store, manifest, src, digest, partSize, newId, up);
    if Sound(old(store.uploads), old(manifest.pending), src, digest, partSize) {
      SoundResumes(old(store.uploads), old(manifest.pending), src, digest, partSize, up, store.uploads[id], m);
    }
    sent := Transfer(store, manifest, src, id, m, partSize);
  }

  /** Uploads a sealed segment and records it. `same` tells whether the segment's path still
      leads to the file that was read. */
  method UploadOne(store: Store, manifest: Manifest, sha: Hash, src: Source, partSize: nat, newId: int, up: bool,
                   same: bool)
    returns (ok: bool)
    requires partSize > 0 && newId !in store.uploads
    modifies store, manifest
    ensures ok <==> same && PartStart(src.file, partSize, MAX_PARTS) == |src.file|
    ensures ok ==>
              var m := KeptIf(up, old(store.uploads), old(manifest.pending), src.key, sha(src.file), partSize);
              manifest.completed == Added(old(manifest.completed),
                                          Entry(src.key, src.next, RecordedSize(m, src.file, partSize),
                                                  Some(sha(src.file))))
    ensures ok ==> manifest.completedFile == manifest.completed
    ensures !ok ==>
              manifest.completed == old(manifest.completed) && manifest.completedFile == old(manifest.completedFile)
    ensures manifest.pending == manifest.pendingFile == old(manifest.pending) - {src.key}
    ensures store.objects - {src.key} == old(store.objects) - {src.key}
    ensures var m := KeptIf(up, old(store.uploads), old(manifest.pending), src.key, sha(src.file), partSize);
            store.uploads == if m == 0 then old(store.uploads)
                             else old(store.uploads) - {old(manifest.pending)[src.key].upload}
    ensures PartStart(src.file, partSize, MAX_PARTS) < |src.file| ==> store.objects == old(store.objects)
    ensures PartStart(src.file, partSize, MAX_PARTS) == |src.file|
            && Sound(old(store.uploads), old(manifest.pending), src, sha(src.file), partSize) ==>
              store.objects == old(store.objects)[src.key := Object(src.file, Some(sha(src.file)))]
  {
    var digest := sha(src.file);
    var sent, m := Send(store, manifest, src, digest, partSize, newId, up);
    if !sent {
      manifest.AbortPending(src.key);
      return false;
    }
    if !same {
      manifest.AbortPending(src.key);
      return false;
    }
    manifest.AddCompleted(Entry(src.key, src.next, RecordedSize(m, src.file, partSize), Some(digest)));
    ok := true;
  }

  // ---- repair at boot ----------------------------------------------------------------------

  datatype Verdict = Leave | Drop | Adopt(entry: Entry)

  /** What to do about a checkpoint left by a crash, by what the store answers about the
      object and, if there is none, about the parts. */
  function Judge(key: Key, p: Pending, found: Answer<Object>, parts: Answer<seq<Part>>): Verdict {
    match found
    case Failed => Leave
    case Missing => if parts.Found? && parts.value != [] then Leave else Drop
    case Found(o) =>
      if p.sha.Some? && o.stamp.Some? && o.stamp != p.sha then Drop
      else Adopt(Entry(key, p.next, |o.data|, if p.sha.Some? then p.sha else o.stamp))
  }

  /** The verdict on a checkpoint, by which calls the store answers. */
  function Judged(objects: map<Key, Object>, uploads: map<int, Upload>, key: Key, p: Pending, statUp: bool,
                  listUp: bool): Verdict
  {
    Judge(key, p, StatAnswer(objects, key, statUp), PartsAnswer(uploads, p.upload, listUp))
  }

  /** What becomes of a checkpoint: it is left while the store does not answer about the object, or
      has no object but some part; an object that does not contradict the checkpoint's digest is
      adopted with the checkpoint's end, its own size and the digest known; otherwise it is dropped. */
  lemma {:induction false} VerdictIs(objects: map<Key, Object>, uploads: map<int, Upload>, key: Key, p: Pending,
                                     statUp: bool, listUp: bool)
    ensures var v := Judged(objects, uploads, key, p, statUp, listUp);
            var parts := listUp && p.upload in uploads &&
                         exists n :: n in uploads[p.upload].parts && 1 <= n <= MAX_PARTS;
            var agrees := key in objects && (p.sha == objects[key].stamp || p.sha.None? || objects[key].stamp.None?);
            && (v == Leave <==> !statUp || (key !in objects && parts))
            && (v.Adopt? <==> statUp && agrees)
            && (v.Adopt? ==>
                  && v.entry.key == key && v.entry.next == p.next && v.entry.size == |objects[key].data|
                  && (p.sha.Some? ==> v.entry.sha == p.sha) && (p.sha.None? ==> v.entry.sha == objects[key].stamp))
  {
    if p.upload in uploads {
      var parts := uploads[p.upload].parts;
      if Listed(parts, 1) != [] {
        ListedAreStored(parts, 1, 0);
      }
      forall n | n in parts && 1 <= n <= MAX_PARTS
        ensures Listed(parts, 1) != []
      {
        var k := StoredAreListed(parts, 1, n);
      }
    }
  }

  /** The upload did not complete, and the store holds parts of it. */
  predicate Resumable(objects: map<Key, Object>, uploads: map<int, Upload>, key: Key, p: Pending) {
    key !in objects && p.upload in uploads && Listed(uploads[p.upload].parts, 1) != []
  }

  /** A resumable checkpoint survives boot exactly when the store fails to answer about the
      object, or answers about the parts as well. */
  lemma ResumableSurvives(objects: map<Key, Object>, uploads: map<int, Upload>, key: Key, p: Pending, statUp: bool,
                          listUp: bool)
    requires Resumable(objects, uploads, key, p)
    ensures Judged(objects, uploads, key, p, statUp, listUp) == if !statUp || listUp then Leave else Drop
  {
  }

  /** An error while listing the parts, after the object was reported missing, drops a
      checkpoint whose parts are all there. */
  lemma TransientErrorDrops(key: Key, digest: Digest)
    ensures var uploads, p := map[7 := Upload(key, digest, map[1 := [0]])], Pending(1, Some(digest), 7);
            Resumable(map[], uploads, key, p) && Judged(map[], uploads, key, p, true, false) == Drop
  {
    var parts: map<nat, bytes> := map[1 := [0]];
    assert Listed(parts, 1) == [Part(1, 1)] + Listed(parts, 2);
  }

  /** The sweep continues a checkpoint's upload exactly when the store lists parts it can
      trust; otherwise a new upload takes the checkpoint's place. */
  lemma SweepContinuesWhen(uploads: map<int, Upload>, pending: map<Key, Pending>, key: Key, digest: Digest,
                           partSize: nat, up: bool)
    requires key in pending && pending[key].sha == Some(digest) && pending[key].upload in uploads
    ensures KeptIf(up, uploads, pending, key, digest, partSize) > 0 <==>
              up && 1 in uploads[pending[key].upload].parts
              && (|| Listed(uploads[pending[key].upload].parts, 2) == []
                  || |uploads[pending[key].upload].parts[1]| == partSize)
  {
    var parts := uploads[pending[key].upload].parts;
    var existing := Listed(parts, 1);
    if 1 in parts {
      assert existing == [Part(1, |parts[1]|)] + Listed(parts, 2);
    } else if existing != [] {
      ListedAreStored(parts, 2, 0);
    }
  }

  /** Of objects labelled with their own digest, exactly the one holding the checkpointed
      segment's bytes is adopted. */
  lemma AdoptsOnlyItsOwn(sha: Hash, key: Key, p: Pending, file: bytes, o: Object, parts: Answer<seq<Part>>)
    requires Injective(sha) && p.sha == Some(sha(file)) && o.stamp == Some(sha(o.data))
    ensures Judge(key, p, Found(o), parts) ==
            if o.data == file then Adopt(Entry(key, p.next, |file|, Some(sha(file)))) else Drop
  {
    assert sha(o.data) == sha(file) ==> o.data == file;
  }

  /** An unlabelled object, or any object when the checkpoint has no digest, is adopted
      whatever its bytes: those are the only ways to adopt a foreign one. */
  lemma AdoptsForeignWhen(sha: Hash, key: Key, p: Pending, file: bytes, o: Object, parts: Answer<seq<Part>>)
    requires Injective(sha) && o.data != file
    requires p.sha.Some? ==> p.sha == Some(sha(file))
    requires o.stamp.Some? ==> o.stamp == Some(sha(o.data))
    ensures Judge(key, p, Found(o), parts).Adopt? <==> p.sha.None? || o.stamp.None?
  {
    assert sha(o.data) == sha(file) ==> o.data == file;
  }

  /** Adopting an upload that is already recorded leaves every other lookup alone. Its own is
      unchanged exactly when the recorded size and digest are the adopted ones: an upload
      resumed behind a short last part was recorded too large and is corrected. */
  lemma {:induction false} AdoptingAgain(list: seq<Entry>, e: Entry, key: Key)
    requires Disjoint(list) && Lookup(list, e.key).Some? && Lookup(list, e.key).value.next == e.next
    ensures key != e.key ==> Lookup(Added(list, e), key) == Lookup(list, key)
    ensures Lookup(Added(list, e), e.key) == Some(e)
    ensures Lookup(Added(list, e), e.key) == Lookup(list, e.key)
            <==> Lookup(list, e.key).value.size == e.size && Lookup(list, e.key).value.sha == e.sha
  {
    var own := Lookup(list, e.key).value;
    forall x | x in list && x.key == key && key != e.key
      ensures !Clash(x, e)
    {
      var i :| 0 <= i < |list| && list[i] == x;
      var j :| 0 <= j < |list| && list[j] == own;
      assert i < j ==> !Clash(list[i], list[j]);
      assert j < i ==> !Clash(list[j], list[i]);
    }
    LookupAdded(list, e, key);
    LookupAdded(list, e, e.key);
  }

  /** `statUp` and `listUp` tell which of its two questions the store answers. */
  method ReconcileOrAbort(store: Store, manifest: Manifest, key: Key, statUp: bool, listUp: bool)
    requires key in manifest.pending
    modifies store`uploads, manifest
    ensures var p := old(manifest.pending)[key];
            var verdict := Judged(store.objects, old(store.uploads), key, p, statUp, listUp);
            && (verdict.Leave? ==> store.uploads == old(store.uploads) && manifest.pending == old(manifest.pending)
                                   && manifest.completed == old(manifest.completed))
            && (verdict.Drop? ==> store.uploads == old(store.uploads) - {p.upload}
                                  && manifest.pending == manifest.pendingFile == old(manifest.pending) - {key}
                                  && manifest.completed == old(manifest.completed))
            && (verdict.Adopt? ==>
                  && store.uploads == old(store.uploads)
                  && manifest.pending == manifest.pendingFile == old(manifest.pending) - {key}
                  && manifest.completed == manifest.completedFile == Added(old(manifest.completed), verdict.entry))
  {
    var p := manifest.pending[key];
    var found := store.Stat(key, statUp);
    if found.Failed? {
      return;
    }
    if found.Missing? {
      var parts := store.ListParts(p.upload, listUp);
      if parts.Found? && parts.value != [] {
        return;
      }
      store.AbortMultipart(p.upload);
      manifest.AbortPending(key);
      return;
    }
    var o := found.value;
    if p.sha.Some? && o.stamp.Some? && o.stamp != p.sha {
      store.AbortMultipart(p.upload);
      manifest.AbortPending(key);
      return;
    }
    manifest.AddCompleted(Entry(key, p.next, |o.data|, if p.sha.Some? then p.sha else o.stamp));
    manifest.AbortPending(key);
  }
}
