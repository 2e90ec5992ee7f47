/** The object store contract, as the directory backend keeps it: finished objects,
    and multipart uploads whose parts survive a restart. */
module ObjectStore {
  import opened Bytes
  import opened Options

  const MAX_PARTS := 10000

  type Digest = int

  /** Any digest; where it matters that it tells contents apart, that is said. */
  type Hash = bytes -> Digest

  ghost predicate Injective(sha: Hash) {
    forall a, b :: sha(a) == sha(b) ==> a == b
  }

  /** The key of an archived segment. The store's key is a string made of the three, one to one. */
  datatype Key = Key(topic: string, partition: int, base: int)

  datatype Part = Part(number: nat, size: nat)

  /** What the store answers to a question: the thing, that there is none, or an error. */
  datatype Answer<+T> = Found(value: T) | Missing | Failed

  /** A finished object and the digest in its metadata, if it has one. */
  datatype Object = Object(data: bytes, stamp: Option<Digest>)

  datatype Upload = Upload(key: Key, sha: Digest, parts: map<nat, bytes>)

  // ---- cutting a file into parts -------------------------------------------------------

  /** The byte at which part n + 1 starts: n full parts, or the end of the file. */
  function PartStart(data: bytes, partSize: nat, n: nat): (pos: nat)
    ensures pos <= |data|
  {
    if n == 0 then 0
    else
      var before := PartStart(data, partSize, n - 1);
      if before + partSize > |data| then |data| else before + partSize
  }

  lemma {:induction false} PartStartIs(data: bytes, partSize: nat, n: nat)
    ensures PartStart(data, partSize, n) == if n * partSize > |data| then |data| else n * partSize
  {
    if n > 0 {
      PartStartIs(data, partSize, n - 1);
      assert n * partSize == (n - 1) * partSize + partSize;
    }
  }

  lemma {:induction false} PartStartGrows(data: bytes, partSize: nat, m: nat, n: nat)
    requires m <= n
    ensures PartStart(data, partSize, m) <= PartStart(data, partSize, n)
    decreases n
  {
    if m < n {
      PartStartGrows(data, partSize, m, n - 1);
    }
  }

  /** Part n of a file, counted from one. */
  function Chunk(data: bytes, partSize: nat, n: nat): bytes
    requires n > 0
  {
    PartStartGrows(data, partSize, n - 1, n);
    data[PartStart(data, partSize, n - 1)..PartStart(data, partSize, n)]
  }

  /** Stored parts are cut from this file, where it still has bytes. */
  ghost predicate Faithful(parts: map<nat, bytes>, data: bytes, partSize: nat) {
    forall n :: n in parts ==>
      1 <= n <= MAX_PARTS && PartStart(data, partSize, n - 1) < |data| && parts[n] == Chunk(data, partSize, n)
  }

  /** The parts numbered 1 to n, one after another. */
  function Assemble(parts: map<nat, bytes>, n: nat): bytes
    requires forall k :: 1 <= k <= n ==> k in parts
  {
    if n == 0 then [] else Assemble(parts, n - 1) + parts[n]
  }

  ghost predicate HasUpTo(parts: map<nat, bytes>, n: nat) {
    forall k :: 1 <= k <= n ==> k in parts
  }

  /** Faithful parts 1 to n make up the beginning of the file. */
  lemma {:induction false} AssembledPrefix(parts: map<nat, bytes>, data: bytes, partSize: nat, n: nat)
    requires Faithful(parts, data, partSize) && HasUpTo(parts, n)
    ensures Assemble(parts, n) == data[..PartStart(data, partSize, n)]
  {
    if n > 0 {
      AssembledPrefix(parts, data, partSize, n - 1);
      PartStartGrows(data, partSize, n - 1, n);
      var a, b := PartStart(data, partSize, n - 1), PartStart(data, partSize, n);
      assert n in parts;
      assert data[..a] + data[a..b] == data[..b];
    }
  }

  // ---- listing and trusting parts ----------------------------------------------------------

  /** ListParts: what is stored, in order of part number. */
  function Listed(parts: map<nat, bytes>, from: nat): seq<Part>
    decreases MAX_PARTS + 1 - from
  {
    if from > MAX_PARTS then []
    else if from in parts then [Part(from, |parts[from]|)] + Listed(parts, from + 1)
    else Listed(parts, from + 1)
  }

  /** How many leading parts a resume trusts: numbered without a gap, and of full
      size but for the last one listed. */
  function Trusted(existing: seq<Part>, partSize: nat, i: nat): (m: nat)
    requires i <= |existing|
    ensures i <= m <= |existing|
    decreases |existing| - i
  {
    if i == |existing| then i
    else if existing[i].number != i + 1 || (i < |existing| - 1 && existing[i].size != partSize) then i
    else Trusted(existing, partSize, i + 1)
  }

  lemma {:induction false} TrustedNumbers(existing: seq<Part>, partSize: nat, i: nat, k: nat)
    requires i <= |existing| && i <= k < Trusted(existing, partSize, i)
    ensures existing[k].number == k + 1
    decreases |existing| - i
  {
    if i < k {
      TrustedNumbers(existing, partSize, i + 1, k);
    }
  }

  lemma {:induction false} ListedAreStored(parts: map<nat, bytes>, from: nat, k: nat)
    requires k < |Listed(parts, from)|
    ensures var p := Listed(parts, from)[k];
              from <= p.number <= MAX_PARTS && p.number in parts && p.size == |parts[p.number]|
    decreases MAX_PARTS + 1 - from
  {
    if from in parts {
      if k > 0 {
        ListedAreStored(parts, from + 1, k - 1);
      }
    } else {
      ListedAreStored(parts, from + 1, k);
    }
  }

  /** Every trusted part is stored. */
  /** And no more could be trusted: the next one listed is out of order, or a short one with
      another behind it. */
  lemma {:induction false} TrustedStops(existing: seq<Part>, partSize: nat, i: nat)
    requires i <= |existing|
    ensures var m := Trusted(existing, partSize, i);
            m < |existing| ==>
              existing[m].number != m + 1 || (m < |existing| - 1 && existing[m].size != partSize)
    decreases |existing| - i
  {
    if i < |existing| && Trusted(existing, partSize, i) > i {
      TrustedStops(existing, partSize, i + 1);
    }
  }

  /** No stored part is left out of the list. */
  lemma {:induction false} StoredAreListed(parts: map<nat, bytes>, from: nat, n: nat) returns (k: nat)
    requires n in parts && from <= n <= MAX_PARTS
    ensures k < |Listed(parts, from)| && Listed(parts, from)[k] == Part(n, |parts[n]|)
    decreases n - from
  {
    if from == n {
      k := 0;
    } else {
      k := StoredAreListed(parts, from + 1, n);
      if from in parts {
        k := k + 1;
      }
    }
  }

  lemma {:induction false} TrustedAreStored(parts: map<nat, bytes>, partSize: nat)
    ensures HasUpTo(parts, Trusted(Listed(parts, 1), partSize, 0))
  {
    var existing := Listed(parts, 1);
    var m := Trusted(existing, partSize, 0);
    forall k | 1 <= k <= m
      ensures k in parts
    {
      TrustedNumbers(existing, partSize, 0, k - 1);
      ListedAreStored(parts, 1, k - 1);
    }
  }

  // ---- completing with a list of parts ------------------------------------------------------

  ghost predicate AllStored(parts: map<nat, bytes>, named: seq<nat>) {
    forall n :: n in named ==> n in parts
  }

  /** The named parts one after another, in the order of the list. */
  function JoinNamed(parts: map<nat, bytes>, named: seq<nat>): bytes
    requires forall n :: n in named ==> n in parts
  {
    if named == [] then [] else parts[named[0]] + JoinNamed(parts, named[1..])
  }

  function Insert(n: nat, sorted: seq<nat>): (r: seq<nat>)
    ensures r != [] && (r[0] == n || (sorted != [] && r[0] == sorted[0]))
    ensures multiset(r) == multiset{n} + multiset(sorted)
  {
    if sorted == [] || n <= sorted[0] then [n] + sorted
    else
      assert sorted == [sorted[0]] + sorted[1..];
      [sorted[0]] + Insert(n, sorted[1..])
  }

  /** Part numbers in ascending order, each as often as it is named. */
  function InOrder(named: seq<nat>): (r: seq<nat>)
    ensures multiset(r) == multiset(named)
  {
    if named == [] then []
    else
      assert named == [named[0]] + named[1..];
      Insert(named[0], InOrder(named[1..]))
  }

  predicate Ascending(named: seq<nat>) {
    |named| <= 1 || (named[0] <= named[1] && Ascending(named[1..]))
  }

  lemma {:induction false} InsertSorts(n: nat, sorted: seq<nat>)
    requires Ascending(sorted)
    ensures Ascending(Insert(n, sorted))
  {
    if sorted != [] && n > sorted[0] {
      InsertSorts(n, sorted[1..]);
      assert Insert(n, sorted)[1..] == Insert(n, sorted[1..]);
    } else {
      assert Insert(n, sorted)[1..] == sorted;
    }
  }

  lemma {:induction false} InOrderSorts(named: seq<nat>)
    ensures Ascending(InOrder(named))
  {
    if named != [] {
      InOrderSorts(named[1..]);
      InsertSorts(named[0], InOrder(named[1..]));
    }
  }

  lemma {:induction false} SameNumbers(parts: map<nat, bytes>, named: seq<nat>)
    ensures AllStored(parts, InOrder(named)) <==> AllStored(parts, named)
  {
    assert forall n :: n in named <==> n in multiset(named);
    assert forall n :: n in InOrder(named) <==> n in multiset(InOrder(named));
  }

  /** The named parts joined, unless one of them is missing. */
  method JoinParts(parts: map<nat, bytes>, named: seq<nat>) returns (ok: bool, out: bytes)
    ensures ok <==> AllStored(parts, named)
    ensures ok ==> out == JoinNamed(parts, named)
  {
    out := [];
    assert named[..0] == [];
    for k := 0 to |named|
      invariant AllStored(parts, named[..k]) && out == JoinNamed(parts, named[..k])
    {
      if named[k] !in parts {
        return false, [];
      }
      JoinNamedSnoc(parts, named[..k], named[k]);
      assert named[..k + 1] == named[..k] + [named[k]];
      out := out + parts[named[k]];
    }
    assert named[..|named|] == named;
    ok := true;
  }

  lemma {:induction false} InOrderAlready(named: seq<nat>)
    requires Ascending(named)
    ensures InOrder(named) == named
  {
    if named != [] {
      InOrderAlready(named[1..]);
    }
  }

  lemma {:induction false} JoinNamedSnoc(parts: map<nat, bytes>, named: seq<nat>, n: nat)
    requires AllStored(parts, named) && n in parts
    ensures AllStored(parts, named + [n]) && JoinNamed(parts, named + [n]) == JoinNamed(parts, named) + parts[n]
  {
    if named == [] {
      assert named + [n] == [n] && [n][1..] == [];
    } else {
      JoinNamedSnoc(parts, named[1..], n);
      assert (named + [n])[1..] == named[1..] + [n];
    }
  }

  /** The numbers the uploader names: 1 to n. */
  function FirstParts(n: nat): (named: seq<nat>)
    ensures |named| == n
  {
    seq(n, i => i + 1)
  }

  lemma {:induction false} StepsAscend(named: seq<nat>)
    requires forall i :: 0 <= i < |named| - 1 ==> named[i] <= named[i + 1]
    ensures Ascending(named)
  {
    if |named| > 1 {
      StepsAscend(named[1..]);
    }
  }

  lemma {:induction false} FirstJoin(parts: map<nat, bytes>, n: nat)
    requires HasUpTo(parts, n)
    ensures AllStored(parts, FirstParts(n)) && JoinNamed(parts, FirstParts(n)) == Assemble(parts, n)
  {
    if n > 0 {
      FirstJoin(parts, n - 1);
      assert FirstParts(n) == FirstParts(n - 1) + [n];
      JoinNamedSnoc(parts, FirstParts(n - 1), n);
    }
  }

  /** For the uploader's list, sorting changes nothing and joining assembles. */
  lemma {:induction false} JoinsFirst(parts: map<nat, bytes>, n: nat)
    requires HasUpTo(parts, n)
    ensures InOrder(FirstParts(n)) == FirstParts(n) && AllStored(parts, FirstParts(n))
    ensures JoinNamed(parts, FirstParts(n)) == Assemble(parts, n)
  {
    StepsAscend(FirstParts(n));
    InOrderAlready(FirstParts(n));
    FirstJoin(parts, n);
  }

  // ---- the store ---------------------------------------------------------------------------

  function PartsAnswer(uploads: map<int, Upload>, id: int, up: bool): Answer<seq<Part>> {
    if !up then Failed else if id !in uploads then Missing else Found(Listed(uploads[id].parts, 1))
  }

  function StatAnswer(objects: map<Key, Object>, key: Key, up: bool): Answer<Object> {
    if !up then Failed else if key !in objects then Missing else Found(objects[key])
  }

  class Store {
    var objects: map<Key, Object>
    var uploads: map<int, Upload>

    constructor ()
      ensures objects == map[] && uploads == map[]
    {
      objects, uploads := map[], map[];
    }

    method CreateMultipart(key: Key, sha: Digest, id: int)
      requires id !in uploads
      modifies `uploads
      ensures uploads == old(uploads)[id := Upload(key, sha, map[])]
    {
      uploads := uploads[id := Upload(key, sha, map[])];
    }

    method UploadPart(id: int, number: nat, data: bytes) returns (ok: bool)
      modifies `uploads
      ensures ok <==> 1 <= number <= MAX_PARTS && id in old(uploads)
      ensures ok ==> uploads == old(uploads)[id := old(uploads)[id].(parts := old(uploads)[id].parts[number := data])]
      ensures !ok ==> uploads == old(uploads)
    {
      if number < 1 || number > MAX_PARTS || id !in uploads {
        return false;
      }
      uploads := uploads[id := uploads[id].(parts := uploads[id].parts[number := data])];
      return true;
    }

    /** `up` tells whether the store answers this call. */
    method ListParts(id: int, up: bool) returns (r: Answer<seq<Part>>)
      ensures r == PartsAnswer(uploads, id, up)
    {
      if !up {
        return Failed;
      }
      if id !in uploads {
        return Missing;
      }
      var parts := uploads[id].parts;
      var out: seq<Part> := [];
      var n := 1;
      while n <= MAX_PARTS
        invariant 1 <= n <= MAX_PARTS + 1
        invariant out + Listed(parts, n) == Listed(parts, 1)
      {
        if n in parts {
          out := out + [Part(n, |parts[n]|)];
        }
        n := n + 1;
      }
      assert Listed(parts, n) == [] && out + [] == out;
      return Found(out);
    }

    /** Joins the named parts in order of their numbers. */
    method CompleteMultipart(key: Key, id: int, named: seq<nat>) returns (ok: bool)
      modifies `objects, `uploads
      ensures ok <==> id in old(uploads) && AllStored(old(uploads)[id].parts, InOrder(named))
      ensures ok ==> objects == old(objects)[key := Object(JoinNamed(old(uploads)[id].parts, InOrder(named)),
                                                           Some(old(uploads)[id].sha))]
      ensures ok ==> uploads == old(uploads) - {id}
      ensures !ok ==> objects == old(objects) && uploads == old(uploads)
    {
      if id !in uploads {
        return false;
      }
      var out;
      ok, out := JoinParts(uploads[id].parts, InOrder(named));
      if ok {
        objects := objects[key := Object(out, Some(uploads[id].sha))];
        uploads := uploads - {id};
      }
    }

    method AbortMultipart(id: int)
      modifies `uploads
      ensures uploads == old(uploads) - {id}
    {
      uploads := uploads - {id};
    }

    method Stat(key: Key, up: bool) returns (r: Answer<Object>)
      ensures r == StatAnswer(objects, key, up)
    {
      if !up {
        return Failed;
      }
      if key !in objects {
        return Missing;
      }
      return Found(objects[key]);
    }
  }
}
