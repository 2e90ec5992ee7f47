/** The archive manifest: which segments are in cold storage, and which uploads are under way. */
module Manifests {
  import opened Options
  import opened ObjectStore

  /** An archived segment: key, end offset, recorded size and digest. */
  datatype Entry = Entry(key: Key, next: int, size: int, sha: Option<Digest>)

  /** The checkpoint of an upload; old checkpoints carry no digest. */
  datatype Pending = Pending(next: int, sha: Option<Digest>, upload: int)

  /** Entries of one partition that cannot both be right. */
  predicate Clash(d: Entry, e: Entry) {
    && d.key.topic == e.key.topic && d.key.partition == e.key.partition
    && ((d.key.base < e.next && e.key.base < d.next) || d.key.base == e.key.base)
  }

  function Spared(list: seq<Entry>, e: Entry): seq<Entry> {
    if list == [] then []
    else (if Clash(list[0], e) then [] else [list[0]]) + Spared(list[1..], e)
  }

  function Added(list: seq<Entry>, e: Entry): seq<Entry> {
    Spared(list, e) + [e]
  }

  function Lookup(list: seq<Entry>, key: Key): (r: Option<Entry>)
    ensures r.Some? ==> r.value in list && r.value.key == key
    ensures r.None? ==> forall e :: e in list ==> e.key != key
  {
    if list == [] then None
    else if list[0].key == key then Some(list[0])
    else Lookup(list[1..], key)
  }

  /** The archive holds at least these records of a segment. */
  predicate Holds(list: seq<Entry>, key: Key, next: int, size: int) {
    var r := Lookup(list, key);
    r.Some? && r.value.next >= next && r.value.size >= size
  }

  /** No two entries clash. */
  ghost predicate Disjoint(list: seq<Entry>) {
    forall i, j :: 0 <= i < j < |list| ==> !Clash(list[i], list[j])
  }

  /** With no clashes, that is just when some entry for the key reaches as far and is as large. */
  lemma {:induction false} HoldsWhen(list: seq<Entry>, key: Key, next: int, size: int)
    requires Disjoint(list)
    ensures Holds(list, key, next, size) <==> exists e :: e in list && e.key == key && e.next >= next && e.size >= size
  {
    forall e | e in list && e.key == key
      ensures Lookup(list, key) == Some(e)
    {
      OnlyEntry(list, e);
    }
  }

  /** No two entries have the same key. */
  lemma {:induction false} OnlyEntry(list: seq<Entry>, e: Entry)
    requires Disjoint(list) && e in list
    ensures Lookup(list, e.key) == Some(e)
  {
    if list[0].key == e.key {
      var i :| 0 <= i < |list| && list[i] == e;
      assert i > 0 ==> !Clash(list[0], list[i]);
    } else {
      OnlyEntry(list[1..], e);
    }
  }

  lemma {:induction false} SparedAre(list: seq<Entry>, e: Entry, x: Entry)
    ensures x in Spared(list, e) <==> x in list && !Clash(x, e)
  {
    if list != [] {
      SparedAre(list[1..], e, x);
    }
  }

  /** Recording an entry removes exactly the entries it clashes with. */
  lemma AddedAre(list: seq<Entry>, e: Entry, x: Entry)
    ensures x in Added(list, e) <==> x == e || (x in list && !Clash(x, e))
  {
    SparedAre(list, e, x);
  }

  lemma {:induction false} SparedDisjoint(list: seq<Entry>, e: Entry)
    requires Disjoint(list)
    ensures Disjoint(Spared(list, e))
  {
    if list != [] {
      var rest := Spared(list[1..], e);
      SparedDisjoint(list[1..], e);
      if !Clash(list[0], e) {
        forall j | 0 <= j < |rest|
          ensures !Clash(list[0], rest[j])
        {
          SparedAre(list[1..], e, rest[j]);
        }
      }
    }
  }

  /** Recording keeps the manifest free of clashes, so an offset is never in two entries of its partition. */
  lemma AddedDisjoint(list: seq<Entry>, e: Entry)
    requires Disjoint(list)
    ensures Disjoint(Added(list, e))
  {
    SparedDisjoint(list, e);
    forall x | x in Spared(list, e)
      ensures !Clash(x, e)
    {
      SparedAre(list, e, x);
    }
  }

  lemma {:induction false} LookupSpared(list: seq<Entry>, e: Entry, key: Key)
    requires forall x :: x in list && x.key == key ==> !Clash(x, e)
    ensures Lookup(Spared(list, e), key) == Lookup(list, key)
  {
    if list != [] {
      var rest := Spared(list[1..], e);
      LookupSpared(list[1..], e, key);
      if Clash(list[0], e) {
        assert [] + rest == rest;
      } else {
        assert ([list[0]] + rest)[1..] == rest;
      }
    }
  }

  lemma {:induction false} LookupAppend(list: seq<Entry>, e: Entry, key: Key)
    ensures Lookup(list + [e], key) ==
            if Lookup(list, key).Some? then Lookup(list, key) else if e.key == key then Some(e) else None
  {
    if list == [] {
      assert list + [e] == [e];
    } else {
      assert (list + [e])[1..] == list[1..] + [e];
      LookupAppend(list[1..], e, key);
    }
  }

  /** After recording, its key leads to the new entry, and a key that does not clash leads where it did. */
  lemma {:induction false} LookupAdded(list: seq<Entry>, e: Entry, key: Key)
    ensures key == e.key ==> Lookup(Added(list, e), key) == Some(e)
    ensures key != e.key && (forall x :: x in list && x.key == key ==> !Clash(x, e)) ==>
              Lookup(Added(list, e), key) == Lookup(list, key)
  {
    LookupAppend(Spared(list, e), e, key);
    if key == e.key {
      forall x | x in Spared(list, e)
        ensures x.key != key
      {
        SparedAre(list, e, x);
      }
    } else if forall x :: x in list && x.key == key ==> !Clash(x, e) {
      LookupSpared(list, e, key);
    }
  }

  // ---- finding an offset -------------------------------------------------------------------

  predicate Covers(e: Entry, topic: string, partition: int, offset: int) {
    e.key.topic == topic && e.key.partition == partition && e.key.base <= offset < e.next
  }

  /** The first entry that covers an offset of a partition. */
  function Hit(list: seq<Entry>, topic: string, partition: int, offset: int): (r: Option<Entry>)
    ensures r.Some? ==> r.value in list && Covers(r.value, topic, partition, offset)
    ensures r.None? ==> forall e :: e in list ==> !Covers(e, topic, partition, offset)
  {
    if list == [] then None
    else if Covers(list[0], topic, partition, offset) then Some(list[0])
    else Hit(list[1..], topic, partition, offset)
  }

  method FindEntry(list: seq<Entry>, topic: string, partition: int, offset: int) returns (r: Option<Entry>)
    ensures r == Hit(list, topic, partition, offset)
  {
    var i := 0;
    assert list[0..] == list;
    while i < |list|
      invariant 0 <= i <= |list| && Hit(list[i..], topic, partition, offset) == Hit(list, topic, partition, offset)
    {
      if Covers(list[i], topic, partition, offset) {
        return Some(list[i]);
      }
      i := i + 1;
    }
    return None;
  }

  /** Where no two entries clash, an offset is covered by at most one. */
  lemma {:induction false} OnlyHit(list: seq<Entry>, e: Entry, offset: int)
    requires Disjoint(list) && e in list && Covers(e, e.key.topic, e.key.partition, offset)
    ensures Hit(list, e.key.topic, e.key.partition, offset) == Some(e)
  {
    var i :| 0 <= i < |list| && list[i] == e;
    var h := Hit(list, e.key.topic, e.key.partition, offset).value;
    var j :| 0 <= j < |list| && list[j] == h;
    assert i < j ==> !Clash(list[i], list[j]);
    assert j < i ==> !Clash(list[j], list[i]);
  }

  // ---- the two files -----------------------------------------------------------------------

  class Manifest {
    var completed: seq<Entry>
    var pending: map<Key, Pending>
    var completedFile: seq<Entry>
    var pendingFile: map<Key, Pending>

    /** Opening reads both files. */
    constructor (entries: seq<Entry>, checkpoints: map<Key, Pending>)
      ensures completed == completedFile == entries && pending == pendingFile == checkpoints
    {
      completed, completedFile := entries, entries;
      pending, pendingFile := checkpoints, checkpoints;
    }

    method FlushCompleted()
      modifies `completedFile
      ensures completedFile == completed
    {
      completedFile := completed;
    }

    method FlushPending()
      modifies `pendingFile
      ensures pendingFile == pending
    {
      pendingFile := pending;
    }

    method AddCompleted(e: Entry)
      modifies this
      ensures completed == completedFile == Added(old(completed), e)
      ensures pending == pendingFile == old(pending) - {e.key}
    {
      var kept: seq<Entry> := [];
      var i := 0;
      assert completed[0..] == completed;
      while i < |completed|
        invariant 0 <= i <= |completed| && completed == old(completed) && pending == old(pending)
        invariant kept + Spared(completed[i..], e) == Spared(completed, e)
      {
        assert completed[i..][1..] == completed[i + 1..];
        if !Clash(completed[i], e) {
          kept := kept + [completed[i]];
        }
        i := i + 1;
      }
      assert completed[i..] == [];
      completed := kept + [e];
      pending := pending - {e.key};
      FlushCompleted();
      FlushPending();
    }

    method SetPending(key: Key, p: Pending)
      modifies `pending, `pendingFile
      ensures pending == pendingFile == old(pending)[key := p]
    {
      pending := pending[key := p];
      FlushPending();
    }

    method AbortPending(key: Key)
      modifies `pending, `pendingFile
      ensures pending == pendingFile == old(pending) - {key}
    {
      pending := pending - {key};
      FlushPending();
    }

    /** Drops every entry and checkpoint of a deleted topic, and no other. */
    method ForgetTopic(topic: string)
      modifies this
      ensures forall e :: e in completed <==> e in old(completed) && e.key.topic != topic
      ensures pending == map k | k in old(pending) && k.topic != topic :: old(pending)[k]
      ensures completedFile == completed && pendingFile == pending
    {
      var kept: seq<Entry> := [];
      var i := 0;
      while i < |completed|
        invariant 0 <= i <= |completed| && completed == old(completed) && pending == old(pending)
        invariant forall e :: e in kept <==> e in completed[..i] && e.key.topic != topic
      {
        assert completed[..i + 1] == completed[..i] + [completed[i]];
        if completed[i].key.topic != topic {
          kept := kept + [completed[i]];
        }
        i := i + 1;
      }
      assert completed[..i] == completed;
      completed := kept;
      pending := map k | k in pending && k.topic != topic :: pending[k];
      FlushCompleted();
      FlushPending();
    }
  }
}
