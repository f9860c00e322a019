/** The growing metadata container over the fixed-size buffers of the metadata library. */
module CameraMetadata {
  import opened MetadataBuffers
  import opened Wrappers

  datatype Status = OK | InvalidOperation | BadValue | NoMemory | LibraryError

  predicate LacksRoom(sizes: TagSizes, b: Buffer, extraEntries: nat, extraData: nat) {
    |b.entries| + extraEntries > b.entryCap || DataCount(sizes, b.entries) + extraData > b.dataCap
  }

  /** A buffer with its capacities doubled where they are too small for what is to be added: it has the
    room, and differs exactly when the old one had not. */
  function Resized(sizes: TagSizes, b: Buffer, extraEntries: nat, extraData: nat): (r: Buffer)
    ensures r.entries == b.entries && Fits(sizes, r) && !LacksRoom(sizes, r, extraEntries, extraData)
    ensures LacksRoom(sizes, b, extraEntries, extraData) <==> r != b
  {
    var entries, data := |b.entries| + extraEntries, DataCount(sizes, b.entries) + extraData;
    Buffer(b.entries,
           if entries > b.entryCap then entries * 2 else b.entryCap,
           if data > b.dataCap then data * 2 else b.dataCap)
  }

  /** Each kind of capacity stays while it suffices and otherwise becomes twice what is needed; a resize changes
    one of them. */
  lemma ResizedDoubles(sizes: TagSizes, b: Buffer, extraEntries: nat, extraData: nat)
    ensures var r := Resized(sizes, b, extraEntries, extraData);
            var entries, data := |b.entries| + extraEntries, DataCount(sizes, b.entries) + extraData;
            && (r.entryCap == b.entryCap >= entries || r.entryCap == 2 * entries > 2 * b.entryCap)
            && (r.dataCap == b.dataCap >= data || r.dataCap == 2 * data > 2 * b.dataCap)
            && (r != b <==> r.entryCap != b.entryCap || r.dataCap != b.dataCap)
  {
  }

  class Metadata {
    const sizes: TagSizes
    var buffer: Option<Buffer>
    var locked: bool
    ghost var copied: nat    // entries copied by all resizes so far
    ghost var added: nat     // entries added so far
    // the same when the object last had no buffer
    ghost var copiedBefore: nat
    ghost var addedBefore: nat
    // 1 when the object gets a buffer, doubled by every resize that raises the capacity
    ghost var entryFactor: nat
    ghost var dataFactor: nat

    ghost predicate Valid()
      reads this
    {
      buffer.Some? ==>
        && Fits(sizes, buffer.value)
        && 0 < entryFactor <= buffer.value.entryCap + 1 && 0 < dataFactor <= buffer.value.dataCap + 1
    }

    ghost function Entries(): seq<Entry>
      reads this
    {
      if buffer.Some? then buffer.value.entries else []
    }

    constructor (sizes: TagSizes)
      ensures Valid() && Thrifty() && buffer == None && !locked && copied == 0 && added == 0 && this.sizes == sizes
    {
      this.sizes, buffer, locked := sizes, None, false;
      copied, added, copiedBefore, addedBefore, entryFactor, dataFactor := 0, 0, 0, 0, 0, 0;
    }

    /** Makes room for more entries and data, doubling what is too small; a buffer with enough room of
      both kinds stays as it is. */
    method ResizeIfNeeded(extraEntries: nat, extraData: nat, memory: bool) returns (res: Status)
      requires Valid()
      modifies this`buffer, this`copied, this`entryFactor, this`dataFactor, this`copiedBefore, this`addedBefore
      ensures Valid()
      ensures res == if !memory && (old(buffer).None? || old(LacksRoom(sizes, buffer.value, extraEntries, extraData)))
                     then NoMemory else OK
      ensures buffer == if res == NoMemory then None
                        else if old(buffer).None? then Some(Buffer([], extraEntries * 2, extraData * 2))
                        else Some(Resized(sizes, old(buffer).value, extraEntries, extraData))
      ensures copied == if res == OK && old(buffer).Some?
              && old(LacksRoom(sizes, buffer.value, extraEntries, extraData)) then
                          old(copied) + |old(buffer).value.entries|
                        else old(copied)
      ensures res == OK && old(buffer).Some? ==>
                entryFactor == old(entryFactor) * if buffer.value.entryCap > old(buffer).value.entryCap then 2 else 1
      ensures res == OK && old(buffer).Some? ==>
                dataFactor == old(dataFactor) * if buffer.value.dataCap > old(buffer).value.dataCap then 2 else 1
      ensures (copiedBefore, addedBefore) ==
              if res == NoMemory then (copied, added) else old((copiedBefore, addedBefore))
    {
      if buffer.None? {
        if !memory {
          Forget();
          return NoMemory;
        }
        buffer, entryFactor, dataFactor := Some(Buffer([], extraEntries * 2, extraData * 2)), 1, 1;
      } else {
        var b := buffer.value;
        var newEntryCount := |b.entries| + extraEntries;
        newEntryCount := if newEntryCount > b.entryCap then newEntryCount * 2 else b.entryCap;
        var newDataCount := DataCount(sizes, b.entries) + extraData;
        newDataCount := if newDataCount > b.dataCap then newDataCount * 2 else b.dataCap;
        if newEntryCount > b.entryCap || newDataCount > b.dataCap {
          if !memory {
            Forget();
            return NoMemory;
          }
          ResizedDoubles(sizes, b, extraEntries, extraData);
          Enlarge(newEntryCount, newDataCount);
        }
      }
      res := OK;
    }

    /** Copies the entries to a buffer with larger capacities; each that is raised at least doubles. */
    method Enlarge(newEntryCount: nat, newDataCount: nat)
      requires Valid() && buffer.Some?
      requires newEntryCount == buffer.value.entryCap || newEntryCount > 2 * buffer.value.entryCap
      requires newDataCount == buffer.value.dataCap || newDataCount > 2 * buffer.value.dataCap
      modifies this`buffer, this`copied, this`entryFactor, this`dataFactor
      ensures Valid() && buffer == Some(Buffer(old(buffer).value.entries, newEntryCount, newDataCount))
      ensures copied == old(copied) + |old(buffer).value.entries|
      ensures entryFactor == old(entryFactor) * if newEntryCount > old(buffer).value.entryCap then 2 else 1
      ensures dataFactor == old(dataFactor) * if newDataCount > old(buffer).value.dataCap then 2 else 1
    {
      var b := buffer.value;
      assert [] + b.entries == b.entries;
      entryFactor := entryFactor * if newEntryCount > b.entryCap then 2 else 1;
      dataFactor := dataFactor * if newDataCount > b.dataCap then 2 else 1;
      buffer := AppendEntries(sizes, Buffer([], newEntryCount, newDataCount), b.entries);
      copied := copied + |b.entries|;
    }

    /** The object has no buffer from here on. */
    method Forget()
      modifies this`buffer, this`copiedBefore, this`addedBefore
      ensures buffer == None && copiedBefore == copied && addedBefore == added
    {
      buffer := None;
      copiedBefore, addedBefore := copied, added;
    }

    /** Sets the values of a tag. It fails only for a locked object, an unknown tag, data inside the
      buffer itself or lack of memory; otherwise the object maps the tag to the values and every
      other tag as before. */
    method UpdateImpl(tag: Tag, values: seq<int>, aliases: bool, memory: bool) returns (res: Status)
      requires Valid()
      modifies this`buffer, this`copied, this`entryFactor, this`dataFactor, this`added, this`copiedBefore,
               this`addedBefore
      ensures Valid()
      ensures locked ==> res == InvalidOperation && unchanged(this)
      ensures !locked && sizes(tag).None? ==> res == BadValue && unchanged(this)
      ensures !locked && sizes(tag).Some? && aliases ==> res == InvalidOperation && unchanged(this)
      ensures !locked && sizes(tag).Some? && !aliases ==> res == OK || res == NoMemory
      ensures !locked && sizes(tag).Some? && !aliases && memory ==> res == OK
      ensures res == NoMemory ==> buffer == None && added == old(added)
      ensures res == OK ==>
                forall t :: Lookup(Entries(), t) == if t == tag then Some(values) else Lookup(old(Entries()), t)
      ensures res == OK ==> AsMap(Entries()) == AsMap(old(Entries()))[tag := values]
      ensures res == OK ==> |Entries()| == |old(Entries())| + (if tag in AsMap(old(Entries())) then 0 else 1)
      ensures old(Unique(Entries())) ==> Unique(Entries())
      ensures old(Thrifty()) && DataSize(sizes, tag, |values|) == 0 ==> Thrifty()
    {
      if locked {
        return InvalidOperation;
      }
      if sizes(tag).None? {
        return BadValue;
      }
      if aliases {
        return InvalidOperation;
      }
      var dataSize := DataSize(sizes, tag, |values|);
      res := ResizeIfNeeded(1, dataSize, memory);
      if res != OK {
        return;
      }
      ghost var entries := Entries();
      assert entries == old(Entries());
      StoreEntry(tag, values);
      SameLookupSameMap(Entries(), entries, tag, values);
      AsMapIsLookup(entries, tag);
    }

    /** Sets the values of a tag in a buffer with room for it. */
    method StoreEntry(tag: Tag, values: seq<int>)
      requires Valid() && buffer.Some? && !LacksRoom(sizes, buffer.value, 1, DataSize(sizes, tag, |values|))
      modifies this`buffer, this`added
      ensures Valid() && buffer.Some? && buffer.value.entryCap == old(buffer).value.entryCap
      ensures forall t :: Lookup(Entries(), t) == if t == tag then Some(values) else Lookup(old(Entries()), t)
      ensures var more := if Lookup(old(Entries()), tag).None? then 1 else 0;
              |Entries()| == |old(Entries())| + more && added == old(added) + more
      ensures DataCount(sizes, Entries()) <= DataCount(sizes, old(Entries())) + DataSize(sizes, tag, |values|)
      ensures old(Unique(Entries())) ==> Unique(Entries())
    {
      ghost var entries := Entries();
      var found := FindEntry(buffer.value.entries, tag);
      if found.None? {
        DataCountConcat(sizes, entries, [Entry(tag, values)]);
        assert [Entry(tag, values)][..0] == [];
        buffer := AddEntry(sizes, buffer.value, Entry(tag, values));
        added := added + 1;
      } else {
        DataCountSplit(sizes, entries, found.value, entries[found.value].(values := values));
        buffer := UpdateEntry(sizes, buffer.value, found.value, values);
      }
      forall t
        ensures Lookup(Entries(), t) == if t == tag then Some(values) else Lookup(entries, t)
      {
        if found.None? {
          LookupAdded(entries, Entry(tag, values), t);
        } else {
          LookupUpdated(entries, found.value, values, t);
        }
      }
    }

    /** Holds while all values fit into their entries: the resizes have copied at most twice as many
      entries as were added, in total and since the object last had no buffer. */
    ghost predicate Thrifty()
      reads this
    {
      && copiedBefore <= 2 * addedBefore && copiedBefore <= copied && addedBefore <= added
      && match buffer
         case None => copied == copiedBefore && added == addedBefore
         case Some(b) =>
           && DataCount(sizes, b.entries) == 0 && |b.entries| <= added - addedBefore
           && copied - copiedBefore + 2 <= b.entryCap && copied - copiedBefore <= 2 * (added - addedBefore)
    }

    /** Removes the first entry of a tag; if no tag occurs twice this removes the tag from the map. */
    method Erase(tag: Tag) returns (res: Status)
      requires Valid()
      modifies this`buffer
      ensures Valid()
      ensures locked ==> res == InvalidOperation && unchanged(this)
      ensures !locked && old(buffer).None? ==> res == LibraryError && unchanged(this)
      ensures !locked && old(buffer).Some? ==> res == OK
      ensures res == OK ==> forall t | t != tag :: Lookup(Entries(), t) == Lookup(old(Entries()), t)
      ensures res == OK ==> (Lookup(Entries(), tag).None? <==> Once(old(Entries()), tag))
      ensures res == OK && Once(old(Entries()), tag) ==> AsMap(Entries()) == AsMap(old(Entries())) - {tag}
      ensures old(Unique(Entries())) ==> Unique(Entries())
      ensures old(Thrifty()) ==> Thrifty()
    {
      if locked {
        return InvalidOperation;
      }
      if buffer.None? {
        return LibraryError;
      }
      ErasedLookups(Entries(), tag);
      ErasedIsSmaller(sizes, Entries(), tag);
      RemoveFirst(tag);
      res := OK;
    }

    /** The first entry of the tag, if there is one, leaves the buffer. */
    method RemoveFirst(tag: Tag)
      requires Valid() && buffer.Some?
      modifies this`buffer
      ensures Valid() && buffer == Some(old(buffer).value.(entries := Erased(old(buffer).value.entries, tag)))
    {
      ErasedIsSmaller(sizes, buffer.value.entries, tag);
      var found := FindEntry(buffer.value.entries, tag);
      if found.Some? {
        buffer := Some(DeleteEntry(buffer.value, found.value));
      }
    }

    /** Adds all entries of another buffer behind the own ones. */
    method Append(other: Buffer, memory: bool) returns (res: Status)
      requires Valid() && Fits(sizes, other)
      modifies this`buffer, this`copied, this`entryFactor, this`dataFactor, this`added, this`copiedBefore,
               this`addedBefore
      ensures Valid()
      ensures locked ==> res == InvalidOperation && unchanged(this)
      ensures !locked ==> res == OK || (!memory && res == LibraryError)
      ensures res == OK ==> Entries() == old(Entries()) + other.entries && added == old(added) + |other.entries|
      ensures res == LibraryError ==> buffer == None
    {
      if locked {
        return InvalidOperation;
      }
      var _ := ResizeIfNeeded(|other.entries|, DataCount(sizes, other.entries), memory);
      if buffer.None? {
        return LibraryError;
      }
      DataCountConcat(sizes, buffer.value.entries, other.entries);
      buffer := AppendEntries(sizes, buffer.value, other.entries);
      added := added + |other.entries|;
      res := OK;
    }

    // -------------------------------------------------------------- locking and ownership

    method GetAndLock() returns (b: Option<Buffer>)
      modifies this`locked
      ensures locked && b == buffer
    {
      locked := true;
      b := buffer;
    }

    /** `same` tells whether the caller passes the pointer it was given. */
    method Unlock(same: bool) returns (res: Status)
      modifies this`locked
      ensures res == (if !old(locked) then InvalidOperation else if !same then BadValue else OK)
      ensures locked == (old(locked) && res != OK)
    {
      if !locked {
        return InvalidOperation;
      }
      if !same {
        return BadValue;
      }
      locked := false;
      res := OK;
    }

    method Release() returns (b: Option<Buffer>)
      modifies this`buffer, this`copiedBefore, this`addedBefore
      ensures locked ==> b == None && unchanged(this)
      ensures !locked ==> b == old(buffer) && buffer == None
      ensures old(Thrifty()) ==> Thrifty()
    {
      if locked {
        return None;
      }
      b := buffer;
      Forget();
    }

    method Clear()
      modifies this`buffer, this`copiedBefore, this`addedBefore
      ensures locked ==> unchanged(this)
      ensures !locked ==> buffer == None
      ensures old(Thrifty()) ==> Thrifty()
    {
      if locked {
        return;
      }
      Forget();
    }

    /** Performs any requests, locked or not, known tags or not, whether memory is granted or not. No tag ever
      occurs twice, so every erasure is the removal of a tag from the map. Since the object has a
      buffer a capacity was raised at most as often as its logarithm, so resizes are rare. As long as the values
      fit into their entries, resizes copy at most twice as many entries as are added. */
    method Run(requests: seq<Request>)
      requires Valid() && Unique(Entries())
      modifies this
      ensures Valid() && Unique(Entries())
      ensures old(Thrifty()) && (forall r | r in requests && r.Update? :: DataSize(sizes, r.tag, |r.values|) == 0) ==>
                copied <= 2 * added
    {
      ghost var small := Thrifty() && forall r | r in requests && r.Update? :: DataSize(sizes, r.tag, |r.values|) == 0;
      for i := 0 to |requests|
        invariant Valid() && Unique(Entries()) && (small ==> Thrifty())
      {
        assert requests[i] in requests;
        Perform(requests[i]);
      }
    }

    method Perform(r: Request)
      requires Valid() && Unique(Entries())
      modifies this
      ensures Valid() && Unique(Entries())
      ensures old(Thrifty()) && (r.Update? ==> DataSize(sizes, r.tag, |r.values|) == 0) ==> Thrifty()
      ensures r.Delete? && !old(locked) && old(buffer).Some? ==> AsMap(Entries()) == AsMap(old(Entries())) - {r.tag}
    {
      match r
      case Update(tag, values, aliases, memory) => var _ := UpdateImpl(tag, values, aliases, memory);
      case Delete(tag) =>
        var _ := Erase(tag);
      case Lock => var _ := GetAndLock();
      case Open(same) => var _ := Unlock(same);
      case Drop => Clear();
    }
  }

  datatype Request =
    | Update(tag: Tag, values: seq<int>, aliases: bool, memory: bool)
    | Delete(tag: Tag)
    | Lock
    | Open(same: bool)
    | Drop

  /** A failing input: a tag that occurs twice, because a buffer that holds it was appended, survives
    being erased. */
  method AppendedTagSurvivesErase(sizes: TagSizes, tag: Tag, values: seq<int>, more: seq<int>)
    returns (m: Metadata, res: Status)
    requires sizes(tag).Some?
    ensures fresh(m) && m.sizes == sizes && m.Valid() && res == OK && Lookup(m.Entries(), tag).Some?
  {
    m := new Metadata(sizes);
    var _ := m.UpdateImpl(tag, values, false, true);
    OneEntry(m.Entries(), tag, values);
    var entry := Entry(tag, more);
    assert [entry][..0] == [];
    var _ := m.Append(Buffer([entry], 1, DataSize(sizes, tag, |more|)), true);
    assert m.Entries()[0].tag == tag == m.Entries()[1].tag;
    res := m.Erase(tag);
  }

  lemma OneEntry(entries: seq<Entry>, tag: Tag, values: seq<int>)
    requires |entries| == 1 && Lookup(entries, tag) == Some(values)
    ensures entries == [Entry(tag, values)]
  {
  }

  function Erased(entries: seq<Entry>, tag: Tag): seq<Entry> {
    match FindEntry(entries, tag)
    case None => entries
    case Some(i) => entries[..i] + entries[i + 1..]
  }

  /** Erasing a tag leaves the lookups of the others; the tag is gone exactly when it occurred once. */
  lemma ErasedLookups(entries: seq<Entry>, tag: Tag)
    ensures forall t | t != tag :: Lookup(Erased(entries, tag), t) == Lookup(entries, t)
    ensures Lookup(Erased(entries, tag), tag).None? <==> Once(entries, tag)
    ensures Once(entries, tag) ==> AsMap(Erased(entries, tag)) == AsMap(entries) - {tag}
  {
    var found := FindEntry(entries, tag);
    if found.Some? {
      forall t
        ensures Lookup(Erased(entries, tag), t) ==
                if t == tag then Lookup(entries[found.value + 1..], t) else Lookup(entries, t)
      {
        LookupDeleted(entries, found.value, t);
      }
      OnceMeansNoneBehind(entries, found.value);
    }
    if Once(entries, tag) {
      ErasedMap(Erased(entries, tag), entries, tag);
    }
  }

  lemma ErasedIsSmaller(sizes: TagSizes, entries: seq<Entry>, tag: Tag)
    ensures |Erased(entries, tag)| <= |entries| && DataCount(sizes, Erased(entries, tag)) <= DataCount(sizes, entries)
    ensures Unique(entries) ==> Unique(Erased(entries, tag)) && Once(entries, tag)
  {
    var found := FindEntry(entries, tag);
    if found.Some? {
      DataCountSplit(sizes, entries, found.value, entries[found.value]);
    }
  }

  /** Buffers that agree on every lookup but one stand for maps that differ in that tag only. */
  lemma SameLookupSameMap(after: seq<Entry>, before: seq<Entry>, tag: Tag, values: seq<int>)
    requires forall t :: Lookup(after, t) == if t == tag then Some(values) else Lookup(before, t)
    ensures AsMap(after) == AsMap(before)[tag := values]
  {
    forall t
      ensures t in AsMap(after) <==> t in AsMap(before)[tag := values]
      ensures t in AsMap(after) ==> AsMap(after)[t] == AsMap(before)[tag := values][t]
    {
      AsMapIsLookup(after, t);
      AsMapIsLookup(before, t);
    }
  }

  lemma ErasedMap(after: seq<Entry>, before: seq<Entry>, tag: Tag)
    requires forall t | t != tag :: Lookup(after, t) == Lookup(before, t)
    requires Lookup(after, tag).None?
    ensures AsMap(after) == AsMap(before) - {tag}
  {
    forall t
      ensures t in AsMap(after) <==> t in AsMap(before) - {tag}
      ensures t in AsMap(after) ==> AsMap(after)[t] == AsMap(before)[t]
    {
      AsMapIsLookup(after, t);
      AsMapIsLookup(before, t);
    }
  }

  /** Behind the first entry of a tag there is another one unless the tag occurs once. */
  lemma OnceMeansNoneBehind(entries: seq<Entry>, i: nat)
    requires i < |entries| && FindEntry(entries, entries[i].tag) == Some(i)
    ensures Lookup(entries[i + 1..], entries[i].tag).None? <==> Once(entries, entries[i].tag)
  {
    var rest, tag := entries[i + 1..], entries[i].tag;
    var next := FindEntry(rest, tag);
    if next.Some? {
      assert entries[i].tag == tag == entries[i + 1 + next.value].tag;
    } else {
      forall j, k | 0 <= j < k < |entries|
        ensures !(entries[j].tag == tag == entries[k].tag)
      {
        if k > i {
          assert rest[k - i - 1] == entries[k];
        }
      }
    }
  }
}
