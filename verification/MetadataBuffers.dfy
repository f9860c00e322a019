/** Camera metadata buffers as the metadata library keeps them: entries in order of insertion, with
  fixed capacities for entries and for the data area that holds values of more than four bytes. */
module MetadataBuffers {
  import opened Wrappers

  type Tag = nat

  datatype Entry = Entry(tag: Tag, values: seq<int>)

  datatype Buffer = Buffer(entries: seq<Entry>, entryCap: nat, dataCap: nat)

  /** Bytes per value of each tag, None for an unknown tag. */
  type TagSizes = Tag -> Option<nat>

  /** Bytes an entry occupies in the data area: none if its values fit into four bytes, otherwise
    rounded up to a multiple of eight. */
  function DataSize(sizes: TagSizes, tag: Tag, count: nat): nat {
    var bytes := count * (if sizes(tag).Some? then sizes(tag).value else 0);
    if bytes <= 4 then 0 else (bytes + 7) / 8 * 8
  }

  /** Values of at most four bytes need no data; others the least multiple of eight bytes that holds them. */
  lemma DataSizeIsLeast(sizes: TagSizes, tag: Tag, count: nat)
    requires sizes(tag).Some?
    ensures var bytes, r := count * sizes(tag).value, DataSize(sizes, tag, count);
            if bytes <= 4 then r == 0 else r % 8 == 0 && bytes <= r < bytes + 8
  {
  }

  function DataCount(sizes: TagSizes, entries: seq<Entry>): nat {
    if entries == [] then 0
    else
      var e := entries[|entries| - 1];
      DataCount(sizes, entries[..|entries| - 1]) + DataSize(sizes, e.tag, |e.values|)
  }

  predicate Fits(sizes: TagSizes, b: Buffer) {
    |b.entries| <= b.entryCap && DataCount(sizes, b.entries) <= b.dataCap
  }

  /** The index of the first entry with a tag. */
  function FindEntry(entries: seq<Entry>, tag: Tag): (i: Option<nat>)
    ensures i.Some? ==>
            i.value < |entries| && entries[i.value].tag == tag && forall j | 0 <= j < i.value :: entries[j].tag != tag
    ensures i.None? ==> forall j | 0 <= j < |entries| :: entries[j].tag != tag
  {
    if entries == [] then None
    else if entries[0].tag == tag then Some(0)
    else
      match FindEntry(entries[1..], tag)
      case None => None
      case Some(k) => Some(k + 1)
  }

  function Lookup(entries: seq<Entry>, tag: Tag): Option<seq<int>> {
    match FindEntry(entries, tag)
    case None => None
    case Some(i) => Some(entries[i].values)
  }

  // ---------------------------------------------------------------- library operations

  function AddEntry(sizes: TagSizes, b: Buffer, e: Entry): Option<Buffer> {
    var r := b.(entries := b.entries + [e]);
    if Fits(sizes, r) then Some(r) else None
  }

  function UpdateEntry(sizes: TagSizes, b: Buffer, i: nat, values: seq<int>): Option<Buffer>
    requires i < |b.entries|
  {
    var r := b.(entries := b.entries[i := b.entries[i].(values := values)]);
    if Fits(sizes, r) then Some(r) else None
  }

  function DeleteEntry(b: Buffer, i: nat): Buffer
    requires i < |b.entries|
  {
    b.(entries := b.entries[..i] + b.entries[i + 1..])
  }

  function AppendEntries(sizes: TagSizes, b: Buffer, more: seq<Entry>): Option<Buffer> {
    var r := b.(entries := b.entries + more);
    if Fits(sizes, r) then Some(r) else None
  }

  // ---------------------------------------------------------------- facts

  lemma {:induction false} DataCountConcat(sizes: TagSizes, a: seq<Entry>, b: seq<Entry>)
    ensures DataCount(sizes, a + b) == DataCount(sizes, a) + DataCount(sizes, b)
  {
    if b == [] {
      assert a + b == a;
    } else {
      assert (a + b)[..|a + b| - 1] == a + b[..|b| - 1];
      DataCountConcat(sizes, a, b[..|b| - 1]);
    }
  }

  lemma DataCountSplit(sizes: TagSizes, s: seq<Entry>, i: nat, e: Entry)
    requires i < |s|
    ensures DataCount(sizes, s[i := e]) + DataSize(sizes, s[i].tag, |s[i].values|)
            == DataCount(sizes, s) + DataSize(sizes, e.tag, |e.values|)
    ensures DataCount(sizes, s[..i] + s[i + 1..]) + DataSize(sizes, s[i].tag, |s[i].values|) == DataCount(sizes, s)
  {
    assert s == s[..i] + ([s[i]] + s[i + 1..]) && s[i := e] == s[..i] + ([e] + s[i + 1..]);
    DataCountConcat(sizes, s[..i], [s[i]] + s[i + 1..]);
    DataCountConcat(sizes, [s[i]], s[i + 1..]);
    DataCountConcat(sizes, s[..i], [e] + s[i + 1..]);
    DataCountConcat(sizes, [e], s[i + 1..]);
    DataCountConcat(sizes, s[..i], s[i + 1..]);
    assert [s[i]][..0] == [] && [e][..0] == [];
    assert DataCount(sizes, [e]) == DataSize(sizes, e.tag, |e.values|);
    assert DataCount(sizes, [s[i]]) == DataSize(sizes, s[i].tag, |s[i].values|);
  }

  /** Adding an entry for an absent tag changes the lookup of that tag only. */
  lemma {:induction false} LookupAdded(entries: seq<Entry>, e: Entry, t: Tag)
    requires FindEntry(entries, e.tag).None?
    ensures Lookup(entries + [e], t) == if t == e.tag then Some(e.values) else Lookup(entries, t)
  {
    if entries == [] {
      assert entries + [e] == [e];
      assert [e][1..] == [];
    } else {
      assert (entries + [e])[1..] == entries[1..] + [e];
      assert FindEntry(entries[1..], e.tag).None?;
      LookupAdded(entries[1..], e, t);
    }
  }

  /** Updating the first entry of a tag changes the lookup of that tag only. */
  lemma {:induction false} LookupUpdated(entries: seq<Entry>, i: nat, values: seq<int>, t: Tag)
    requires i < |entries| && FindEntry(entries, entries[i].tag) == Some(i)
    ensures Lookup(entries[i := entries[i].(values := values)], t) ==
            if t == entries[i].tag then Some(values) else Lookup(entries, t)
  {
    var r := entries[i := entries[i].(values := values)];
    if i == 0 {
      assert r[1..] == entries[1..];
    } else {
      assert r[1..] == entries[1..][i - 1 := entries[i].(values := values)];
      LookupUpdated(entries[1..], i - 1, values, t);
    }
  }

  /** Deleting the first entry of a tag uncovers the next one; other tags keep their lookup. */
  lemma {:induction false} LookupDeleted(entries: seq<Entry>, i: nat, t: Tag)
    requires i < |entries| && FindEntry(entries, entries[i].tag) == Some(i)
    ensures Lookup(entries[..i] + entries[i + 1..], t) ==
            if t == entries[i].tag then Lookup(entries[i + 1..], t) else Lookup(entries, t)
  {
    var r := entries[..i] + entries[i + 1..];
    if i == 0 {
      assert r == entries[1..];
    } else {
      assert r[1..] == entries[1..][..i - 1] + entries[1..][i..];
      assert entries[1..][i..] == entries[i + 1..];
      LookupDeleted(entries[1..], i - 1, t);
      LookupStep(r, t);
      LookupStep(entries, t);
    }
  }

  lemma LookupStep(entries: seq<Entry>, t: Tag)
    requires entries != []
    ensures Lookup(entries, t) == if entries[0].tag == t then Some(entries[0].values) else Lookup(entries[1..], t)
  {
  }

  /** The finite map a buffer stands for. */
  ghost function AsMap(entries: seq<Entry>): map<Tag, seq<int>> {
    map t | t in (set e | e in entries :: e.tag) :: if Lookup(entries, t).Some? then Lookup(entries, t).value else []
  }

  lemma AsMapIsLookup(entries: seq<Entry>, t: Tag)
    ensures t in AsMap(entries) <==> Lookup(entries, t).Some?
    ensures t in AsMap(entries) ==> AsMap(entries)[t] == Lookup(entries, t).value
  {
    if Lookup(entries, t).Some? {
      assert entries[FindEntry(entries, t).value] in entries;
    }
  }

  ghost predicate Once(entries: seq<Entry>, tag: Tag) {
    forall i, j | 0 <= i < j < |entries| :: !(entries[i].tag == tag == entries[j].tag)
  }

  /** No tag occurs twice. */
  ghost predicate Unique(entries: seq<Entry>) {
    forall i, j | 0 <= i < j < |entries| :: entries[i].tag != entries[j].tag
  }
}
