/** The JSON files the application keeps its state in, as in-memory values. `None` stands
    for a file that does not exist. */
module Stores {
  import opened Wrappers

  /** One directory record: the sender's first-seen display name and message count. */
  datatype SenderInfo = SenderInfo(name: string, frequency: nat)

  /** The sender directory file: `[]` until a scan writes the address-keyed object. */
  datatype SenderFile = EmptyList | Directory(entries: map<string, SenderInfo>)

  /** The label store: label name to its address list, in the object's key order. */
  type LabelTable = seq<(string, seq<string>)>

  /** Drop-down placeholder keys the label store carries besides real labels. */
  const FilterPlaceholder: string := "Filter by Label"
  const SeparatorPlaceholder: string := "---"

  predicate IsPlaceholder(name: string) {
    name == FilterPlaceholder || name == SeparatorPlaceholder
  }

  /** The label store's content after a reset. */
  const EmptyLabelTable: LabelTable := [(FilterPlaceholder, []), (SeparatorPlaceholder, [])]

  predicate HasKey(t: LabelTable, k: string) {
    exists i :: 0 <= i < |t| && t[i].0 == k
  }

  /** Entry `i` is the last entry of `t` whose key is `k`. */
  predicate LastEntryOf(t: LabelTable, k: string, i: int) {
    0 <= i < |t| && t[i].0 == k && forall j :: i < j < |t| ==> t[j].0 != k
  }

  /** The value of key `k`: that of its last occurrence, as a JSON object load keeps it. */
  function Lookup(t: LabelTable, k: string): (r: Option<seq<string>>)
    ensures r.Some? <==> HasKey(t, k)
    ensures r.Some? ==> exists i :: LastEntryOf(t, k, i) && t[i].1 == r.value
  {
    if t == [] then None
    else if t[|t| - 1].0 == k then
      assert LastEntryOf(t, k, |t| - 1);
      Some(t[|t| - 1].1)
    else
      var r := Lookup(t[..|t| - 1], k);
      assert r.Some? ==> exists i :: LastEntryOf(t, k, i) && t[i].1 == r.value by {
        if r.Some? {
          var i :| LastEntryOf(t[..|t| - 1], k, i) && t[..|t| - 1][i].1 == r.value;
          assert LastEntryOf(t, k, i);
        }
      }
      assert HasKey(t, k) <==> HasKey(t[..|t| - 1], k) by {
        if HasKey(t, k) {
          var i :| 0 <= i < |t| && t[i].0 == k;
          assert t[..|t| - 1][i].0 == k;
        }
        if HasKey(t[..|t| - 1], k) {
          var i :| 0 <= i < |t| - 1 && t[..|t| - 1][i].0 == k;
          assert t[i].0 == k;
        }
      }
      r
  }

  predicate DistinctKeys(t: LabelTable) {
    forall i, j :: 0 <= i < j < |t| ==> t[i].0 != t[j].0
  }

  /** `t[k] = v`: an existing key keeps its position, a new key goes at the end. */
  function Put(t: LabelTable, k: string, v: seq<string>): (r: LabelTable)
    ensures |r| == if HasKey(t, k) then |t| else |t| + 1
    ensures forall i :: 0 <= i < |t| ==> r[i].0 == t[i].0
    ensures forall i :: |t| <= i < |r| ==> r[i].0 == k
  {
    if t == [] then [(k, v)]
    else if t[0].0 == k then [(k, v)] + t[1..]
    else
      HasKeyTail(t, k);
      [t[0]] + Put(t[1..], k, v)
  }

  /** A key other than the first entry's is held by the rest of the entries. */
  lemma HasKeyTail(t: LabelTable, k: string)
    requires t != [] && t[0].0 != k
    ensures HasKey(t, k) <==> HasKey(t[1..], k)
  {
    if HasKey(t, k) {
      var i :| 0 <= i < |t| && t[i].0 == k;
      assert t[1..][i - 1].0 == k;
    }
    if HasKey(t[1..], k) {
      var i :| 0 <= i < |t| - 1 && t[1..][i].0 == k;
      assert t[i + 1].0 == k;
    }
  }

  /** After `t[k] = v` on a store without repeated keys, `k` maps to `v`, every other key
      to what it mapped to, and no key is repeated. */
  lemma {:induction false} PutLookup(t: LabelTable, k: string, v: seq<string>, other: string)
    requires DistinctKeys(t)
    ensures DistinctKeys(Put(t, k, v))
    ensures Lookup(Put(t, k, v), k) == Some(v)
    ensures other != k ==> Lookup(Put(t, k, v), other) == Lookup(t, other)
    decreases |t|
  {
    PutDistinct(t, k, v);
    if t != [] && t[0].0 != k {
      PutLookup(t[1..], k, v, other);
      var r := Put(t, k, v);
      assert r == [t[0]] + Put(t[1..], k, v);
      assert r[1..] == Put(t[1..], k, v);
      LookupDistinct(r, k);
      LookupDistinct(r, other);
      LookupDistinct(t, other);
    } else if t != [] {
      var r := Put(t, k, v);
      assert r[1..] == t[1..];
      LookupDistinct(r, k);
      LookupDistinct(r, other);
      LookupDistinct(t, other);
    }
  }

  /** `t[k] = v` adds no repeated key. */
  lemma {:induction false} PutDistinct(t: LabelTable, k: string, v: seq<string>)
    requires DistinctKeys(t)
    ensures DistinctKeys(Put(t, k, v))
    decreases |t|
  {
    if t != [] && t[0].0 != k {
      PutDistinct(t[1..], k, v);
      var r := Put(t, k, v);
      assert r == [t[0]] + Put(t[1..], k, v);
    }
  }

  /** Without repeated keys, a lookup finds the one entry holding the key. */
  lemma {:induction false} LookupDistinct(t: LabelTable, k: string)
    requires DistinctKeys(t)
    ensures t != [] && t[0].0 == k ==> Lookup(t, k) == Some(t[0].1)
    ensures t != [] && t[0].0 != k ==> Lookup(t, k) == Lookup(t[1..], k)
    decreases |t|
  {
    if |t| > 1 && t[|t| - 1].0 != k {
      LookupDistinct(t[..|t| - 1], k);
      assert t[..|t| - 1][1..] == t[1..][..|t[1..]| - 1];
    }
  }

  /** The object `json.load` builds from the file's entries: each entry in turn is
      assigned as `d[k] = v`, so a repeated key keeps its first position and takes its
      last value. */
  function Loaded(t: LabelTable): (r: LabelTable)
    ensures DistinctKeys(r)
    ensures |r| <= |t|
  {
    if t == [] then []
    else
      var p := Loaded(t[..|t| - 1]);
      PutDistinct(p, t[|t| - 1].0, t[|t| - 1].1);
      Put(p, t[|t| - 1].0, t[|t| - 1].1)
  }

  /** The loaded object answers every key as the file does under `Lookup`, so it holds
      exactly the file's keys, each with its last value. */
  lemma {:induction false} LoadedLookup(t: LabelTable, k: string)
    ensures Lookup(Loaded(t), k) == Lookup(t, k)
    decreases |t|
  {
    if t != [] {
      var p := t[..|t| - 1];
      var e := t[|t| - 1];
      LoadedLookup(p, k);
      PutLookup(Loaded(p), e.0, e.1, k);
    }
  }

  /** In an object without repeated keys, every entry is what its key looks up. */
  lemma {:induction false} LookupAt(t: LabelTable, i: nat)
    requires DistinctKeys(t) && i < |t|
    ensures Lookup(t, t[i].0) == Some(t[i].1)
    decreases i
  {
    LookupDistinct(t, t[i].0);
    if i > 0 {
      LookupAt(t[1..], i - 1);
    }
  }

  /** Entry `i` of the loaded object is a key of the file with its last value. */
  lemma LoadedEntry(t: LabelTable, i: nat)
    requires i < |Loaded(t)|
    ensures Lookup(t, Loaded(t)[i].0) == Some(Loaded(t)[i].1)
  {
    LookupAt(Loaded(t), i);
    LoadedLookup(t, Loaded(t)[i].0);
  }

  /** The application's data files. */
  class Files {
    var senderLabels: Option<LabelTable>
    var unsubscribed: Option<map<string, bool>>
    var categories: Option<seq<string>>
    var senders: Option<SenderFile>

    constructor (senderLabels: Option<LabelTable>, unsubscribed: Option<map<string, bool>>,
                 categories: Option<seq<string>>, senders: Option<SenderFile>)
      ensures this.senderLabels == senderLabels && this.unsubscribed == unsubscribed
      ensures this.categories == categories && this.senders == senders
    {
      this.senderLabels := senderLabels;
      this.unsubscribed := unsubscribed;
      this.categories := categories;
      this.senders := senders;
    }
  }
}
