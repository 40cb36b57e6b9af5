/** The sender scan: every message's From header is folded, batch by batch, into a
    directory of address -> (first-seen name, number of messages), the per-batch
    directories are merged, and the result is written to the sender directory file
    unless the scan was cancelled. */
module SenderScan {
  import opened Wrappers
  import opened Seqs
  import opened Stores
  import opened Mailbox

  const BatchSize: nat := 10

  /** What fetching one message's header gives: no data, an error (reported and
      skipped), or the parsed sender. */
  datatype HeaderResult = NoData | Failed | Parsed(name: string, address: string)

  type Senders = map<string, SenderInfo>

  predicate SentBy(h: HeaderResult, a: string) {
    h.Parsed? && h.address == a
  }

  /** The id list cut into batches of `BatchSize`. */
  function Batches(uids: seq<Uid>): seq<seq<Uid>> {
    Chunks(uids, BatchSize)
  }

  /** The batches give back the id list; all but the last hold `BatchSize` ids; there
      are ceil(n / `BatchSize`) of them. */
  lemma BatchesPartition(uids: seq<Uid>)
    ensures Flatten(Batches(uids)) == uids
    ensures forall i :: 0 <= i < |Batches(uids)| - 1 ==> |Batches(uids)[i]| == BatchSize
    ensures forall i :: 0 <= i < |Batches(uids)| ==> 1 <= |Batches(uids)[i]| <= BatchSize
    ensures (|Batches(uids)| - 1) * BatchSize < |uids| <= |Batches(uids)| * BatchSize
  {
    ChunksPartition(uids, BatchSize);
  }

  /** One message folded into a batch directory. */
  function Record(m: Senders, h: HeaderResult): Senders {
    match h
    case Parsed(name, a) =>
      if a in m then m[a := m[a].(frequency := m[a].frequency + 1)] else m[a := SenderInfo(name, 1)]
    case _ => m
  }

  /** The directory built from the messages `xs`, in order. */
  function Tally(xs: seq<Uid>, headerOf: Uid -> HeaderResult): Senders {
    if xs == [] then map[] else Record(Tally(xs[..|xs| - 1], headerOf), headerOf(xs[|xs| - 1]))
  }

  function AddressOf(headerOf: Uid -> HeaderResult): Uid -> seq<string> {
    (u: Uid) => if headerOf(u).Parsed? then [headerOf(u).address] else []
  }

  /** The sender addresses of the messages whose header was parsed, in order. */
  function ParsedAddresses(xs: seq<Uid>, headerOf: Uid -> HeaderResult): seq<string> {
    FlatMap(xs, AddressOf(headerOf))
  }

  /** `xs[i]` is the first message of `xs` sent by `a`. */
  predicate FirstFrom(xs: seq<Uid>, headerOf: Uid -> HeaderResult, a: string, i: int) {
    && 0 <= i < |xs| && SentBy(headerOf(xs[i]), a)
    && forall j :: 0 <= j < i ==> !SentBy(headerOf(xs[j]), a)
  }

  /** A batch directory holds exactly the senders of the parsed messages, and messages
      without data or with errors count for nothing. */
  lemma {:induction false} TallyKeys(xs: seq<Uid>, headerOf: Uid -> HeaderResult, a: string)
    ensures a in Tally(xs, headerOf) <==> exists i :: 0 <= i < |xs| && SentBy(headerOf(xs[i]), a)
  {
    if xs != [] {
      var p := xs[..|xs| - 1];
      TallyKeys(p, headerOf, a);
      if a in Tally(p, headerOf) {
        var i :| 0 <= i < |p| && SentBy(headerOf(p[i]), a);
        assert xs[i] == p[i];
      }
      if exists i :: 0 <= i < |xs| && SentBy(headerOf(xs[i]), a) {
        var i :| 0 <= i < |xs| && SentBy(headerOf(xs[i]), a);
        if i < |p| { assert xs[i] == p[i]; }
      }
    }
  }

  /** Each address's frequency is its number of parsed messages. */
  lemma {:induction false} TallyFrequency(xs: seq<Uid>, headerOf: Uid -> HeaderResult, a: string)
    ensures multiset(ParsedAddresses(xs, headerOf))[a]
         == if a in Tally(xs, headerOf) then Tally(xs, headerOf)[a].frequency else 0
    ensures a in Tally(xs, headerOf) ==> Tally(xs, headerOf)[a].frequency >= 1
  {
    if xs != [] {
      var p := xs[..|xs| - 1];
      var u := xs[|xs| - 1];
      TallyFrequency(p, headerOf, a);
      assert ParsedAddresses(xs, headerOf) == ParsedAddresses(p, headerOf) + AddressOf(headerOf)(u);
    }
  }

  /** Each address's name is the one parsed from its first message. */
  lemma {:induction false} TallyFirstName(xs: seq<Uid>, headerOf: Uid -> HeaderResult, a: string)
    requires a in Tally(xs, headerOf)
    ensures exists i :: FirstFrom(xs, headerOf, a, i) && Tally(xs, headerOf)[a].name == headerOf(xs[i]).name
  {
    var p := xs[..|xs| - 1];
    var u := xs[|xs| - 1];
    if a in Tally(p, headerOf) {
      TallyFirstName(p, headerOf, a);
      var i :| FirstFrom(p, headerOf, a, i) && Tally(p, headerOf)[a].name == headerOf(p[i]).name;
      assert xs[i] == p[i];
      assert forall j :: 0 <= j < i ==> xs[j] == p[j];
      assert FirstFrom(xs, headerOf, a, i);
    } else {
      TallyKeys(p, headerOf, a);
      assert forall j :: 0 <= j < |p| ==> xs[j] == p[j];
      assert FirstFrom(xs, headerOf, a, |p|);
    }
  }

  /** `process_batch`: folds the batch's headers into a directory, polling the shared
      cancel flag before each message; `cancelAt` is the first poll that sees it set.
      A batch that is cancelled returns what it has so far and is not counted as complete. */
  method ProcessBatch(batch: seq<Uid>, headerOf: Uid -> HeaderResult, cancelAt: nat)
    returns (senders: Senders, completed: bool)
    ensures completed <==> cancelAt >= |batch|
    ensures senders == Tally(batch[..Min(cancelAt, |batch|)], headerOf)
  {
    senders := map[];
    var i := 0;
    while i < |batch|
      invariant 0 <= i <= |batch| && i <= cancelAt
      invariant senders == Tally(batch[..i], headerOf)
    {
      if i == cancelAt {
        return senders, false;
      }
      assert batch[..i + 1][..i] == batch[..i];
      match headerOf(batch[i]) {
        case NoData =>
        case Failed =>
        case Parsed(name, a) =>
          if a in senders {
            senders := senders[a := senders[a].(frequency := senders[a].frequency + 1)];
          } else {
            senders := senders[a := SenderInfo(name, 1)];
          }
      }
      i := i + 1;
    }
    assert batch[..|batch|] == batch;
    completed := true;
  }

  /** One partial directory merged into the running one: frequencies add up, and the
      running directory's name wins. */
  function Combine(m: Senders, d: Senders): (r: Senders)
    ensures r.Keys == m.Keys + d.Keys
  {
    map a | a in m.Keys + d.Keys ::
      if a in m && a in d then SenderInfo(m[a].name, m[a].frequency + d[a].frequency)
      else if a in m then m[a]
      else d[a]
  }

  /** The partial directories merged in list order. */
  function Merge(ds: seq<Senders>): Senders {
    if ds == [] then map[] else Combine(Merge(ds[..|ds| - 1]), ds[|ds| - 1])
  }

  function Restrict(d: Senders, keys: set<string>): Senders {
    map a | a in keys && a in d :: d[a]
  }

  lemma CombineEmpty(m: Senders, d: Senders)
    ensures Combine(m, Restrict(d, {})) == m
  {
    assert Restrict(d, {}) == map[];
  }

  /** Folding one more entry of `d` into the running merge. */
  lemma CombineStep(m: Senders, d: Senders, done: set<string>, a: string)
    requires a in d && a !in done
    ensures var c := Combine(m, Restrict(d, done));
            (Combine(m, Restrict(d, done + {a}))
             == if a in c then c[a := c[a].(frequency := c[a].frequency + d[a].frequency)] else c[a := d[a]])
  {
    var r := Restrict(d, done);
    assert Restrict(d, done + {a}) == r[a := d[a]];
    CombineAdd(m, r, a, d[a]);
  }

  /** Merging a directory with one more sender adds that sender's count to the merge. */
  lemma CombineAdd(m: Senders, r: Senders, a: string, x: SenderInfo)
    requires a !in r
    ensures var c := Combine(m, r);
            (Combine(m, r[a := x])
             == if a in c then c[a := c[a].(frequency := c[a].frequency + x.frequency)] else c[a := x])
  {
    var c := Combine(m, r);
    var c' := Combine(m, r[a := x]);
    var e := if a in c then c[a := c[a].(frequency := c[a].frequency + x.frequency)] else c[a := x];
    assert c'.Keys == e.Keys;
    forall b | b in c'.Keys ensures c'[b] == e[b] {
      if b != a {
        assert c'[b] == c[b];
      }
    }
  }

  /** The inner loop of `merge_senders_dicts`: one map's entries folded into `merged`. */
  method MergeInto(merged: Senders, d: Senders) returns (r: Senders)
    ensures r == Combine(merged, d)
  {
    r := merged;
    var rest := d.Keys;
    ghost var done: set<string> := {};
    CombineEmpty(merged, d);
    while rest != {}
      invariant rest + done == d.Keys && rest !! done
      invariant r == Combine(merged, Restrict(d, done))
      decreases |rest|
    {
      var a :| a in rest;
      CombineStep(merged, d, done, a);
      if a in r {
        r := r[a := r[a].(frequency := r[a].frequency + d[a].frequency)];
      } else {
        r := r[a := d[a]];
      }
      rest := rest - {a};
      done := done + {a};
    }
    assert Restrict(d, done) == d;
  }

  /** `merge_senders_dicts`: folds the partial maps in list order. */
  method MergeSendersDicts(dictList: seq<Senders>) returns (merged: Senders)
    ensures merged == Merge(dictList)
  {
    merged := map[];
    var i := 0;
    while i < |dictList|
      invariant 0 <= i <= |dictList|
      invariant merged == Merge(dictList[..i])
    {
      merged := MergeInto(merged, dictList[i]);
      assert dictList[..i + 1][..i] == dictList[..i];
      i := i + 1;
    }
    assert dictList[..|dictList|] == dictList;
  }

  function FrequencyOf(a: string): Senders -> nat {
    (d: Senders) => if a in d then d[a].frequency else 0
  }

  /** The merged directory holds exactly the addresses of the partial maps, each with the
      sum of its partial frequencies. */
  lemma {:induction false} MergeKeysAndSums(ds: seq<Senders>, a: string)
    ensures a in Merge(ds) <==> exists i :: 0 <= i < |ds| && a in ds[i]
    ensures Sum(ds, FrequencyOf(a)) == if a in Merge(ds) then Merge(ds)[a].frequency else 0
  {
    if ds != [] {
      var p := ds[..|ds| - 1];
      MergeKeysAndSums(p, a);
      assert forall i :: 0 <= i < |p| ==> ds[i] == p[i];
      if a in Merge(ds) && a !in ds[|ds| - 1] {
        var i :| 0 <= i < |p| && a in p[i];
        assert a in ds[i];
      }
    }
  }

  /** Reordering the partial maps changes neither the merged key set nor any merged
      frequency. */
  lemma MergeOrderIndependent(ds: seq<Senders>, es: seq<Senders>, a: string)
    requires multiset(ds) == multiset(es)
    ensures a in Merge(ds) <==> a in Merge(es)
    ensures a in Merge(ds) ==> Merge(ds)[a].frequency == Merge(es)[a].frequency
  {
    MergeKeysAndSums(ds, a);
    MergeKeysAndSums(es, a);
    SumPermutation(ds, es, FrequencyOf(a));
    if a in Merge(ds) {
      var i :| 0 <= i < |ds| && a in ds[i];
      assert ds[i] in multiset(es);
    }
    if a in Merge(es) {
      var i :| 0 <= i < |es| && a in es[i];
      assert es[i] in multiset(ds);
    }
  }

  /** The merged name is that of the earliest partial map holding the address. */
  lemma {:induction false} MergeEarliestName(ds: seq<Senders>, a: string, i: nat)
    requires i < |ds| && a in ds[i]
    requires forall j :: 0 <= j < i ==> a !in ds[j]
    ensures a in Merge(ds) && Merge(ds)[a].name == ds[i][a].name
  {
    var p := ds[..|ds| - 1];
    if i < |p| {
      MergeEarliestName(p, a, i);
    } else {
      MergeKeysAndSums(p, a);
      assert forall j :: 0 <= j < |p| ==> p[j] == ds[j];
    }
  }

  /** Names depend on the order of the partial maps. */
  lemma MergeNamesOrderDependent()
    ensures var d1 := map["a" := SenderInfo("Ann", 1)];
            var d2 := map["a" := SenderInfo("Anne", 2)];
            Merge([d1, d2])["a"] == SenderInfo("Ann", 3) && Merge([d2, d1])["a"] == SenderInfo("Anne", 3)
  {
    var d1 := map["a" := SenderInfo("Ann", 1)];
    var d2 := map["a" := SenderInfo("Anne", 2)];
    assert [d1][..0] == [];
    assert [d2][..0] == [];
    assert Merge([d1]) == Combine(map[], d1);
    assert Combine(map[], d1) == d1;
    assert Merge([d2]) == Combine(map[], d2);
    assert Combine(map[], d2) == d2;
    assert [d1, d2][..1] == [d1];
    assert [d2, d1][..1] == [d2];
    assert Merge([d1, d2]) == Combine(d1, d2);
    assert Merge([d2, d1]) == Combine(d2, d1);
  }

  /** Recording a message after merging is merging after recording it. */
  lemma CombineRecord(m: Senders, d: Senders, h: HeaderResult)
    ensures Combine(m, Record(d, h)) == Record(Combine(m, d), h)
  {
    match h {
      case NoData =>
      case Failed =>
      case Parsed(name, a) =>
        var l := Combine(m, Record(d, h));
        var r := Record(Combine(m, d), h);
        assert l.Keys == r.Keys;
        forall b | b in l.Keys ensures l[b] == r[b] {
          if b == a {
            if a in m && a in d {
              assert l[b] == r[b];
            } else if a in m {
              assert l[b] == r[b];
            } else if a in d {
              assert l[b] == r[b];
            } else {
              assert l[b] == r[b];
            }
          }
        }
    }
  }

  /** Tallying two runs of messages and merging equals tallying them together. */
  lemma {:induction false} TallyAppend(xs: seq<Uid>, ys: seq<Uid>, headerOf: Uid -> HeaderResult)
    ensures Tally(xs + ys, headerOf) == Combine(Tally(xs, headerOf), Tally(ys, headerOf))
    decreases |ys|
  {
    if ys == [] {
      assert xs + ys == xs;
      assert Combine(Tally(xs, headerOf), map[]) == Tally(xs, headerOf);
    } else {
      var q := ys[..|ys| - 1];
      var u := ys[|ys| - 1];
      assert (xs + ys)[..|xs + ys| - 1] == xs + q;
      assert (xs + ys)[|xs + ys| - 1] == u;
      TallyAppend(xs, q, headerOf);
      assert Tally(xs + ys, headerOf) == Record(Tally(xs + q, headerOf), headerOf(u));
      assert Tally(ys, headerOf) == Record(Tally(q, headerOf), headerOf(u));
      CombineRecord(Tally(xs, headerOf), Tally(q, headerOf), headerOf(u));
    }
  }

  /** The batch directories, in the order the batches are listed. */
  function Tallies(bs: seq<seq<Uid>>, headerOf: Uid -> HeaderResult): (r: seq<Senders>)
    ensures |r| == |bs|
  {
    seq(|bs|, i requires 0 <= i < |bs| => Tally(bs[i], headerOf))
  }

  /** Merging the batch directories is tallying the batches' concatenation. */
  lemma {:induction false} MergeTallies(bs: seq<seq<Uid>>, headerOf: Uid -> HeaderResult)
    ensures Merge(Tallies(bs, headerOf)) == Tally(Flatten(bs), headerOf)
  {
    if bs != [] {
      var p := bs[..|bs| - 1];
      MergeTallies(p, headerOf);
      assert Tallies(bs, headerOf)[..|bs| - 1] == Tallies(p, headerOf);
      assert Flatten(bs) == Flatten(p) + bs[|bs| - 1];
      TallyAppend(Flatten(p), bs[|bs| - 1], headerOf);
    }
  }

  /** Whatever order the batch results arrive in, the scanned directory holds exactly
      the senders of the parsed messages, each with its number of parsed messages. */
  lemma ScanTotals(uids: seq<Uid>, arrived: seq<seq<Uid>>, headerOf: Uid -> HeaderResult, a: string)
    requires multiset(arrived) == multiset(Batches(uids))
    ensures a in Merge(Tallies(arrived, headerOf)) <==> a in ParsedAddresses(uids, headerOf)
    ensures a in Merge(Tallies(arrived, headerOf)) ==>
              Merge(Tallies(arrived, headerOf))[a].frequency == multiset(ParsedAddresses(uids, headerOf))[a]
  {
    var all := Flatten(arrived);
    BatchesPartition(uids);
    MergeTallies(arrived, headerOf);
    FlatMapPermutation(arrived, Batches(uids), Identity);
    assert multiset(all) == multiset(uids);
    FlatMapPermutation(all, uids, AddressOf(headerOf));
    assert multiset(ParsedAddresses(all, headerOf)) == multiset(ParsedAddresses(uids, headerOf));
    TallyFrequency(all, headerOf, a);
  }

  /** `scan_emails_parallel`: the batch results arrive in `arrived`, some permutation of
      the batches; the cancel flag is polled after each result and first seen set at poll
      `cancelAt`. The directory is written only when no poll saw the flag. */
  method ScanEmailsParallel(uids: seq<Uid>, headerOf: Uid -> HeaderResult, arrived: seq<seq<Uid>>,
                            cancelAt: nat, files: Files)
    returns (written: bool, progress: seq<Sample>)
    requires multiset(arrived) == multiset(Batches(uids))
    modifies files`senders
    ensures written <==> cancelAt >= |Batches(uids)|
    ensures written ==> files.senders == Some(Directory(Merge(Tallies(arrived, headerOf))))
    ensures !written ==> files.senders == old(files.senders)
    ensures progress == ItemSamples(Min(cancelAt, |Batches(uids)|), |Batches(uids)|, false)
  {
    var total := |Batches(uids)|;
    assert |arrived| == |multiset(arrived)| == total;
    var counter := 0;
    var results: seq<Senders> := [];
    progress := [];
    var k := 0;
    while k < |arrived|
      invariant 0 <= k <= |arrived| && k <= cancelAt
      invariant counter == k
      invariant files.senders == old(files.senders)
      invariant results == Tallies(arrived[..k], headerOf)
      invariant progress == ItemSamples(k, total, false)
    {
      var result, completed := ProcessBatch(arrived[k], headerOf, |arrived[k]|);
      if k == cancelAt {
        return false, progress;
      }
      if completed {
        counter := counter + 1;
      }
      assert arrived[k][..|arrived[k]|] == arrived[k];
      results := results + [result];
      assert Tallies(arrived[..k + 1], headerOf) == results;
      progress := progress + [Sample(counter, k + 1, total)];
      k := k + 1;
    }
    assert arrived[..|arrived|] == arrived;
    var senders := MergeSendersDicts(results);
    files.senders := Some(Directory(senders));
    written := true;
  }

  /** `fetch_all_uids` as written: a plain SEARCH ALL, whose reply is message sequence
      numbers, later fetched with UID FETCH. */
  function FetchAllIdsAsWritten(order: seq<Uid>, labels: Labels, fromMatches: (Uid, string) -> bool): seq<nat>
    requires forall u :: u in order ==> u in labels
  {
    SearchIds(BySequence, All, order, 0, labels, fromMatches)
  }

  /** A mailbox holding the one message with UID 7: the scan is handed id 1, which names
      no message when fetched by UID. */
  lemma FetchAllIdsAsWrittenMissesMessages()
    ensures FetchAllIdsAsWritten([7], map[7 := {}], (u, s) => false) == [1]
    ensures Resolve(ByUid, 1, [7], map[7 := {}]) == None
  {
  }

  /** `fetch_all_uids` as evidently intended: a UID SEARCH ALL. */
  function FetchAllUids(order: seq<Uid>, labels: Labels, fromMatches: (Uid, string) -> bool): (ids: seq<nat>)
    requires forall u :: u in order ==> u in labels
    ensures ids == order
  {
    AllUidsInOrder(order, 0, labels, fromMatches);
    SearchIds(ByUid, All, order, 0, labels, fromMatches)
  }

  lemma {:induction false} AllUidsInOrder(order: seq<Uid>, offset: nat, labels: Labels, fromMatches: (Uid, string) -> bool)
    requires forall u :: u in order ==> u in labels
    ensures SearchIds(ByUid, All, order, offset, labels, fromMatches) == order
    decreases |order|
  {
    if order != [] {
      AllUidsInOrder(order[1..], offset + 1, labels, fromMatches);
    }
  }

  /** `scan_for_senders`: lists every message by UID, closes that session, and scans. */
  method ScanForSenders(session: Session, headerOf: Uid -> HeaderResult, arrived: seq<seq<Uid>>,
                        cancelAt: nat, files: Files)
    returns (written: bool, progress: seq<Sample>)
    requires session.Valid()
    requires multiset(arrived) == multiset(Batches(session.order))
    modifies session`log, files`senders
    ensures session.log == old(session.log) + [Select(TargetMailbox), Search(ByUid, All), Logout]
    ensures written <==> cancelAt >= |Batches(session.order)|
    ensures written ==> files.senders == Some(Directory(Merge(Tallies(arrived, headerOf))))
    ensures !written ==> files.senders == old(files.senders)
  {
    session.Send(Select(TargetMailbox));
    var uids := session.Search(ByUid, All);
    AllUidsInOrder(session.order, 0, session.labels, session.fromMatches);
    session.Send(Logout);
    written, progress := ScanEmailsParallel(uids, headerOf, arrived, cancelAt, files);
  }
}
