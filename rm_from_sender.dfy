/** Removing every message of one sender: a plain SEARCH for the sender, one STORE adding
    the Trash label per message sequence number found, then EXPUNGE, CLOSE and LOGOUT. */
module RemoveFromSender {
  import opened Wrappers
  import opened Seqs
  import opened Mailbox

  /** The SEARCH criterion of `fetch_uids_from_sender`. */
  function SenderCriterion(sender: string): Criterion {
    FromSender(sender)
  }

  lemma SenderCriterionText(sender: string)
    ensures CriterionText(SenderCriterion(sender)) == "(FROM \"" + sender + "\")"
  {
  }

  function TrashRequest(id: nat): seq<Request> {
    [Store(BySequence, id, Add, Trash)]
  }

  /** The commands of the deletion loop. */
  function TrashPlan(ids: seq<nat>): (r: seq<Request>)
    ensures |r| == |ids|
    ensures forall i :: 0 <= i < |ids| ==> r[i] == Store(BySequence, ids[i], Add, Trash)
  {
    if ids == [] then [] else TrashPlan(ids[..|ids| - 1]) + TrashRequest(ids[|ids| - 1])
  }

  lemma TrashPlanStep(ids: seq<nat>, k: nat)
    requires k < |ids|
    ensures TrashPlan(ids[..k + 1]) == TrashPlan(ids[..k]) + [Store(BySequence, ids[k], Add, Trash)]
  {
    assert ids[..k + 1][..k] == ids[..k];
  }

  /** Some id of `ids` is the sequence number of message `v`. */
  predicate Names(ids: seq<nat>, order: seq<Uid>, v: Uid) {
    exists i :: 0 <= i < |ids| && 1 <= ids[i] <= |order| && order[ids[i] - 1] == v
  }

  /** One Trash STORE only ever adds Trash to a message; accepted, it adds it exactly to
      the message the id names. */
  lemma TrashEffect(labels: Labels, order: seq<Uid>, id: nat, code: Code, v: Uid)
    requires forall u :: u in order ==> u in labels
    requires v in labels
    ensures labels[v] <= Effect(labels, order, Store(BySequence, id, Add, Trash), code)[v] <= labels[v] + {Trash}
    ensures code == OK ==>
              Effect(labels, order, Store(BySequence, id, Add, Trash), code)[v]
              == if 1 <= id <= |order| && order[id - 1] == v then labels[v] + {Trash} else labels[v]
  {
  }

  lemma NamesStep(ids: seq<nat>, order: seq<Uid>, v: Uid)
    requires ids != []
    ensures Names(ids, order, v)
        <==> Names(ids[..|ids| - 1], order, v) || (1 <= ids[|ids| - 1] <= |order| && order[ids[|ids| - 1] - 1] == v)
  {
    var p := ids[..|ids| - 1];
    if Names(ids, order, v) {
      var i :| 0 <= i < |ids| && 1 <= ids[i] <= |order| && order[ids[i] - 1] == v;
      if i < |p| {
        assert p[i] == ids[i];
      }
    }
    if Names(p, order, v) {
      var i :| 0 <= i < |p| && 1 <= p[i] <= |order| && order[p[i] - 1] == v;
      assert ids[i] == p[i];
    }
  }

  /** The deletion loop only ever adds Trash, and when the server accepts every STORE
      exactly the messages the ids name gain it. */
  lemma {:induction false} TrashOutcome(labels: Labels, order: seq<Uid>, ids: seq<nat>, codeAt: nat -> Code,
                                        start: nat, v: Uid)
    requires forall u :: u in order ==> u in labels
    requires v in labels
    ensures labels[v] <= Replay(labels, order, TrashPlan(ids), codeAt, start)[v] <= labels[v] + {Trash}
    ensures (forall i :: codeAt(i) == OK) ==>
              Replay(labels, order, TrashPlan(ids), codeAt, start)[v]
              == if Names(ids, order, v) then labels[v] + {Trash} else labels[v]
    decreases |ids|
  {
    if ids != [] {
      var p := ids[..|ids| - 1];
      var id := ids[|ids| - 1];
      var mid := Replay(labels, order, TrashPlan(p), codeAt, start);
      TrashOutcome(labels, order, p, codeAt, start, v);
      assert Replay(labels, order, TrashPlan(ids), codeAt, start)
          == Effect(mid, order, Store(BySequence, id, Add, Trash), codeAt(start + |p|)) by {
        assert TrashPlan(ids) == TrashPlan(p) + TrashRequest(id);
        ReplayStep(labels, order, TrashPlan(p), Store(BySequence, id, Add, Trash), codeAt, start);
      }
      TrashEffect(mid, order, id, codeAt(start + |p|), v);
      NamesStep(ids, order, v);
    }
  }

  /** The sequence numbers a plain SEARCH for the sender returns name exactly the
      sender's messages. */
  lemma SenderIdsName(order: seq<Uid>, labels: Labels, fromMatches: (Uid, string) -> bool, sender: string, v: Uid)
    requires forall u :: u in order ==> u in labels
    ensures Names(SearchIds(BySequence, SenderCriterion(sender), order, 0, labels, fromMatches), order, v)
        <==> v in order && fromMatches(v, sender)
  {
    var ids := SearchIds(BySequence, SenderCriterion(sender), order, 0, labels, fromMatches);
    if Names(ids, order, v) {
      var i :| 0 <= i < |ids| && 1 <= ids[i] <= |order| && order[ids[i] - 1] == v;
      SequenceSearchExact(SenderCriterion(sender), order, 0, labels, fromMatches, ids[i]);
    }
    if v in order && fromMatches(v, sender) {
      var n :| 0 <= n < |order| && order[n] == v;
      SequenceSearchExact(SenderCriterion(sender), order, 0, labels, fromMatches, n + 1);
      var i :| 0 <= i < |ids| && ids[i] == n + 1;
      assert 1 <= ids[i] <= |order| && order[ids[i] - 1] == v;
    }
  }

  /** From `before` to `after` each message only gained Trash, and with every STORE
      accepted exactly the sender's messages gained it. */
  ghost predicate SenderTrashed(before: Labels, after: Labels, order: seq<Uid>, fromMatches: (Uid, string) -> bool,
                                sender: string, codeAt: nat -> Code) {
    forall v :: v in before ==>
      && v in after
      && before[v] <= after[v] <= before[v] + {Trash}
      && ((forall i :: codeAt(i) == OK) ==>
            after[v] == if v in order && fromMatches(v, sender) then before[v] + {Trash} else before[v])
  }

  /** Trashing what a plain SEARCH for the sender returned trashes the sender's messages. */
  lemma TrashSender(labels: Labels, order: seq<Uid>, fromMatches: (Uid, string) -> bool, sender: string,
                    codeAt: nat -> Code, start: nat)
    requires forall u :: u in order ==> u in labels
    ensures SenderTrashed(labels, Replay(labels, order, TrashPlan(SearchIds(BySequence, SenderCriterion(sender), order, 0, labels, fromMatches)),
                                         codeAt, start), order, fromMatches, sender, codeAt)
  {
    var ids := SearchIds(BySequence, SenderCriterion(sender), order, 0, labels, fromMatches);
    var after := Replay(labels, order, TrashPlan(ids), codeAt, start);
    forall v | v in labels
      ensures && v in after
              && labels[v] <= after[v] <= labels[v] + {Trash}
              && ((forall i :: codeAt(i) == OK) ==>
                    after[v] == if v in order && fromMatches(v, sender) then labels[v] + {Trash} else labels[v])
    {
      TrashOutcome(labels, order, ids, codeAt, start, v);
      SenderIdsName(order, labels, fromMatches, sender, v);
    }
  }

  /** `fetch_uids_from_sender`: the sender's messages by sequence number, in mailbox order. */
  method FetchIdsFromSender(session: Session, sender: string) returns (ids: seq<nat>)
    requires session.Valid()
    modifies session`log
    ensures session.Valid()
    ensures session.log == old(session.log) + [Select(TargetMailbox), Search(BySequence, SenderCriterion(sender))]
    ensures ids == SearchIds(BySequence, SenderCriterion(sender), session.order, 0, session.labels, session.fromMatches)
    ensures forall n: nat :: n in ids <==> 1 <= n <= |session.order| && session.fromMatches(session.order[n - 1], sender)
    ensures forall i, j :: 0 <= i < j < |ids| ==> ids[i] < ids[j]
  {
    session.Send(Select(TargetMailbox));
    ids := session.Search(BySequence, SenderCriterion(sender));
    forall n: nat ensures n in ids <==> 1 <= n <= |session.order| && session.fromMatches(session.order[n - 1], sender) {
      SequenceSearchExact(SenderCriterion(sender), session.order, 0, session.labels, session.fromMatches, n);
    }
    SequenceSearchIncreasing(SenderCriterion(sender), session.order, 0, session.labels, session.fromMatches);
  }

  /** The deletion loop has sent one Trash STORE per id of `done` after `log0`, and the
      labels are what those STOREs made of `labels0`. */
  ghost predicate TrashedUpTo(log: seq<Request>, labels: Labels, done: seq<nat>, order: seq<Uid>, codeAt: nat -> Code,
                              log0: seq<Request>, labels0: Labels) {
    && log == log0 + TrashPlan(done)
    && labels == Replay(labels0, order, TrashPlan(done), codeAt, |log0|)
  }

  /** One more STORE of the deletion loop extends the log and the labels by the next id. */
  lemma TrashAdvance(labels0: Labels, order: seq<Uid>, ids: seq<nat>, k: nat, codeAt: nat -> Code,
                     log0: seq<Request>, log: seq<Request>, labels: Labels, log': seq<Request>, labels': Labels)
    requires k < |ids|
    requires TrashedUpTo(log, labels, ids[..k], order, codeAt, log0, labels0)
    requires log' == log + [Store(BySequence, ids[k], Add, Trash)]
    requires labels' == Effect(labels, order, Store(BySequence, ids[k], Add, Trash), codeAt(|log|))
    ensures TrashedUpTo(log', labels', ids[..k + 1], order, codeAt, log0, labels0)
  {
    var done := TrashPlan(ids[..k]);
    var store := Store(BySequence, ids[k], Add, Trash);
    assert |log| == |log0| + |done|;
    TrashPlanStep(ids, k);
    AppendAfter(log0, done, [store], log, log');
    ReplayExtend(labels0, order, done, store, TrashPlan(ids[..k + 1]), codeAt, |log0|, labels, labels');
  }

  /** The loop of `delete_emails`: one Trash STORE per id in order, the progress `k/n`
      after the k-th. */
  method TrashAll(session: Session, ids: seq<nat>) returns (progress: seq<Sample>)
    requires session.Valid()
    modifies session`log, session`labels
    ensures session.Valid()
    ensures session.log == old(session.log) + TrashPlan(ids)
    ensures session.labels == Replay(old(session.labels), session.order, TrashPlan(ids), session.codeAt, |old(session.log)|)
    ensures progress == ItemSamples(|ids|, |ids|, false)
  {
    ghost var log0 := session.log;
    ghost var labels0 := session.labels;
    progress := [];
    var k := 0;
    while k < |ids|
      invariant 0 <= k <= |ids|
      invariant session.Valid()
      invariant TrashedUpTo(session.log, session.labels, ids[..k], session.order, session.codeAt, log0, labels0)
      invariant progress == ItemSamples(k, |ids|, false)
    {
      ghost var log := session.log;
      ghost var labels := session.labels;
      var _ := session.Store(BySequence, ids[k], Add, Trash);
      TrashAdvance(labels0, session.order, ids, k, session.codeAt, log0, log, labels, session.log, session.labels);
      progress := progress + [Sample(k + 1, k + 1, |ids|)];
      k := k + 1;
    }
    assert ids[..|ids|] == ids;
  }

  /** `delete_emails`: the deletion loop, then EXPUNGE, CLOSE and LOGOUT once. */
  method DeleteEmails(session: Session, ids: seq<nat>) returns (progress: seq<Sample>)
    requires session.Valid()
    modifies session`log, session`labels
    ensures session.Valid()
    ensures session.log == old(session.log) + TrashPlan(ids) + [Expunge, Close, Logout]
    ensures session.labels == Replay(old(session.labels), session.order, TrashPlan(ids), session.codeAt, |old(session.log)|)
    ensures progress == ItemSamples(|ids|, |ids|, false)
  {
    progress := TrashAll(session, ids);
    ghost var trashed := session.log;
    session.Send(Expunge);
    session.Send(Close);
    session.Send(Logout);
    assert session.log == trashed + [Expunge, Close, Logout];
  }

  /** `rm_from_sender`: nothing after the SEARCH when the sender has no messages;
      otherwise the deletion. */
  method RmFromSender(session: Session, sender: string) returns (progress: seq<Sample>)
    requires session.Valid()
    modifies session`log, session`labels
    ensures session.Valid()
    ensures var ids := SearchIds(BySequence, SenderCriterion(sender), session.order, 0, old(session.labels), session.fromMatches);
            var head := old(session.log) + [Select(TargetMailbox), Search(BySequence, SenderCriterion(sender))];
            && (ids == [] ==> session.log == head && progress == [] && session.labels == old(session.labels))
            && (ids != [] ==> session.log == head + TrashPlan(ids) + [Expunge, Close, Logout])
            && progress == ItemSamples(|ids|, |ids|, false)
    ensures SenderTrashed(old(session.labels), session.labels, session.order, session.fromMatches, sender, session.codeAt)
  {
    ghost var labels0 := session.labels;
    var ids := FetchIdsFromSender(session, sender);
    ghost var start := |session.log|;
    assert session.labels == labels0;
    TrashSender(labels0, session.order, session.fromMatches, sender, session.codeAt, start);
    if |ids| == 0 {
      progress := [];
      assert Replay(labels0, session.order, TrashPlan(ids), session.codeAt, start) == labels0;
      return;
    }
    progress := DeleteEmails(session, ids);
    assert session.labels == Replay(labels0, session.order, TrashPlan(ids), session.codeAt, start);
  }
}
