/** Undoing what the organizers did: emptying the four data files that exist, and taking
    every label of one organizer off the messages that carry its marker. For each such
    message (found by UID SEARCH for the marker) the labels are fetched, and one UID STORE
    removes each label whose name contains the organizer's name. */
module ResetInbox {
  import opened Wrappers
  import opened Seqs
  import opened Text
  import opened Mailbox
  import opened GmailLabels
  import opened Stores

  /** The `label_type` each reset filters the fetched labels by. */
  const StandardType: string := "Standard Organizer"
  const AiType: string := "AI Organizer"

  /** Each organizer's marker carries its own organizer's name, so the reset removes the
      marker too and a later organizer run sees the messages again. */
  lemma StandardMarkerHasType()
    ensures Contains(StandardChecked, StandardType)
  {
    assert StandardChecked == OrganizerFolder + StandardType + ("/" + "Checked Emails");
    ContainsMiddle(OrganizerFolder, StandardType, "/" + "Checked Emails");
  }

  lemma AiMarkerHasType()
    ensures Contains(AiChecked, AiType)
  {
    assert AiChecked == OrganizerFolder + AiType + ("/" + "AI Checked Emails");
    ContainsMiddle(OrganizerFolder, AiType, "/" + "AI Checked Emails");
  }

  // The data files.

  /** `reset_sender_labels`: an existing label store goes back to the two placeholders. */
  method ResetSenderLabels(files: Files)
    modifies files`senderLabels
    ensures files.senderLabels == if old(files.senderLabels).Some? then Some(EmptyLabelTable) else None
  {
    if files.senderLabels.Some? {
      files.senderLabels := Some(EmptyLabelTable);
    }
  }

  /** The reset label store has every placeholder key once, with no address, and no
      real label. */
  lemma EmptyLabelTableHoldsNoLabel(k: string)
    ensures DistinctKeys(EmptyLabelTable)
    ensures Lookup(EmptyLabelTable, k) == if IsPlaceholder(k) then Some([]) else None
  {
  }

  /** `reset_unsubscribed_senders`: an existing unsubscribe store becomes empty. */
  method ResetUnsubscribedSenders(files: Files)
    modifies files`unsubscribed
    ensures files.unsubscribed == if old(files.unsubscribed).Some? then Some(map[]) else None
  {
    if files.unsubscribed.Some? {
      files.unsubscribed := Some(map[]);
    }
  }

  /** `reset_categories`: an existing category store holds no category. */
  method ResetCategories(files: Files)
    modifies files`categories
    ensures files.categories == if old(files.categories).Some? then Some([]) else None
  {
    if files.categories.Some? {
      files.categories := Some([]);
    }
  }

  /** `reset_sender_list`: an existing sender directory goes back to the empty list. */
  method ResetSenderList(files: Files)
    modifies files`senders
    ensures files.senders == if old(files.senders).Some? then Some(EmptyList) else None
  {
    if files.senders.Some? {
      files.senders := Some(EmptyList);
    }
  }

  // The labels on the server.

  /** `get_standard_organizer_uids` and `get_ai_organizer_uids`: the UIDs of the messages
      carrying the organizer's marker, in mailbox order, each once. */
  method GetOrganizerUids(session: Session, marker: string) returns (uids: seq<Uid>)
    requires session.Valid()
    modifies session`log
    ensures session.Valid()
    ensures session.log == old(session.log) + [Select(TargetMailbox), Search(ByUid, WithLabel(marker))]
    ensures uids == SearchIds(ByUid, WithLabel(marker), session.order, 0, session.labels, session.fromMatches)
    ensures forall u :: u in uids <==> u in session.labels && marker in session.labels[u]
    ensures forall i, j :: 0 <= i < j < |uids| ==> uids[i] != uids[j]
  {
    session.Send(Select(TargetMailbox));
    uids := session.Search(ByUid, WithLabel(marker));
    forall u ensures u in uids <==> u in session.labels && marker in session.labels[u] {
      UidSearchExact(WithLabel(marker), session.order, 0, session.labels, session.fromMatches, u);
    }
    UidSearchDistinct(WithLabel(marker), session.order, 0, session.labels, session.fromMatches);
  }

  /** The labels of `labels` whose name contains `labelType`, in their order. */
  function OfType(labels: seq<string>, labelType: string): (r: seq<string>)
    ensures |r| <= |labels|
    ensures forall l :: l in r <==> l in labels && Contains(l, labelType)
  {
    if labels == [] then []
    else OfType(labels[..|labels| - 1], labelType)
         + (if Contains(labels[|labels| - 1], labelType) then [labels[|labels| - 1]] else [])
  }

  /** `get_labels` with a `label_type`: the parsed label list, filtered when `labelType` is
      not empty; `None` where the source raises (no reply data, or no label list in it). */
  function GetLabels(reply: Option<string>, labelType: string): Option<seq<string>> {
    if reply.None? then None
    else match ParseLabels(reply.value)
      case None => None
      case Some(ls) => Some(if labelType != "" then OfType(ls, labelType) else ls)
  }

  /** A reply in Gmail's form gives back exactly the quoted labels of the list that contain
      the type; labels Gmail writes as atoms are not read. */
  lemma GetLabelsReadsReply(seqno: nat, items: seq<ListItem>, uid: nat, labelType: string)
    requires forall i :: 0 <= i < |items| ==> WellFormed(items[i])
    ensures GetLabels(Some(Reply(seqno, Written(items), uid)), labelType).Some?
    ensures forall l :: l in GetLabels(Some(Reply(seqno, Written(items), uid)), labelType).value
                   <==> l in QuotedNames(items) && Contains(l, labelType)
  {
    ReplyRoundTrip(seqno, items, uid);
    if labelType == "" {
      forall l ensures Contains(l, labelType) {
        assert StartsWith(l, labelType);
      }
    }
  }

  /** The names of a label list, quoted or not. */
  function ItemNames(items: seq<ListItem>): (r: set<string>)
    ensures forall x :: x in r <==> exists i :: 0 <= i < |items| && items[i].name == x
  {
    set i | 0 <= i < |items| :: items[i].name
  }

  /** Every label of the list whose name contains `labelType` is quoted. */
  predicate TypedQuoted(items: seq<ListItem>, labelType: string) {
    forall i :: 0 <= i < |items| && Contains(items[i].name, labelType) ==> items[i].QuotedString?
  }

  /** When the labels of the type are quoted, reading only the quoted names loses none of them. */
  lemma TypedNamesRead(items: seq<ListItem>, labelType: string, x: string)
    requires TypedQuoted(items, labelType)
    ensures x in QuotedNames(items) && Contains(x, labelType) <==> x in ItemNames(items) && Contains(x, labelType)
  {
    if x in ItemNames(items) && Contains(x, labelType) {
      var i :| 0 <= i < |items| && items[i].name == x;
      assert items[i] == QuotedString(x);
    }
  }

  /** One `-X-GM-LABELS` STORE per label, in order. */
  function RemovePlan(uid: Uid, labels: seq<string>): (r: seq<Request>)
    ensures |r| == |labels|
  {
    if labels == [] then []
    else RemovePlan(uid, labels[..|labels| - 1]) + [Store(ByUid, uid, Remove, labels[|labels| - 1])]
  }

  lemma RemovePlanStep(uid: Uid, labels: seq<string>, k: nat)
    requires k < |labels|
    ensures RemovePlan(uid, labels[..k + 1]) == RemovePlan(uid, labels[..k]) + [Store(ByUid, uid, Remove, labels[k])]
  {
    assert labels[..k + 1][..k] == labels[..k];
  }

  /** Every label `get_labels` returns contains the type. */
  lemma GetLabelsOfType(reply: Option<string>, labelType: string)
    ensures GetLabels(reply, labelType).Some? ==>
              forall l :: l in GetLabels(reply, labelType).value ==> Contains(l, labelType)
  {
    if labelType == "" {
      forall l ensures Contains(l, labelType) {
        assert StartsWith(l, labelType);
      }
    }
  }

  /** The commands for one message: its label fetch, then the removals when the labels
      were read. */
  function ItemRequests(uid: Uid, found: Option<seq<string>>): seq<Request> {
    [Fetch(ByUid, uid, LabelsField)] + (if found.Some? then RemovePlan(uid, found.value) else [])
  }

  /** Where the reset of one organizer's labels stands: the commands sent, how many
      messages were finished, and whether a label fetch raised. */
  datatype ResetState = ResetState(requests: seq<Request>, done: nat, raised: bool)

  /** The loop of `remove_standard_organizer_labels` / `remove_ai_organizer_labels` over
      `uids`, where `found(u)` is what the label fetch of message `u` reads (`None`: it
      raises). It stops at the first message whose labels cannot be read. */
  function ResetRun(uids: seq<Uid>, found: Uid -> Option<seq<string>>): (r: ResetState)
    ensures r.done <= |uids|
  {
    if uids == [] then ResetState([], 0, false)
    else
      var r := ResetRun(uids[..|uids| - 1], found);
      var u := uids[|uids| - 1];
      if r.raised then r
      else ResetState(r.requests + ItemRequests(u, found(u)), if found(u).Some? then r.done + 1 else r.done, found(u).None?)
  }

  /** What the label fetches read, given their reply lines. */
  function Reader(reply: Uid -> Option<string>, labelType: string): Uid -> Option<seq<string>> {
    (u: Uid) => GetLabels(reply(u), labelType)
  }

  /** The labels after the run, message by message. */
  ghost function After(m: Labels, order: seq<Uid>, uids: seq<Uid>, found: Uid -> Option<seq<string>>,
                       codeAt: nat -> Code, start: nat): (r: Labels)
    ensures r.Keys == m.Keys
  {
    if uids == [] then m
    else
      var r := ResetRun(uids[..|uids| - 1], found);
      var u := uids[|uids| - 1];
      if r.raised then After(m, order, uids[..|uids| - 1], found, codeAt, start)
      else Replay(After(m, order, uids[..|uids| - 1], found, codeAt, start), order, ItemRequests(u, found(u)),
                  codeAt, start + |r.requests|)
  }

  /** One more message: nothing once the run has raised, else its commands. */
  lemma ResetAdvance(uids: seq<Uid>, k: nat, found: Uid -> Option<seq<string>>)
    requires k < |uids|
    ensures ResetRun(uids[..k + 1], found)
            == if ResetRun(uids[..k], found).raised then ResetRun(uids[..k], found)
               else ResetState(ResetRun(uids[..k], found).requests + ItemRequests(uids[k], found(uids[k])),
                               if found(uids[k]).Some? then ResetRun(uids[..k], found).done + 1
                               else ResetRun(uids[..k], found).done,
                               found(uids[k]).None?)
  {
    assert uids[..k + 1][..k] == uids[..k];
  }

  /** The run finishes the messages before the first one whose labels cannot be read, and
      raises exactly when there is such a message. */
  lemma {:induction false} ResetRunStops(uids: seq<Uid>, found: Uid -> Option<seq<string>>)
    ensures ResetRun(uids, found).done <= |uids|
    ensures forall i :: 0 <= i < ResetRun(uids, found).done ==> found(uids[i]).Some?
    ensures ResetRun(uids, found).raised <==> exists i :: 0 <= i < |uids| && found(uids[i]).None?
    ensures ResetRun(uids, found).raised ==>
              ResetRun(uids, found).done < |uids| && found(uids[ResetRun(uids, found).done]).None?
    ensures !ResetRun(uids, found).raised ==> ResetRun(uids, found).done == |uids|
  {
    if uids != [] {
      var p := uids[..|uids| - 1];
      ResetRunStops(p, found);
      assert forall i :: 0 <= i < |p| ==> p[i] == uids[i];
      if exists i :: 0 <= i < |uids| && found(uids[i]).None? {
        var i :| 0 <= i < |uids| && found(uids[i]).None?;
        if i < |p| {
          assert found(p[i]).None?;
        }
      }
    }
  }

  /** Once the run has raised, later messages change nothing. */
  lemma {:induction false} ResetRaisedStays(uids: seq<Uid>, k: nat, found: Uid -> Option<seq<string>>)
    requires k <= |uids|
    requires ResetRun(uids[..k], found).raised
    ensures ResetRun(uids, found) == ResetRun(uids[..k], found)
    decreases |uids| - k
  {
    if k < |uids| {
      ResetAdvance(uids, k, found);
      ResetRaisedStays(uids, k + 1, found);
    } else {
      assert uids[..k] == uids;
    }
  }

  /** One `-X-GM-LABELS` STORE of label `l` on `u`. */
  lemma RemoveEffect(m: Labels, order: seq<Uid>, u: Uid, l: string, code: Code, v: Uid)
    requires v in m
    ensures Effect(m, order, Store(ByUid, u, Remove, l), code)[v] <= m[v]
    ensures forall x :: x in m[v] && x !in Effect(m, order, Store(ByUid, u, Remove, l), code)[v] ==> x == l && v == u
    ensures code == OK ==>
              forall x :: x in Effect(m, order, Store(ByUid, u, Remove, l), code)[v] <==> x in m[v] && !(v == u && x == l)
  {
  }

  /** Removing a list of labels from `u` only touches `u` and only removes listed labels;
      with every STORE accepted it takes exactly the listed labels off. */
  lemma {:induction false} RemovePlanEffect(m: Labels, order: seq<Uid>, u: Uid, ls: seq<string>, codeAt: nat -> Code,
                                            start: nat, v: Uid)
    requires v in m
    ensures Replay(m, order, RemovePlan(u, ls), codeAt, start)[v] <= m[v]
    ensures forall x :: x in m[v] && x !in Replay(m, order, RemovePlan(u, ls), codeAt, start)[v] ==> x in ls && v == u
    ensures (forall i :: codeAt(i) == OK) ==>
              forall x :: x in Replay(m, order, RemovePlan(u, ls), codeAt, start)[v] <==> x in m[v] && !(v == u && x in ls)
    decreases |ls|
  {
    if ls != [] {
      var p := ls[..|ls| - 1];
      var l := ls[|ls| - 1];
      var mid := Replay(m, order, RemovePlan(u, p), codeAt, start);
      RemovePlanEffect(m, order, u, p, codeAt, start, v);
      assert Replay(m, order, RemovePlan(u, ls), codeAt, start)
          == Effect(mid, order, Store(ByUid, u, Remove, l), codeAt(start + |p|)) by {
        ReplayStep(m, order, RemovePlan(u, p), Store(ByUid, u, Remove, l), codeAt, start);
      }
      RemoveEffect(mid, order, u, l, codeAt(start + |p|), v);
      assert forall x :: x in ls <==> x in p || x == l;
    }
  }

  /** The label fetch of a message changes nothing; its removals act one command later. */
  lemma ItemReplay(m: Labels, order: seq<Uid>, u: Uid, f: Option<seq<string>>, codeAt: nat -> Code, start: nat)
    ensures Replay(m, order, ItemRequests(u, f), codeAt, start)
         == Replay(m, order, if f.Some? then RemovePlan(u, f.value) else [], codeAt, start + 1)
  {
    ReplayQuery(m, order, Fetch(ByUid, u, LabelsField), if f.Some? then RemovePlan(u, f.value) else [], codeAt, start);
  }

  /** A message's commands only touch that message and only remove labels its fetch read;
      with every STORE accepted they take exactly those off. */
  lemma ItemEffect(m: Labels, order: seq<Uid>, u: Uid, f: Option<seq<string>>, codeAt: nat -> Code, start: nat, v: Uid)
    requires v in m
    ensures Replay(m, order, ItemRequests(u, f), codeAt, start)[v] <= m[v]
    ensures forall x :: x in m[v] && x !in Replay(m, order, ItemRequests(u, f), codeAt, start)[v] ==>
              v == u && f.Some? && x in f.value
    ensures (forall i :: codeAt(i) == OK) ==>
              forall x :: x in Replay(m, order, ItemRequests(u, f), codeAt, start)[v]
                     <==> x in m[v] && !(v == u && f.Some? && x in f.value)
  {
    ItemReplay(m, order, u, f, codeAt, start);
    if f.Some? {
      RemovePlanEffect(m, order, u, f.value, codeAt, start + 1, v);
    }
  }

  /** Message by message, the labels are what the run's commands make of them. */
  lemma {:induction false} AfterReplays(m: Labels, order: seq<Uid>, uids: seq<Uid>, found: Uid -> Option<seq<string>>,
                                        codeAt: nat -> Code, start: nat)
    ensures After(m, order, uids, found, codeAt, start) == Replay(m, order, ResetRun(uids, found).requests, codeAt, start)
  {
    if uids != [] {
      AfterReplays(m, order, uids[..|uids| - 1], found, codeAt, start);
      if ResetRun(uids[..|uids| - 1], found).raised {
        AfterRaised(m, order, uids, found, codeAt, start);
      } else {
        AfterItem(m, order, uids, found, codeAt, start);
      }
    }
  }

  /** The run over a list is the run over all but its last message, then that message
      unless a label fetch raised. */
  lemma RunLast(uids: seq<Uid>, found: Uid -> Option<seq<string>>)
    requires uids != []
    ensures ResetRun(uids[..|uids| - 1], found).raised ==> ResetRun(uids, found) == ResetRun(uids[..|uids| - 1], found)
    ensures !ResetRun(uids[..|uids| - 1], found).raised ==>
              ResetRun(uids, found).requests
              == ResetRun(uids[..|uids| - 1], found).requests + ItemRequests(uids[|uids| - 1], found(uids[|uids| - 1]))
  {
    assert uids[..|uids|] == uids;
    ResetAdvance(uids, |uids| - 1, found);
  }

  /** After a label fetch raised, the last message is not handled. */
  lemma AfterRaised(m: Labels, order: seq<Uid>, uids: seq<Uid>, found: Uid -> Option<seq<string>>,
                    codeAt: nat -> Code, start: nat)
    requires uids != [] && ResetRun(uids[..|uids| - 1], found).raised
    requires After(m, order, uids[..|uids| - 1], found, codeAt, start)
             == Replay(m, order, ResetRun(uids[..|uids| - 1], found).requests, codeAt, start)
    ensures After(m, order, uids, found, codeAt, start) == Replay(m, order, ResetRun(uids, found).requests, codeAt, start)
  {
    RunLast(uids, found);
  }

  /** Otherwise the last message acts on the labels the messages before it left. */
  lemma AfterItem(m: Labels, order: seq<Uid>, uids: seq<Uid>, found: Uid -> Option<seq<string>>,
                  codeAt: nat -> Code, start: nat)
    requires uids != [] && !ResetRun(uids[..|uids| - 1], found).raised
    requires After(m, order, uids[..|uids| - 1], found, codeAt, start)
             == Replay(m, order, ResetRun(uids[..|uids| - 1], found).requests, codeAt, start)
    ensures After(m, order, uids, found, codeAt, start) == Replay(m, order, ResetRun(uids, found).requests, codeAt, start)
  {
    RunLast(uids, found);
    ReplayThen(m, order, ResetRun(uids[..|uids| - 1], found).requests,
               ItemRequests(uids[|uids| - 1], found(uids[|uids| - 1])), codeAt, start,
               After(m, order, uids[..|uids| - 1], found, codeAt, start), After(m, order, uids, found, codeAt, start));
  }

  /** Commands replayed after the state that `done` produced give the state of `done + more`. */
  lemma ReplayThen(m: Labels, order: seq<Uid>, done: seq<Request>, more: seq<Request>, codeAt: nat -> Code,
                   start: nat, mid: Labels, last: Labels)
    requires mid == Replay(m, order, done, codeAt, start)
    requires last == Replay(mid, order, more, codeAt, start + |done|)
    ensures last == Replay(m, order, done + more, codeAt, start)
  {
    ReplayAppend(m, order, done, more, codeAt, start);
  }

  /** Message `v` is among those the run finished. */
  predicate Finished(uids: seq<Uid>, found: Uid -> Option<seq<string>>, v: Uid) {
    v in uids[..ResetRun(uids, found).done]
  }

  /** One more message finishes that message when its labels were read, else no more. */
  lemma FinishedStep(uids: seq<Uid>, found: Uid -> Option<seq<string>>, v: Uid)
    requires uids != []
    ensures var p := uids[..|uids| - 1];
            var u := uids[|uids| - 1];
            Finished(uids, found, v)
            <==> Finished(p, found, v) || (!ResetRun(p, found).raised && found(u).Some? && v == u)
  {
    var p := uids[..|uids| - 1];
    var u := uids[|uids| - 1];
    var r := ResetRun(p, found);
    if !r.raised {
      ResetRunStops(p, found);
      assert uids[..ResetRun(uids, found).done] == if found(u).Some? then p + [u] else p by {
        assert p[..|p|] == p;
      }
    } else {
      assert uids[..r.done] == p[..r.done];
    }
  }

  /** The whole run only removes labels, and only labels the fetch of the same message
      read. */
  lemma {:induction false} ResetRunRemovesRead(m: Labels, order: seq<Uid>, uids: seq<Uid>, found: Uid -> Option<seq<string>>,
                                               codeAt: nat -> Code, start: nat, v: Uid)
    requires v in m
    ensures After(m, order, uids, found, codeAt, start)[v] <= m[v]
    ensures forall x :: x in m[v] && x !in After(m, order, uids, found, codeAt, start)[v] ==>
              Finished(uids, found, v) && found(v).Some? && x in found(v).value
  {
    if uids != [] {
      var p := uids[..|uids| - 1];
      var u := uids[|uids| - 1];
      var r := ResetRun(p, found);
      ResetRunRemovesRead(m, order, p, found, codeAt, start, v);
      FinishedStep(uids, found, v);
      if !r.raised {
        var mid := After(m, order, p, found, codeAt, start);
        ItemEffect(mid, order, u, found(u), codeAt, start + |r.requests|, v);
      }
    }
  }

  /** With every STORE accepted each finished message has lost exactly the labels its
      fetch read, and every other message is as it was. */
  lemma {:induction false} ResetRunAccepted(m: Labels, order: seq<Uid>, uids: seq<Uid>, found: Uid -> Option<seq<string>>,
                                            codeAt: nat -> Code, start: nat, v: Uid)
    requires v in m
    requires forall i :: codeAt(i) == OK
    ensures forall x :: x in After(m, order, uids, found, codeAt, start)[v]
                    <==> x in m[v] && !(Finished(uids, found, v) && found(v).Some? && x in found(v).value)
  {
    if uids != [] {
      var p := uids[..|uids| - 1];
      var u := uids[|uids| - 1];
      var r := ResetRun(p, found);
      ResetRunAccepted(m, order, p, found, codeAt, start, v);
      FinishedStep(uids, found, v);
      if !r.raised {
        var mid := After(m, order, p, found, codeAt, start);
        ItemEffect(mid, order, u, found(u), codeAt, start + |r.requests|, v);
      }
    }
  }

  /** Whatever the server answers, the reset takes off a message only labels that
      contain the type. */
  lemma OnlyTypeRemoved(m: Labels, order: seq<Uid>, uids: seq<Uid>, reply: Uid -> Option<string>, labelType: string,
                        codeAt: nat -> Code, start: nat, v: Uid)
    requires v in m
    ensures Replay(m, order, ResetRun(uids, Reader(reply, labelType)).requests, codeAt, start)[v] <= m[v]
    ensures forall x :: x in m[v] && x !in Replay(m, order, ResetRun(uids, Reader(reply, labelType)).requests, codeAt, start)[v] ==>
              Contains(x, labelType)
  {
    AfterReplays(m, order, uids, Reader(reply, labelType), codeAt, start);
    ResetRunRemovesRead(m, order, uids, Reader(reply, labelType), codeAt, start, v);
    GetLabelsOfType(reply(v), labelType);
  }

  /** With replies that list each marked message's labels as Gmail writes them, atoms and
      quoted strings mixed but every label of the type quoted, and every STORE accepted, the reset finishes every marked message and leaves it with exactly
      its labels that do not contain the type, the marker among those removed; unmarked
      messages keep their labels. */
  lemma ResetClearsOrganizer(m: Labels, order: seq<Uid>, marker: string, labelType: string,
                             reply: Uid -> Option<string>, seqno: Uid -> nat, listed: Uid -> seq<ListItem>,
                             codeAt: nat -> Code, start: nat, fromMatches: (Uid, string) -> bool, v: Uid)
    requires forall u :: u in order <==> u in m
    requires Contains(marker, labelType)
    requires forall u :: u in m && marker in m[u] ==>
               && reply(u) == Some(Reply(seqno(u), Written(listed(u)), u))
               && (forall i :: 0 <= i < |listed(u)| ==> WellFormed(listed(u)[i]))
               && ItemNames(listed(u)) == m[u]
               && TypedQuoted(listed(u), labelType)
    requires v in m
    ensures !ResetRun(SearchIds(ByUid, WithLabel(marker), order, 0, m, fromMatches), Reader(reply, labelType)).raised
    ensures (forall i :: codeAt(i) == OK) ==>
              forall x :: x in Replay(m, order, ResetRun(SearchIds(ByUid, WithLabel(marker), order, 0, m, fromMatches),
                                                   Reader(reply, labelType)).requests, codeAt, start)[v]
                     <==> x in m[v] && !(marker in m[v] && Contains(x, labelType))
    ensures (forall i :: codeAt(i) == OK) ==>
              marker !in Replay(m, order, ResetRun(SearchIds(ByUid, WithLabel(marker), order, 0, m, fromMatches),
                                             Reader(reply, labelType)).requests, codeAt, start)[v]
  {
    var uids := SearchIds(ByUid, WithLabel(marker), order, 0, m, fromMatches);
    var found := Reader(reply, labelType);
    forall i | 0 <= i < |uids|
      ensures found(uids[i]).Some?
    {
      UidSearchExact(WithLabel(marker), order, 0, m, fromMatches, uids[i]);
      GetLabelsReadsReply(seqno(uids[i]), listed(uids[i]), uids[i], labelType);
    }
    ResetRunStops(uids, found);
    assert uids[..|uids|] == uids;
    UidSearchExact(WithLabel(marker), order, 0, m, fromMatches, v);
    AfterReplays(m, order, uids, found, codeAt, start);
    if forall i :: codeAt(i) == OK {
      ResetRunAccepted(m, order, uids, found, codeAt, start, v);
    }
    if marker in m[v] {
      GetLabelsReadsReply(seqno(v), listed(v), v, labelType);
      forall x {
        TypedNamesRead(listed(v), labelType, x);
      }
    }
  }

  // The loop.

  /** The session has sent `log0`, then the commands of the run over `done`, the labels
      are what those commands made of `labels0`, and no label fetch has raised. */
  ghost predicate Reset(log: seq<Request>, labels: Labels, done: seq<Uid>, found: Uid -> Option<seq<string>>,
                        order: seq<Uid>, codeAt: nat -> Code, log0: seq<Request>, labels0: Labels)
  {
    var run := ResetRun(done, found);
    && log == log0 + run.requests
    && labels == Replay(labels0, order, run.requests, codeAt, |log0|)
    && !run.raised
    && run.done == |done|
  }

  /** The label fetch of `get_labels`. */
  method FetchLabels(session: Session, uid: Uid, labelType: string, reply: Option<string>)
    returns (found: Option<seq<string>>)
    requires session.Valid()
    modifies session`log
    ensures session.Valid()
    ensures session.log == old(session.log) + [Fetch(ByUid, uid, LabelsField)]
    ensures found == GetLabels(reply, labelType)
  {
    session.Send(Fetch(ByUid, uid, LabelsField));
    found := GetLabels(reply, labelType);
  }

  /** One more STORE of the inner loop extends the log and the labels by the next label. */
  lemma RemoveAdvance(labels0: Labels, order: seq<Uid>, uid: Uid, ls: seq<string>, j: nat, codeAt: nat -> Code,
                      log0: seq<Request>, log: seq<Request>, labels: Labels, log': seq<Request>, labels': Labels)
    requires j < |ls|
    requires log == log0 + RemovePlan(uid, ls[..j])
    requires labels == Replay(labels0, order, RemovePlan(uid, ls[..j]), codeAt, |log0|)
    requires log' == log + [Store(ByUid, uid, Remove, ls[j])]
    requires labels' == Effect(labels, order, Store(ByUid, uid, Remove, ls[j]), codeAt(|log|))
    ensures log' == log0 + RemovePlan(uid, ls[..j + 1])
    ensures labels' == Replay(labels0, order, RemovePlan(uid, ls[..j + 1]), codeAt, |log0|)
  {
    RemovePlanStep(uid, ls, j);
    ReplayStep(labels0, order, RemovePlan(uid, ls[..j]), Store(ByUid, uid, Remove, ls[j]), codeAt, |log0|);
  }

  /** The inner loop: one `-X-GM-LABELS` STORE per label. */
  method RemoveLabels(session: Session, uid: Uid, ls: seq<string>)
    requires session.Valid()
    modifies session`log, session`labels
    ensures session.Valid()
    ensures session.log == old(session.log) + RemovePlan(uid, ls)
    ensures session.labels == Replay(old(session.labels), session.order, RemovePlan(uid, ls), session.codeAt, |old(session.log)|)
  {
    ghost var log0 := session.log;
    ghost var labels0 := session.labels;
    var j := 0;
    while j < |ls|
      invariant 0 <= j <= |ls|
      invariant session.Valid()
      invariant session.log == log0 + RemovePlan(uid, ls[..j])
      invariant session.labels == Replay(labels0, session.order, RemovePlan(uid, ls[..j]), session.codeAt, |log0|)
    {
      ghost var log := session.log;
      ghost var labels := session.labels;
      var _ := session.Store(ByUid, uid, Remove, ls[j]);
      RemoveAdvance(labels0, session.order, uid, ls, j, session.codeAt, log0, log, labels, session.log, session.labels);
      j := j + 1;
    }
    assert ls[..|ls|] == ls;
  }

  /** A query and then some STOREs extend the log and the labels by both. */
  lemma ItemAdvance(labels0: Labels, order: seq<Uid>, fetch: Request, codeAt: nat -> Code,
                    log0: seq<Request>, done: seq<Request>, log: seq<Request>, labels: Labels,
                    fetched: seq<Request>, plan: seq<Request>, log': seq<Request>, labels': Labels)
    requires !fetch.Store?
    requires log == log0 + done
    requires labels == Replay(labels0, order, done, codeAt, |log0|)
    requires fetched == log + [fetch]
    requires log' == fetched + plan
    requires labels' == Replay(labels, order, plan, codeAt, |fetched|)
    ensures log' == log0 + (done + ([fetch] + plan))
    ensures labels' == Replay(labels0, order, done + ([fetch] + plan), codeAt, |log0|)
  {
    AppendAfter(log, [fetch], plan, fetched, log');
    AppendAfter(log0, done, [fetch] + plan, log, log');
    ReplayAppend(labels0, order, done, [fetch] + plan, codeAt, |log0|);
    ReplayQuery(labels, order, fetch, plan, codeAt, |log0| + |done|);
  }

  /** One turn of the loop: the labels of `uids[k]` are fetched and those read removed. */
  method ResetNext(session: Session, uids: seq<Uid>, k: nat, labelType: string, reply: Uid -> Option<string>,
                   ghost log0: seq<Request>, ghost labels0: Labels)
    returns (raised: bool)
    requires session.Valid() && k < |uids|
    requires Reset(session.log, session.labels, uids[..k], Reader(reply, labelType), session.order, session.codeAt, log0, labels0)
    modifies session`log, session`labels
    ensures session.Valid()
    ensures raised == Reader(reply, labelType)(uids[k]).None?
    ensures session.log == log0 + (ResetRun(uids[..k], Reader(reply, labelType)).requests
                                   + ItemRequests(uids[k], Reader(reply, labelType)(uids[k])))
    ensures session.labels == Replay(labels0, session.order,
                                     ResetRun(uids[..k], Reader(reply, labelType)).requests
                                     + ItemRequests(uids[k], Reader(reply, labelType)(uids[k])),
                                     session.codeAt, |log0|)
  {
    ghost var done := ResetRun(uids[..k], Reader(reply, labelType)).requests;
    ghost var log := session.log;
    ghost var labels := session.labels;
    var found := FetchLabels(session, uids[k], labelType, reply(uids[k]));
    ghost var fetched := session.log;
    ghost var plan: seq<Request> := [];
    if found.None? {
      raised := true;
      assert Replay(labels, session.order, plan, session.codeAt, |fetched|) == labels;
      assert session.log == fetched + plan;
    } else {
      RemoveLabels(session, uids[k], found.value);
      plan := RemovePlan(uids[k], found.value);
      raised := false;
    }
    ItemAdvance(labels0, session.order, Fetch(ByUid, uids[k], LabelsField), session.codeAt, log0, done, log, labels,
                fetched, plan, session.log, session.labels);
    assert ItemRequests(uids[k], found) == [Fetch(ByUid, uids[k], LabelsField)] + plan;
  }

  /** The loop of the label reset over `uids`. */
  method RemoveFrom(session: Session, uids: seq<Uid>, labelType: string, reply: Uid -> Option<string>)
    returns (progress: seq<Sample>, raised: bool)
    requires session.Valid()
    modifies session`log, session`labels
    ensures session.Valid()
    ensures session.log == old(session.log) + ResetRun(uids, Reader(reply, labelType)).requests
    ensures session.labels == Replay(old(session.labels), session.order, ResetRun(uids, Reader(reply, labelType)).requests,
                                     session.codeAt, |old(session.log)|)
    ensures progress == ItemSamples(ResetRun(uids, Reader(reply, labelType)).done, |uids|, true)
    ensures raised == ResetRun(uids, Reader(reply, labelType)).raised
  {
    ghost var found := Reader(reply, labelType);
    ghost var log0 := session.log;
    ghost var labels0 := session.labels;
    progress := [];
    var k := 0;
    while k < |uids|
      invariant 0 <= k <= |uids|
      invariant session.Valid()
      invariant Reset(session.log, session.labels, uids[..k], found, session.order, session.codeAt, log0, labels0)
      invariant progress == ItemSamples(k, |uids|, true)
    {
      raised := ResetNext(session, uids, k, labelType, reply, log0, labels0);
      ResetAdvance(uids, k, found);
      if raised {
        ResetRaisedStays(uids, k + 1, found);
        return;
      }
      progress := progress + [Sample(k + 1, k, |uids|)];
      k := k + 1;
    }
    assert uids[..|uids|] == uids;
    raised := false;
  }

  /** `remove_standard_organizer_labels` with `marker` = the standard organizer's marker
      and `labelType` = "Standard Organizer", and `remove_ai_organizer_labels` with the AI
      organizer's. `reply(u)` is the reply line of the label fetch of message `u`. Each
      finished message reports `k/n` with the bar's count read before it advances; the
      first unreadable label fetch raises and ends the loop. */
  method RemoveOrganizerLabels(session: Session, marker: string, labelType: string, reply: Uid -> Option<string>)
    returns (progress: seq<Sample>, raised: bool)
    requires session.Valid()
    modifies session`log, session`labels
    ensures session.Valid()
    ensures var uids := SearchIds(ByUid, WithLabel(marker), session.order, 0, old(session.labels), session.fromMatches);
            var run := ResetRun(uids, Reader(reply, labelType));
            var head := old(session.log) + [Select(TargetMailbox), Search(ByUid, WithLabel(marker))];
            && session.log == head + run.requests
            && session.labels == Replay(old(session.labels), session.order, run.requests, session.codeAt, |head|)
            && progress == ItemSamples(run.done, |uids|, true)
            && raised == run.raised
  {
    var uids := GetOrganizerUids(session, marker);
    ghost var head := session.log;
    progress, raised := RemoveFrom(session, uids, labelType, reply);
    AppendAfter(old(session.log), [Select(TargetMailbox), Search(ByUid, WithLabel(marker))],
                ResetRun(uids, Reader(reply, labelType)).requests, head, session.log);
  }

  /** `remove_standard_organizer_labels`: the reset for the standard organizer's marker and
      label type. Whatever the server answers, a message loses only labels of that
      organizer. */
  method RemoveStandardOrganizerLabels(session: Session, reply: Uid -> Option<string>)
    returns (progress: seq<Sample>, raised: bool)
    requires session.Valid()
    modifies session`log, session`labels
    ensures session.Valid()
    ensures var uids := SearchIds(ByUid, WithLabel(StandardChecked), session.order, 0, old(session.labels),
                                  session.fromMatches);
            var run := ResetRun(uids, Reader(reply, StandardType));
            && session.log == old(session.log) + [Select(TargetMailbox), Search(ByUid, WithLabel(StandardChecked))]
                              + run.requests
            && progress == ItemSamples(run.done, |uids|, true)
            && raised == run.raised
    ensures forall v :: v in old(session.labels) ==>
              && v in session.labels && session.labels[v] <= old(session.labels)[v]
              && forall x :: x in old(session.labels)[v] && x !in session.labels[v] ==> Contains(x, StandardType)
  {
    progress, raised := RemoveOrganizerLabels(session, StandardChecked, StandardType, reply);
    OnlyOrganizerRemoved(old(session.labels), session.labels, session.order, |old(session.log)| + 2, StandardChecked,
                         StandardType, reply, session.codeAt, session.fromMatches);
  }

  /** `remove_ai_organizer_labels`: the same reset for the AI organizer. */
  method RemoveAiOrganizerLabels(session: Session, reply: Uid -> Option<string>)
    returns (progress: seq<Sample>, raised: bool)
    requires session.Valid()
    modifies session`log, session`labels
    ensures session.Valid()
    ensures var uids := SearchIds(ByUid, WithLabel(AiChecked), session.order, 0, old(session.labels),
                                  session.fromMatches);
            var run := ResetRun(uids, Reader(reply, AiType));
            && session.log == old(session.log) + [Select(TargetMailbox), Search(ByUid, WithLabel(AiChecked))]
                              + run.requests
            && progress == ItemSamples(run.done, |uids|, true)
            && raised == run.raised
    ensures forall v :: v in old(session.labels) ==>
              && v in session.labels && session.labels[v] <= old(session.labels)[v]
              && forall x :: x in old(session.labels)[v] && x !in session.labels[v] ==> Contains(x, AiType)
  {
    progress, raised := RemoveOrganizerLabels(session, AiChecked, AiType, reply);
    OnlyOrganizerRemoved(old(session.labels), session.labels, session.order, |old(session.log)| + 2, AiChecked,
                         AiType, reply, session.codeAt, session.fromMatches);
  }

  /** After a reset, each message keeps its labels except some that contain the type. */
  lemma OnlyOrganizerRemoved(labels0: Labels, labels: Labels, order: seq<Uid>, start: nat, marker: string,
                             labelType: string, reply: Uid -> Option<string>, codeAt: nat -> Code,
                             fromMatches: (Uid, string) -> bool)
    requires forall u :: u in order <==> u in labels0
    requires labels == Replay(labels0, order, ResetRun(SearchIds(ByUid, WithLabel(marker), order, 0, labels0, fromMatches),
                                                      Reader(reply, labelType)).requests, codeAt, start)
    ensures forall v :: v in labels0 ==>
              && v in labels && labels[v] <= labels0[v]
              && forall x :: x in labels0[v] && x !in labels[v] ==> Contains(x, labelType)
  {
    var uids := SearchIds(ByUid, WithLabel(marker), order, 0, labels0, fromMatches);
    forall v | v in labels0
      ensures v in labels && labels[v] <= labels0[v]
      ensures forall x :: x in labels0[v] && x !in labels[v] ==> Contains(x, labelType)
    {
      OnlyTypeRemoved(labels0, order, uids, reply, labelType, codeAt, start, v);
    }
  }
}
