/** The AI organizer's control logic: the candidate list, the mapping from the
    classifier's answer to a label, the two-step `add_label`, the per-run counters, the
    log file of failures, and the result string and cancel flag of a run. The
    classifier, the message parser and the server are oracles (`Env`, `Session`). */
module AiOrganizer {
  import opened Wrappers
  import opened Seqs
  import opened Text
  import opened Mailbox
  import opened GmailLabels
  import opened AiSummary

  const NoneResponse: string := "NONE"
  const UnsureLabel: string := "Unsure"
  const ResultSuccess: string := "SUCCESS"
  const ResultCancelled: string := "CANCELLED"

  // ---------------------------------------------------------------------------------
  // `fetch_uids`

  /** `num_emails`: the string `"all"` or an integer. */
  datatype Count = AllEmails | FirstN(n: int)

  /** Python's `xs[:n]`: a negative `n` drops the last `-n` elements. */
  function SlicePrefix<T>(xs: seq<T>, n: int): (r: seq<T>)
    ensures |r| <= |xs| && r == xs[..|r|]
    ensures n >= 0 ==> |r| == Min(n, |xs|)
    ensures n < 0 ==> |r| == (if |xs| + n >= 0 then |xs| + n else 0)
  {
    if n >= 0 then xs[..Min(n, |xs|)]
    else if |xs| + n >= 0 then xs[..|xs| + n]
    else []
  }

  function Truncated(ids: seq<nat>, count: Count): seq<nat> {
    match count
    case AllEmails => ids
    case FirstN(n) => SlicePrefix(ids, n)
  }

  /** The candidates are messages without the AI checked marker, in server order, none
      twice; with `"all"` they are every such message. */
  method FetchUids(session: Session, count: Count) returns (uids: seq<Uid>)
    requires session.Valid()
    modifies session`log
    ensures session.Valid()
    ensures session.log == old(session.log) + [Select(TargetMailbox), Search(ByUid, WithoutLabel(AiChecked))]
    ensures uids == Truncated(SearchIds(ByUid, WithoutLabel(AiChecked), session.order, 0, session.labels, session.fromMatches), count)
    ensures forall u :: u in uids ==> u in session.order && AiChecked !in session.labels[u]
    ensures forall i, j :: 0 <= i < j < |uids| ==> uids[i] != uids[j]
    ensures count.AllEmails? ==> forall u :: u in session.order && AiChecked !in session.labels[u] ==> u in uids
  {
    session.Send(Select(TargetMailbox));
    var all := session.Search(ByUid, WithoutLabel(AiChecked));
    forall u ensures u in all <==> u in session.order && AiChecked !in session.labels[u] {
      UidSearchExact(WithoutLabel(AiChecked), session.order, 0, session.labels, session.fromMatches, u);
    }
    UidSearchDistinct(WithoutLabel(AiChecked), session.order, 0, session.labels, session.fromMatches);
    if count.AllEmails? {
      uids := all;
    } else {
      uids := SlicePrefix(all, count.n);
      assert forall u :: u in uids ==> u in all;
    }
  }

  // ---------------------------------------------------------------------------------
  // The classifier's answer

  /** The label an answer earns: a category itself; `NONE`, unless it is a category,
      `Unsure`; anything else no label. */
  function ResponseLabel(response: string, categories: seq<string>): (r: Option<string>)
    ensures response in categories <==> r == Some(response) && response in categories
    ensures response !in categories && response == NoneResponse <==> r == Some(UnsureLabel) && response !in categories
    ensures r.None? <==> response !in categories && response != NoneResponse
    ensures r.Some? ==> r.value in categories || r.value == UnsureLabel
  {
    if response in categories then Some(response)
    else if response == NoneResponse then Some(UnsureLabel)
    else None
  }

  // ---------------------------------------------------------------------------------
  // `get_labels`

  /** `get_labels` as written: the strip loop rebinds only its loop variable, so the
      quoted names come back unchanged. */
  function GetLabelsAsWritten(reply: string): Option<seq<string>> {
    ParseLabels(reply)
  }

  /** Gmail writes a system label with an escaped backslash (`"\\Inbox"`); the strip
      drops the two characters of the escape. */
  function Unescaped(l: string): string {
    if StartsWith(l, "\\") then l[Min(2, |l|)..] else l
  }

  function UnescapedAll(ls: seq<string>): (r: seq<string>)
    ensures |r| == |ls| && forall i :: 0 <= i < |ls| ==> r[i] == Unescaped(ls[i])
  {
    seq(|ls|, i requires 0 <= i < |ls| => Unescaped(ls[i]))
  }

  /** `get_labels` as evidently intended: each name with a leading escape stripped. */
  function GetLabels(reply: string): Option<seq<string>> {
    match ParseLabels(reply)
    case None => None
    case Some(ls) => Some(UnescapedAll(ls))
  }

  /** The as-written reading keeps the escape of a quoted system label. */
  lemma GetLabelsAsWrittenKeepsEscape(seqno: nat, items: seq<ListItem>, uid: nat)
    requires items == [QuotedString("\\\\Inbox")]
    ensures GetLabelsAsWritten(Reply(seqno, Written(items), uid)) == Some(["\\\\Inbox"])
    ensures StartsWith(items[0].name, "\\")
  {
    assert WellFormed(items[0]);
    ReplyRoundTrip(seqno, items, uid);
    assert QuotedNames(items) == ["\\\\Inbox"] by {
      assert items[1..] == [];
    }
  }

  /** The intended reading gives back the quoted labels Gmail lists, escapes removed;
      labels Gmail writes as atoms are not read. */
  lemma GetLabelsReadsReply(seqno: nat, items: seq<ListItem>, uid: nat)
    requires forall i :: 0 <= i < |items| ==> WellFormed(items[i])
    ensures GetLabels(Reply(seqno, Written(items), uid)) == Some(UnescapedAll(QuotedNames(items)))
  {
    ReplyRoundTrip(seqno, items, uid);
  }

  /** A quoted system label is read without its escape; a label written as an atom is not read. */
  lemma GetLabelsSystemLabel(seqno: nat, items: seq<ListItem>, uid: nat)
    requires items == [QuotedString("\\\\Inbox"), Atom("Work")]
    ensures GetLabels(Reply(seqno, Written(items), uid)) == Some(["Inbox"])
  {
    assert WellFormed(items[1]) by { AtomWellFormed("Work"); }
    GetLabelsReadsReply(seqno, items, uid);
    SystemLabelRead(items);
  }

  lemma SystemLabelRead(items: seq<ListItem>)
    requires items == [QuotedString("\\\\Inbox"), Atom("Work")]
    ensures UnescapedAll(QuotedNames(items)) == ["Inbox"]
  {
    assert QuotedNames(items) == ["\\\\Inbox"] by {
      assert items[1..] == [Atom("Work")];
      assert items[1..][1..] == [];
      assert QuotedNames(items[1..]) == [];
    }
    assert "\\\\Inbox"[..1] == "\\";
    assert "\\\\Inbox"[2..] == "Inbox";
  }

  // ---------------------------------------------------------------------------------
  // The log file

  /** What the organizer records about a message it tried to label. */
  datatype LogData = LogData(sender: Option<string>, subject: Option<string>, date: Option<string>,
                             body: string, answer: string)

  datatype LogEntry =
    | Labelled(data: LogData, existingLabels: seq<string>, labelResult: Code, checkedResult: Option<Code>)
    | FetchFailed

  /** `log.json`: `log_to_file` merges one entry per UID, a later one replacing an
      earlier one. */
  class LogFile {
    var entries: map<Uid, LogEntry>

    constructor (entries: map<Uid, LogEntry>)
      ensures this.entries == entries
    {
      this.entries := entries;
    }

    method Write(uid: Uid, entry: LogEntry)
      modifies this
      ensures entries == old(entries)[uid := entry]
    {
      entries := entries[uid := entry];
    }
  }

  function Logged(m: map<Uid, LogEntry>, uid: Uid, e: Option<LogEntry>): map<Uid, LogEntry> {
    if e.Some? then m[uid := e.value] else m
  }

  // ---------------------------------------------------------------------------------
  // `add_label`

  /** What `add_label` did: the commands it sent, the existing labels it read (`None`:
      reading them raised), and the answers to its two STOREs. */
  datatype Labelling = Labelling(requests: seq<Request>, existing: Option<seq<string>>,
                                 labelResult: Option<Code>, checkedResult: Option<Code>)

  /** `add_label` for the `start`-th command of the session; `reply` is the label fetch's
      reply line (`None`: no data). */
  function AddLabelPlan(uid: Uid, name: string, reply: Option<string>, codeAt: nat -> Code, start: nat): Labelling {
    var head := [Select(TargetMailbox), Fetch(ByUid, uid, LabelsField)];
    var existing := if reply.Some? then GetLabels(reply.value) else None;
    if existing.None? then Labelling(head, None, None, None)
    else
      var store := Store(ByUid, uid, Add, AiNamespace + name);
      if codeAt(start + 2) != OK then Labelling(head + [store], existing, Some(codeAt(start + 2)), None)
      else Labelling(head + [store, Store(ByUid, uid, Add, AiChecked)], existing, Some(OK), Some(codeAt(start + 3)))
  }

  /** `add_label`'s return value; `None` where it raised. */
  function Returned(p: Labelling): Option<bool> {
    if p.existing.None? then None else Some(p.labelResult == Some(OK) && p.checkedResult == Some(OK))
  }

  /** The log entry `add_label` writes, if any. */
  function AddLabelEntry(p: Labelling, data: LogData): Option<LogEntry> {
    if p.existing.Some? && p.labelResult.Some? && (p.labelResult != Some(OK) || p.checkedResult != Some(OK))
    then Some(Labelled(data, p.existing.value, p.labelResult.value, p.checkedResult))
    else None
  }

  /** The checked marker is stored only after the category STORE answered OK; the call
      returns true iff both answered OK, and writes a log entry iff it returns false. */
  lemma AddLabelTwoStep(uid: Uid, name: string, reply: Option<string>, codeAt: nat -> Code, start: nat, data: LogData)
    ensures var p := AddLabelPlan(uid, name, reply, codeAt, start);
            && p.requests[..2] == [Select(TargetMailbox), Fetch(ByUid, uid, LabelsField)]
            && (p.existing.None? <==> |p.requests| == 2)
            && (|p.requests| > 2 ==>
                  p.requests[2] == Store(ByUid, uid, Add, AiNamespace + name) && p.labelResult == Some(codeAt(start + 2)))
            && (|p.requests| == 4 <==> p.existing.Some? && codeAt(start + 2) == OK)
            && (|p.requests| == 4 ==>
                  p.requests[3] == Store(ByUid, uid, Add, AiChecked) && p.checkedResult == Some(codeAt(start + 3)))
            && (Returned(p) == Some(true) <==> |p.requests| == 4 && codeAt(start + 3) == OK)
            && (AddLabelEntry(p, data).Some? <==> Returned(p) == Some(false))
  {
  }

  /** `add_label`: its log entry carries the labels read, the STORE answers and the
      message's record. */
  method AddLabel(session: Session, logFile: LogFile, uid: Uid, name: string, reply: Option<string>, data: LogData)
    returns (ok: Option<bool>)
    requires session.Valid()
    modifies session`log, session`labels, logFile
    ensures session.Valid()
    ensures var p := AddLabelPlan(uid, name, reply, session.codeAt, |old(session.log)|);
            && session.log == old(session.log) + p.requests
            && logFile.entries == Logged(old(logFile.entries), uid, AddLabelEntry(p, data))
            && ok == Returned(p)
  {
    ghost var log0 := session.log;
    ghost var head := [Select(TargetMailbox), Fetch(ByUid, uid, LabelsField)];
    session.Send(Select(TargetMailbox));
    session.Send(Fetch(ByUid, uid, LabelsField));
    assert session.log == log0 + head;
    if reply.None? || GetLabels(reply.value).None? {
      return None;
    }
    var existing := GetLabels(reply.value).value;
    ghost var store := Store(ByUid, uid, Add, AiNamespace + name);
    ghost var log1 := session.log;
    var result := session.Store(ByUid, uid, Add, AiNamespace + name);
    AppendAfter(log0, head, [store], log1, session.log);
    if result == OK {
      ghost var log2 := session.log;
      var checked := session.Store(ByUid, uid, Add, AiChecked);
      AppendAfter(log0, head + [store], [Store(ByUid, uid, Add, AiChecked)], log2, session.log);
      assert head + [store] + [Store(ByUid, uid, Add, AiChecked)] == head + [store, Store(ByUid, uid, Add, AiChecked)];
      ghost var p := Labelling(head + [store, Store(ByUid, uid, Add, AiChecked)], Some(existing), Some(OK), Some(checked));
      assert AddLabelPlan(uid, name, reply, session.codeAt, |log0|) == p;
      if checked == OK {
        return Some(true);
      }
      assert AddLabelEntry(p, data) == Some(Labelled(data, existing, OK, Some(checked)));
      logFile.Write(uid, Labelled(data, existing, OK, Some(checked)));
      return Some(false);
    }
    ghost var p := Labelling(head + [store], Some(existing), Some(result), None);
    assert AddLabelPlan(uid, name, reply, session.codeAt, |log0|) == p;
    assert AddLabelEntry(p, data) == Some(Labelled(data, existing, result, None));
    logFile.Write(uid, Labelled(data, existing, result, None));
    return Some(false);
  }

  // ---------------------------------------------------------------------------------
  // One message of `organize_emails`

  /** The oracles of a run: the categories, the parsed message of a UID (`None`: the
      fetch had no data), the classifier's answer to a summary (`None`: the call
      raised), the label fetch's reply line, the two library helpers of the summary, and
      the summary of a message. */
  datatype Env = Env(categories: seq<string>, emailOf: Uid -> Option<Email>, respond: string -> Option<string>,
                     labelReply: Uid -> Option<string>, unescape: string -> string, htmlText: string -> string,
                     summarize: Email -> string)

  /** The summary the run's record gives for a message is `get_email_summary`'s. */
  ghost predicate Consistent(env: Env) {
    forall e :: SummaryMatches(env, e)
  }

  ghost predicate SummaryMatches(env: Env, e: Email) {
    env.summarize(e) == Summary(e, env.unescape, env.htmlText)
  }

  datatype Counters = Counters(successful: nat, unreadable: nat, skipped: nat)

  const NoCounts := Counters(0, 0, 0)

  function Plus(a: Counters, b: Counters): Counters {
    Counters(a.successful + b.successful, a.unreadable + b.unreadable, a.skipped + b.skipped)
  }

  function Total(c: Counters): nat {
    c.successful + c.unreadable + c.skipped
  }

  /** What handling one message did: commands sent, log entry written, counter changes. */
  datatype ItemResult = ItemResult(requests: seq<Request>, entry: Option<LogEntry>, delta: Counters)

  /** A fetched message: summary, answer, label; any exception on the way ends the
      message without counting it. */
  function Classified(uid: Uid, e: Email, env: Env, codeAt: nat -> Code, start: nat): ItemResult {
    var fetch := Fetch(ByUid, uid, MessageField);
    var summary := env.summarize(e);
    match env.respond(summary)
    case None => ItemResult([fetch], None, NoCounts)
    case Some(response) =>
      match ResponseLabel(response, env.categories)
      case None => ItemResult([fetch], None, NoCounts)
      case Some(name) =>
        var p := AddLabelPlan(uid, name, env.labelReply(uid), codeAt, start + 1);
        ItemResult([fetch] + p.requests, AddLabelEntry(p, LogData(e.from, e.subject, e.date, summary, response)),
                   if p.existing.None? then NoCounts
                   else if response in env.categories then Counters(1, 0, 0)
                   else Counters(0, 1, 0))
  }

  /** One message as written: the handler compares the exception object with a string,
      which never holds, so a failed fetch is neither logged nor counted. */
  function StepAsWritten(uid: Uid, env: Env, codeAt: nat -> Code, start: nat): ItemResult {
    match env.emailOf(uid)
    case None => ItemResult([Fetch(ByUid, uid, MessageField)], None, NoCounts)
    case Some(e) => Classified(uid, e, env, codeAt, start)
  }

  lemma StepAsWrittenLosesFetchErrors(uid: Uid, env: Env, codeAt: nat -> Code, start: nat)
    requires env.emailOf(uid).None?
    ensures StepAsWritten(uid, env, codeAt, start).entry.None?
    ensures StepAsWritten(uid, env, codeAt, start).delta.skipped == 0
  {
  }

  /** One message as evidently intended: a failed fetch is logged and counted skipped. */
  function Step(uid: Uid, env: Env, codeAt: nat -> Code, start: nat): ItemResult {
    match env.emailOf(uid)
    case None => ItemResult([Fetch(ByUid, uid, MessageField)], Some(FetchFailed), Counters(0, 0, 1))
    case Some(e) => Classified(uid, e, env, codeAt, start)
  }

  /** The label a message ends up asking for, when it gets as far as its STORE. */
  function Decision(uid: Uid, env: Env): Option<string> {
    match env.emailOf(uid)
    case None => None
    case Some(e) =>
      match env.respond(env.summarize(e))
      case None => None
      case Some(response) =>
        match ResponseLabel(response, env.categories)
        case None => None
        case Some(name) =>
          if env.labelReply(uid).Some? && GetLabels(env.labelReply(uid).value).Some? then Some(name) else None
  }

  /** The counters see the classifier's answer and the fetch, never the server's STORE
      answers: a category answer is a success even when `add_label` failed. */
  lemma StepCounts(uid: Uid, env: Env, codeAt: nat -> Code, start: nat)
    ensures var d := Step(uid, env, codeAt, start).delta;
            && Total(d) <= 1
            && (d.skipped == 1 <==> env.emailOf(uid).None?)
            && (d.successful == 1 <==> Decision(uid, env).Some? && Decision(uid, env).value in env.categories
                                        && ResponseOf(uid, env) == Decision(uid, env))
            && (d.unreadable == 1 <==> Decision(uid, env) == Some(UnsureLabel) && ResponseOf(uid, env) == Some(NoneResponse)
                                        && NoneResponse !in env.categories)
  {
  }

  /** The classifier's answer for a fetched message. */
  function ResponseOf(uid: Uid, env: Env): Option<string> {
    match env.emailOf(uid)
    case None => None
    case Some(e) => env.respond(env.summarize(e))
  }

  lemma StepCountsIgnoreServer(uid: Uid, env: Env, codeAt: nat -> Code, start: nat, codeAt': nat -> Code, start': nat)
    ensures Step(uid, env, codeAt, start).delta == Step(uid, env, codeAt', start').delta
  {
  }

  /** The STOREs of one message, when it gets that far, and nothing else that labels. */
  lemma StepShape(uid: Uid, env: Env, codeAt: nat -> Code, start: nat)
    ensures var r := Step(uid, env, codeAt, start).requests;
            && r[0] == Fetch(ByUid, uid, MessageField)
            && (Decision(uid, env).None? ==> forall i :: 0 <= i < |r| ==> !r[i].Store?)
            && (Decision(uid, env).Some? ==>
                  r[..4] == [Fetch(ByUid, uid, MessageField), Select(TargetMailbox), Fetch(ByUid, uid, LabelsField),
                             Store(ByUid, uid, Add, AiNamespace + Decision(uid, env).value)]
                  && (codeAt(start + 3) == OK <==> |r| == 5)
                  && (|r| == 5 ==> r[4] == Store(ByUid, uid, Add, AiChecked))
                  && |r| <= 5)
  {
    var r := Step(uid, env, codeAt, start).requests;
    if Decision(uid, env).Some? {
      var e := env.emailOf(uid).value;
      var p := AddLabelPlan(uid, Decision(uid, env).value, env.labelReply(uid), codeAt, start + 1);
      assert r == [Fetch(ByUid, uid, MessageField)] + p.requests;
    }
  }

  /** The labels a message gains when the server accepts every STORE. */
  function Outcome(uid: Uid, env: Env): set<string> {
    match Decision(uid, env)
    case None => {}
    case Some(name) => {AiNamespace + name, AiChecked}
  }

  lemma ReplayNoStore(labels: Labels, order: seq<Uid>, reqs: seq<Request>, codeAt: nat -> Code, start: nat)
    requires forall i :: 0 <= i < |reqs| ==> !reqs[i].Store?
    ensures Replay(labels, order, reqs, codeAt, start) == labels
    decreases |reqs|
  {
    if reqs != [] {
      ReplayNoStore(labels, order, reqs[..|reqs| - 1], codeAt, start);
    }
  }

  lemma ReplayAddOne(labels: Labels, order: seq<Uid>, uid: Uid, name: string, codeAt: nat -> Code, start: nat)
    requires uid in labels
    ensures Replay(labels, order, [Store(ByUid, uid, Add, name)], codeAt, start)
         == if codeAt(start) == OK then labels[uid := labels[uid] + {name}] else labels
  {
    assert [Store(ByUid, uid, Add, name)][..0] == [];
  }

  /** What one message's commands do to the labels: if it asks for label `n`, the message
      gains `n` when that STORE is accepted and the marker only when both are; no other
      message changes. */
  lemma StepEffect(labels: Labels, order: seq<Uid>, uid: Uid, env: Env, codeAt: nat -> Code, start: nat)
    requires uid in labels
    ensures var after := Replay(labels, order, Step(uid, env, codeAt, start).requests, codeAt, start);
            match Decision(uid, env)
            case None => after == labels
            case Some(n) =>
              after == (if codeAt(start + 3) != OK then labels
                        else if codeAt(start + 4) != OK then labels[uid := labels[uid] + {AiNamespace + n}]
                        else labels[uid := labels[uid] + {AiNamespace + n, AiChecked}])
  {
    if Decision(uid, env).None? {
      StepShape(uid, env, codeAt, start);
      ReplayNoStore(labels, order, Step(uid, env, codeAt, start).requests, codeAt, start);
    } else {
      StepStores(labels, order, uid, env, codeAt, start);
    }
  }

  /** `StepEffect` for a message the classifier labelled. */
  lemma StepStores(labels: Labels, order: seq<Uid>, uid: Uid, env: Env, codeAt: nat -> Code, start: nat)
    requires uid in labels && Decision(uid, env).Some?
    ensures Replay(labels, order, Step(uid, env, codeAt, start).requests, codeAt, start)
            == (if codeAt(start + 3) != OK then labels
                else if codeAt(start + 4) != OK then labels[uid := labels[uid] + {AiNamespace + Decision(uid, env).value}]
                else labels[uid := labels[uid] + {AiNamespace + Decision(uid, env).value, AiChecked}])
  {
    var r := Step(uid, env, codeAt, start).requests;
    StepShape(uid, env, codeAt, start);
    assert forall i :: 0 <= i < 4 ==> r[i] == r[..4][i];
    ReplayLabelling(labels, order, r, uid, AiNamespace + Decision(uid, env).value, codeAt, start);
  }

  /** Three commands that store nothing, the STORE of `name`, and, once that is accepted,
      the STORE of the marker. */
  lemma ReplayLabelling(labels: Labels, order: seq<Uid>, r: seq<Request>, uid: Uid, name: string,
                        codeAt: nat -> Code, start: nat)
    requires uid in labels && (|r| == 4 || |r| == 5)
    requires !r[0].Store? && !r[1].Store? && !r[2].Store?
    requires r[3] == Store(ByUid, uid, Add, name)
    requires codeAt(start + 3) == OK <==> |r| == 5
    requires |r| == 5 ==> r[4] == Store(ByUid, uid, Add, AiChecked)
    ensures Replay(labels, order, r, codeAt, start)
            == (if codeAt(start + 3) != OK then labels
                else if codeAt(start + 4) != OK then labels[uid := labels[uid] + {name}]
                else labels[uid := labels[uid] + {name, AiChecked}])
  {
    var head := r[..3];
    assert forall i :: 0 <= i < 3 ==> !head[i].Store?;
    ReplayNoStore(labels, order, head, codeAt, start);
    assert r[..4] == head + [r[3]];
    ReplayAppend(labels, order, head, [r[3]], codeAt, start);
    ReplayAddOne(labels, order, uid, name, codeAt, start + 3);
    var mid := Replay(labels, order, r[..4], codeAt, start);
    if |r| == 4 {
      assert r == r[..4];
    } else {
      assert r == r[..4] + [r[4]];
      ReplayAppend(labels, order, r[..4], [r[4]], codeAt, start);
      assert uid in mid;
      ReplayAddOne(mid, order, uid, AiChecked, codeAt, start + 4);
      assert mid[uid] + {AiChecked} == labels[uid] + {name, AiChecked};
    }
  }

  /** A message newly marked checked also carries the label the classifier chose, whatever
      the server answered. */
  lemma MarkerImpliesLabel(labels: Labels, order: seq<Uid>, uid: Uid, env: Env, codeAt: nat -> Code, start: nat)
    requires uid in labels
    ensures var after := Replay(labels, order, Step(uid, env, codeAt, start).requests, codeAt, start);
            AiChecked in after[uid] && AiChecked !in labels[uid] ==>
              Decision(uid, env).Some? && AiNamespace + Decision(uid, env).value in after[uid]
  {
    StepEffect(labels, order, uid, env, codeAt, start);
  }

  /** One message of the loop body, with the handler as evidently intended. */
  method ProcessItem(session: Session, logFile: LogFile, uid: Uid, env: Env) returns (delta: Counters)
    requires session.Valid() && Consistent(env)
    modifies session`log, session`labels, logFile
    ensures session.Valid()
    ensures var s := Step(uid, env, session.codeAt, |old(session.log)|);
            && session.log == old(session.log) + s.requests
            && logFile.entries == Logged(old(logFile.entries), uid, s.entry)
            && delta == s.delta
  {
    var email := env.emailOf(uid);
    if email.None? {
      session.Send(Fetch(ByUid, uid, MessageField));
      logFile.Write(uid, FetchFailed);
      return Counters(0, 0, 1);
    }
    delta := HandleFetched(session, logFile, uid, email.value, env);
  }

  /** `add_label` with the answer's label, then the answer's counter goes up unless
      `add_label` raised. */
  method LabelAnswer(session: Session, logFile: LogFile, uid: Uid, name: string, reply: Option<string>, data: LogData,
                     counted: Counters) returns (delta: Counters)
    requires session.Valid()
    modifies session`log, session`labels, logFile
    ensures session.Valid()
    ensures var p := AddLabelPlan(uid, name, reply, session.codeAt, |old(session.log)|);
            && session.log == old(session.log) + p.requests
            && logFile.entries == Logged(old(logFile.entries), uid, AddLabelEntry(p, data))
            && delta == if p.existing.None? then NoCounts else counted
  {
    var ok := AddLabel(session, logFile, uid, name, reply, data);
    delta := if ok.Some? then counted else NoCounts;
  }

  /** A message whose fetch returned data: summary, classifier, `add_label`, counters. */
  method HandleFetched(session: Session, logFile: LogFile, uid: Uid, e: Email, env: Env) returns (delta: Counters)
    requires session.Valid() && Consistent(env)
    modifies session`log, session`labels, logFile
    ensures session.Valid()
    ensures var s := Classified(uid, e, env, session.codeAt, |old(session.log)|);
            && session.log == old(session.log) + s.requests
            && logFile.entries == Logged(old(logFile.entries), uid, s.entry)
            && delta == s.delta
  {
    ghost var log := session.log;
    session.Send(Fetch(ByUid, uid, MessageField));
    ghost var fetched := session.log;
    var content := GetEmailSummary(e, env.unescape, env.htmlText);
    assert SummaryMatches(env, e);
    assert content == env.summarize(e);
    var answer := env.respond(content);
    if answer.None? {
      return NoCounts;
    }
    var response := answer.value;
    var data := LogData(e.from, e.subject, e.date, content, response);
    delta := NoCounts;
    if response in env.categories {
      ClassifiedLabel(uid, e, env, session.codeAt, |log|, response, response, Counters(1, 0, 0));
      delta := LabelAnswer(session, logFile, uid, response, env.labelReply(uid), data, Counters(1, 0, 0));
    } else if response == NoneResponse {
      ClassifiedLabel(uid, e, env, session.codeAt, |log|, response, UnsureLabel, Counters(0, 1, 0));
      delta := LabelAnswer(session, logFile, uid, UnsureLabel, env.labelReply(uid), data, Counters(0, 1, 0));
    } else {
      return;
    }
    AppendAfter(log, [Fetch(ByUid, uid, MessageField)], session.log[|fetched|..], fetched, session.log);
  }

  /** What the handler does once the classifier answered with a label: `add_label`,
      then the answer's counter unless `add_label` raised. */
  lemma ClassifiedLabel(uid: Uid, e: Email, env: Env, codeAt: nat -> Code, start: nat, response: string, name: string,
                        counted: Counters)
    requires env.respond(env.summarize(e)) == Some(response)
    requires ResponseLabel(response, env.categories) == Some(name)
    requires counted == if response in env.categories then Counters(1, 0, 0) else Counters(0, 1, 0)
    ensures var p := AddLabelPlan(uid, name, env.labelReply(uid), codeAt, start + 1);
            Classified(uid, e, env, codeAt, start)
            == ItemResult([Fetch(ByUid, uid, MessageField)] + p.requests,
                          AddLabelEntry(p, LogData(e.from, e.subject, e.date, env.summarize(e), response)),
                          if p.existing.None? then NoCounts else counted)
  {
  }

  // ---------------------------------------------------------------------------------
  // The whole walk

  datatype RunResult = RunResult(requests: seq<Request>, log: map<Uid, LogEntry>, counters: Counters)

  /** Handling `uids` in order with the per-message handler `step` (given a UID and the
      index of its first command), the first command being the `start`-th of the session
      and the log file holding `log0` before. */
  function Walk(uids: seq<Uid>, step: (Uid, nat) -> ItemResult, start: nat, log0: map<Uid, LogEntry>): RunResult {
    if uids == [] then RunResult([], log0, NoCounts)
    else
      var r := Walk(uids[..|uids| - 1], step, start, log0);
      var s := step(uids[|uids| - 1], start + |r.requests|);
      RunResult(r.requests + s.requests, Logged(r.log, uids[|uids| - 1], s.entry), Plus(r.counters, s.delta))
  }

  function Handler(env: Env, codeAt: nat -> Code): (Uid, nat) -> ItemResult {
    (u: Uid, n: nat) => Step(u, env, codeAt, n)
  }

  /** The walk of `organize_emails` with the intended handler. */
  function Run(uids: seq<Uid>, env: Env, codeAt: nat -> Code, start: nat, log0: map<Uid, LogEntry>): RunResult {
    Walk(uids, Handler(env, codeAt), start, log0)
  }

  lemma WalkPrefix(uids: seq<Uid>, k: nat, step: (Uid, nat) -> ItemResult, start: nat, log0: map<Uid, LogEntry>)
    requires k < |uids|
    ensures var r := Walk(uids[..k], step, start, log0);
            var s := step(uids[k], start + |r.requests|);
            Walk(uids[..k + 1], step, start, log0)
            == RunResult(r.requests + s.requests, Logged(r.log, uids[k], s.entry), Plus(r.counters, s.delta))
  {
    assert uids[..k + 1][..k] == uids[..k];
  }

  /** A handler that counts each message at most once, skipping exactly the `skips`
      ones, counts at most one per message of a walk, skipping exactly those. */
  lemma {:induction false} WalkCounts(uids: seq<Uid>, step: (Uid, nat) -> ItemResult, start: nat,
                                      log0: map<Uid, LogEntry>, skips: Uid -> nat)
    requires forall u: Uid, n: nat :: Total(step(u, n).delta) <= 1 && step(u, n).delta.skipped == skips(u)
    ensures Total(Walk(uids, step, start, log0).counters) <= |uids|
    ensures Walk(uids, step, start, log0).counters.skipped == Sum(uids, skips)
    decreases |uids|
  {
    if uids != [] {
      var p := uids[..|uids| - 1];
      WalkCounts(p, step, start, log0, skips);
      var r := Walk(p, step, start, log0);
      var s := step(uids[|uids| - 1], start + |r.requests|);
      assert Total(s.delta) <= 1 && s.delta.skipped == skips(uids[|uids| - 1]);
    }
  }

  /** A walk adds log entries only for messages on which the handler writes one
      (`logs`), and keeps every earlier entry's key. */
  lemma {:induction false} WalkLogKeys(uids: seq<Uid>, step: (Uid, nat) -> ItemResult, start: nat,
                                       log0: map<Uid, LogEntry>, logs: Uid -> bool, v: Uid)
    requires forall u: Uid, n: nat :: step(u, n).entry.Some? ==> logs(u)
    ensures v in Walk(uids, step, start, log0).log ==> v in log0 || (v in uids && logs(v))
    ensures v in log0 ==> v in Walk(uids, step, start, log0).log
    decreases |uids|
  {
    if uids != [] {
      var p := uids[..|uids| - 1];
      var u := uids[|uids| - 1];
      WalkLogKeys(p, step, start, log0, logs, v);
      var r := Walk(p, step, start, log0);
      var s := step(u, start + |r.requests|);
      assert s.entry.Some? ==> logs(u);
      assert uids == p + [u];
    }
  }

  /** Among distinct UIDs, a message on which the handler always writes `entry` ends
      with that entry in the log. */
  lemma {:induction false} WalkLogsFixed(uids: seq<Uid>, step: (Uid, nat) -> ItemResult, start: nat,
                                         log0: map<Uid, LogEntry>, v: Uid, entry: LogEntry)
    requires forall i, j :: 0 <= i < j < |uids| ==> uids[i] != uids[j]
    requires v in uids && forall n: nat :: step(v, n).entry == Some(entry)
    ensures v in Walk(uids, step, start, log0).log && Walk(uids, step, start, log0).log[v] == entry
    decreases |uids|
  {
    var p := uids[..|uids| - 1];
    var u := uids[|uids| - 1];
    assert uids == p + [u];
    var r := Walk(p, step, start, log0);
    if v != u {
      DistinctLast(uids);
      WalkLogsFixed(p, step, start, log0, v, entry);
    } else {
      assert step(v, start + |r.requests|).entry == Some(entry);
    }
  }

  /** The property of a handler that each message's commands add exactly `out(u)` to that
      message and touch no other. */
  ghost predicate AddsOutcome(step: (Uid, nat) -> ItemResult, order: seq<Uid>, codeAt: nat -> Code,
                              out: Uid -> set<string>)
  {
    forall m: Labels, u: Uid, n: nat {:trigger Replay(m, order, step(u, n).requests, codeAt, n)} :: u in m ==>
      Replay(m, order, step(u, n).requests, codeAt, n) == m[u := m[u] + out(u)]
  }

  lemma WalkOutcomeLast(labels: Labels, order: seq<Uid>, uids: seq<Uid>, step: (Uid, nat) -> ItemResult,
                        codeAt: nat -> Code, start: nat, log0: map<Uid, LogEntry>, out: Uid -> set<string>)
    requires AddsOutcome(step, order, codeAt, out)
    requires uids != [] && uids[|uids| - 1] in labels
    ensures var u := uids[|uids| - 1];
            var mid := Replay(labels, order, Walk(uids[..|uids| - 1], step, start, log0).requests, codeAt, start);
            Replay(labels, order, Walk(uids, step, start, log0).requests, codeAt, start) == mid[u := mid[u] + out(u)]
  {
    var u := uids[|uids| - 1];
    var r := Walk(uids[..|uids| - 1], step, start, log0);
    var s := step(u, start + |r.requests|);
    var mid := Replay(labels, order, r.requests, codeAt, start);
    assert Walk(uids, step, start, log0).requests == r.requests + s.requests;
    assert Replay(labels, order, r.requests + s.requests, codeAt, start)
        == Replay(mid, order, s.requests, codeAt, start + |r.requests|) by {
      ReplayAppend(labels, order, r.requests, s.requests, codeAt, start);
    }
    assert Replay(mid, order, s.requests, codeAt, start + |r.requests|) == mid[u := mid[u] + out(u)] by {
      assert u in mid;
    }
  }

  /** When each message's commands add exactly `out(u)` to that message, a walk over
      distinct messages adds `out(v)` to each handled `v` and leaves the rest alone. */
  lemma {:induction false} WalkOutcome(labels: Labels, order: seq<Uid>, uids: seq<Uid>, step: (Uid, nat) -> ItemResult,
                                       codeAt: nat -> Code, start: nat, log0: map<Uid, LogEntry>,
                                       out: Uid -> set<string>, v: Uid)
    requires AddsOutcome(step, order, codeAt, out)
    requires forall u :: u in uids ==> u in labels
    requires forall i, j :: 0 <= i < j < |uids| ==> uids[i] != uids[j]
    requires v in labels
    ensures Replay(labels, order, Walk(uids, step, start, log0).requests, codeAt, start)[v]
         == if v in uids then labels[v] + out(v) else labels[v]
    decreases |uids|
  {
    if uids != [] {
      var p := uids[..|uids| - 1];
      var u := uids[|uids| - 1];
      WalkOutcomeLast(labels, order, uids, step, codeAt, start, log0, out);
      DistinctLast(uids);
      assert uids == p + [u];
      WalkOutcome(labels, order, p, step, codeAt, start, log0, out, v);
    }
  }

  function FetchFailure(env: Env): Uid -> nat {
    (u: Uid) => if env.emailOf(u).None? then 1 else 0
  }

  /** Every message is counted at most once, and the skipped ones are exactly the failed
      fetches. */
  lemma RunCounts(uids: seq<Uid>, env: Env, codeAt: nat -> Code, start: nat, log0: map<Uid, LogEntry>)
    ensures Total(Run(uids, env, codeAt, start, log0).counters) <= |uids|
    ensures Run(uids, env, codeAt, start, log0).counters.skipped == Sum(uids, FetchFailure(env))
  {
    forall u: Uid, n: nat
      ensures Total(Handler(env, codeAt)(u, n).delta) <= 1
      ensures Handler(env, codeAt)(u, n).delta.skipped == FetchFailure(env)(u)
    {
      StepCounts(u, env, codeAt, n);
    }
    WalkCounts(uids, Handler(env, codeAt), start, log0, FetchFailure(env));
  }

  /** The log file gains entries only for handled messages that failed to fetch or got
      as far as their STORE, and loses none. */
  lemma RunLogKeys(uids: seq<Uid>, env: Env, codeAt: nat -> Code, start: nat, log0: map<Uid, LogEntry>, v: Uid)
    ensures v in Run(uids, env, codeAt, start, log0).log ==>
              v in log0 || (v in uids && (env.emailOf(v).None? || Decision(v, env).Some?))
    ensures v in log0 ==> v in Run(uids, env, codeAt, start, log0).log
  {
    var logs := (u: Uid) => env.emailOf(u).None? || Decision(u, env).Some?;
    forall u: Uid, n: nat | Handler(env, codeAt)(u, n).entry.Some?
      ensures logs(u)
    {
      if env.emailOf(u).Some? {
        DecisionOfEntry(u, env, codeAt, n);
      }
    }
    WalkLogKeys(uids, Handler(env, codeAt), start, log0, logs, v);
  }

  lemma DecisionOfEntry(uid: Uid, env: Env, codeAt: nat -> Code, start: nat)
    requires env.emailOf(uid).Some? && Step(uid, env, codeAt, start).entry.Some?
    ensures Decision(uid, env).Some?
  {
  }

  /** Among distinct UIDs, a failed fetch leaves exactly a fetch-failure entry. */
  lemma RunLogsFetchFailures(uids: seq<Uid>, env: Env, codeAt: nat -> Code, start: nat,
                             log0: map<Uid, LogEntry>, v: Uid)
    requires forall i, j :: 0 <= i < j < |uids| ==> uids[i] != uids[j]
    requires v in uids && env.emailOf(v).None?
    ensures v in Run(uids, env, codeAt, start, log0).log && Run(uids, env, codeAt, start, log0).log[v] == FetchFailed
  {
    assert forall n: nat :: Handler(env, codeAt)(v, n).entry == Some(FetchFailed);
    WalkLogsFixed(uids, Handler(env, codeAt), start, log0, v, FetchFailed);
  }

  /** When every STORE is accepted, one message gains exactly its outcome labels. */
  lemma StepOutcome(labels: Labels, order: seq<Uid>, uid: Uid, env: Env, codeAt: nat -> Code, start: nat)
    requires forall i :: codeAt(i) == OK
    requires uid in labels
    ensures Replay(labels, order, Step(uid, env, codeAt, start).requests, codeAt, start)
         == labels[uid := labels[uid] + Outcome(uid, env)]
  {
    StepEffect(labels, order, uid, env, codeAt, start);
    if Decision(uid, env).None? {
      assert labels[uid := labels[uid] + {}] == labels by {
        assert labels[uid] + {} == labels[uid];
      }
    }
  }

  /** When every STORE is accepted and the UIDs are distinct messages, each handled
      message gains exactly its outcome labels and no other message changes. */
  lemma RunOutcome(labels: Labels, order: seq<Uid>, uids: seq<Uid>, env: Env, codeAt: nat -> Code,
                   start: nat, log0: map<Uid, LogEntry>, v: Uid)
    requires forall i :: codeAt(i) == OK
    requires forall u :: u in uids ==> u in labels
    requires forall i, j :: 0 <= i < j < |uids| ==> uids[i] != uids[j]
    requires v in labels
    ensures Replay(labels, order, Run(uids, env, codeAt, start, log0).requests, codeAt, start)[v]
         == if v in uids then labels[v] + Outcome(v, env) else labels[v]
  {
    var out := (u: Uid) => Outcome(u, env);
    forall m: Labels, u: Uid, n: nat | u in m
      ensures Replay(m, order, Handler(env, codeAt)(u, n).requests, codeAt, n) == m[u := m[u] + out(u)]
    {
      StepOutcome(m, order, u, env, codeAt, n);
    }
    assert AddsOutcome(Handler(env, codeAt), order, codeAt, out);
    WalkOutcome(labels, order, uids, Handler(env, codeAt), codeAt, start, log0, out, v);
  }

  /** The walk so far: the commands after the SELECT, the log file and the counters are
      those of handling `done`. */
  ghost predicate Walked(log: seq<Request>, entries: map<Uid, LogEntry>, counters: Counters, done: seq<Uid>,
                         env: Env, codeAt: nat -> Code, log0: seq<Request>, entries0: map<Uid, LogEntry>)
  {
    var run := Run(done, env, codeAt, |log0|, entries0);
    log == log0 + run.requests && entries == run.log && counters == run.counters
  }

  /** Handling the next message extends the walk by one. */
  lemma Advance(uids: seq<Uid>, k: nat, env: Env, codeAt: nat -> Code, log0: seq<Request>, entries0: map<Uid, LogEntry>,
                log: seq<Request>, entries: map<Uid, LogEntry>, counters: Counters,
                log': seq<Request>, entries': map<Uid, LogEntry>, counters': Counters)
    requires k < |uids| && Walked(log, entries, counters, uids[..k], env, codeAt, log0, entries0)
    requires var s := Step(uids[k], env, codeAt, |log|);
             log' == log + s.requests && entries' == Logged(entries, uids[k], s.entry) && counters' == Plus(counters, s.delta)
    ensures Walked(log', entries', counters', uids[..k + 1], env, codeAt, log0, entries0)
  {
    var r := Run(uids[..k], env, codeAt, |log0|, entries0);
    var s := Step(uids[k], env, codeAt, |log|);
    assert |log| == |log0| + |r.requests|;
    WalkPrefix(uids, k, Handler(env, codeAt), |log0|, entries0);
    assert Handler(env, codeAt)(uids[k], |log0| + |r.requests|) == s;
    AppendAfter(log0, r.requests, s.requests, log, log');
  }

  /** One turn of the loop of `organize_emails`. */
  method ProcessNext(session: Session, logFile: LogFile, uids: seq<Uid>, k: nat, env: Env,
                     ghost log0: seq<Request>, ghost entries0: map<Uid, LogEntry>, counters0: Counters)
    returns (counters: Counters)
    requires k < |uids| && session.Valid() && Consistent(env)
    requires Walked(session.log, logFile.entries, counters0, uids[..k], env, session.codeAt, log0, entries0)
    modifies session`log, session`labels, logFile
    ensures session.Valid()
    ensures Walked(session.log, logFile.entries, counters, uids[..k + 1], env, session.codeAt, log0, entries0)
  {
    ghost var log := session.log;
    ghost var entries := logFile.entries;
    var delta := ProcessItem(session, logFile, uids[k], env);
    counters := Plus(counters0, delta);
    Advance(uids, k, env, session.codeAt, log0, entries0, log, entries, counters0, session.log, logFile.entries, counters);
  }

  /** `organize_emails`: the cancel flag is polled before each message and first seen set
      at poll `cancelAt`; the result string is `CANCELLED` then, `SUCCESS` after the walk. */
  method OrganizeEmails(session: Session, logFile: LogFile, uids: seq<Uid>, env: Env, cancelAt: nat)
    returns (ok: bool, counters: Counters, result: string)
    requires session.Valid() && Consistent(env)
    modifies session`log, session`labels, logFile
    ensures session.Valid()
    ensures var run := Run(uids[..Min(cancelAt, |uids|)], env, session.codeAt, |old(session.log)| + 1, old(logFile.entries));
            && session.log == old(session.log) + [Select(TargetMailbox)] + run.requests
            && logFile.entries == run.log
            && counters == run.counters
    ensures ok <==> cancelAt >= |uids|
    ensures result == if ok then ResultSuccess else ResultCancelled
  {
    session.Send(Select(TargetMailbox));
    ghost var log0 := session.log;
    ghost var entries0 := logFile.entries;
    counters := NoCounts;
    var k := 0;
    while k < |uids|
      invariant 0 <= k <= |uids| && k <= cancelAt
      invariant session.Valid()
      invariant Walked(session.log, logFile.entries, counters, uids[..k], env, session.codeAt, log0, entries0)
    {
      if k == cancelAt {
        return false, counters, ResultCancelled;
      }
      counters := ProcessNext(session, logFile, uids, k, env, log0, entries0, counters);
      k := k + 1;
    }
    assert uids[..|uids|] == uids;
    ok, result := true, ResultSuccess;
  }

  /** `ai_email_organizer`: the candidates, the walk, the cancel flag set iff the walk did
      not finish, then EXPUNGE and LOGOUT; the run's result string is returned. */
  method AiEmailOrganizer(session: Session, logFile: LogFile, env: Env, count: Count, cancelAt: nat)
    returns (result: string, flagSet: bool)
    requires session.Valid() && Consistent(env)
    modifies session`log, session`labels, logFile
    ensures session.Valid()
    ensures var uids := Truncated(SearchIds(ByUid, WithoutLabel(AiChecked), session.order, 0, old(session.labels),
                                            session.fromMatches), count);
            var run := Run(uids[..Min(cancelAt, |uids|)], env, session.codeAt, |old(session.log)| + 3,
                           old(logFile.entries));
            && session.log == old(session.log) + [Select(TargetMailbox), Search(ByUid, WithoutLabel(AiChecked))]
                              + ([Select(TargetMailbox)] + run.requests) + [Expunge, Logout]
            && logFile.entries == run.log
            && (result == ResultCancelled <==> cancelAt < |uids|)
    ensures flagSet <==> result == ResultCancelled
    ensures result == ResultSuccess || result == ResultCancelled
  {
    ghost var candidates := Truncated(SearchIds(ByUid, WithoutLabel(AiChecked), session.order, 0, session.labels,
                                                session.fromMatches), count);
    var uids := FetchUids(session, count);
    assert uids == candidates;
    assert |session.log| + 1 == |old(session.log)| + 3;
    result, flagSet := OrganizeAndClose(session, logFile, uids, env, cancelAt);
  }

  /** The part of `ai_email_organizer` after the candidates are known. */
  method OrganizeAndClose(session: Session, logFile: LogFile, uids: seq<Uid>, env: Env, cancelAt: nat)
    returns (result: string, flagSet: bool)
    requires session.Valid() && Consistent(env)
    modifies session`log, session`labels, logFile
    ensures session.Valid()
    ensures var run := Run(uids[..Min(cancelAt, |uids|)], env, session.codeAt, |old(session.log)| + 1,
                           old(logFile.entries));
            && session.log == old(session.log) + ([Select(TargetMailbox)] + run.requests) + [Expunge, Logout]
            && logFile.entries == run.log
            && (result == ResultCancelled <==> cancelAt < |uids|)
    ensures flagSet <==> result == ResultCancelled
    ensures result == ResultSuccess || result == ResultCancelled
  {
    ghost var run := Run(uids[..Min(cancelAt, |uids|)], env, session.codeAt, |session.log| + 1, logFile.entries);
    var ok, counters;
    ok, counters, result := OrganizeEmails(session, logFile, uids, env, cancelAt);
    ghost var log2 := session.log;
    AppendAfter(old(session.log), [Select(TargetMailbox)], run.requests,
                old(session.log) + [Select(TargetMailbox)], log2);
    flagSet := !ok;
    session.Send(Expunge);
    session.Send(Logout);
    assert session.log == log2 + [Expunge, Logout];
  }
}
