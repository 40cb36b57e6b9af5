/** The remote Gmail mailbox as the operations see it over IMAP: a map from message
    identifier to its set of Gmail labels, the messages' order (message sequence number
    n is the n-th message of `order`), and the log of commands the client has sent.
    A STORE (section 6.4.6 of RFC 3501, with Gmail's X-GM-LABELS extension) is a label
    delta; whether the server applies it is its result code, an oracle input. All label
    names the organizers use as persisted state are defined here, once. */
module Mailbox {
  import opened Wrappers

  type Uid = nat
  type Labels = map<Uid, set<string>>

  const TargetMailbox: string := "\"[Gmail]/All Mail\""
  /** The label folders: one per organizer, inside the program's own folder. */
  const OrganizerFolder: string := "Email Organizer/"
  const StandardOrganizer: string := "Standard Organizer"
  const AiOrganizer: string := "AI Organizer"
  const StandardNamespace: string := OrganizerFolder + StandardOrganizer + "/"
  const AiNamespace: string := OrganizerFolder + AiOrganizer + "/"
  /** Marker: the rule-based organizer has already decided this message's fate. */
  const StandardChecked: string := StandardNamespace + "Checked Emails"
  /** Marker: the AI organizer has already decided this message's fate. */
  const AiChecked: string := AiNamespace + "AI Checked Emails"
  const Trash: string := "\\Trash"
  /** The FETCH data items: the whole message, and its Gmail labels. */
  const MessageField: string := "(RFC822)"
  const LabelsField: string := "(X-GM-LABELS)"

  /** `+X-GM-LABELS` or `-X-GM-LABELS`. */
  datatype Op = Add | Remove

  /** A `UID ...` command names messages by UID; a plain command by sequence number. */
  datatype Addressing = ByUid | BySequence

  /** The tagged result of a command that imaplib hands back to its caller. A BAD result
      makes imaplib raise instead; servers answering BAD are not modelled. */
  datatype Code = OK | NO

  datatype Criterion =
    | All
    | WithLabel(name: string)
    | WithoutLabel(name: string)
    | FromSender(sender: string)

  /** The SEARCH criterion as the client writes it on the wire. */
  function CriterionText(c: Criterion): string {
    match c
    case All => "ALL"
    case WithLabel(l) => "(X-GM-LABELS \"" + l + "\")"
    case WithoutLabel(l) => "(NOT X-GM-LABELS \"" + l + "\")"
    case FromSender(s) => "(FROM \"" + s + "\")"
  }

  datatype Request =
    | Select(mailbox: string)
    | Search(addressing: Addressing, criterion: Criterion)
    | Fetch(addressing: Addressing, id: nat, part: string)
    | Store(addressing: Addressing, id: nat, op: Op, name: string)
    | Expunge
    | Close
    | Logout

  /** The message a command's identifier names, if any. */
  function Resolve(a: Addressing, id: nat, order: seq<Uid>, labels: Labels): Option<Uid> {
    match a
    case ByUid => if id in labels then Some(id) else None
    case BySequence => if 1 <= id <= |order| && order[id - 1] in labels then Some(order[id - 1]) else None
  }

  /** What an accepted command does to the labels; only STORE changes them. */
  function Effect(labels: Labels, order: seq<Uid>, r: Request, code: Code): (r': Labels)
    ensures r'.Keys == labels.Keys
  {
    match r
    case Store(a, id, op, l) =>
      if code != OK then labels
      else (match Resolve(a, id, order, labels)
            case None => labels
            case Some(u) => labels[u := if op == Add then labels[u] + {l} else labels[u] - {l}])
    case _ => labels
  }

  /** The labels after the server has answered `reqs`, the first of which was the
      `start`-th command of the session. */
  function Replay(labels: Labels, order: seq<Uid>, reqs: seq<Request>, codeAt: nat -> Code, start: nat): (r: Labels)
    ensures r.Keys == labels.Keys
  {
    if reqs == [] then labels
    else Effect(Replay(labels, order, reqs[..|reqs| - 1], codeAt, start), order, reqs[|reqs| - 1], codeAt(start + |reqs| - 1))
  }

  lemma ReplayStep(labels: Labels, order: seq<Uid>, reqs: seq<Request>, r: Request, codeAt: nat -> Code, start: nat)
    ensures Replay(labels, order, reqs + [r], codeAt, start)
         == Effect(Replay(labels, order, reqs, codeAt, start), order, r, codeAt(start + |reqs|))
  {
    assert (reqs + [r])[..|reqs|] == reqs;
  }

  /** Labels that one more command took from the state of `done` are the state of `plan`,
      the commands of `done` followed by that one. */
  lemma ReplayExtend(labels0: Labels, order: seq<Uid>, done: seq<Request>, r: Request, plan: seq<Request>,
                     codeAt: nat -> Code, start: nat, labels: Labels, labels': Labels)
    requires plan == done + [r]
    requires labels == Replay(labels0, order, done, codeAt, start)
    requires labels' == Effect(labels, order, r, codeAt(start + |done|))
    ensures labels' == Replay(labels0, order, plan, codeAt, start)
  {
    ReplayStep(labels0, order, done, r, codeAt, start);
  }

  lemma ReplayAppend(labels: Labels, order: seq<Uid>, reqs: seq<Request>, more: seq<Request>, codeAt: nat -> Code, start: nat)
    ensures Replay(labels, order, reqs + more, codeAt, start)
         == Replay(Replay(labels, order, reqs, codeAt, start), order, more, codeAt, start + |reqs|)
    decreases |more|
  {
    if more != [] {
      assert (reqs + more)[..|reqs + more| - 1] == reqs + more[..|more| - 1];
      ReplayAppend(labels, order, reqs, more[..|more| - 1], codeAt, start);
    } else {
      assert reqs + more == reqs;
    }
  }

  /** A command that is not a STORE changes no label. */
  lemma ReplayQuery(labels: Labels, order: seq<Uid>, r: Request, more: seq<Request>, codeAt: nat -> Code, start: nat)
    requires !r.Store?
    ensures Replay(labels, order, [r] + more, codeAt, start) == Replay(labels, order, more, codeAt, start + 1)
  {
    ReplayAppend(labels, order, [r], more, codeAt, start);
    assert [r][..0] == [];
  }

  /** Does message `u` satisfy the criterion? FROM is judged by the server (`fromMatches`). */
  predicate Matches(c: Criterion, u: Uid, labels: Labels, fromMatches: (Uid, string) -> bool)
    requires u in labels
  {
    match c
    case All => true
    case WithLabel(l) => l in labels[u]
    case WithoutLabel(l) => l !in labels[u]
    case FromSender(s) => fromMatches(u, s)
  }

  /** The SEARCH reply for the messages `order[offset..]`: UIDs for `UID SEARCH`, message
      sequence numbers for plain SEARCH, in mailbox order. */
  function SearchIds(a: Addressing, c: Criterion, order: seq<Uid>, offset: nat, labels: Labels,
                     fromMatches: (Uid, string) -> bool): (ids: seq<nat>)
    requires forall u :: u in order ==> u in labels
    ensures |ids| <= |order|
    decreases |order|
  {
    if order == [] then []
    else
      (if Matches(c, order[0], labels, fromMatches) then [if a == ByUid then order[0] else offset + 1] else [])
      + SearchIds(a, c, order[1..], offset + 1, labels, fromMatches)
  }

  /** UID SEARCH returns exactly the UIDs of the matching messages. */
  lemma {:induction false} UidSearchExact(c: Criterion, order: seq<Uid>, offset: nat, labels: Labels,
                                          fromMatches: (Uid, string) -> bool, u: Uid)
    requires forall v :: v in order ==> v in labels
    ensures u in SearchIds(ByUid, c, order, offset, labels, fromMatches)
        <==> u in order && Matches(c, u, labels, fromMatches)
    decreases |order|
  {
    if order != [] {
      UidSearchExact(c, order[1..], offset + 1, labels, fromMatches, u);
      assert order == [order[0]] + order[1..];
    }
  }

  /** UID SEARCH over a mailbox without repeated messages repeats no UID. */
  lemma {:induction false} UidSearchDistinct(c: Criterion, order: seq<Uid>, offset: nat, labels: Labels,
                                             fromMatches: (Uid, string) -> bool)
    requires forall v :: v in order ==> v in labels
    requires forall i, j :: 0 <= i < j < |order| ==> order[i] != order[j]
    ensures var ids := SearchIds(ByUid, c, order, offset, labels, fromMatches);
            forall i, j :: 0 <= i < j < |ids| ==> ids[i] != ids[j]
    decreases |order|
  {
    if order != [] {
      var rest := SearchIds(ByUid, c, order[1..], offset + 1, labels, fromMatches);
      UidSearchDistinct(c, order[1..], offset + 1, labels, fromMatches);
      UidSearchExact(c, order[1..], offset + 1, labels, fromMatches, order[0]);
    }
  }

  /** Plain SEARCH returns exactly the sequence numbers of the matching messages. */
  lemma {:induction false} SequenceSearchExact(c: Criterion, order: seq<Uid>, offset: nat, labels: Labels,
                                               fromMatches: (Uid, string) -> bool, n: nat)
    requires forall v :: v in order ==> v in labels
    ensures n in SearchIds(BySequence, c, order, offset, labels, fromMatches)
        <==> offset + 1 <= n <= offset + |order| && Matches(c, order[n - offset - 1], labels, fromMatches)
    decreases |order|
  {
    if order != [] {
      SequenceSearchExact(c, order[1..], offset + 1, labels, fromMatches, n);
    }
  }

  /** Plain SEARCH lists sequence numbers past `offset` in increasing order, so none twice. */
  lemma {:induction false} SequenceSearchIncreasing(c: Criterion, order: seq<Uid>, offset: nat, labels: Labels,
                                                    fromMatches: (Uid, string) -> bool)
    requires forall v :: v in order ==> v in labels
    ensures forall i :: 0 <= i < |SearchIds(BySequence, c, order, offset, labels, fromMatches)| ==>
              offset < SearchIds(BySequence, c, order, offset, labels, fromMatches)[i]
    ensures forall i, j :: 0 <= i < j < |SearchIds(BySequence, c, order, offset, labels, fromMatches)| ==>
              SearchIds(BySequence, c, order, offset, labels, fromMatches)[i]
              < SearchIds(BySequence, c, order, offset, labels, fromMatches)[j]
    decreases |order|
  {
    if order != [] {
      var rest := SearchIds(BySequence, c, order[1..], offset + 1, labels, fromMatches);
      SequenceSearchIncreasing(c, order[1..], offset + 1, labels, fromMatches);
      var ids := SearchIds(BySequence, c, order, offset, labels, fromMatches);
      if Matches(c, order[0], labels, fromMatches) {
        assert ids == [offset + 1] + rest;
        assert forall i :: 1 <= i < |ids| ==> ids[i] == rest[i - 1];
      } else {
        assert ids == rest;
      }
    }
  }

  /** One progress callback: `done / total` is the fraction reported, `count` is the
      progress bar's own count passed alongside it. */
  datatype Sample = Sample(done: nat, count: nat, total: nat)

  /** The samples of a loop that has finished `k` of `total` items and reports after each;
      when `lagging`, the bar's count is read before it is advanced for that item. */
  function ItemSamples(k: nat, total: nat, lagging: bool): (s: seq<Sample>)
    ensures |s| == k
  {
    if k == 0 then [] else ItemSamples(k - 1, total, lagging) + [Sample(k, if lagging then k - 1 else k, total)]
  }

  /** After the k-th item the fraction is k/total: the reported fractions strictly increase,
      and they end at 1 when every item was done. */
  lemma {:induction false} ItemSamplesProgress(k: nat, total: nat, lagging: bool)
    ensures forall i :: 0 <= i < k ==>
              ItemSamples(k, total, lagging)[i].done == i + 1 && ItemSamples(k, total, lagging)[i].total == total
    ensures forall i, j :: 0 <= i < j < k ==> ItemSamples(k, total, lagging)[i].done < ItemSamples(k, total, lagging)[j].done
    ensures k > 0 && k == total ==> ItemSamples(k, total, lagging)[k - 1].done == total
  {
    if k > 0 { ItemSamplesProgress(k - 1, total, lagging); }
  }

  /** The connection states of section 3 of RFC 3501 a program passes through before its
      first mailbox command. */
  datatype ConnectionState = NotAuthenticated | Authenticated

  /** LOGIN: imaplib accepts it only in the not-authenticated state and raises
      `IMAP4.error` (`None` here) in any other. */
  function Login(s: ConnectionState): Option<ConnectionState> {
    if s == NotAuthenticated then Some(Authenticated) else None
  }

  /** `n` LOGIN commands in a row from state `s`; `None` once one of them raises. */
  function Logins(s: ConnectionState, n: nat): Option<ConnectionState>
    decreases n
  {
    if n == 0 then Some(s)
    else match Login(s) {
      case None => None
      case Some(next) => Logins(next, n - 1)
    }
  }

  /** A run of LOGINs succeeds iff it is empty or is the one LOGIN of a fresh
      connection, which then is authenticated. */
  lemma {:induction false} LoginsSucceed(s: ConnectionState, n: nat)
    ensures Logins(s, n).Some? <==> n == 0 || (n == 1 && s == NotAuthenticated)
    ensures n == 1 && s == NotAuthenticated ==> Logins(s, n) == Some(Authenticated)
    decreases n
  {
    if n > 0 && s == NotAuthenticated {
      LoginsSucceed(Authenticated, n - 1);
    }
  }

  /** `establish_connection` as written in the scan, the AI organizer, the reset and the
      purge: the fresh connection is sent LOGIN twice. */
  function EstablishConnectionAsWritten(): Option<ConnectionState> {
    Logins(NotAuthenticated, 2)
  }

  /** The second LOGIN raises, so none of those programs reaches its first command. */
  lemma EstablishConnectionAsWrittenRaises()
    ensures EstablishConnectionAsWritten() == None
  {
    LoginsSucceed(NotAuthenticated, 2);
  }

  /** `establish_connection` as the rule organizer writes it: one LOGIN, after which the
      connection is authenticated and mailbox commands may follow. */
  function EstablishConnection(): (r: Option<ConnectionState>)
    ensures r == Some(Authenticated)
  {
    LoginsSucceed(NotAuthenticated, 1);
    Logins(NotAuthenticated, 1)
  }

  /** UIDs ascend with the sequence numbers, as section 2.3.1.1 of RFC 3501 requires of
      every mailbox a server presents. */
  predicate UidsAscending(order: seq<Uid>) {
    forall i, j :: 0 <= i < j < |order| ==> order[i] < order[j]
  }

  /** The IMAP session of one operation. The labels and `order` are the server's state;
      `log` is every command sent so far; `codeAt(i)` is the server's answer to the i-th
      command; `fromMatches` is its judgement of the FROM criterion. */
  class Session {
    var labels: Labels
    var order: seq<Uid>
    var log: seq<Request>
    const codeAt: nat -> Code
    const fromMatches: (Uid, string) -> bool
    ghost const initial: Labels

    /** Every message appears once in `order`, `order` lists exactly the messages, and the
        labels are what the commands sent so far made of the initial ones. */
    ghost predicate Valid()
      reads this
    {
      && (forall i, j :: 0 <= i < j < |order| ==> order[i] != order[j])
      && (forall u :: u in order <==> u in labels)
      && labels == Replay(initial, order, log, codeAt, 0)
    }

    constructor (labels: Labels, order: seq<Uid>, codeAt: nat -> Code, fromMatches: (Uid, string) -> bool)
      requires forall i, j :: 0 <= i < j < |order| ==> order[i] != order[j]
      requires forall u :: u in order <==> u in labels
      ensures Valid()
      ensures this.labels == labels && this.order == order && log == []
      ensures this.codeAt == codeAt && this.fromMatches == fromMatches && initial == labels
    {
      this.initial := labels;
      this.labels := labels;
      this.order := order;
      this.log := [];
      this.codeAt := codeAt;
      this.fromMatches := fromMatches;
    }

    /** Sends a command that does not change labels. */
    method Send(r: Request)
      requires Valid() && !r.Store?
      modifies this`log
      ensures Valid()
      ensures log == old(log) + [r]
    {
      ReplayStep(initial, order, log, r, codeAt, 0);
      log := log + [r];
    }

    method Search(a: Addressing, c: Criterion) returns (ids: seq<nat>)
      requires Valid()
      modifies this`log
      ensures Valid()
      ensures log == old(log) + [Request.Search(a, c)]
      ensures ids == SearchIds(a, c, order, 0, labels, fromMatches)
    {
      ReplayStep(initial, order, log, Request.Search(a, c), codeAt, 0);
      log := log + [Request.Search(a, c)];
      ids := SearchIds(a, c, order, 0, labels, fromMatches);
    }

    method Store(a: Addressing, id: nat, op: Op, name: string) returns (code: Code)
      requires Valid()
      modifies this`log, this`labels
      ensures Valid()
      ensures code == codeAt(|old(log)|)
      ensures log == old(log) + [Request.Store(a, id, op, name)]
      ensures labels == Effect(old(labels), order, Request.Store(a, id, op, name), code)
    {
      ReplayStep(initial, order, log, Request.Store(a, id, op, name), codeAt, 0);
      code := codeAt(|log|);
      labels := Effect(labels, order, Request.Store(a, id, op, name), code);
      log := log + [Request.Store(a, id, op, name)];
    }
  }
}
