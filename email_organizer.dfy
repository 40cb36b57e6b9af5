/** The rule-based organizer: builds the address -> rule table from the label and
    unsubscribe stores, then walks the unchecked messages in server order, marking each
    as checked and trashing or labelling it by its sender's rule. */
module RuleOrganizer {
  import opened Wrappers
  import opened Seqs
  import opened Text
  import opened Stores
  import opened Mailbox

  /** The rule value an unsubscribed address gets. */
  const UnsubscribedRule: string := "Unsubscribed"
  const FromField: string := "(BODY[HEADER.FIELDS (FROM)])"

  type Rules = map<string, string>

  function AssignAll(m: Rules, addresses: seq<string>, rule: string): Rules {
    m + map a | a in addresses :: rule
  }

  /** The label rules: placeholder keys skipped, each label's addresses assigned that
      label, labels taken in store order. */
  function LabelRules(t: LabelTable): Rules {
    if t == [] then map[]
    else if IsPlaceholder(t[|t| - 1].0) then LabelRules(t[..|t| - 1])
    else AssignAll(LabelRules(t[..|t| - 1]), t[|t| - 1].1, t[|t| - 1].0)
  }

  /** The full rule table of a label file `t`: the label rules of the object `json.load`
      makes of it, then every unsubscribed address mapped to `UnsubscribedRule`. */
  function RulesOf(t: LabelTable, unsubscribed: map<string, bool>): Rules {
    LabelRules(Loaded(t)) + UnsubscribeRules(unsubscribed.Keys)
  }

  function UnsubscribeRules(addresses: set<string>): Rules {
    map a | a in addresses :: UnsubscribedRule
  }

  /** Entry `i` of the label store is a real label whose list holds `a`. */
  predicate LabelsAddress(t: LabelTable, i: int, a: string) {
    0 <= i < |t| && !IsPlaceholder(t[i].0) && a in t[i].1
  }

  /** Over the entries the rule loop visits, an address has a label rule iff some real
      label lists it, and its rule is the label of the last such entry. */
  lemma {:induction false} LabelRulesLastWins(t: LabelTable, a: string)
    ensures a in LabelRules(t) <==> exists i :: LabelsAddress(t, i, a)
    ensures a in LabelRules(t) ==>
              exists i :: LabelsAddress(t, i, a) && LabelRules(t)[a] == t[i].0
                       && forall j :: i < j < |t| ==> !LabelsAddress(t, j, a)
  {
    if t != [] {
      var p := t[..|t| - 1];
      var n := |t| - 1;
      LabelRulesLastWins(p, a);
      LastEntryRule(t, a);
      assert forall i :: 0 <= i < n ==> (LabelsAddress(p, i, a) <==> LabelsAddress(t, i, a));
      if LabelsAddress(t, n, a) {
        assert LabelRules(t)[a] == t[n].0 && forall j :: n < j < |t| ==> !LabelsAddress(t, j, a);
      } else if a in LabelRules(p) {
        var i :| LabelsAddress(p, i, a) && LabelRules(p)[a] == p[i].0
                 && forall j :: i < j < |p| ==> !LabelsAddress(p, j, a);
        assert LabelsAddress(t, i, a) && LabelRules(t)[a] == t[i].0;
        assert forall j :: i < j < |t| ==> !LabelsAddress(t, j, a);
      } else {
        assert a !in LabelRules(t);
      }
    }
  }

  /** The last entry of the table sets the rule of the addresses it lists, when its label
      is real, and leaves every other address as the entries before it left it. */
  lemma LastEntryRule(t: LabelTable, a: string)
    requires t != []
    ensures LabelsAddress(t, |t| - 1, a) ==> a in LabelRules(t) && LabelRules(t)[a] == t[|t| - 1].0
    ensures !LabelsAddress(t, |t| - 1, a) ==>
              (a in LabelRules(t) <==> a in LabelRules(t[..|t| - 1]))
              && (a in LabelRules(t) ==> LabelRules(t)[a] == LabelRules(t[..|t| - 1])[a])
  {
    var e := t[|t| - 1];
    if !IsPlaceholder(e.0) {
      assert LabelRules(t) == AssignAll(LabelRules(t[..|t| - 1]), e.1, e.0);
      AssignedRule(LabelRules(t[..|t| - 1]), e.1, e.0, a);
    }
  }

  /** Assigning a rule to a list of addresses sets exactly those. */
  lemma AssignedRule(m: Rules, addresses: seq<string>, rule: string, a: string)
    ensures a in addresses ==> a in AssignAll(m, addresses, rule) && AssignAll(m, addresses, rule)[a] == rule
    ensures a !in addresses ==>
              (a in AssignAll(m, addresses, rule) <==> a in m)
              && (a in m ==> AssignAll(m, addresses, rule)[a] == m[a])
  {
  }

  /** The loaded label store lists `a` under the real label `k`. */
  predicate ListedUnder(t: LabelTable, k: string, a: string) {
    !IsPlaceholder(k) && Lookup(t, k).Some? && a in Lookup(t, k).value
  }

  /** An unsubscribed address is trashed whatever its labels; any other address has a
      rule iff the loaded label store lists it under a real label, and then follows the
      last such label in the loaded object's key order. */
  lemma RuleTable(t: LabelTable, unsubscribed: map<string, bool>, a: string)
    ensures a in unsubscribed ==> a in RulesOf(t, unsubscribed) && RulesOf(t, unsubscribed)[a] == UnsubscribedRule
    ensures a !in unsubscribed ==> (a in RulesOf(t, unsubscribed) <==> exists k :: ListedUnder(t, k, a))
    ensures a !in unsubscribed && a in RulesOf(t, unsubscribed) ==>
              ListedUnder(t, RulesOf(t, unsubscribed)[a], a)
              && exists i :: 0 <= i < |Loaded(t)| && Loaded(t)[i].0 == RulesOf(t, unsubscribed)[a]
                          && forall j :: i < j < |Loaded(t)| ==> !ListedUnder(t, Loaded(t)[j].0, a)
  {
    var l := Loaded(t);
    LabelRulesLastWins(l, a);
    forall i | 0 <= i < |l|
      ensures LabelsAddress(l, i, a) <==> ListedUnder(t, l[i].0, a)
    {
      LoadedEntry(t, i);
    }
    if a !in unsubscribed {
      if k :| ListedUnder(t, k, a) {
        LoadedLookup(t, k);
        var i :| LastEntryOf(l, k, i) && l[i].1 == Lookup(l, k).value;
        assert LabelsAddress(l, i, a);
      }
    }
  }

  /** A label repeated in the file counts with its last list only, at its first place. */
  lemma RepeatedLabelLastListWins()
    ensures RulesOf([("A", ["x"]), ("A", [])], map[]) == map[]
  {
    var t1: LabelTable := [("A", ["x"]), ("A", [])];
    assert t1[..1] == [("A", ["x"])];
    assert Loaded(t1) == [("A", [])];
  }

  lemma InterleavedLabelLastListWins()
    ensures RulesOf([("A", ["x"]), ("B", ["y"]), ("A", ["y"])], map[]) == map["y" := "B"]
  {
    var t2: LabelTable := [("A", ["x"]), ("B", ["y"]), ("A", ["y"])];
    assert t2[..2][..1] == [("A", ["x"])];
    assert t2[..2] == [("A", ["x"]), ("B", ["y"])];
    assert Loaded(t2[..2][..1]) == [("A", ["x"])];
    assert Put([("A", ["x"])], "B", ["y"]) == [("A", ["x"])] + Put([], "B", ["y"]);
    assert Loaded(t2[..2]) == [("A", ["x"]), ("B", ["y"])];
    assert Loaded(t2) == [("A", ["y"]), ("B", ["y"])];
    var l: LabelTable := [("A", ["y"]), ("B", ["y"])];
    assert l[..1] == [("A", ["y"])];
    assert LabelRules(l[..1]) == map["y" := "A"];
  }

  lemma LabelRulesStep(t: LabelTable, i: nat)
    requires i < |t|
    ensures LabelRules(t[..i + 1])
         == if IsPlaceholder(t[i].0) then LabelRules(t[..i]) else AssignAll(LabelRules(t[..i]), t[i].1, t[i].0)
  {
    assert t[..i + 1][..i] == t[..i];
  }

  lemma AssignStep(m: Rules, addresses: seq<string>, j: nat, rule: string)
    requires j < |addresses|
    ensures AssignAll(m, addresses[..j + 1], rule) == AssignAll(m, addresses[..j], rule)[addresses[j] := rule]
  {
    var l := AssignAll(m, addresses[..j + 1], rule);
    var r := AssignAll(m, addresses[..j], rule)[addresses[j] := rule];
    assert addresses[..j + 1] == addresses[..j] + [addresses[j]];
    assert l.Keys == r.Keys;
  }

  lemma UnsubscribeStep(m: Rules, done: set<string>, a: string)
    ensures m + UnsubscribeRules(done + {a}) == (m + UnsubscribeRules(done))[a := UnsubscribedRule]
  {
  }

  function TableOrEmpty(o: Option<LabelTable>): LabelTable {
    if o.Some? then o.value else []
  }

  function UnsubscribedOrEmpty(o: Option<map<string, bool>>): map<string, bool> {
    if o.Some? then o.value else map[]
  }

  /** `get_sender_rules` as written: a missing store leaves its variable unbound, and
      the function fails. */
  function SenderRulesAsWritten(labels: Option<LabelTable>, unsubscribed: Option<map<string, bool>>): (r: Option<Rules>)
    ensures r.Some? <==> labels.Some? && unsubscribed.Some?
    ensures r.Some? ==> r.value == RulesOf(labels.value, unsubscribed.value)
  {
    if labels.None? || unsubscribed.None? then None else Some(RulesOf(labels.value, unsubscribed.value))
  }

  /** `get_sender_rules` as evidently intended: a missing store contributes no rules. */
  method GetSenderRules(files: Files) returns (rules: Rules)
    ensures rules == RulesOf(TableOrEmpty(files.senderLabels), UnsubscribedOrEmpty(files.unsubscribed))
  {
    var table := Loaded(TableOrEmpty(files.senderLabels));
    var unsubscribed := UnsubscribedOrEmpty(files.unsubscribed);
    rules := map[];
    var i := 0;
    while i < |table|
      invariant 0 <= i <= |table|
      invariant rules == LabelRules(table[..i])
    {
      var rule := table[i].0;
      var addresses := table[i].1;
      LabelRulesStep(table, i);
      if !IsPlaceholder(rule) {
        var j := 0;
        while j < |addresses|
          invariant 0 <= j <= |addresses|
          invariant rules == AssignAll(LabelRules(table[..i]), addresses[..j], rule)
        {
          AssignStep(LabelRules(table[..i]), addresses, j, rule);
          rules := rules[addresses[j] := rule];
          j := j + 1;
        }
        assert addresses[..j] == addresses;
      }
      i := i + 1;
    }
    assert table[..i] == table;
    rules := AddUnsubscribes(rules, unsubscribed.Keys);
  }

  /** Marks every address of `keys` as unsubscribed, overriding any label rule. */
  method AddUnsubscribes(rules0: Rules, keys: set<string>) returns (rules: Rules)
    ensures rules == rules0 + UnsubscribeRules(keys)
  {
    rules := rules0;
    var rest := keys;
    ghost var done: set<string> := {};
    assert rules0 + UnsubscribeRules(done) == rules0;
    while rest != {}
      invariant rest + done == keys && rest !! done
      invariant rules == rules0 + UnsubscribeRules(done)
      decreases |rest|
    {
      var a :| a in rest;
      UnsubscribeStep(rules0, done, a);
      rules := rules[a := UnsubscribedRule];
      rest := rest - {a};
      done := done + {a};
    }
    assert done == keys;
  }

  /** The first group of the bracket pattern `<\s*(.*?)\s*>`: at the leftmost `<` where
      it matches, the text up to the next `>` with surrounding whitespace removed, which
      may not hold a line break (`.` does not match one). */
  function BracketContent(s: string): Option<string>
    decreases |s|
  {
    if s == [] then None
    else if s[0] == '<' && FirstIndex(s[1..], '>').Some?
         && '\n' !in Trim(s[1..1 + FirstIndex(s[1..], '>').value])
    then Some(Trim(s[1..1 + FirstIndex(s[1..], '>').value]))
    else BracketContent(s[1..])
  }

  /** `get_sender`: the bracketed address, or, for a `From: ` line without brackets, the
      rest of the line wrapped in brackets and parsed once more. */
  function GetSender(raw: string): Option<string>
    decreases if StartsWith(raw, "From: ") then 1 else 0
  {
    match BracketContent(raw)
    case Some(a) => Some(a)
    case None =>
      if StartsWith(raw, "From: ") then GetSender("<" + raw[6..] + ">") else None
  }

  /** A header `name <address>...` gives the trimmed address when the name holds no `<`
      and the address no `>` or line break. */
  lemma {:induction false} AngleAddress(name: string, address: string, rest: string)
    requires '<' !in name && '>' !in address && '\n' !in address
    ensures GetSender(name + "<" + address + ">" + rest) == Some(Trim(address))
  {
    BracketAfter(name, address, rest);
  }

  lemma {:induction false} BracketAfter(name: string, address: string, rest: string)
    requires '<' !in name && '>' !in address && '\n' !in address
    ensures BracketContent(name + "<" + address + ">" + rest) == Some(Trim(address))
    decreases |name|
  {
    var tail := address + ">" + rest;
    var s := name + "<" + address + ">" + rest;
    if name == [] {
      assert s == "<" + tail;
      assert s[0] == '<' && s[1..] == tail;
      assert FirstIndex(tail, '>') == Some(|address|) by {
        FirstIndexAfter(address, '>', rest);
      }
      assert tail[..|address|] == address;
      assert s[1..1 + |address|] == address;
      TrimSubsequence(address);
    } else {
      assert s == [name[0]] + (name[1..] + "<" + tail);
      assert s[0] != '<' by { assert s[0] == name[0]; }
      assert s[1..] == name[1..] + "<" + address + ">" + rest;
      BracketAfter(name[1..], address, rest);
    }
  }

  /** Trimming keeps only characters of the input. */
  lemma TrimSubsequence(s: string)
    ensures forall c :: c in Trim(s) ==> c in s
  {
    var l := TrimLeft(s);
    assert forall c :: c in l ==> c in s;
    assert forall c :: c in TrimRight(l) ==> c in l;
  }

  /** Without brackets, a `From: ` line is parsed as if its rest were bracketed. */
  lemma BareFromLine(address: string)
    requires '<' !in address && '>' !in address && '\n' !in address
    ensures GetSender("From: " + address) == Some(Trim(address))
  {
    var line := "From: " + address;
    var wrapped := "<" + address + ">";
    assert '<' !in line by {
      assert '<' !in "From: ";
    }
    NoOpenBracket(line);
    assert StartsWith(line, "From: ") && line[6..] == address by {
      assert line[..6] == "From: ";
    }
    assert GetSender(line) == GetSender(wrapped);
    BracketedAddress(address);
  }

  /** An address in brackets is its own sender, trimmed. */
  lemma BracketedAddress(address: string)
    requires '>' !in address && '\n' !in address
    ensures GetSender("<" + address + ">") == Some(Trim(address))
  {
    var w := "<" + address + ">";
    assert [] + "<" + address + ">" + [] == w;
    BracketAfter([], address, []);
    WrappedSender(w, Trim(address));
  }

  /** Text whose bracket content is found is its own sender. */
  lemma WrappedSender(s: string, a: string)
    requires BracketContent(s) == Some(a)
    ensures GetSender(s) == Some(a)
  {
  }

  lemma {:induction false} NoOpenBracket(s: string)
    requires '<' !in s
    ensures BracketContent(s) == None
    decreases |s|
  {
    if s != [] {
      NoOpenBracket(s[1..]);
    }
  }

  /** Any other text without brackets gives no address. */
  lemma NoAddress(s: string)
    requires '<' !in s && !StartsWith(s, "From: ")
    ensures GetSender(s) == None
  {
    NoOpenBracket(s);
  }

  /** The rule that applies to a message with this From header, if any. */
  function RuleFor(header: string, rules: Rules): Option<string> {
    match GetSender(header)
    case Some(a) => if a in rules then Some(rules[a]) else None
    case None => None
  }

  /** The label a rule puts on a message. */
  function RuleLabel(rule: string): string {
    if rule == UnsubscribedRule then Trash else StandardNamespace + rule
  }

  /** The commands `process_email` sends for one message, given the FROM header the
      server returns for it (`None`: no data). */
  function ProcessPlan(uid: Uid, header: Option<string>, rules: Rules): seq<Request> {
    [Fetch(ByUid, uid, FromField)]
    + (match header
       case None => []
       case Some(h) =>
         [Store(ByUid, uid, Add, StandardChecked)]
         + (match RuleFor(h, rules)
            case None => []
            case Some(rule) => [Store(ByUid, uid, Add, RuleLabel(rule))]))
  }

  method ProcessEmail(session: Session, uid: Uid, rules: Rules, fromHeader: Uid -> Option<string>)
    requires session.Valid()
    modifies session`log, session`labels
    ensures session.Valid()
    ensures session.log == old(session.log) + ProcessPlan(uid, fromHeader(uid), rules)
  {
    session.Send(Fetch(ByUid, uid, FromField));
    if fromHeader(uid).None? {
      return;
    }
    var address := GetSender(fromHeader(uid).value);
    var _ := session.Store(ByUid, uid, Add, StandardChecked);
    if address.Some? && address.value in rules {
      if rules[address.value] == UnsubscribedRule {
        var _ := session.Store(ByUid, uid, Add, Trash);
      } else {
        var _ := session.Store(ByUid, uid, Add, StandardNamespace + rules[address.value]);
      }
    }
  }

  /** What processing adds to a message's labels when the server accepts every STORE. */
  function Outcome(header: Option<string>, rules: Rules): set<string> {
    match header
    case None => {}
    case Some(h) =>
      {StandardChecked} + match RuleFor(h, rules) {
        case None => {}
        case Some(rule) => {RuleLabel(rule)}
      }
  }

  /** Without data nothing is stored; otherwise the first STORE is always the checked
      marker, and at most one more follows: `\Trash` for an unsubscribed sender, the
      sender's label for any other rule. */
  lemma PlanShape(uid: Uid, header: Option<string>, rules: Rules)
    ensures var p := ProcessPlan(uid, header, rules);
            && p[0] == Fetch(ByUid, uid, FromField)
            && (header.None? <==> |p| == 1)
            && (header.Some? ==> p[1] == Store(ByUid, uid, Add, StandardChecked))
            && (header.Some? && RuleFor(header.value, rules) == Some(UnsubscribedRule) ==>
                  p == [p[0], p[1], Store(ByUid, uid, Add, Trash)])
            && (header.Some? && RuleFor(header.value, rules).Some? && RuleFor(header.value, rules) != Some(UnsubscribedRule) ==>
                  p == [p[0], p[1], Store(ByUid, uid, Add, StandardNamespace + RuleFor(header.value, rules).value)])
            && (header.Some? && RuleFor(header.value, rules).None? ==> |p| == 2)
  {
  }

  /** When every STORE is accepted, processing a message adds exactly its outcome labels
      to it and touches no other message. */
  lemma ProcessOutcome(labels: Labels, order: seq<Uid>, uid: Uid, header: Option<string>, rules: Rules,
                       codeAt: nat -> Code, start: nat)
    requires uid in labels
    requires forall i :: codeAt(i) == OK
    ensures Replay(labels, order, ProcessPlan(uid, header, rules), codeAt, start)
         == labels[uid := labels[uid] + Outcome(header, rules)]
  {
    var f := Fetch(ByUid, uid, FromField);
    ReplayStep(labels, order, [], f, codeAt, start);
    assert [] + [f] == [f];
    assert Replay(labels, order, [f], codeAt, start) == labels;
    if header.None? {
      assert ProcessPlan(uid, header, rules) == [f];
      assert labels[uid := labels[uid] + {}] == labels by {
        assert labels[uid] + {} == labels[uid];
      }
    } else {
      ProcessWithData(labels, order, uid, header.value, rules, codeAt, start);
    }
  }

  /** `ProcessOutcome` for a message whose header was read. */
  lemma ProcessWithData(labels: Labels, order: seq<Uid>, uid: Uid, h: string, rules: Rules, codeAt: nat -> Code, start: nat)
    requires uid in labels
    requires forall i :: codeAt(i) == OK
    requires Replay(labels, order, [Fetch(ByUid, uid, FromField)], codeAt, start) == labels
    ensures Replay(labels, order, ProcessPlan(uid, Some(h), rules), codeAt, start)
         == labels[uid := labels[uid] + Outcome(Some(h), rules)]
  {
    var p := ProcessPlan(uid, Some(h), rules);
    var f := Fetch(ByUid, uid, FromField);
    var m := Store(ByUid, uid, Add, StandardChecked);
    var afterMark := labels[uid := labels[uid] + {StandardChecked}];
    assert [f] + [m] == [f, m];
    ReplayExtend(labels, order, [f], m, [f, m], codeAt, start, labels, afterMark);
    match RuleFor(h, rules) {
      case None =>
        assert p == [f, m];
        assert Outcome(Some(h), rules) == {StandardChecked};
      case Some(rule) =>
        var x := Store(ByUid, uid, Add, RuleLabel(rule));
        assert p == [f, m] + [x];
        var last := afterMark[uid := afterMark[uid] + {RuleLabel(rule)}];
        ReplayExtend(labels, order, [f, m], x, p, codeAt, start, afterMark, last);
        assert Outcome(Some(h), rules) == {StandardChecked} + {RuleLabel(rule)};
        assert afterMark[uid] + {RuleLabel(rule)} == labels[uid] + ({StandardChecked} + {RuleLabel(rule)});
    }
  }

  function PlanOf(rules: Rules, fromHeader: Uid -> Option<string>): Uid -> seq<Request> {
    (u: Uid) => ProcessPlan(u, fromHeader(u), rules)
  }

  /** `organize_emails`: the cancel flag is polled before each message and first seen set
      at poll `cancelAt`; after the k-th message the progress callback gets k/n, together
      with the bar's count before it advances. */
  method OrganizeEmails(session: Session, uids: seq<Uid>, rules: Rules, fromHeader: Uid -> Option<string>,
                        cancelAt: nat)
    returns (progress: seq<Sample>)
    requires session.Valid()
    modifies session`log, session`labels
    ensures session.Valid()
    ensures session.log == old(session.log) + FlatMap(uids[..Min(cancelAt, |uids|)], PlanOf(rules, fromHeader))
    ensures progress == ItemSamples(Min(cancelAt, |uids|), |uids|, true)
  {
    var counter := 0;
    progress := [];
    ghost var log0 := session.log;
    var k := 0;
    while k < |uids|
      invariant 0 <= k <= |uids| && k <= cancelAt
      invariant session.Valid()
      invariant counter == k
      invariant session.log == log0 + FlatMap<Uid, Request>(uids[..k], PlanOf(rules, fromHeader))
      invariant progress == ItemSamples(k, |uids|, true)
    {
      if k == cancelAt {
        return;
      }
      ghost var before := session.log;
      ProcessEmail(session, uids[k], rules, fromHeader);
      FlatMapStep<Uid, Request>(uids, k, PlanOf(rules, fromHeader));
      AppendAfter(log0, FlatMap<Uid, Request>(uids[..k], PlanOf(rules, fromHeader)),
                  PlanOf(rules, fromHeader)(uids[k]), before, session.log);
      counter := counter + 1;
      progress := progress + [Sample(counter, k, |uids|)];
      k := k + 1;
    }
    assert uids[..|uids|] == uids;
  }

  /** When every STORE is accepted and the ids are distinct messages, each processed
      message gains exactly its outcome labels, and every other message is unchanged. */
  lemma {:induction false} OrganizeOutcome(labels: Labels, order: seq<Uid>, uids: seq<Uid>, rules: Rules,
                                           fromHeader: Uid -> Option<string>, codeAt: nat -> Code, start: nat,
                                           v: Uid)
    requires forall i :: codeAt(i) == OK
    requires forall u :: u in uids ==> u in labels
    requires forall i, j :: 0 <= i < j < |uids| ==> uids[i] != uids[j]
    requires v in labels
    ensures Replay(labels, order, FlatMap(uids, PlanOf(rules, fromHeader)), codeAt, start)[v]
         == if v in uids then labels[v] + Outcome(fromHeader(v), rules) else labels[v]
  {
    if uids != [] {
      var p := uids[..|uids| - 1];
      var u := uids[|uids| - 1];
      assert uids == p + [u];
      DistinctLast(uids);
      OrganizeStep(labels, order, uids, rules, fromHeader, codeAt, start);
      OrganizeOutcome(labels, order, p, rules, fromHeader, codeAt, start, v);
    }
  }

  /** Processing the last message of a walk updates only that message's labels. */
  lemma OrganizeStep(labels: Labels, order: seq<Uid>, uids: seq<Uid>, rules: Rules,
                     fromHeader: Uid -> Option<string>, codeAt: nat -> Code, start: nat)
    requires forall i :: codeAt(i) == OK
    requires uids != [] && uids[|uids| - 1] in labels
    ensures var f: Uid -> seq<Request> := PlanOf(rules, fromHeader);
            var u := uids[|uids| - 1];
            var mid := Replay(labels, order, FlatMap<Uid, Request>(uids[..|uids| - 1], f), codeAt, start);
            Replay(labels, order, FlatMap<Uid, Request>(uids, f), codeAt, start)
            == mid[u := mid[u] + Outcome(fromHeader(u), rules)]
  {
    var p := uids[..|uids| - 1];
    var u := uids[|uids| - 1];
    var f: Uid -> seq<Request> := PlanOf(rules, fromHeader);
    var plans := FlatMap<Uid, Request>(p, f);
    var mid := Replay(labels, order, plans, codeAt, start);
    assert FlatMap<Uid, Request>(uids, f) == plans + ProcessPlan(u, fromHeader(u), rules);
    ReplayAppend(labels, order, plans, ProcessPlan(u, fromHeader(u), rules), codeAt, start);
    ProcessOutcome(mid, order, u, fromHeader(u), rules, codeAt, start + |plans|);
  }

  /** `fetch_uids` as written: a plain SEARCH, whose reply is message sequence numbers,
      later used as UIDs. */
  function CandidateIdsAsWritten(order: seq<Uid>, labels: Labels): seq<nat>
    requires forall u :: u in order ==> u in labels
  {
    SearchIds(BySequence, WithoutLabel(StandardChecked), order, 0, labels, (u, s) => false)
  }

  /** A mailbox whose messages have UIDs 2 and 3, of which only 2 carries the checked
      marker: the plain SEARCH answers sequence number 2, so the organizer is handed id 2,
      handles the checked message 2 again and never reaches message 3. */
  lemma CandidateIdsAsWrittenPicksWrongMessage()
    ensures var labels := map[2 := {StandardChecked}, 3 := {}];
            UidsAscending([2, 3])
            && CandidateIdsAsWritten([2, 3], labels) == [2]
            && Resolve(ByUid, 2, [2, 3], labels) == Some(2)
            && StandardChecked in labels[2] && StandardChecked !in labels[3]
  {
    var labels := map[2 := {StandardChecked}, 3 := {}];
    assert [2, 3][1..] == [3];
    assert [3][1..] == [];
  }

  /** `fetch_uids` as evidently intended: a UID SEARCH for the unchecked messages. The
      candidates are exactly the messages without the checked marker, in server order. */
  method FetchUids(session: Session) returns (uids: seq<Uid>)
    requires session.Valid()
    modifies session`log
    ensures session.Valid()
    ensures session.log == old(session.log) + [Select(TargetMailbox), Search(ByUid, WithoutLabel(StandardChecked))]
    ensures uids == SearchIds(ByUid, WithoutLabel(StandardChecked), session.order, 0, session.labels, session.fromMatches)
    ensures forall u :: u in uids <==> u in session.order && StandardChecked !in session.labels[u]
    ensures forall i, j :: 0 <= i < j < |uids| ==> uids[i] != uids[j]
  {
    session.Send(Select(TargetMailbox));
    var ids := session.Search(ByUid, WithoutLabel(StandardChecked));
    forall u ensures u in ids <==> u in session.order && StandardChecked !in session.labels[u] {
      UidSearchExact(WithoutLabel(StandardChecked), session.order, 0, session.labels, session.fromMatches, u);
    }
    UidSearchDistinct(WithoutLabel(StandardChecked), session.order, 0, session.labels, session.fromMatches);
    uids := ids;
  }

  /** `email_organizer`: rules first, then the candidates, then the walk over them. */
  method EmailOrganizer(files: Files, session: Session, fromHeader: Uid -> Option<string>, cancelAt: nat)
    returns (progress: seq<Sample>)
    requires session.Valid()
    modifies session`log, session`labels
    ensures session.Valid()
    ensures var uids := SearchIds(ByUid, WithoutLabel(StandardChecked), session.order, 0, old(session.labels),
                                  session.fromMatches);
            var rules := RulesOf(TableOrEmpty(files.senderLabels), UnsubscribedOrEmpty(files.unsubscribed));
            && session.log == old(session.log) + [Select(TargetMailbox), Search(ByUid, WithoutLabel(StandardChecked))]
                              + FlatMap(uids[..Min(cancelAt, |uids|)], PlanOf(rules, fromHeader))
            && progress == ItemSamples(Min(cancelAt, |uids|), |uids|, true)
  {
    var rules := GetSenderRules(files);
    var uids := FetchUids(session);
    assert session.labels == old(session.labels);
    progress := OrganizeEmails(session, uids, rules, fromHeader, cancelAt);
  }
}
