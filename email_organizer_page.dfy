/** The page that starts the rule-based organizer: it checks that a sender scan has been
    done and that some rule has been set up, and offers the organize button only when both
    hold. */
module EmailOrganizerPage {
  import opened Wrappers
  import opened Stores
  import SenderListPage

  /** A real (non-placeholder) key of the label store whose address list is not empty. */
  predicate Assigned(t: LabelTable, k: string) {
    !IsPlaceholder(k) && Lookup(t, k).Some? && |Lookup(t, k).value| > 0
  }

  /** Some sender has been given a label, or some sender has been unsubscribed from. */
  predicate HasRules(labels: Option<LabelTable>, unsubscribed: Option<map<string, bool>>) {
    || (labels.Some? && exists i :: 0 <= i < |labels.value| && Assigned(labels.value, labels.value[i].0))
    || (unsubscribed.Some? && |unsubscribed.value| > 0)
  }

  /** A sender scan has written a directory with at least one sender. */
  predicate Scanned(senders: Option<SenderFile>) {
    senders.Some? && senders.value.Directory? && |senders.value.entries| > 0
  }

  /** `check_has_rules`: the label store's keys are walked in order and the first real
      label with an address answers yes; otherwise a non-empty unsubscribe store does. */
  method CheckHasRules(files: Files) returns (has: bool)
    ensures has == HasRules(files.senderLabels, files.unsubscribed)
  {
    if files.senderLabels.Some? {
      var t := files.senderLabels.value;
      var i := 0;
      while i < |t|
        invariant 0 <= i <= |t|
        invariant forall j :: 0 <= j < i ==> !Assigned(t, t[j].0)
      {
        if Assigned(t, t[i].0) {
          return true;
        }
        i := i + 1;
      }
    }
    if files.unsubscribed.Some? && |files.unsubscribed.value| > 0 {
      return true;
    }
    return false;
  }

  /** `check_has_scanned_senders`: a missing directory file is created as the empty list
      and answers no; otherwise the answer is whether it holds a sender. */
  method CheckHasScannedSenders(files: Files) returns (has: bool)
    modifies files`senders
    ensures has == Scanned(old(files.senders))
    ensures files.senders == if old(files.senders).None? then Some(EmptyList) else old(files.senders)
  {
    match files.senders {
      case None =>
        files.senders := Some(EmptyList);
        has := false;
      case Some(EmptyList) =>
        has := false;
      case Some(Directory(entries)) =>
        has := |entries| > 0;
    }
  }

  /** What the page shows below its descriptions. */
  datatype View = MissingScan | MissingRules | OrganizeButton

  /** The branch of `__init__`: a missing scan is reported before missing rules. */
  function ViewFor(scanned: bool, rules: bool): (v: View)
    ensures v == MissingScan <==> !scanned
    ensures v == MissingRules <==> scanned && !rules
    ensures v == OrganizeButton <==> scanned && rules
  {
    if !scanned then MissingScan
    else if !rules then MissingRules
    else OrganizeButton
  }

  /** Giving a real label to a sender sets up a rule, whatever the unsubscribe store holds. */
  lemma LabelMakesRule(t: LabelTable, labelName: string, address: string,
                       unsubscribed: Option<map<string, bool>>)
    requires !IsPlaceholder(labelName)
    ensures HasRules(Some(SenderListPage.WithLabel(t, labelName, address)), unsubscribed)
  {
    var u := SenderListPage.WithLabel(t, labelName, address);
    SenderListPage.WithLabelAppends(t, labelName, address, labelName);
    assert HasKey(u, labelName);
    var i :| 0 <= i < |u| && u[i].0 == labelName;
    assert Assigned(u, u[i].0);
  }

  /** Unsubscribing from a sender sets up a rule, whatever the label store holds. */
  lemma UnsubscribeMakesRule(store: Option<map<string, bool>>, address: string,
                             labels: Option<LabelTable>)
    ensures HasRules(labels, Some(SenderListPage.Unsubscribed(store, address)))
  {
    var m := SenderListPage.Unsubscribed(store, address);
    assert address in m;
    assert |m| > 0 by {
      assert m.Keys != {};
    }
  }

  /** After the label and unsubscribe resets no rule is left. */
  lemma ResetLeavesNoRules()
    ensures !HasRules(Some(EmptyLabelTable), Some(map[]))
  {
    forall i | 0 <= i < |EmptyLabelTable| ensures !Assigned(EmptyLabelTable, EmptyLabelTable[i].0) {
      assert IsPlaceholder(EmptyLabelTable[i].0);
    }
  }

  /** The page's state. */
  class EmailOrganizerPage {
    var hasScannedSenders: bool
    var hasRules: bool
    var view: View
    /** `scan_cancel_flag`, shared with the organizer run. */
    var cancelled: bool
    const files: Files

    /** `__init__`: the scan check (which may create the directory file), then the rules
        check, then the branch. */
    constructor (files: Files)
      modifies files`senders
      ensures hasScannedSenders == Scanned(old(files.senders))
      ensures files.senders == if old(files.senders).None? then Some(EmptyList) else old(files.senders)
      ensures hasRules == HasRules(files.senderLabels, files.unsubscribed)
      ensures view == ViewFor(hasScannedSenders, hasRules)
      ensures !cancelled && this.files == files
    {
      var scanned := CheckHasScannedSenders(files);
      var rules := CheckHasRules(files);
      hasScannedSenders := scanned;
      hasRules := rules;
      view := ViewFor(scanned, rules);
      cancelled := false;
      this.files := files;
    }

    /** `scan`: the flag is cleared before the organizer run starts. */
    method Scan()
      modifies this
      ensures !cancelled
      ensures hasScannedSenders == old(hasScannedSenders) && hasRules == old(hasRules)
      ensures view == old(view)
    {
      cancelled := false;
    }

    /** `cancel_scan`: only the shared flag changes. */
    method CancelScan()
      modifies this
      ensures cancelled
      ensures hasScannedSenders == old(hasScannedSenders) && hasRules == old(hasRules)
      ensures view == old(view)
    {
      cancelled := true;
    }
  }
}
