/** One sender of the sender list: its fixed data, its text rendering and ordering, and the
    modes of its row (adding a label, deleting the sender) with the callbacks the row makes
    to the page. */
module SenderEntryRow {
  import opened Wrappers
  import opened Text

  // Rendering.

  const AddressField: string := "Email Address: "
  const NameField: string := ", Name: "
  const CountField: string := ", Emails Sent: "

  /** `__str__`: the name field is left out when the name is empty. */
  function Render(address: string, name: string, frequency: nat): string {
    if name == "" then AddressField + address + CountField + NatToString(frequency)
    else AddressField + address + NameField + name + CountField + NatToString(frequency)
  }

  /** The rendering starts with the address field and ends with the count field; a
      non-empty name is inserted as a field of its own between them, an empty one is not
      shown at all. */
  lemma RenderFields(address: string, name: string, frequency: nat)
    ensures StartsWith(Render(address, name, frequency), AddressField + address)
    ensures Render("", "", frequency)[|AddressField|..] == CountField + NatToString(frequency)
    ensures name == "" ==> Render(address, name, frequency) == Render(address, "", frequency)
    ensures name != "" ==>
      Render(address, name, frequency)
      == Render(address, "", frequency)[..|AddressField + address|] + NameField + name
         + Render(address, "", frequency)[|AddressField + address|..]
    ensures |Render(address, name, frequency)|
            == |Render(address, "", frequency)| + (if name == "" then 0 else |NameField| + |name|)
  {
    var head := AddressField + address;
    var tail := CountField + NatToString(frequency);
    assert Render(address, "", frequency) == head + tail;
    assert (head + tail)[..|head|] == head;
    assert (head + tail)[|head|..] == tail;
    assert Render("", "", frequency) == AddressField + tail;
    assert (AddressField + tail)[|AddressField|..] == tail;
    if name != "" {
      assert Render(address, name, frequency) == head + NameField + name + tail;
    }
    assert Render(address, name, frequency)[..|head|] == head;
  }

  // The callbacks a row makes to the page, with the row's address.

  datatype Call =
    | AddLabelCall(address: string, labelName: string)
    | UnsubscribeCall(address: string)
    | ResubscribeCall(address: string)
    | DeleteCall(address: string)

  /** A label as handed to the page: non-empty and stripped. */
  predicate StrippedLabel(labelName: string) {
    labelName != [] && !IsSpace(labelName[0]) && !IsSpace(labelName[|labelName| - 1])
  }

  /** A non-empty `strip()` result is a label as the page receives it. */
  lemma TrimmedLabel(text: string)
    requires Trim(text) != ""
    ensures StrippedLabel(Trim(text))
  {
  }

  /** A callback log of the row for `address`: every call carries the address, and every
      label is stripped and non-empty. */
  predicate CallsOf(calls: seq<Call>, address: string) {
    forall i :: 0 <= i < |calls| ==>
      calls[i].address == address && (calls[i].AddLabelCall? ==> StrippedLabel(calls[i].labelName))
  }

  lemma CallsOfAppend(calls: seq<Call>, address: string, c: Call)
    requires CallsOf(calls, address) && c.address == address
    requires c.AddLabelCall? ==> StrippedLabel(c.labelName)
    ensures CallsOf(calls + [c], address)
    ensures multiset(calls + [c])[DeleteCall(address)]
            == multiset(calls)[DeleteCall(address)] + (if c == DeleteCall(address) then 1 else 0)
  {
    var d := calls + [c];
    assert forall i :: 0 <= i < |calls| ==> d[i] == calls[i];
  }

  /** `SenderEntry`, without its widgets: `unsubscribed` is `None` while the attribute has
      not been set (no unsubscribe store when the row was built, and no click since). */
  class SenderEntry {
    const address: string
    const name: string
    const frequency: nat
    var addingLabel: bool
    var deletingSender: bool
    /** `delete_in_progress`; `false` also stands for the attribute not existing yet. */
    var deleteInProgress: bool
    var unsubscribed: Option<bool>
    /** The text of the label entry. */
    var labelEntry: string
    /** The callbacks made so far, oldest first. */
    var calls: seq<Call>

    /** The row's invariant: every callback carries its address and every label is
        stripped and non-empty; the two modes are never on together; and the delete
        callback has been made exactly once if a deletion is in progress and never
        otherwise. */
    predicate Valid()
      reads this
    {
      && CallsOf(calls, address)
      && !(addingLabel && deletingSender)
      && (deleteInProgress ==> deletingSender)
      && multiset(calls)[DeleteCall(address)] == (if deleteInProgress then 1 else 0)
    }

    /** Which buttons respond: the mode buttons disable each other's side (and the
        subscription button), and the deletion destroys all three. */
    predicate LabelButtonEnabled()
      reads this
    {
      !deletingSender && !deleteInProgress
    }

    predicate DeleteButtonEnabled()
      reads this
    {
      !addingLabel && !deleteInProgress
    }

    predicate SubscriptionButtonEnabled()
      reads this
    {
      !addingLabel && !deletingSender && !deleteInProgress
    }

    constructor (address: string, name: string, frequency: nat)
      ensures Valid()
      ensures this.address == address && this.name == name && this.frequency == frequency
      ensures !addingLabel && !deletingSender && !deleteInProgress
      ensures unsubscribed == None && labelEntry == "" && calls == []
    {
      this.address := address;
      this.name := name;
      this.frequency := frequency;
      addingLabel := false;
      deletingSender := false;
      deleteInProgress := false;
      unsubscribed := None;
      labelEntry := "";
      calls := [];
    }

    /** `__str__`. */
    function ToString(): string {
      Render(address, name, frequency)
    }

    /** `__lt__`: by the message count alone. */
    function Less(other: SenderEntry): bool {
      frequency < other.frequency
    }

    /** `__eq__`: by the message count alone. */
    function Same(other: SenderEntry): bool {
      frequency == other.frequency
    }

    /** `init_sub_button`: with an unsubscribe store the flag says whether the address is
        one of its keys; without one the flag is left as it was. */
    method InitSubButton(store: Option<map<string, bool>>)
      requires Valid()
      modifies this
      ensures Valid()
      ensures unsubscribed == if store.Some? then Some(address in store.value) else old(unsubscribed)
      ensures addingLabel == old(addingLabel) && deletingSender == old(deletingSender)
      ensures deleteInProgress == old(deleteInProgress)
      ensures labelEntry == old(labelEntry) && calls == old(calls)
    {
      if store.Some? {
        unsubscribed := Some(address in store.value);
      }
    }

    /** `add_label`: label mode is switched over. */
    method AddLabel()
      requires Valid() && LabelButtonEnabled()
      modifies this
      ensures Valid()
      ensures addingLabel == !old(addingLabel)
      ensures deletingSender == old(deletingSender) && deleteInProgress == old(deleteInProgress)
      ensures unsubscribed == old(unsubscribed) && labelEntry == old(labelEntry) && calls == old(calls)
    {
      addingLabel := !addingLabel;
    }

    /** Typing into the label entry. */
    method TypeLabel(text: string)
      requires Valid()
      modifies this
      ensures Valid()
      ensures labelEntry == text
      ensures addingLabel == old(addingLabel) && deletingSender == old(deletingSender)
      ensures deleteInProgress == old(deleteInProgress)
      ensures unsubscribed == old(unsubscribed) && calls == old(calls)
    {
      labelEntry := text;
    }

    /** `add_label_confirm`: a stripped, non-empty label clears the entry, goes to the
        page with the address, and ends label mode; otherwise nothing happens. */
    method AddLabelConfirm()
      requires Valid() && addingLabel
      modifies this
      ensures Valid()
      ensures Trim(old(labelEntry)) != "" ==>
        && calls == old(calls) + [AddLabelCall(address, Trim(old(labelEntry)))]
        && labelEntry == "" && !addingLabel
      ensures Trim(old(labelEntry)) == "" ==>
        calls == old(calls) && labelEntry == old(labelEntry) && addingLabel
      ensures deletingSender == old(deletingSender) && deleteInProgress == old(deleteInProgress)
      ensures unsubscribed == old(unsubscribed)
    {
      var labelName := Trim(labelEntry);
      if labelName != "" {
        TrimmedLabel(labelEntry);
        ConfirmLabel(labelName);
      }
    }

    /** The branch of `add_label_confirm` that hands a label over. */
    method ConfirmLabel(labelName: string)
      requires Valid() && addingLabel && StrippedLabel(labelName)
      modifies this
      ensures Valid()
      ensures calls == old(calls) + [AddLabelCall(address, labelName)]
      ensures labelEntry == "" && !addingLabel
      ensures deletingSender == old(deletingSender) && deleteInProgress == old(deleteInProgress)
      ensures unsubscribed == old(unsubscribed)
    {
      labelEntry := "";
      AppendCall(AddLabelCall(address, labelName));
      AddLabel();
    }

    /** `unsubscribe`: the page is told, and the flag is set. */
    method Unsubscribe()
      requires Valid() && SubscriptionButtonEnabled()
      modifies this
      ensures Valid()
      ensures calls == old(calls) + [UnsubscribeCall(address)] && unsubscribed == Some(true)
      ensures addingLabel == old(addingLabel) && deletingSender == old(deletingSender)
      ensures deleteInProgress == old(deleteInProgress) && labelEntry == old(labelEntry)
    {
      AppendCall(UnsubscribeCall(address));
      unsubscribed := Some(true);
    }

    /** `resubscribe`: the page is told, and the flag is cleared. */
    method Resubscribe()
      requires Valid() && SubscriptionButtonEnabled()
      modifies this
      ensures Valid()
      ensures calls == old(calls) + [ResubscribeCall(address)] && unsubscribed == Some(false)
      ensures addingLabel == old(addingLabel) && deletingSender == old(deletingSender)
      ensures deleteInProgress == old(deleteInProgress) && labelEntry == old(labelEntry)
    {
      AppendCall(ResubscribeCall(address));
      unsubscribed := Some(false);
    }

    /** A press of the subscription button: `update_sub_button` binds it to `resubscribe`
        while the sender is marked unsubscribed, and to `unsubscribe` otherwise (also
        before any store was read), so each press flips the flag and tells the page. */
    method PressSubscription()
      requires Valid() && SubscriptionButtonEnabled()
      modifies this
      ensures Valid()
      ensures old(unsubscribed) == Some(true) ==>
                calls == old(calls) + [ResubscribeCall(address)] && unsubscribed == Some(false)
      ensures old(unsubscribed) != Some(true) ==>
                calls == old(calls) + [UnsubscribeCall(address)] && unsubscribed == Some(true)
      ensures addingLabel == old(addingLabel) && deletingSender == old(deletingSender)
      ensures deleteInProgress == old(deleteInProgress) && labelEntry == old(labelEntry)
    {
      if unsubscribed == Some(true) {
        Resubscribe();
      } else {
        Unsubscribe();
      }
    }

    /** `delete`: delete mode is switched over. */
    method Delete()
      requires Valid() && DeleteButtonEnabled()
      modifies this
      ensures Valid()
      ensures deletingSender == !old(deletingSender)
      ensures addingLabel == old(addingLabel) && deleteInProgress == old(deleteInProgress)
      ensures unsubscribed == old(unsubscribed) && labelEntry == old(labelEntry) && calls == old(calls)
    {
      deletingSender := !deletingSender;
    }

    /** `delete_confirm`: the first confirmation marks the deletion as in progress and
        asks the page to delete the sender; later ones do nothing. */
    method DeleteConfirm()
      requires Valid() && deletingSender
      modifies this
      ensures Valid()
      ensures deleteInProgress
      ensures calls == if old(deleteInProgress) then old(calls) else old(calls) + [DeleteCall(address)]
      ensures addingLabel == old(addingLabel) && deletingSender == old(deletingSender)
      ensures unsubscribed == old(unsubscribed) && labelEntry == old(labelEntry)
    {
      if !deleteInProgress {
        deleteInProgress := true;
        AppendCall(DeleteCall(address));
      }
    }

    /** One callback more, at the end of the log, of this row and with a stripped label. */
    method AppendCall(c: Call)
      requires CallsOf(calls, address) && c.address == address
      requires c.AddLabelCall? ==> StrippedLabel(c.labelName)
      modifies this`calls
      ensures calls == old(calls) + [c] && CallsOf(calls, address)
      ensures multiset(calls)[DeleteCall(address)]
              == old(multiset(calls)[DeleteCall(address)]) + (if c == DeleteCall(address) then 1 else 0)
    {
      CallsOfAppend(calls, address, c);
      calls := calls + [c];
    }
  }

  /** The ordering of rows is the ordering of their counts: strict, total up to `Same`,
      and blind to address and name. */
  lemma FrequencyOrder(a: SenderEntry, b: SenderEntry, c: SenderEntry)
    ensures !a.Less(a) && a.Same(a)
    ensures a.Less(b) && b.Less(c) ==> a.Less(c)
    ensures a.Same(b) && b.Same(c) ==> a.Same(c)
    ensures a.Same(b) == b.Same(a)
    ensures (a.Less(b) || b.Less(a) || a.Same(b))
    ensures !(a.Less(b) && b.Less(a)) && !(a.Less(b) && a.Same(b))
  {
  }
}
