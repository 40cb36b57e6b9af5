/** The AI organizer page: the editable category list (kept in the data file and shown in a
    multiple-selection list box), and the checks made before the organizer is started. */
module AiOrganizerPage {
  import opened Wrappers
  import opened Text
  import opened Stores
  import AiOrganizer

  /** What the page's feedback line says. */
  datatype Feedback =
    | Blank
    | AlreadyExists(name: string)
    | EmptyName
    | Added(name: string)
    | NothingSelected
    | RemovedMany(count: nat)
    | Removed(name: string)
    | CountMissing
    | NoCategories
    | Started
    | Cancelling

  predicate Distinct(s: seq<string>) {
    forall i, j :: 0 <= i < j < |s| ==> s[i] != s[j]
  }

  /** `list.remove(x)`: drops the first occurrence of `x`. */
  function RemoveFirst(s: seq<string>, x: string): (r: seq<string>)
    requires x in s
    ensures multiset(r) == multiset(s) - multiset{x}
  {
    assert s == [s[0]] + s[1..];
    if s[0] == x then s[1..] else [s[0]] + RemoveFirst(s[1..], x)
  }

  /** In a list without repeats, removing the value at index `k` deletes index `k`. */
  lemma {:induction false} RemoveFirstAt(s: seq<string>, k: nat)
    requires Distinct(s) && k < |s|
    ensures RemoveFirst(s, s[k]) == s[..k] + s[k + 1..]
  {
    if k > 0 {
      var t := s[1..];
      ConsSlices(s, k);
      DistinctDelete(s, 0);
      assert s[..0] + s[1..] == t;
      assert s[0] != s[k] && t[k - 1] == s[k];
      RemoveFirstAt(t, k - 1);
    }
  }

  /** Putting the head back in front of a deletion in the tail. */
  lemma ConsSlices(s: seq<string>, k: nat)
    requires 0 < k < |s|
    ensures [s[0]] + (s[1..][..k - 1] + s[1..][k..]) == s[..k] + s[k + 1..]
  {
  }

  /** Deleting index `k` of a list without repeats leaves one without repeats, holding
      only values of the list. */
  lemma DistinctDelete(s: seq<string>, k: nat)
    requires Distinct(s) && k < |s|
    ensures Distinct(s[..k] + s[k + 1..])
    ensures forall x :: x in s[..k] + s[k + 1..] ==> x in s
  {
    var d := s[..k] + s[k + 1..];
    forall i, j | 0 <= i < j < |d| ensures d[i] != d[j] {
      var i' := if i < k then i else i + 1;
      var j' := if j < k then j else j + 1;
      assert d[i] == s[i'] && d[j] == s[j'];
    }
    forall x | x in d ensures x in s {
      var i :| 0 <= i < |d| && d[i] == x;
      assert d[i] == s[if i < k then i else i + 1];
    }
  }

  /** The entries of `xs` at the indices outside `S`, in order. */
  function Unselected(xs: seq<string>, S: set<nat>): (r: seq<string>)
    ensures |r| <= |xs|
  {
    if xs == [] then []
    else Unselected(xs[..|xs| - 1], S) + (if |xs| - 1 in S then [] else [xs[|xs| - 1]])
  }

  /** A value is kept exactly when it stands at some unselected index. */
  lemma {:induction false} UnselectedMembers(xs: seq<string>, S: set<nat>, x: string)
    ensures x in Unselected(xs, S) <==> exists j :: 0 <= j < |xs| && j !in S && xs[j] == x
  {
    if xs != [] {
      var n := |xs| - 1;
      var init := xs[..n];
      var tail := if n in S then [] else [xs[n]];
      assert Unselected(xs, S) == Unselected(init, S) + tail;
      assert x in Unselected(xs, S) <==> x in Unselected(init, S) || x in tail;
      UnselectedMembers(init, S, x);
      if x in Unselected(xs, S) {
        if x in tail {
          assert n !in S && xs[n] == x;
        } else {
          var j :| 0 <= j < |init| && j !in S && init[j] == x;
          assert xs[j] == x;
        }
      }
      if exists j :: 0 <= j < |xs| && j !in S && xs[j] == x {
        var j :| 0 <= j < |xs| && j !in S && xs[j] == x;
        if j < n {
          assert init[j] == x;
        } else {
          assert x in tail;
        }
      }
    }
  }

  /** Only the selected indices inside the list matter. */
  lemma {:induction false} UnselectedAgrees(xs: seq<string>, S: set<nat>, T: set<nat>)
    requires forall j: nat :: j < |xs| ==> (j in S <==> j in T)
    ensures Unselected(xs, S) == Unselected(xs, T)
  {
    if xs != [] {
      UnselectedAgrees(xs[..|xs| - 1], S, T);
    }
  }

  /** Removing the indices of `S` leaves `|xs| - |S|` entries. */
  lemma {:induction false} UnselectedLength(xs: seq<string>, S: set<nat>)
    requires forall s :: s in S ==> s < |xs|
    ensures |Unselected(xs, S)| == |xs| - |S|
  {
    if xs == [] {
      assert S == {};
    } else {
      var n := |xs| - 1;
      var S' := S - {n};
      UnselectedAgrees(xs[..n], S, S');
      UnselectedLength(xs[..n], S');
    }
  }

  /** With every selected index below `i`, the entries from `i` on are all kept. */
  lemma {:induction false} UnselectedSplit(xs: seq<string>, S: set<nat>, i: nat)
    requires i <= |xs| && forall s :: s in S ==> s < i
    ensures Unselected(xs, S) == Unselected(xs[..i], S) + xs[i..]
    decreases |xs|
  {
    if |xs| == i {
      assert xs[..i] == xs;
    } else {
      var init := xs[..|xs| - 1];
      UnselectedSplit(init, S, i);
      assert init[..i] == xs[..i];
      assert init[i..] + [xs[|xs| - 1]] == xs[i..];
    }
  }

  /** After removing the `|S|` selected indices below `i`, the entry at index `i` has moved
      to `i - |S|`, and deleting it there removes index `i` too. */
  lemma DeleteShifted(xs: seq<string>, S: set<nat>, i: nat)
    requires i < |xs| && forall s :: s in S ==> s < i
    ensures 0 <= i - |S| < |Unselected(xs, S)|
    ensures Unselected(xs, S)[i - |S|] == xs[i]
    ensures Unselected(xs, S)[..i - |S|] + Unselected(xs, S)[i - |S| + 1..] == Unselected(xs, S + {i})
  {
    var head := Unselected(xs[..i], S);
    assert xs[i..][0] == xs[i] && xs[i..][1..] == xs[i + 1..];
    assert xs[..i + 1][..i] == xs[..i];
    assert Unselected(xs[..i + 1], S + {i}) == Unselected(xs[..i], S + {i}) + [];
    assert Unselected(xs[..i], S + {i}) + [] == Unselected(xs[..i], S + {i});
    UnselectedAgrees(xs[..i], S + {i}, S);
    UnselectedSplit(xs, S + {i}, i + 1);
    assert Unselected(xs, S + {i}) == head + xs[i + 1..];
    UnselectedSplit(xs, S, i);
    UnselectedLength(xs[..i], S);
    SplitAt(head, xs[i..]);
  }

  /** Cutting `head + tail` at the first element of `tail`. */
  lemma SplitAt(head: seq<string>, tail: seq<string>)
    requires tail != []
    ensures (head + tail)[|head|] == tail[0]
    ensures (head + tail)[..|head|] + (head + tail)[|head| + 1..] == head + tail[1..]
  {
    assert (head + tail)[..|head|] == head;
    assert (head + tail)[|head| + 1..] == tail[1..];
  }

  /** The indices a selection names. */
  function Selected(selection: seq<nat>): set<nat> {
    set x | x in selection
  }

  predicate Ascending(s: seq<nat>) {
    forall a, b :: 0 <= a < b < |s| ==> s[a] < s[b]
  }

  /** Walking an ascending selection adds one new index at a time, above all before it. */
  lemma SelectedStep(selection: seq<nat>, k: nat)
    requires Ascending(selection) && k < |selection|
    ensures Selected(selection[..k + 1]) == Selected(selection[..k]) + {selection[k]}
    ensures forall s :: s in Selected(selection[..k]) ==> s < selection[k]
    ensures |Selected(selection[..k]) + {selection[k]}| == |Selected(selection[..k])| + 1
  {
    assert selection[..k + 1] == selection[..k] + [selection[k]];
    forall s | s in Selected(selection[..k]) ensures s < selection[k] {
      var a :| 0 <= a < k && selection[..k][a] == s;
      assert selection[a] == s;
    }
  }

  predicate AllDigits(s: string) {
    forall i :: 0 <= i < |s| ==> '0' <= s[i] <= '9'
  }

  /** The value of one or more decimal digits; `None` for text with any other character. */
  function DecimalValue(s: string): Option<nat> {
    if s == [] || !('0' <= s[|s| - 1] <= '9') then None
    else
      var digit := s[|s| - 1] as int - '0' as int;
      if |s| == 1 then Some(digit)
      else match DecimalValue(s[..|s| - 1]) {
        case None => None
        case Some(v) => Some(v * 10 + digit)
      }
  }

  /** A stripped numeral: an optional sign, then one or more digits. */
  function Numeral(t: string): Option<int> {
    if t != [] && (t[0] == '-' || t[0] == '+') then
      match DecimalValue(t[1..]) {
        case None => None
        case Some(v) => Some(if t[0] == '-' then -(v as int) else v)
      }
    else DecimalValue(t)
  }

  /** Python's `int(text)` on a decimal numeral with surrounding white space. */
  function ParseInt(text: string): Option<int> {
    Numeral(Trim(text))
  }

  /** Digits read as their decimal value; anything else is rejected. */
  lemma {:induction false} DecimalValueDigits(s: string)
    ensures DecimalValue(s).Some? <==> s != [] && AllDigits(s)
    ensures DecimalValue(s).Some? ==> DecimalValue(s).value == DigitsValue(s)
  {
    if s != [] && '0' <= s[|s| - 1] <= '9' && |s| > 1 {
      var init := s[..|s| - 1];
      DecimalValueDigits(init);
      if AllDigits(s) {
        assert AllDigits(init) by {
          forall i | 0 <= i < |init| ensures '0' <= init[i] <= '9' {
            assert init[i] == s[i];
          }
        }
      }
      if AllDigits(init) {
        assert AllDigits(s) by {
          forall i | 0 <= i < |s| ensures '0' <= s[i] <= '9' {
            if i < |init| { assert init[i] == s[i]; }
          }
        }
      }
    } else if s != [] && |s| == 1 && '0' <= s[0] <= '9' {
      assert s[..0] == [];
    }
  }

  /** Text that starts and ends with a non-space is its own `strip()`. */
  lemma TrimKeeps(s: string)
    requires s != [] && !IsSpace(s[0]) && !IsSpace(s[|s| - 1])
    ensures Trim(s) == s
  {
    assert TrimLeft(s) == s;
  }

  lemma NumeralNegative(s: string)
    requires s != [] && AllDigits(s)
    ensures Numeral("-" + s) == Some(-(DigitsValue(s) as int))
  {
    assert ("-" + s)[1..] == s;
    DecimalValueDigits(s);
  }

  lemma NumeralPlain(s: string)
    requires s != [] && AllDigits(s)
    ensures Numeral(s) == Some(DigitsValue(s))
  {
    DecimalValueDigits(s);
  }

  lemma TrimNegative(s: string)
    requires s != [] && AllDigits(s)
    ensures Trim("-" + s) == "-" + s
  {
    var m := "-" + s;
    assert m[|m| - 1] == s[|s| - 1];
    TrimKeeps(m);
  }

  /** Text that is its own `strip()` is read as it stands. */
  lemma ParseTrimmed(t: string)
    requires Trim(t) == t
    ensures ParseInt(t) == Numeral(t)
  {
  }

  /** A decimal number reads back as its value. */
  lemma ParsePlain(s: string)
    requires s != [] && AllDigits(s)
    ensures ParseInt(s) == Some(DigitsValue(s))
  {
    TrimKeeps(s);
    ParseTrimmed(s);
    NumeralPlain(s);
  }

  /** A decimal number after a minus sign reads back as the negated value. */
  lemma ParseNegative(s: string)
    requires s != [] && AllDigits(s)
    ensures ParseInt("-" + s) == Some(-(DigitsValue(s) as int))
  {
    TrimNegative(s);
    ParseTrimmed("-" + s);
    NumeralNegative(s);
  }

  /** A text without a digit, such as the cleared entry or "ALL", is not an integer. */
  lemma ParseIntNeedsDigits(text: string)
    requires forall i :: 0 <= i < |Trim(text)| ==> !('0' <= Trim(text)[i] <= '9')
    ensures ParseInt(text).None?
  {
    var t := Trim(text);
    if t != [] && (t[0] == '-' || t[0] == '+') {
      var u := t[1..];
      if u != [] {
        assert u[|u| - 1] == t[|t| - 1];
      }
    } else if t != [] {
      assert !('0' <= t[|t| - 1] <= '9');
    }
  }

  /** What `organize_inbox` decides: the count handed to the organizer, or why it is not
      started. */
  datatype Decision = Launch(count: AiOrganizer.Count) | Refuse(reason: Feedback)

  /** The checks of `organize_inbox`, in its order: with the switch off the count entry
      must hold an integer, and the category list must not be empty. */
  function Decide(organizeAll: bool, countText: string, categories: seq<string>): (d: Decision)
    ensures d.Launch? <==> (organizeAll || ParseInt(countText).Some?) && categories != []
    ensures d.Launch? && organizeAll ==> d.count == AiOrganizer.AllEmails
    ensures d.Launch? && !organizeAll ==> d.count == AiOrganizer.FirstN(ParseInt(countText).value)
    ensures d.Refuse? && !organizeAll && ParseInt(countText).None? ==> d.reason == CountMissing
    ensures d.Refuse? && (organizeAll || ParseInt(countText).Some?) ==> d.reason == NoCategories
  {
    var count := if organizeAll then Some(AiOrganizer.AllEmails)
                 else match ParseInt(countText) {
                   case None => None
                   case Some(n) => Some(AiOrganizer.FirstN(n))
                 };
    if count.None? then Refuse(CountMissing)
    else if |categories| == 0 then Refuse(NoCategories)
    else Launch(count.value)
  }

  /** The list box holds the names of the list (as a multiset: `remove` drops the first
      equal name, which for a repeated name need not be the selected line). */
  predicate Mirrors(categories: seq<string>, shown: seq<string>) {
    multiset(categories) == multiset(shown)
  }

  /** A list as this page writes it: shown in the same order, no repeats, no empty name. */
  predicate CleanLists(categories: seq<string>, shown: seq<string>) {
    categories == shown && Distinct(shown) && "" !in shown
  }

  /** Deleting list box line `k` and removing its name from the list raises no error, keeps
      the list box mirroring the list, and keeps a clean list clean. */
  lemma DeleteLine(categories: seq<string>, shown: seq<string>, k: nat)
    requires Mirrors(categories, shown) && k < |shown|
    ensures shown[k] in categories
    ensures Mirrors(RemoveFirst(categories, shown[k]), shown[..k] + shown[k + 1..])
    ensures CleanLists(categories, shown) ==>
      CleanLists(RemoveFirst(categories, shown[k]), shown[..k] + shown[k + 1..])
  {
    assert shown == shown[..k] + [shown[k]] + shown[k + 1..];
    assert shown[k] in multiset(shown);
    if CleanLists(categories, shown) {
      DistinctDelete(shown, k);
      RemoveFirstAt(shown, k);
    }
  }

  /** The multiple-selection loop of `remove_category` after `k` deletions: the first `k`
      selected indices are gone from `original` and everything else is left. */
  ghost predicate Removing(selection: seq<nat>, k: nat, removed: set<nat>, shown: seq<string>,
                           original: seq<string>) {
    && Ascending(selection) && (forall j :: 0 <= j < |selection| ==> selection[j] < |original|)
    && k <= |selection|
    && removed == Selected(selection[..k]) && |removed| == k
    && shown == Unselected(original, removed)
  }

  /** The next selected index, shifted down by the deletions so far, is a line of the list
      box, and deleting it there deletes that index of `original`. */
  lemma RemovingStep(selection: seq<nat>, k: nat, removed: set<nat>, shown: seq<string>, original: seq<string>)
    requires Removing(selection, k, removed, shown, original) && k < |selection|
    ensures k <= selection[k] && selection[k] - k < |shown|
    ensures Removing(selection, k + 1, removed + {selection[k]},
                     shown[..selection[k] - k] + shown[selection[k] - k + 1..], original)
  {
    SelectedStep(selection, k);
    DeleteShifted(original, removed, selection[k]);
  }

  /** The page, with its data file. */
  class AiOrganizerPage {
    /** `self.categories`. */
    var categories: seq<string>
    /** The list box's entries. */
    var shown: seq<string>
    /** The text of the category entry. */
    var entry: string
    var feedback: Feedback
    /** The "organize ALL" switch. */
    var organizeAll: bool
    /** The text of the message-count entry. */
    var countText: string
    /** The shared cancellation flag. */
    var cancelled: bool
    const files: Files

    predicate Valid()
      reads this
    {
      Mirrors(categories, shown)
    }

    predicate Clean()
      reads this
    {
      CleanLists(categories, shown)
    }

    /** `load_categories` into the list and the list box, with the switch on. */
    constructor (files: Files)
      ensures Valid()
      ensures categories == (if files.categories.Some? then files.categories.value else [])
      ensures shown == categories && entry == "" && feedback == Blank
      ensures organizeAll && countText == "ALL" && !cancelled
      ensures this.files == files
    {
      var loaded := if files.categories.Some? then files.categories.value else [];
      categories := loaded;
      shown := loaded;
      entry := "";
      feedback := Blank;
      organizeAll := true;
      countText := "ALL";
      cancelled := false;
      this.files := files;
    }

    /** The user types `text` into the category entry. */
    method EnterCategory(text: string)
      modifies this
      ensures entry == text
      ensures categories == old(categories) && shown == old(shown) && feedback == old(feedback)
      ensures organizeAll == old(organizeAll) && countText == old(countText) && cancelled == old(cancelled)
    {
      entry := text;
    }

    /** `add_category`: a name already listed, or the empty name, is refused with the list
        unchanged; any other name goes at the end of the list and the list box, the entry is
        cleared and the list saved. */
    method AddCategory()
      requires Valid()
      modifies this, files
      ensures Valid()
      ensures old(Clean()) ==> Clean()
      ensures old(entry) in old(categories) ==>
        && feedback == AlreadyExists(old(entry)) && categories == old(categories)
        && shown == old(shown) && entry == old(entry) && files.categories == old(files.categories)
      ensures old(entry) !in old(categories) && old(entry) == "" ==>
        && feedback == EmptyName && categories == old(categories)
        && shown == old(shown) && entry == old(entry) && files.categories == old(files.categories)
      ensures old(entry) !in old(categories) && old(entry) != "" ==>
        && feedback == Added(old(entry)) && categories == old(categories) + [old(entry)]
        && shown == old(shown) + [old(entry)] && entry == "" && files.categories == Some(categories)
      ensures organizeAll == old(organizeAll) && countText == old(countText) && cancelled == old(cancelled)
      ensures files.senderLabels == old(files.senderLabels) && files.unsubscribed == old(files.unsubscribed)
      ensures files.senders == old(files.senders)
    {
      var name := entry;
      if name in categories {
        feedback := AlreadyExists(name);
        return;
      } else if name == "" {
        feedback := EmptyName;
        return;
      }
      categories := categories + [name];
      shown := shown + [name];
      entry := "";
      files.categories := Some(categories);
      feedback := Added(name);
    }

    /** The multiple-selection branch of `remove_category`: each selected index, in
        ascending order, shifted down by the number already removed. */
    method RemoveSelected(selection: seq<nat>) returns (removedCount: nat)
      requires Valid()
      requires Ascending(selection) && forall j :: 0 <= j < |selection| ==> selection[j] < |shown|
      modifies this
      ensures Valid()
      ensures removedCount == |selection|
      ensures shown == Unselected(old(shown), Selected(selection))
      ensures old(Clean()) ==> Clean()
      ensures entry == old(entry) && feedback == old(feedback) && organizeAll == old(organizeAll)
      ensures countText == old(countText) && cancelled == old(cancelled)
    {
      removedCount := 0;
      ghost var removed: set<nat> := {};
      ghost var original := shown;
      ghost var wasClean := Clean();
      assert shown == Unselected(original, {}) by {
        UnselectedNone(original);
      }
      while removedCount < |selection|
        invariant Removing(selection, removedCount, removed, shown, original)
        invariant Valid()
        invariant wasClean ==> Clean()
        invariant entry == old(entry) && feedback == old(feedback) && organizeAll == old(organizeAll)
        invariant countText == old(countText) && cancelled == old(cancelled)
      {
        RemoveNext(selection, removedCount, removed, original);
        removed := removed + {selection[removedCount]};
        removedCount := removedCount + 1;
      }
      assert selection[..removedCount] == selection;
    }

    /** One turn of the loop in `remove_category`: the next selected index, shifted down by
        the `k` deletions so far, is deleted. */
    method RemoveNext(selection: seq<nat>, k: nat, ghost removed: set<nat>, ghost original: seq<string>)
      requires Valid() && k < |selection| && Removing(selection, k, removed, shown, original)
      modifies this
      ensures Valid()
      ensures Removing(selection, k + 1, removed + {selection[k]}, shown, original)
      ensures old(Clean()) ==> Clean()
      ensures entry == old(entry) && feedback == old(feedback) && organizeAll == old(organizeAll)
      ensures countText == old(countText) && cancelled == old(cancelled)
    {
      RemovingStep(selection, k, removed, shown, original);
      var _ := DeleteAt(selection[k] - k);
    }

    /** Deletes list box line `k` and removes its name from the list. */
    method DeleteAt(k: nat) returns (name: string)
      requires Valid() && k < |shown|
      modifies this
      ensures Valid()
      ensures name == old(shown)[k]
      ensures shown == old(shown)[..k] + old(shown)[k + 1..]
      ensures old(Clean()) ==> Clean()
      ensures entry == old(entry) && feedback == old(feedback) && organizeAll == old(organizeAll)
      ensures countText == old(countText) && cancelled == old(cancelled)
    {
      DeleteLine(categories, shown, k);
      name := shown[k];
      shown := shown[..k] + shown[k + 1..];
      categories := RemoveFirst(categories, name);
    }

    /** The single-selection branch of `remove_category`: line `i` is deleted and its name
        removed from the list. */
    method RemoveOne(i: nat) returns (name: string)
      requires Valid() && i < |shown|
      modifies this
      ensures Valid()
      ensures name == old(shown)[i]
      ensures shown == Unselected(old(shown), {i})
      ensures old(Clean()) ==> Clean()
      ensures entry == old(entry) && feedback == old(feedback) && organizeAll == old(organizeAll)
      ensures countText == old(countText) && cancelled == old(cancelled)
    {
      DeleteShifted(shown, {}, i);
      UnselectedNone(shown);
      assert {} + {i} == {i};
      name := DeleteAt(i);
    }

    /** `remove_category` for the list box's selection (ascending indices): with nothing
        selected the list is neither changed nor saved; otherwise exactly the selected
        lines are deleted, the same names leave the list and the list is saved. */
    method RemoveCategory(selection: seq<nat>)
      requires Valid()
      requires Ascending(selection) && forall j :: 0 <= j < |selection| ==> selection[j] < |shown|
      modifies this, files
      ensures Valid()
      ensures old(Clean()) ==> Clean()
      ensures selection == [] ==>
        && feedback == NothingSelected && categories == old(categories) && shown == old(shown)
        && files.categories == old(files.categories)
      ensures selection != [] ==>
        && shown == Unselected(old(shown), Selected(selection))
        && files.categories == Some(categories)
      ensures |selection| > 1 ==> feedback == RemovedMany(|selection|)
      ensures |selection| == 1 ==> feedback == Removed(old(shown)[selection[0]])
      ensures entry == old(entry) && organizeAll == old(organizeAll)
      ensures countText == old(countText) && cancelled == old(cancelled)
      ensures files.senderLabels == old(files.senderLabels) && files.unsubscribed == old(files.unsubscribed)
      ensures files.senders == old(files.senders)
    {
      if |selection| == 0 {
        feedback := NothingSelected;
        return;
      } else if |selection| > 1 {
        var n := RemoveSelected(selection);
        feedback := RemovedMany(n);
      } else {
        assert Selected(selection) == {selection[0]} by {
          assert selection == [selection[0]];
        }
        var name := RemoveOne(selection[0]);
        feedback := Removed(name);
      }
      files.categories := Some(categories);
    }

    /** `switch_organize_all`: the switch flips; on shows "ALL" in the count entry, off
        clears it. */
    method SwitchOrganizeAll()
      modifies this
      ensures organizeAll == !old(organizeAll)
      ensures countText == if organizeAll then "ALL" else ""
      ensures categories == old(categories) && shown == old(shown) && entry == old(entry)
      ensures feedback == old(feedback) && cancelled == old(cancelled)
    {
      organizeAll := !organizeAll;
      countText := if organizeAll then "ALL" else "";
    }

    /** The user types into the count entry, which is read-only while the switch is on. */
    method EnterCount(text: string)
      modifies this
      ensures countText == if old(organizeAll) then old(countText) else text
      ensures categories == old(categories) && shown == old(shown) && entry == old(entry)
      ensures feedback == old(feedback) && organizeAll == old(organizeAll) && cancelled == old(cancelled)
    {
      if !organizeAll {
        countText := text;
      }
    }

    /** `organize_inbox`: the organizer is started, with the count `Decide` gives, after
        the list is saved and the flag cleared; otherwise only the feedback changes. */
    method OrganizeInbox() returns (launch: Option<AiOrganizer.Count>)
      modifies this, files
      ensures Decide(organizeAll, countText, categories).Launch? ==>
        && launch == Some(Decide(organizeAll, countText, categories).count)
        && files.categories == Some(categories) && !cancelled && feedback == Started
      ensures Decide(organizeAll, countText, categories).Refuse? ==>
        && launch == None && feedback == Decide(organizeAll, countText, categories).reason
        && files.categories == old(files.categories) && cancelled == old(cancelled)
      ensures categories == old(categories) && shown == old(shown) && entry == old(entry)
      ensures organizeAll == old(organizeAll) && countText == old(countText)
      ensures files.senderLabels == old(files.senderLabels) && files.unsubscribed == old(files.unsubscribed)
      ensures files.senders == old(files.senders)
    {
      var decision := Decide(organizeAll, countText, categories);
      if decision.Refuse? {
        feedback := decision.reason;
        launch := None;
      } else {
        Start();
        launch := Some(decision.count);
      }
    }

    /** The launch half of `organize_inbox`: save the list, clear the flag. */
    method Start()
      modifies this, files
      ensures files.categories == Some(categories) && !cancelled && feedback == Started
      ensures categories == old(categories) && shown == old(shown) && entry == old(entry)
      ensures organizeAll == old(organizeAll) && countText == old(countText)
      ensures files.senderLabels == old(files.senderLabels) && files.unsubscribed == old(files.unsubscribed)
      ensures files.senders == old(files.senders)
    {
      files.categories := Some(categories);
      feedback := Started;
      cancelled := false;
    }

    /** `cancel_organize`: only the shared flag changes. */
    method CancelOrganize()
      modifies this
      ensures cancelled && feedback == Cancelling
      ensures categories == old(categories) && shown == old(shown) && entry == old(entry)
      ensures organizeAll == old(organizeAll) && countText == old(countText)
    {
      cancelled := true;
      feedback := Cancelling;
    }
  }

  /** Removing no index keeps the list. */
  lemma {:induction false} UnselectedNone(xs: seq<string>)
    ensures Unselected(xs, {}) == xs
  {
    if xs != [] {
      UnselectedNone(xs[..|xs| - 1]);
    }
  }
}
