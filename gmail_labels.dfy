/** The label list of a Gmail `UID FETCH ... (X-GM-LABELS)` reply line, as both the AI
    organizer and the label reset read it: `re.search` with the pattern
    `\(X-GM-LABELS \((.*?)\) UID \d+\)` picks out the list, then `re.findall` with
    `"([^"]+)"` picks the quoted names out of the list. */
module GmailLabels {
  import opened Wrappers
  import opened Text

  const ListOpen: string := "(X-GM-LABELS ("
  const ListClose: string := ") UID "

  predicate IsDigit(c: char) {
    '0' <= c <= '9'
  }

  /** The length of the run of digits that starts `t`. */
  function DigitRun(t: string): (n: nat)
    ensures n <= |t|
    ensures forall i :: 0 <= i < n ==> IsDigit(t[i])
    ensures n < |t| ==> !IsDigit(t[n])
  {
    if t == [] || !IsDigit(t[0]) then 0 else 1 + DigitRun(t[1..])
  }

  /** The tail `\) UID \d+\)` of the pattern matches at the start of `t`. */
  predicate CloseAt(t: string) {
    && StartsWith(t, ListClose)
    && 0 < DigitRun(t[|ListClose|..])
    && |ListClose| + DigitRun(t[|ListClose|..]) < |t|
    && t[|ListClose| + DigitRun(t[|ListClose|..])] == ')'
  }

  /** Where the lazy group `(.*?)` that starts `t` ends: the shortest prefix without a
      line break after which the tail matches. */
  function GroupEnd(t: string): (r: Option<nat>)
    ensures r.Some? ==> r.value <= |t|
    decreases |t|
  {
    if CloseAt(t) then Some(0)
    else if t == [] || t[0] == '\n' then None
    else match GroupEnd(t[1..]) {
      case None => None
      case Some(j) => Some(j + 1)
    }
  }

  /** The first group of the leftmost match of the list pattern, if there is one. */
  function LabelGroup(s: string): Option<string>
    decreases |s|
  {
    if s == [] then None
    else if StartsWith(s, ListOpen) && GroupEnd(s[|ListOpen|..]).Some?
    then Some(s[|ListOpen|..][..GroupEnd(s[|ListOpen|..]).value])
    else LabelGroup(s[1..])
  }

  /** `re.findall(r'"([^"]+)"', s)`: every non-empty run between a pair of quotes,
      scanning left to right; an empty pair `""` is skipped one quote at a time. */
  function QuotedTokens(s: string): (r: seq<string>)
    ensures forall i :: 0 <= i < |r| ==> r[i] != [] && '"' !in r[i]
    decreases |s|
  {
    if s == [] then []
    else if s[0] == '"' && FirstIndex(s[1..], '"').Some? && FirstIndex(s[1..], '"').value > 0
    then [s[1..1 + FirstIndex(s[1..], '"').value]] + QuotedTokens(s[2 + FirstIndex(s[1..], '"').value..])
    else QuotedTokens(s[1..])
  }

  /** The labels of a reply line; `None` where the pattern does not match, which makes
      `match.group(1)` raise in the source. */
  function ParseLabels(reply: string): Option<seq<string>> {
    match LabelGroup(reply)
    case None => None
    case Some(g) => Some(QuotedTokens(g))
  }

  /** One entry of an `X-GM-LABELS` list (an IMAP astring, section 9 of RFC 3501): an
      atom written bare, such as `\Inbox` or `Important`, or a name written in quotes,
      which a name with a space must be. */
  datatype ListItem = Atom(name: string) | QuotedString(name: string)

  /** The names the model can write as list entries. No name is empty or holds a quote or
      a line break; an atom holds no space and no bracket; inside a quoted name a `)` is
      never followed by a space. */
  predicate WellFormed(item: ListItem) {
    && item.name != [] && '"' !in item.name && '\n' !in item.name
    && match item
       case Atom(a) => ' ' !in a && '(' !in a && ')' !in a
       case QuotedString(n) => NoCloseStart(n)
  }

  /** No `)` in `s` is directly followed by a space, so the list pattern's `\) UID `
      cannot start inside `s`. */
  predicate NoCloseStart(s: string) {
    forall i :: 0 <= i < |s| - 1 && s[i] == ')' ==> s[i + 1] != ' '
  }

  function ItemText(item: ListItem): string {
    match item
    case Atom(a) => a
    case QuotedString(n) => "\"" + n + "\""
  }

  /** A label list as the server writes it: the entries separated by single spaces. */
  function Written(items: seq<ListItem>): string {
    if items == [] then []
    else if |items| == 1 then ItemText(items[0])
    else ItemText(items[0]) + " " + Written(items[1..])
  }

  /** The names of the quoted entries, in list order. */
  function QuotedNames(items: seq<ListItem>): (r: seq<string>)
    ensures forall l :: l in r <==> exists i :: 0 <= i < |items| && items[i] == QuotedString(l)
  {
    if items == [] then []
    else
      var rest := QuotedNames(items[1..]);
      assert forall l :: l in rest <==> exists i :: 1 <= i < |items| && items[i] == QuotedString(l) by {
        forall l | l in rest ensures exists i :: 1 <= i < |items| && items[i] == QuotedString(l) {
          var j :| 0 <= j < |items[1..]| && items[1..][j] == QuotedString(l);
          assert items[j + 1] == QuotedString(l);
        }
        forall l, i | 1 <= i < |items| && items[i] == QuotedString(l) ensures l in rest {
          assert items[1..][i - 1] == QuotedString(l);
        }
      }
      (if items[0].QuotedString? then [items[0].name] else []) + rest
  }

  /** A reply line for message `seqno` with UID `uid` and the given list text. */
  function Reply(seqno: nat, list: string, uid: nat): string {
    NatToString(seqno) + " " + ListOpen + list + ListClose + NatToString(uid) + ")"
  }

  /** `findall` reads back exactly the quoted names of a written list, in order; the
      atoms yield nothing. */
  lemma {:induction false} WrittenRoundTrip(items: seq<ListItem>)
    requires forall i :: 0 <= i < |items| ==> WellFormed(items[i])
    ensures QuotedTokens(Written(items)) == QuotedNames(items)
    decreases |items|
  {
    if items != [] {
      var rest := if |items| == 1 then "" else " " + Written(items[1..]);
      assert Written(items) == ItemText(items[0]) + rest;
      assert QuotedTokens(rest) == QuotedNames(items[1..]) by {
        if |items| > 1 {
          WrittenRoundTrip(items[1..]);
          SkipSpace(Written(items[1..]));
        }
      }
      match items[0]
      case Atom(a) => AtomNoToken(a, rest);
      case QuotedString(l) => QuotedToken(l, rest);
    }
  }

  /** An atom yields no name: `findall` reads on past it. */
  lemma {:induction false} AtomNoToken(a: string, rest: string)
    requires '"' !in a
    ensures QuotedTokens(a + rest) == QuotedTokens(rest)
    decreases |a|
  {
    if a != [] {
      assert (a + rest)[1..] == a[1..] + rest;
      AtomNoToken(a[1..], rest);
    } else {
      assert a + rest == rest;
    }
  }

  /** A quoted name is read as one name, and the reading goes on after its closing quote. */
  lemma QuotedToken(l: string, rest: string)
    requires l != [] && '"' !in l
    ensures QuotedTokens("\"" + l + "\"" + rest) == [l] + QuotedTokens(rest)
  {
    var s := "\"" + l + "\"" + rest;
    assert s[1..] == l + "\"" + rest;
    assert FirstIndex(s[1..], '"') == Some(|l|) by {
      FirstIndexAfter(l, '"', rest);
    }
    assert s[1..1 + |l|] == l;
    assert s[2 + |l|..] == rest;
  }

  lemma SkipSpace(s: string)
    ensures QuotedTokens(" " + s) == QuotedTokens(s)
  {
    assert (" " + s)[1..] == s;
  }

  /** A reply line whose list text holds no line break and no `)` followed by a space
      yields that text. */
  lemma ReplyGroup(seqno: nat, list: string, uid: nat)
    requires NoCloseStart(list) && '\n' !in list
    ensures LabelGroup(Reply(seqno, list, uid)) == Some(list)
  {
    var tail := ListClose + NatToString(uid) + ")";
    var t := ListOpen + list + tail;
    assert Reply(seqno, list, uid) == (NatToString(seqno) + " ") + t;
    SkipPrefix(NatToString(seqno) + " ", t);
    CloseTail(NatToString(uid));
    GroupEndOf(list, tail);
    OpenGroup(list, tail);
  }

  lemma CloseTail(digits: string)
    requires forall i :: 0 <= i < |digits| ==> IsDigit(digits[i])
    requires digits != []
    ensures CloseAt(ListClose + digits + ")")
  {
    var tail := ListClose + digits + ")";
    assert tail[|ListClose|..] == digits + ")";
    DigitRunOf(digits, ")");
    assert tail[..|ListClose|] == ListClose;
  }

  lemma OpenGroup(list: string, tail: string)
    requires GroupEnd(list + tail) == Some(|list|)
    ensures LabelGroup(ListOpen + list + tail) == Some(list)
  {
    var t := ListOpen + list + tail;
    assert t[..|ListOpen|] == ListOpen;
    assert t[|ListOpen|..] == list + tail;
    assert (list + tail)[..|list|] == list;
  }

  lemma {:induction false} SkipPrefix(p: string, t: string)
    requires '(' !in p
    ensures LabelGroup(p + t) == LabelGroup(t)
    decreases |p|
  {
    if p != [] {
      assert (p + t)[0] == p[0] && ListOpen[0] == '(';
      assert !StartsWith(p + t, ListOpen);
      assert (p + t)[1..] == p[1..] + t;
      SkipPrefix(p[1..], t);
    } else {
      assert p + t == t;
    }
  }

  lemma {:induction false} DigitRunOf(d: string, rest: string)
    requires forall i :: 0 <= i < |d| ==> IsDigit(d[i])
    requires rest != [] && !IsDigit(rest[0])
    ensures DigitRun(d + rest) == |d|
    decreases |d|
  {
    if d != [] {
      assert (d + rest)[1..] == d[1..] + rest;
      DigitRunOf(d[1..], rest);
    }
  }

  lemma {:induction false} GroupEndOf(list: string, tail: string)
    requires NoCloseStart(list) && '\n' !in list && CloseAt(tail)
    ensures GroupEnd(list + tail) == Some(|list|)
    decreases |list|
  {
    if list == [] {
      assert list + tail == tail;
    } else {
      var t := list + tail;
      assert t[0] == list[0];
      assert !CloseAt(t) by {
        if t[0] == ')' {
          assert t[1] != ' ' by {
            if |list| > 1 {
              assert t[1] == list[1];
            } else {
              assert t[1] == tail[0];
            }
          }
          assert ListClose[1] == ' ';
        }
      }
      assert t[1..] == list[1..] + tail;
      GroupEndOf(list[1..], tail);
    }
  }

  /** The labels a reply line lists are read back from it: the quoted names, in order,
      while the atoms are dropped. */
  lemma ReplyRoundTrip(seqno: nat, items: seq<ListItem>, uid: nat)
    requires forall i :: 0 <= i < |items| ==> WellFormed(items[i])
    ensures ParseLabels(Reply(seqno, Written(items), uid)) == Some(QuotedNames(items))
  {
    WrittenShape(items);
    ReplyGroup(seqno, Written(items), uid);
    WrittenRoundTrip(items);
  }

  /** A label list in the form of Google's own example, `(\Inbox \Sent Important "Muy
      Importante")`. */
  const GoogleExample: seq<ListItem> :=
    [Atom("\\Inbox"), Atom("\\Sent"), Atom("Important"), QuotedString("Muy Importante")]

  /** Every item of Google's example list is well formed. */
  lemma GoogleExampleWellFormed(items: seq<ListItem>)
    requires items == GoogleExample
    ensures forall i :: 0 <= i < |items| ==> WellFormed(items[i])
  {
    assert WellFormed(Atom("\\Inbox")) by { AtomWellFormed("\\Inbox"); }
    assert WellFormed(Atom("\\Sent")) by { AtomWellFormed("\\Sent"); }
    assert WellFormed(Atom("Important")) by { AtomWellFormed("Important"); }
    assert WellFormed(QuotedString("Muy Importante")) by {
      var n := "Muy Importante";
      assert forall k :: 0 <= k < |n| ==> n[k] != ')' && n[k] != '"' && n[k] != '\n';
    }
  }

  /** A name of letters and backslashes is a well-formed atom. */
  lemma AtomWellFormed(a: string)
    requires a != []
    requires forall k :: 0 <= k < |a| ==> a[k] == '\\' || 'A' <= a[k] <= 'Z' || 'a' <= a[k] <= 'z'
    ensures WellFormed(Atom(a))
  {
  }

  /** Only the quoted name of Google's example list is read back; its atoms are dropped. */
  lemma ReplyDropsAtoms(seqno: nat, items: seq<ListItem>, uid: nat)
    requires items == GoogleExample
    ensures ParseLabels(Reply(seqno, Written(items), uid)) == Some(["Muy Importante"])
  {
    GoogleExampleWellFormed(items);
    ReplyRoundTrip(seqno, items, uid);
    GoogleExampleNames(items);
  }

  /** The one quoted name of Google's example list. */
  lemma GoogleExampleNames(items: seq<ListItem>)
    requires items == GoogleExample
    ensures QuotedNames(items) == ["Muy Importante"]
  {
    assert items[1..][1..][1..][1..] == [];
  }

  /** A written list holds no line break, and no `)` followed by a space. */
  lemma {:induction false} WrittenShape(items: seq<ListItem>)
    requires forall i :: 0 <= i < |items| ==> WellFormed(items[i])
    ensures NoCloseStart(Written(items)) && '\n' !in Written(items)
    decreases |items|
  {
    if items != [] {
      var first := ItemText(items[0]);
      assert NoCloseStart(first) && '\n' !in first && first != [] && first[|first| - 1] != ')' by {
        match items[0]
        case Atom(a) =>
        case QuotedString(n) =>
          forall i | 0 <= i < |first| - 1 && first[i] == ')' ensures first[i + 1] != ' ' {
            if i + 1 < |first| - 1 {
              assert first[i] == n[i - 1] && first[i + 1] == n[i];
            }
          }
      }
      if |items| > 1 {
        WrittenShape(items[1..]);
        var rest := Written(items[1..]);
        assert NoCloseStart(" " + rest) by {
          forall i | 0 <= i < |" " + rest| - 1 && (" " + rest)[i] == ')' ensures (" " + rest)[i + 1] != ' ' {
            assert (" " + rest)[i] == rest[i - 1] && (" " + rest)[i + 1] == rest[i];
          }
        }
        ConcatNoCloseStart(first, " " + rest);
        assert '\n' !in first + (" " + rest);
        assert Written(items) == first + (" " + rest);
      }
    }
  }

  lemma ConcatNoCloseStart(a: string, b: string)
    requires NoCloseStart(a) && NoCloseStart(b)
    requires a != [] && a[|a| - 1] != ')'
    ensures NoCloseStart(a + b)
  {
    forall i | 0 <= i < |a + b| - 1 && (a + b)[i] == ')' ensures (a + b)[i + 1] != ' ' {
      if i >= |a| {
        assert (a + b)[i] == b[i - |a|] && (a + b)[i + 1] == b[i - |a| + 1];
      } else if i + 1 < |a| {
        assert (a + b)[i] == a[i] && (a + b)[i + 1] == a[i + 1];
      }
    }
  }
}
