/** The text the AI organizer sends the classifier for one message (`get_email_summary`):
    the From, Subject and Date header lines, then the body text run through a fixed
    clean-up chain and cut at `EmailCutoff` characters. */
module AiSummary {
  import opened Wrappers
  import opened Seqs
  import opened Text

  /** The cut-off for the cleaned body, in characters. */
  const EmailCutoff: nat := 2500
  const PlainType: string := "text/plain"
  const HtmlType: string := "text/html"

  /** One part of a message's walk: its content type and its decoded payload. */
  datatype Part = Part(contentType: string, payload: string)

  /** A parsed message: its headers (`None` when absent), whether it is multipart, the
      parts `walk()` visits, and the message's own decoded payload. */
  datatype Email = Email(from: Option<string>, subject: Option<string>, date: Option<string>,
                         multipart: bool, parts: seq<Part>, payload: string)

  /** How an f-string renders a header: its text, or `None` when it is missing. */
  function HeaderText(h: Option<string>): string {
    if h.Some? then h.value else "None"
  }

  function Heading(e: Email): string {
    "From: " + HeaderText(e.from) + "\nSubject: " + HeaderText(e.subject) + "\nDate: " + HeaderText(e.date) + "\n"
  }

  // ---------------------------------------------------------------------------------
  // Body text

  predicate HasPlain(parts: seq<Part>) {
    exists i :: 0 <= i < |parts| && parts[i].contentType == PlainType
  }

  /** What one part adds to the body: a plain part its payload; an HTML part the text of
      its tags (`htmlText`), and only when the message has no plain part. */
  function PartText(p: Part, plainPresent: bool, htmlText: string -> string): string {
    if p.contentType == PlainType then p.payload
    else if p.contentType == HtmlType && !plainPresent then htmlText(p.payload)
    else []
  }

  function TextOf(plainPresent: bool, htmlText: string -> string): Part -> string {
    (p: Part) => PartText(p, plainPresent, htmlText)
  }

  /** The raw body: a single-part message's payload, else the parts' texts in walk order. */
  function BodyOf(e: Email, htmlText: string -> string): string {
    if !e.multipart then e.payload
    else FlatMap(e.parts, TextOf(HasPlain(e.parts), htmlText))
  }

  function PlainOf(p: Part): string {
    if p.contentType == PlainType then p.payload else []
  }

  function HtmlOf(htmlText: string -> string): Part -> string {
    (p: Part) => if p.contentType == HtmlType then htmlText(p.payload) else []
  }

  /** With a plain part anywhere, the body is the plain payloads in walk order and HTML
      parts add nothing; without one, it is the text of the HTML parts in walk order. */
  lemma BodyParts(e: Email, htmlText: string -> string)
    requires e.multipart
    ensures HasPlain(e.parts) ==> BodyOf(e, htmlText) == FlatMap(e.parts, PlainOf)
    ensures !HasPlain(e.parts) ==> BodyOf(e, htmlText) == FlatMap(e.parts, HtmlOf(htmlText))
  {
    var f := TextOf(HasPlain(e.parts), htmlText);
    if HasPlain(e.parts) {
      FlatMapCongruence(e.parts, f, PlainOf);
    } else {
      forall i | 0 <= i < |e.parts| ensures f(e.parts[i]) == HtmlOf(htmlText)(e.parts[i]) {
        assert e.parts[i].contentType != PlainType;
      }
      FlatMapCongruence(e.parts, f, HtmlOf(htmlText));
    }
  }

  /** The two walks of the source: the first collects every content type, the second
      appends the texts. */
  method RawBody(e: Email, htmlText: string -> string) returns (raw: string)
    ensures raw == BodyOf(e, htmlText)
  {
    if !e.multipart {
      return e.payload;
    }
    var types := ContentTypes(e.parts);
    raw := PartTexts(e.parts, types, htmlText);
  }

  /** The first walk: every part's content type, in walk order. */
  method ContentTypes(parts: seq<Part>) returns (types: seq<string>)
    ensures |types| == |parts| && forall i :: 0 <= i < |parts| ==> types[i] == parts[i].contentType
    ensures PlainType in types <==> HasPlain(parts)
  {
    types := [];
    var k := 0;
    while k < |parts|
      invariant 0 <= k <= |parts|
      invariant |types| == k && forall i :: 0 <= i < k ==> types[i] == parts[i].contentType
    {
      types := types + [parts[k].contentType];
      k := k + 1;
    }
    if PlainType in types {
      var i :| 0 <= i < |types| && types[i] == PlainType;
      assert parts[i].contentType == PlainType;
    }
    if HasPlain(parts) {
      var i :| 0 <= i < |parts| && parts[i].contentType == PlainType;
      assert types[i] == PlainType;
    }
  }

  /** The second walk: the plain parts' payloads and, when `types` holds no plain part,
      the HTML parts' texts. */
  method PartTexts(parts: seq<Part>, types: seq<string>, htmlText: string -> string) returns (raw: string)
    requires PlainType in types <==> HasPlain(parts)
    ensures raw == FlatMap(parts, TextOf(HasPlain(parts), htmlText))
  {
    raw := [];
    var k := 0;
    while k < |parts|
      invariant 0 <= k <= |parts|
      invariant raw == FlatMap(parts[..k], TextOf(HasPlain(parts), htmlText))
    {
      var part := parts[k];
      FlatMapStep(parts, k, TextOf(HasPlain(parts), htmlText));
      if part.contentType == PlainType {
        raw := raw + part.payload;
      } else if part.contentType == HtmlType && PlainType !in types {
        raw := raw + htmlText(part.payload);
      }
      k := k + 1;
    }
    assert parts[..k] == parts;
  }

  // ---------------------------------------------------------------------------------
  // `re.sub(r"<.*?>", "", s)`

  /** Where a tag opened just before `t` closes: the first `>`, provided no line break
      comes before it (`.` does not match one). */
  function TagEnd(t: string): (r: Option<nat>)
    ensures r.Some? ==> r.value < |t|
  {
    match FirstIndex(t, '>')
    case None => None
    case Some(j) => if '\n' in t[..j] then None else Some(j)
  }

  function StripTags(s: string): string
    decreases |s|
  {
    if s == [] then []
    else if s[0] == '<' && TagEnd(s[1..]).Some? then StripTags(s[2 + TagEnd(s[1..]).value..])
    else [s[0]] + StripTags(s[1..])
  }

  /** No `<` is followed by a `>` on the same line. */
  predicate TagFree(r: string) {
    forall i :: 0 <= i < |r| && r[i] == '<' ==> TagEnd(r[i + 1..]).None?
  }

  /** Stripping keeps only characters of its input. */
  lemma {:induction false} StripChars(s: string)
    ensures forall c :: c in StripTags(s) ==> c in s
    decreases |s|
  {
    if s != [] {
      if s[0] == '<' && TagEnd(s[1..]).Some? {
        StripChars(s[2 + TagEnd(s[1..]).value..]);
      } else {
        StripChars(s[1..]);
      }
    }
  }

  /** A line break with no `>` before it: no tag closes on that line. */
  lemma LineBreakFirst(x: string, m: nat)
    requires m < |x| && x[m] == '\n' && '>' !in x[..m]
    ensures TagEnd(x).None?
  {
    match FirstIndex(x, '>') {
      case None =>
      case Some(j) =>
        assert forall i :: 0 <= i < m ==> x[..m][i] == x[i];
        assert j > m;
        assert x[..j][m] == '\n';
    }
  }

  /** A line break with no `>` before it is a barrier: everything up to it is kept. */
  lemma {:induction false} StripBarrier(t: string, n: nat)
    requires n < |t| && t[n] == '\n' && '>' !in t[..n]
    ensures StripTags(t) == t[..n + 1] + StripTags(t[n + 1..])
    decreases n
  {
    if n == 0 {
      assert t[..1] == [t[0]];
    } else {
      var u := t[1..];
      assert u[..n - 1] == t[..n][1..];
      LineBreakFirst(u, n - 1);
      assert StripTags(t) == [t[0]] + StripTags(u);
      assert u[n..] == t[n + 1..];
      assert [t[0]] + u[..n] == t[..n + 1];
      StripBarrier(u, n - 1);
    }
  }

  /** A `<` whose tag is not closed on its line stays unclosed after stripping the rest. */
  lemma StripKeepsOpen(t: string)
    requires TagEnd(t).None?
    ensures TagEnd(StripTags(t)).None?
  {
    match FirstIndex(t, '>') {
      case None =>
        StripChars(t);
      case Some(j) =>
        BreakBeforeClose(t, j);
        var n := FirstIndex(t, '\n').value;
        StripBarrier(t, n);
        BreakKept(t, n, StripTags(t[n + 1..]));
        LineBreakFirst(StripTags(t), n);
    }
  }

  /** When the first `>` comes after a line break, the first line break has no `>` before it. */
  lemma BreakBeforeClose(t: string, j: nat)
    requires FirstIndex(t, '>') == Some(j) && '\n' in t[..j]
    ensures FirstIndex(t, '\n').Some? && '>' !in t[..FirstIndex(t, '\n').value]
  {
    var i :| 0 <= i < j && t[..j][i] == '\n';
    assert t[i] == '\n';
    var n := FirstIndex(t, '\n').value;
    assert forall k :: 0 <= k < n ==> t[..n][k] == t[k];
    assert n <= i;
    assert t[..n] == t[..j][..n];
  }

  /** Keeping a line up to its break keeps that break with no `>` before it. */
  lemma BreakKept(t: string, n: nat, rest: string)
    requires n < |t| && t[n] == '\n' && '>' !in t[..n]
    ensures n < |t[..n + 1] + rest| && (t[..n + 1] + rest)[n] == '\n' && '>' !in (t[..n + 1] + rest)[..n]
  {
    assert (t[..n + 1] + rest)[..n] == t[..n];
  }

  /** After stripping, no tag is left on any one line. */
  lemma {:induction false} StripTagFree(s: string)
    ensures TagFree(StripTags(s))
    decreases |s|
  {
    if s != [] {
      if s[0] == '<' && TagEnd(s[1..]).Some? {
        StripTagFree(s[2 + TagEnd(s[1..]).value..]);
      } else {
        var rest := StripTags(s[1..]);
        var r := [s[0]] + rest;
        StripTagFree(s[1..]);
        if s[0] == '<' {
          StripKeepsOpen(s[1..]);
        }
        forall i | 0 <= i < |r| && r[i] == '<' ensures TagEnd(r[i + 1..]).None? {
          assert r[i + 1..] == rest[i..];
          if i > 0 {
            assert rest[i - 1] == '<';
          }
        }
      }
    }
  }

  // ---------------------------------------------------------------------------------
  // `re.sub(r"\s+", " ", s)`

  function CollapseSpaces(s: string): string
    decreases |s|
  {
    if s == [] then []
    else if IsSpace(s[0]) then [' '] + CollapseSpaces(TrimLeft(s[1..]))
    else [s[0]] + CollapseSpaces(s[1..])
  }

  /** The only whitespace is a single space, never followed by more whitespace. */
  predicate SingleSpaced(r: string) {
    forall i :: 0 <= i < |r| && IsSpace(r[i]) ==> r[i] == ' ' && (i + 1 < |r| ==> !IsSpace(r[i + 1]))
  }

  /** The characters that are not whitespace, in order. */
  function NonSpace(s: string): string {
    if s == [] then [] else (if IsSpace(s[0]) then [] else [s[0]]) + NonSpace(s[1..])
  }

  /** Collapsing leaves single spaces only and keeps every other character in order. */
  lemma {:induction false} CollapseSpacesSpec(s: string)
    ensures SingleSpaced(CollapseSpaces(s))
    ensures NonSpace(CollapseSpaces(s)) == NonSpace(s)
    decreases |s|
  {
    if s != [] {
      var r := CollapseSpaces(s);
      if IsSpace(s[0]) {
        var t := TrimLeft(s[1..]);
        CollapseSpacesSpec(t);
        NonSpaceTrimLeft(s[1..]);
        assert r == [' '] + CollapseSpaces(t);
        if t != [] {
          assert CollapseSpaces(t)[0] == t[0];
        }
        forall i | 0 <= i < |r| && IsSpace(r[i])
          ensures r[i] == ' ' && (i + 1 < |r| ==> !IsSpace(r[i + 1]))
        {
          if i > 0 {
            assert r[i] == CollapseSpaces(t)[i - 1];
          }
        }
        assert [' '][1..] == [];
        assert NonSpace(r) == NonSpace(CollapseSpaces(t)) by {
          assert r[1..] == CollapseSpaces(t);
        }
      } else {
        CollapseSpacesSpec(s[1..]);
        var rest := CollapseSpaces(s[1..]);
        assert r == [s[0]] + rest;
        forall i | 0 <= i < |r| && IsSpace(r[i])
          ensures r[i] == ' ' && (i + 1 < |r| ==> !IsSpace(r[i + 1]))
        {
          assert r[i] == rest[i - 1];
        }
        assert r[1..] == rest;
      }
    }
  }

  lemma {:induction false} NonSpaceTrimLeft(s: string)
    ensures NonSpace(TrimLeft(s)) == NonSpace(s)
    decreases |s|
  {
    if s != [] && IsSpace(s[0]) {
      NonSpaceTrimLeft(s[1..]);
    }
  }

  /** A word of `str.split()`: a non-empty run without white space. */
  predicate IsWord(w: string) {
    w != [] && forall i :: 0 <= i < |w| ==> !IsSpace(w[i])
  }

  /** `str.split()` with no argument: the maximal runs of non-space characters of `s`,
      in order. */
  function Words(s: string): (ws: seq<string>)
    ensures forall i :: 0 <= i < |ws| ==> IsWord(ws[i])
    decreases |s|
  {
    if s == [] then []
    else if IsSpace(s[0]) then Words(s[1..])
    else [s[..WordLength(s)]] + Words(s[WordLength(s)..])
  }

  /** `" ".join(ws)`. */
  function JoinSpaced(ws: seq<string>): (r: string)
    ensures (forall i :: 0 <= i < |ws| ==> IsWord(ws[i])) && ws != [] ==>
              r != [] && !IsSpace(r[0]) && !IsSpace(r[|r| - 1])
  {
    if ws == [] then []
    else if |ws| == 1 then ws[0]
    else ws[0] + " " + JoinSpaced(ws[1..])
  }

  /** Collapsing white space and then stripping gives the words of the input joined by
      single spaces, as `" ".join(s.split())` does. */
  lemma {:induction false} CollapsedWords(s: string)
    ensures Trim(CollapseSpaces(s)) == JoinSpaced(Words(s))
  {
    var t := TrimLeft(s);
    assert Words(s) == Words(t) by {
      WordsTrimLeft(s);
    }
    assert Trim(CollapseSpaces(s)) == Trim(CollapseSpaces(t)) by {
      if s != [] && IsSpace(s[0]) {
        assert TrimLeft(s[1..]) == t;
        TrimSpaceFirst(CollapseSpaces(t));
      }
    }
    var j := JoinSpaced(Words(t));
    var tail := if t != [] && IsSpace(t[|t| - 1]) then " " else "";
    assert CollapseSpaces(t) == j + tail by {
      CollapseWordsTail(t);
    }
    assert t != [] ==> Words(t) != [];
    TrimJoined(j, tail);
  }

  /** The words of a string do not depend on its leading white space. */
  lemma {:induction false} WordsTrimLeft(s: string)
    ensures Words(TrimLeft(s)) == Words(s)
    decreases |s|
  {
    if s != [] && IsSpace(s[0]) {
      WordsTrimLeft(s[1..]);
    }
  }

  /** Stripping words joined by spaces, with at most one space after them, leaves the
      joined words. */
  lemma TrimJoined(j: string, tail: string)
    requires j == [] || (!IsSpace(j[0]) && !IsSpace(j[|j| - 1]))
    requires tail == "" || (tail == " " && j != [])
    ensures Trim(j + tail) == j
  {
    if tail == " " {
      assert (j + tail)[..|j|] == j;
    } else {
      assert j + tail == j;
    }
  }

  /** Stripping a string with a space put in front is stripping the string. */
  lemma {:induction false} TrimSpaceFirst(x: string)
    ensures Trim([' '] + x) == Trim(x)
  {
    assert ([' '] + x)[1..] == x;
  }

  /** Collapsing a string that starts with a word gives the words joined by single
      spaces, with one space after them when the string ends in white space. */
  lemma {:induction false} CollapseWordsTail(t: string)
    requires t == [] || !IsSpace(t[0])
    ensures CollapseSpaces(t) ==
              JoinSpaced(Words(t)) + (if t != [] && IsSpace(t[|t| - 1]) then " " else "")
    decreases |t|
  {
    if t != [] {
      var w := WordLength(t);
      var rest := t[w..];
      var word := t[..w];
      assert Words(t) == [word] + Words(rest);
      assert CollapseSpaces(t) == word + CollapseSpaces(rest) by {
        CollapseWordPrefix(t, w);
      }
      if rest == [] {
        assert t[|t| - 1] == word[w - 1];
      } else {
        var u := TrimLeft(rest);
        assert IsSpace(t[|t| - 1]) == (u == [] || IsSpace(u[|u| - 1])) by {
          assert t[|t| - 1] == rest[|rest| - 1];
          assert u != [] ==> u[|u| - 1] == rest[|rest| - 1];
        }
        assert CollapseSpaces(rest) == " " + CollapseSpaces(u) by {
          assert TrimLeft(rest[1..]) == u;
        }
        assert Words(rest) == Words(u) by {
          WordsTrimLeft(rest);
        }
        if u == [] {
          assert JoinSpaced(Words(t)) == word by {
            assert Words(t) == [word];
          }
          assert CollapseSpaces(u) == [];
        } else {
          assert CollapseSpaces(u) == JoinSpaced(Words(u)) + (if IsSpace(u[|u| - 1]) then " " else "") by {
            CollapseWordsTail(u);
          }
          assert JoinSpaced(Words(t)) == word + " " + JoinSpaced(Words(u)) by {
            assert Words(u) != [];
            assert ([word] + Words(u))[1..] == Words(u);
          }
          SpacedConcat(word, CollapseSpaces(rest), CollapseSpaces(u), JoinSpaced(Words(u)),
                       if IsSpace(u[|u| - 1]) then " " else "");
        }
      }
    }
  }

  /** The concatenation step of `CollapseWordsTail`. */
  lemma SpacedConcat(word: string, r: string, c: string, j: string, tail: string)
    requires r == " " + c && c == j + tail
    ensures word + r == (word + " " + j) + tail
  {
  }

  /** Collapsing a string keeps the run of `w` non-space characters it starts with. */
  lemma {:induction false} CollapseWordPrefix(t: string, w: nat)
    requires w <= |t| && forall i :: 0 <= i < w ==> !IsSpace(t[i])
    ensures CollapseSpaces(t) == t[..w] + CollapseSpaces(t[w..])
    decreases w
  {
    if w > 0 {
      CollapseWordPrefix(t[1..], w - 1);
      assert t[..w] == [t[0]] + t[1..][..w - 1];
      assert t[1..][w - 1..] == t[w..];
    }
  }

  // ---------------------------------------------------------------------------------
  // `re.sub(r"https?://\S+|www\.\S+", "", s)`

  /** `\S+`: the length of the run of non-space characters that starts `t`. */
  function WordLength(t: string): (n: nat)
    ensures n <= |t|
    ensures forall i :: 0 <= i < n ==> !IsSpace(t[i])
    ensures n < |t| ==> IsSpace(t[n])
  {
    if t == [] || IsSpace(t[0]) then 0 else 1 + WordLength(t[1..])
  }

  /** The length of the fixed start of a URL at the start of `t`, or 0 when none starts
      there; a start counts only with at least one non-space character after it. */
  function UrlPrefix(t: string): (n: nat)
    ensures n > 0 ==> n < |t| && !IsSpace(t[n])
  {
    if StartsWith(t, "https://") && |t| > 8 && !IsSpace(t[8]) then 8
    else if StartsWith(t, "http://") && |t| > 7 && !IsSpace(t[7]) then 7
    else if StartsWith(t, "www.") && |t| > 4 && !IsSpace(t[4]) then 4
    else 0
  }

  predicate UrlStart(t: string) {
    UrlPrefix(t) > 0
  }

  /** The length of the URL at the start of `t`. */
  function UrlLength(t: string): (n: nat)
    requires UrlStart(t)
    ensures 0 < n <= |t|
    ensures n == |t| || IsSpace(t[n])
  {
    UrlPrefix(t) + WordLength(t[UrlPrefix(t)..])
  }

  function RemoveUrls(s: string): string
    decreases |s|
  {
    if s == [] then []
    else if UrlStart(s) then RemoveUrls(s[UrlLength(s)..])
    else [s[0]] + RemoveUrls(s[1..])
  }

  /** No URL starts anywhere in `r`. */
  predicate NoUrl(r: string) {
    forall i :: 0 <= i < |r| ==> !UrlStart(r[i..])
  }

  /** A URL start is decided by the leading word alone. */
  lemma UrlTransfer(x: string, y: string)
    requires UrlStart(x)
    requires WordLength(x) <= |y| && x[..WordLength(x)] == y[..WordLength(x)]
    ensures UrlStart(y)
  {
    var p := UrlPrefix(x);
    UrlPrefixNonSpace(x);
    var w := WordLength(x);
    assert p < w;
    assert y[..p + 1] == x[..p + 1] by {
      PrefixOfPrefix(x, y, w, p + 1);
    }
    UrlPrefixFrom(x, y);
  }

  /** The fixed start of a URL and the character after it are not whitespace. */
  lemma UrlPrefixNonSpace(t: string)
    requires UrlStart(t)
    ensures forall i :: 0 <= i <= UrlPrefix(t) ==> !IsSpace(t[i])
  {
    var p := UrlPrefix(t);
    assert t[..p] == (if p == 8 then "https://" else if p == 7 then "http://" else "www.");
    forall i | 0 <= i < p ensures !IsSpace(t[i]) {
      assert t[i] == t[..p][i];
    }
  }

  lemma PrefixOfPrefix(x: string, y: string, w: nat, n: nat)
    requires n <= w <= |x| && w <= |y| && x[..w] == y[..w]
    ensures x[..n] == y[..n]
  {
    assert x[..n] == x[..w][..n];
    assert y[..n] == y[..w][..n];
  }

  /** Text that agrees with a URL start up to and including the character after its fixed
      start is a URL start too. */
  lemma UrlPrefixFrom(x: string, y: string)
    requires UrlStart(x) && UrlPrefix(x) < |y| && y[..UrlPrefix(x) + 1] == x[..UrlPrefix(x) + 1]
    ensures UrlStart(y)
  {
    var p := UrlPrefix(x);
    assert y[p] == y[..p + 1][p] && x[p] == x[..p + 1][p];
    assert y[..p] == y[..p + 1][..p] && x[..p] == x[..p + 1][..p];
  }

  /** Up to its first whitespace, the result reads like the input. */
  lemma {:induction false} RemoveUrlsLeads(s: string)
    ensures WordLength(RemoveUrls(s)) <= |s|
    ensures RemoveUrls(s)[..WordLength(RemoveUrls(s))] == s[..WordLength(RemoveUrls(s))]
    decreases |s|
  {
    if s == [] {
    } else if UrlStart(s) {
      AfterUrl(s);
    } else if IsSpace(s[0]) {
      assert RemoveUrls(s) == [s[0]] + RemoveUrls(s[1..]);
    } else {
      RemoveUrlsLeads(s[1..]);
      LeadsKept(s);
    }
  }

  /** What follows a removed URL starts with whitespace, or is empty. */
  lemma AfterUrl(s: string)
    requires UrlStart(s)
    ensures WordLength(RemoveUrls(s)) == 0
  {
    var t := s[UrlLength(s)..];
    assert RemoveUrls(s) == RemoveUrls(t);
    if t != [] {
      SpaceNoUrl(t);
      assert RemoveUrls(t) == [t[0]] + RemoveUrls(t[1..]);
    }
  }

  lemma SpaceNoUrl(t: string)
    requires t != [] && IsSpace(t[0])
    ensures !UrlStart(t)
  {
    assert t[0] != 'h' && t[0] != 'w';
  }

  lemma LeadsKept(s: string)
    requires s != [] && !UrlStart(s) && !IsSpace(s[0])
    requires WordLength(RemoveUrls(s[1..])) <= |s[1..]|
    requires RemoveUrls(s[1..])[..WordLength(RemoveUrls(s[1..]))] == s[1..][..WordLength(RemoveUrls(s[1..]))]
    ensures WordLength(RemoveUrls(s)) <= |s|
    ensures RemoveUrls(s)[..WordLength(RemoveUrls(s))] == s[..WordLength(RemoveUrls(s))]
  {
    assert s == [s[0]] + s[1..];
    assert RemoveUrls(s) == [s[0]] + RemoveUrls(s[1..]);
    ConsLeads(s[0], s[1..], RemoveUrls(s[1..]));
  }

  /** A non-space character in front of both keeps the leading words in step. */
  lemma ConsLeads(c: char, t: string, rest: string)
    requires !IsSpace(c)
    requires WordLength(rest) <= |t| && rest[..WordLength(rest)] == t[..WordLength(rest)]
    ensures WordLength([c] + rest) == 1 + WordLength(rest)
    ensures ([c] + rest)[..1 + WordLength(rest)] == ([c] + t)[..1 + WordLength(rest)]
  {
    var w := WordLength(rest);
    assert ([c] + rest)[1..] == rest;
    assert ([c] + rest)[..1 + w] == [c] + rest[..w];
    assert ([c] + t)[..1 + w] == [c] + t[..w];
  }

  /** After removal no URL starts anywhere. */
  lemma {:induction false} RemoveUrlsClean(s: string)
    ensures NoUrl(RemoveUrls(s))
    decreases |s|
  {
    if s != [] {
      if UrlStart(s) {
        RemoveUrlsClean(s[UrlLength(s)..]);
      } else {
        var rest := RemoveUrls(s[1..]);
        var r := [s[0]] + rest;
        RemoveUrlsClean(s[1..]);
        forall i | 0 <= i < |r| ensures !UrlStart(r[i..]) {
          if i == 0 {
            if UrlStart(r) {
              RemoveUrlsLeads(s);
              UrlTransfer(r, s);
            }
          } else {
            assert r[i..] == rest[i - 1..];
          }
        }
      }
    }
  }

  /** Text without URLs is left as it is. */
  lemma {:induction false} RemoveUrlsNoop(s: string)
    requires NoUrl(s)
    ensures RemoveUrls(s) == s
    decreases |s|
  {
    if s != [] {
      assert !UrlStart(s[0..]);
      assert s[0..] == s;
      assert NoUrl(s[1..]) by {
        forall i | 0 <= i < |s| - 1 ensures !UrlStart(s[1..][i..]) {
          assert s[1..][i..] == s[i + 1..];
        }
      }
      RemoveUrlsNoop(s[1..]);
      assert s == [s[0]] + s[1..];
    }
  }

  /** A URL start stays one when more text follows. */
  lemma UrlExtend(x: string, y: string)
    ensures UrlStart(x) ==> UrlStart(x + y)
  {
    if UrlStart(x) {
      var p := UrlPrefix(x);
      assert (x + y)[..p] == x[..p];
      assert (x + y)[p] == x[p];
    }
  }

  /** Cutting text without URLs short leaves none. */
  lemma NoUrlPrefix(r: string, n: nat)
    requires NoUrl(r) && n <= |r|
    ensures NoUrl(r[..n])
  {
    forall i | 0 <= i < n ensures !UrlStart(r[..n][i..]) {
      assert r[..n][i..] + r[n..] == r[i..];
      UrlExtend(r[..n][i..], r[n..]);
    }
  }

  // ---------------------------------------------------------------------------------
  // The whole chain

  /** `html.unescape` is `unescape`; the rest is the source's chain of substitutions, the
      strip and the cut. */
  function Clean(raw: string, unescape: string -> string): string {
    var r := RemoveUrls(Trim(CollapseSpaces(StripTags(unescape(raw)))));
    r[..Min(EmailCutoff, |r|)]
  }

  /** The cleaned body fits the cut-off and holds no URL. */
  lemma CleanBounded(raw: string, unescape: string -> string)
    ensures |Clean(raw, unescape)| <= EmailCutoff
    ensures NoUrl(Clean(raw, unescape))
  {
    var r := RemoveUrls(Trim(CollapseSpaces(StripTags(unescape(raw)))));
    RemoveUrlsClean(Trim(CollapseSpaces(StripTags(unescape(raw)))));
    NoUrlPrefix(r, Min(EmailCutoff, |r|));
  }

  /** A tag broken over two lines is not stripped, and collapsing the line break then
      turns it into a one-line tag that reaches the classifier. */
  lemma MultiLineTagKept()
    ensures Clean("<\n>", (s: string) => s) == "< >"
  {
    var id := (s: string) => s;
    var stripped := StripTags(id("<\n>"));
    assert stripped == "<\n>" by {
      assert id("<\n>") == "<\n>";
      StripExample();
    }
    var collapsed := CollapseSpaces(stripped);
    assert collapsed == "< >" by {
      CollapseExample();
    }
    var trimmed := Trim(collapsed);
    assert trimmed == "< >" by {
      assert TrimLeft("< >") == "< >";
      assert TrimRight("< >") == "< >";
    }
    var r := RemoveUrls(trimmed);
    assert r == "< >" by {
      NoUrlExample();
      RemoveUrlsNoop("< >");
    }
    assert Clean("<\n>", id) == r[..Min(EmailCutoff, |r|)];
    assert r[..Min(EmailCutoff, |r|)] == "< >";
  }

  lemma StripExample()
    ensures StripTags("<\n>") == "<\n>"
  {
    var s := "<\n>";
    assert s[1..] == "\n>";
    assert FirstIndex("\n>", '>') == Some(1) by {
      assert "\n>"[1..] == ">";
    }
    assert "\n>"[..1] == "\n";
    assert StripTags(">") == ">" by {
      assert ">"[1..] == [];
    }
    assert StripTags("\n>") == "\n>" by {
      assert "\n>"[1..] == ">";
    }
  }

  lemma CollapseExample()
    ensures CollapseSpaces("<\n>") == "< >"
  {
    assert CollapseSpaces(">") == ">" by {
      assert ">"[1..] == [];
    }
    assert TrimLeft(">") == ">";
    assert CollapseSpaces("\n>") == " >" by {
      assert "\n>"[1..] == ">";
    }
    assert "<\n>"[1..] == "\n>";
  }

  lemma NoUrlExample()
    ensures NoUrl("< >")
  {
    forall i | 0 <= i < 3 ensures !UrlStart("< >"[i..]) {
      assert "< >"[i..][0] != 'h' && "< >"[i..][0] != 'w';
    }
  }

  /** `get_email_summary`: the heading lines, then the cleaned body. */
  function Summary(e: Email, unescape: string -> string, htmlText: string -> string): string {
    Heading(e) + "\nBody: " + Clean(BodyOf(e, htmlText), unescape) + "\n"
  }

  /** The summary opens with the three header lines and carries at most `EmailCutoff`
      characters of body after them. */
  lemma SummaryShape(e: Email, unescape: string -> string, htmlText: string -> string)
    ensures |Heading(e)| <= |Summary(e, unescape, htmlText)| <= |Heading(e)| + 8 + EmailCutoff
    ensures Summary(e, unescape, htmlText)[..|Heading(e)|] == Heading(e)
  {
    var body := Clean(BodyOf(e, htmlText), unescape);
    HeadingFirst(Heading(e), "\nBody: ", body, "\n");
    CleanBounded(BodyOf(e, htmlText), unescape);
  }

  lemma HeadingFirst(h: string, a: string, b: string, c: string)
    ensures (h + a + b + c)[..|h|] == h
  {
    assert h + a + b + c == h + (a + b + c);
  }

  method GetEmailSummary(e: Email, unescape: string -> string, htmlText: string -> string)
    returns (message: string)
    ensures message == Summary(e, unescape, htmlText)
  {
    message := Heading(e);
    var raw := RawBody(e, htmlText);
    var body := unescape(raw);
    body := StripTags(body);
    body := Trim(CollapseSpaces(body));
    body := RemoveUrls(body);
    body := body[..Min(EmailCutoff, |body|)];
    message := message + "\nBody: " + body + "\n";
  }
}
