/** The data logic of the sender directory page: the (address, record) list it shows,
    twenty to a page; its sort state; the search and the label filter; and the rules the
    page writes to the label and unsubscribe stores. */
module SenderListPage {
  import opened Wrappers
  import opened Text
  import opened Seqs
  import Sorting
  import opened Stores

  /** One line of the list: the address and its record as loaded. */
  type Entry = (string, SenderInfo)

  const PageSize: nat := 20

  /** `(len(senders) + page_size - 1) // page_size`. */
  function TotalPages(n: nat): nat {
    (n + PageSize - 1) / PageSize
  }

  /** `senders[start:end]` for page `p`, with `start = (p - 1) * page_size` and
      `end = start + page_size`, bounds clamped as Python slicing does. */
  function Page(senders: seq<Entry>, p: int): (r: seq<Entry>)
    requires p >= 1
    ensures |r| <= PageSize
  {
    var start := (p - 1) * PageSize;
    senders[Min(start, |senders|)..Min(start + PageSize, |senders|)]
  }

  /** The pages `1 ..= total_pages` are the consecutive `page_size` chunks of the list: each
      in-range page is non-empty, every later page is empty, and together they are the list. */
  lemma PagesAreChunks(senders: seq<Entry>, p: int)
    requires p >= 1
    ensures p <= TotalPages(|senders|) ==> Page(senders, p) == Chunks(senders, PageSize)[p - 1]
    ensures p <= TotalPages(|senders|) ==> Page(senders, p) != []
    ensures p > TotalPages(|senders|) ==> Page(senders, p) == []
    ensures Flatten(Chunks(senders, PageSize)) == senders
    ensures |Chunks(senders, PageSize)| == TotalPages(|senders|)
  {
    ChunksPartition(senders, PageSize);
    CeilDivision(|senders|, PageSize);
    if p <= TotalPages(|senders|) {
      ChunkBounds(|senders|, PageSize, p - 1);
    } else {
      MultiplyMonotone(TotalPages(|senders|), p - 1, PageSize);
    }
  }

  // Sorting

  datatype SortKey = Email | Name | EmailsReceived

  /** `'↑'` and `'↓'`. */
  datatype Direction = Up | Down

  /** `sortedby`: `[None, None]`, or the key and direction of the last sort. */
  datatype SortState = Unsorted | SortedBy(key: SortKey, direction: Direction)

  /** The sort state after the user picks `key`: the same key again flips the direction,
      a new key starts with `'↑'`. */
  function NextSortState(s: SortState, key: SortKey): (r: SortState)
    ensures r.SortedBy? && r.key == key
    ensures s.SortedBy? && s.key == key ==> r.direction != s.direction
    ensures !(s.SortedBy? && s.key == key) ==> r.direction == Up
  {
    if s.SortedBy? && s.key == key then SortedBy(key, if s.direction == Up then Down else Up)
    else SortedBy(key, Up)
  }

  /** The `reverse` flag the sort receives: set for `'↓'`, except for the message count,
      where it is inverted. */
  function Reverse(key: SortKey, d: Direction): bool {
    if key == EmailsReceived then d != Down else d == Down
  }

  /** The name key `(name == '', name.lower())` compared as a tuple: `False < True`, so a
      non-empty name comes before an empty one. */
  predicate NameLess(a: string, b: string) {
    (a != "" && b == "") || ((a == "") == (b == "") && LexLess(Lower(a), Lower(b)))
  }

  /** `key(a) < key(b)` for the sort key. */
  predicate KeyLess(key: SortKey, a: Entry, b: Entry) {
    match key
    case Email => LexLess(Lower(a.0), Lower(b.0))
    case Name => NameLess(a.1.name, b.1.name)
    case EmailsReceived => a.1.frequency < b.1.frequency
  }

  /** `a` goes strictly before `b` in `list.sort(key=..., reverse=reverse)`. */
  function Before(key: SortKey, reverse: bool): (Entry, Entry) -> bool {
    (a: Entry, b: Entry) => if reverse then KeyLess(key, b, a) else KeyLess(key, a, b)
  }

  lemma KeyLessStrict(key: SortKey, a: Entry, b: Entry, c: Entry)
    ensures !KeyLess(key, a, a)
    ensures KeyLess(key, a, b) && KeyLess(key, b, c) ==> KeyLess(key, a, c)
  {
    match key {
      case Email =>
        LexLessIrreflexive(Lower(a.0));
        if KeyLess(key, a, b) && KeyLess(key, b, c) {
          LexLessTransitive(Lower(a.0), Lower(b.0), Lower(c.0));
        }
      case Name =>
        LexLessIrreflexive(Lower(a.1.name));
        if KeyLess(key, a, b) && KeyLess(key, b, c) && a.1.name != "" && c.1.name != "" {
          LexLessTransitive(Lower(a.1.name), Lower(b.1.name), Lower(c.1.name));
        }
      case EmailsReceived =>
    }
  }

  lemma BeforeStrict(key: SortKey, reverse: bool)
    ensures Sorting.StrictOrder(Before(key, reverse))
  {
    forall a: Entry, b: Entry, c: Entry
      ensures !Before(key, reverse)(a, a)
      ensures Before(key, reverse)(a, b) && Before(key, reverse)(b, c) ==> Before(key, reverse)(a, c)
    {
      KeyLessStrict(key, a, b, c);
      KeyLessStrict(key, c, b, a);
    }
  }

  /** The sort for `key` under direction `d` keeps the entries and orders them by the key:
      descending exactly when `Reverse` says so. */
  lemma SortOrders(xs: seq<Entry>, key: SortKey, d: Direction)
    ensures multiset(Sorting.SortBy(xs, Before(key, Reverse(key, d)))) == multiset(xs)
    ensures forall i, j :: 0 <= i < j < |xs| ==>
      var r := Sorting.SortBy(xs, Before(key, Reverse(key, d)));
      if Reverse(key, d) then !KeyLess(key, r[i], r[j]) else !KeyLess(key, r[j], r[i])
  {
    BeforeStrict(key, Reverse(key, d));
    Sorting.SortBySorted(xs, Before(key, Reverse(key, d)));
  }

  /** Sorting by name in the `'↑'` direction puts every empty name after the non-empty ones. */
  lemma NameSortEmptiesLast(xs: seq<Entry>)
    ensures forall i, j :: 0 <= i < j < |xs| ==>
      var r := Sorting.SortBy(xs, Before(Name, Reverse(Name, Up)));
      r[i].1.name == "" ==> r[j].1.name == ""
  {
    SortOrders(xs, Name, Up);
  }

  /** Sorting by message count in the `'↑'` direction puts the larger counts first, and
      in the `'↓'` direction the smaller ones. */
  lemma CountSortInverted(xs: seq<Entry>)
    ensures forall i, j :: 0 <= i < j < |xs| ==>
      Sorting.SortBy(xs, Before(EmailsReceived, Reverse(EmailsReceived, Up)))[i].1.frequency
        >= Sorting.SortBy(xs, Before(EmailsReceived, Reverse(EmailsReceived, Up)))[j].1.frequency
    ensures forall i, j :: 0 <= i < j < |xs| ==>
      Sorting.SortBy(xs, Before(EmailsReceived, Reverse(EmailsReceived, Down)))[i].1.frequency
        <= Sorting.SortBy(xs, Before(EmailsReceived, Reverse(EmailsReceived, Down)))[j].1.frequency
  {
    SortOrders(xs, EmailsReceived, Up);
    SortOrders(xs, EmailsReceived, Down);
  }

  // Loading the directory

  /** The record as the list shows it: a name written as an RFC 2047 encoded word (it
      starts with `=?`) is decoded by `decode` and stripped; any other name is kept. */
  function Shown(info: SenderInfo, decode: string -> string): (r: SenderInfo)
    ensures r.frequency == info.frequency
    ensures !StartsWith(info.name, "=?") ==> r == info
  {
    if StartsWith(info.name, "=?") then info.(name := Trim(decode(info.name))) else info
  }

  const Address: Entry -> string := (e: Entry) => e.0

  /** `sorted(..., key=lambda x: x[1]['name'])`. */
  const ByName: (Entry, Entry) -> bool := (a: Entry, b: Entry) => LexLess(a.1.name, b.1.name)

  const Everyone: Entry -> bool := (e: Entry) => true

  lemma ByNameStrict()
    ensures Sorting.StrictOrder(ByName)
  {
    forall a: Entry, b: Entry, c: Entry
      ensures !ByName(a, a)
      ensures ByName(a, b) && ByName(b, c) ==> ByName(a, c)
    {
      LexLessIrreflexive(a.1.name);
      if ByName(a, b) && ByName(b, c) {
        LexLessTransitive(a.1.name, b.1.name, c.1.name);
      }
    }
  }

  /** `xs` is the directory `dir` as `load_senders` returns it, restricted to the entries
      `keep` accepts: each such address exactly once, with its shown record, in name order. */
  ghost predicate Listing(xs: seq<Entry>, dir: map<string, SenderInfo>, decode: string -> string,
                          keep: Entry -> bool) {
    && Sorting.Unique(xs, Address)
    && AllShown(xs, dir, decode, keep)
    && Covers(xs, dir, decode, keep)
    && Sorting.SortedBy(xs, ByName)
  }

  /** Every entry of `xs` is an address of `dir` with its shown record, and `keep` accepts it. */
  ghost predicate AllShown(xs: seq<Entry>, dir: map<string, SenderInfo>, decode: string -> string,
                           keep: Entry -> bool) {
    forall i :: 0 <= i < |xs| ==>
      xs[i].0 in dir && xs[i].1 == Shown(dir[xs[i].0], decode) && keep(xs[i])
  }

  /** Every address of `dir` whose shown entry `keep` accepts is in `xs`. */
  ghost predicate Covers(xs: seq<Entry>, dir: map<string, SenderInfo>, decode: string -> string,
                         keep: Entry -> bool) {
    forall a :: a in dir && keep((a, Shown(dir[a], decode))) ==>
      exists i :: 0 <= i < |xs| && xs[i].0 == a
  }

  /** `items` holds every address of `dir` once, with its shown record. */
  ghost predicate Enumerates(items: seq<Entry>, dir: map<string, SenderInfo>, decode: string -> string) {
    && Sorting.Unique(items, Address)
    && (forall i :: 0 <= i < |items| ==> items[i].0 in dir && items[i].1 == Shown(dir[items[i].0], decode))
    && (forall a :: a in dir ==> exists i :: 0 <= i < |items| && items[i].0 == a)
  }

  /** What the loop of `load_senders` has built once the addresses outside `rest` are done. */
  ghost predicate ShownExcept(items: seq<Entry>, rest: set<string>, dir: map<string, SenderInfo>,
                              decode: string -> string) {
    && rest <= dir.Keys
    && Sorting.Unique(items, Address)
    && (forall i :: 0 <= i < |items| ==>
          items[i].0 in dir && items[i].0 !in rest && items[i].1 == Shown(dir[items[i].0], decode))
    && (forall a :: a in dir && a !in rest ==> exists i :: 0 <= i < |items| && items[i].0 == a)
  }

  /** Showing one more address of `rest` keeps the loop's invariant. */
  lemma ShowStep(items: seq<Entry>, rest: set<string>, dir: map<string, SenderInfo>,
                 decode: string -> string, a: string)
    requires ShownExcept(items, rest, dir, decode) && a in rest
    ensures ShownExcept(items + [(a, Shown(dir[a], decode))], rest - {a}, dir, decode)
  {
    var e := (a, Shown(dir[a], decode));
    var items' := items + [e];
    assert forall i :: 0 <= i < |items| ==> items'[i] == items[i];
    assert items'[|items|] == e;
    forall b | b in dir && b !in rest - {a}
      ensures exists i :: 0 <= i < |items'| && items'[i].0 == b
    {
      if b == a {
        assert items'[|items|].0 == b;
      } else {
        var i :| 0 <= i < |items| && items[i].0 == b;
        assert items'[i].0 == b;
      }
    }
  }

  /** The loop of `load_senders` over the directory, decoding each name, in the order the
      map gives the addresses. */
  method ShowAll(dir: map<string, SenderInfo>, decode: string -> string) returns (items: seq<Entry>)
    ensures Enumerates(items, dir, decode)
  {
    items := [];
    var rest := dir.Keys;
    while rest != {}
      invariant ShownExcept(items, rest, dir, decode)
      decreases rest
    {
      var a :| a in rest;
      ShowStep(items, rest, dir, decode, a);
      items := items + [(a, Shown(dir[a], decode))];
      rest := rest - {a};
    }
  }

  /** Sorting an enumeration of the directory by name gives its listing. */
  lemma SortedListing(items: seq<Entry>, dir: map<string, SenderInfo>, decode: string -> string)
    requires Enumerates(items, dir, decode)
    ensures Listing(Sorting.SortBy(items, ByName), dir, decode, Everyone)
  {
    var xs := Sorting.SortBy(items, ByName);
    Sorting.SortByUnique(items, ByName, Address);
    ByNameStrict();
    Sorting.SortBySorted(items, ByName);
    forall i | 0 <= i < |xs|
      ensures xs[i].0 in dir && xs[i].1 == Shown(dir[xs[i].0], decode)
    {
      var k := PermutedIndex(items, xs, xs[i]);
    }
    forall a | a in dir ensures exists i :: 0 <= i < |xs| && xs[i].0 == a {
      var k :| 0 <= k < |items| && items[k].0 == a;
      var i := PermutedIndex(xs, items, items[k]);
      assert xs[i].0 == a;
    }
  }

  /** `load_senders`: every address of the directory with its shown record, sorted by name
      (addresses with equal names come in the directory's own order, which the map here
      does not fix). */
  method LoadSenders(dir: map<string, SenderInfo>, decode: string -> string) returns (xs: seq<Entry>)
    ensures Listing(xs, dir, decode, Everyone)
  {
    var items := ShowAll(dir, decode);
    xs := Sorting.SortBy(items, ByName);
    SortedListing(items, dir, decode);
  }

  /** A comprehension over a listing gives the listing of the entries it keeps. */
  lemma ListingFilter(xs: seq<Entry>, dir: map<string, SenderInfo>, decode: string -> string,
                      keep: Entry -> bool)
    requires Listing(xs, dir, decode, Everyone)
    ensures Listing(Filter(xs, keep), dir, decode, keep)
  {
    var r := Filter(xs, keep);
    assert Sorting.Unique(r, Address) by {
      Sorting.FilterUnique(xs, keep, Address);
    }
    assert Sorting.SortedBy(r, ByName) by {
      Sorting.FilterSorted(xs, keep, ByName);
    }
    FilterShown(xs, dir, decode, keep);
    FilterCovers(xs, dir, decode, keep);
  }

  /** Every entry a comprehension over a listing keeps is a shown entry it accepts. */
  lemma FilterShown(xs: seq<Entry>, dir: map<string, SenderInfo>, decode: string -> string,
                    keep: Entry -> bool)
    requires AllShown(xs, dir, decode, Everyone)
    ensures AllShown(Filter(xs, keep), dir, decode, keep)
  {
    var r := Filter(xs, keep);
    forall i | 0 <= i < |r|
      ensures r[i].0 in dir && r[i].1 == Shown(dir[r[i].0], decode) && keep(r[i])
    {
      assert r[i] in r;
      var k :| 0 <= k < |xs| && xs[k] == r[i];
    }
  }

  /** A comprehension over a listing keeps every address whose entry it accepts. */
  lemma FilterCovers(xs: seq<Entry>, dir: map<string, SenderInfo>, decode: string -> string,
                     keep: Entry -> bool)
    requires AllShown(xs, dir, decode, Everyone) && Covers(xs, dir, decode, Everyone)
    ensures Covers(Filter(xs, keep), dir, decode, keep)
  {
    var r := Filter(xs, keep);
    forall a | a in dir && keep((a, Shown(dir[a], decode)))
      ensures exists i :: 0 <= i < |r| && r[i].0 == a
    {
      var k :| 0 <= k < |xs| && xs[k].0 == a;
      assert xs[k] in r;
      var i :| 0 <= i < |r| && r[i] == xs[k];
    }
  }

  // Search and filter conditions

  /** The search condition as written: the query is not lowercased, so a query with an
      upper-case letter never matches the lowercased address or name. */
  predicate MatchesAsWritten(query: string, e: Entry) {
    Contains(Lower(e.0), query) || Contains(Lower(e.1.name), query)
  }

  /** A query holding an upper-case letter matches no sender under the search as written. */
  lemma CapitalQueryNeverMatches(query: string, e: Entry)
    requires exists j :: 0 <= j < |query| && 'A' <= query[j] <= 'Z'
    ensures !MatchesAsWritten(query, e)
  {
    NoCapitalIn(Lower(e.0), query);
    NoCapitalIn(Lower(e.1.name), query);
  }

  /** A sender named exactly like the query is not found by the search as written. */
  lemma MatchesAsWrittenMissesOwnName()
    ensures !MatchesAsWritten("Amazon", ("news@amazon.com", SenderInfo("Amazon", 3)))
  {
    assert "Amazon"[0] == 'A';
    CapitalQueryNeverMatches("Amazon", ("news@amazon.com", SenderInfo("Amazon", 3)));
  }

  lemma NoCapitalIn(s: string, q: string)
    requires forall i :: 0 <= i < |s| ==> !('A' <= s[i] <= 'Z')
    requires exists j :: 0 <= j < |q| && 'A' <= q[j] <= 'Z'
    ensures !Contains(s, q)
  {
    ContainsIff(s, q);
  }

  /** The search condition with the query lowercased like the fields it is compared with. */
  predicate Matches(query: string, e: Entry) {
    Contains(Lower(e.0), Lower(query)) || Contains(Lower(e.1.name), Lower(query))
  }

  lemma {:induction false} LowerIdempotent(s: string)
    ensures Lower(Lower(s)) == Lower(s)
  {
    assert forall i :: 0 <= i < |s| ==> LowerChar(LowerChar(s[i])) == LowerChar(s[i]);
  }

  /** The search ignores case: queries that differ only in case find the same senders,
      and a sender is found by its own address or name. */
  lemma MatchesIgnoresCase(query: string, e: Entry)
    ensures Matches(query, e) == Matches(Lower(query), e)
    ensures Matches(e.0, e) && Matches(e.1.name, e)
  {
    LowerIdempotent(query);
    assert StartsWith(Lower(e.0), Lower(e.0));
    assert StartsWith(Lower(e.1.name), Lower(e.1.name));
  }

  function Searching(query: string): Entry -> bool {
    (e: Entry) => Matches(query, e)
  }

  /** `label_data.get(label, [])`. */
  function Members(t: LabelTable, labelName: string): (r: seq<string>)
    ensures HasKey(t, labelName) ==> Some(r) == Lookup(t, labelName)
    ensures !HasKey(t, labelName) ==> r == []
  {
    match Lookup(t, labelName)
    case Some(v) => v
    case None => []
  }

  function InList(addresses: seq<string>): Entry -> bool {
    (e: Entry) => e.0 in addresses
  }

  // Rules written to the stores

  /** The label store after `add_label(address, label)`: the object `json.load` made of
      the file, with the address appended to the label's list or a new list created. */
  function WithLabel(t: LabelTable, labelName: string, address: string): LabelTable {
    Put(Loaded(t), labelName, Members(t, labelName) + [address])
  }

  /** The label gains the address at the end of its list, even when it already lists it;
      every other label keeps its list, and the file written holds no key twice, whatever
      repeats the file read held. */
  lemma WithLabelAppends(t: LabelTable, labelName: string, address: string, other: string)
    ensures DistinctKeys(WithLabel(t, labelName, address))
    ensures Lookup(WithLabel(t, labelName, address), labelName) == Some(Members(t, labelName) + [address])
    ensures multiset(Members(WithLabel(t, labelName, address), labelName))[address]
            == multiset(Members(t, labelName))[address] + 1
    ensures other != labelName ==> Lookup(WithLabel(t, labelName, address), other) == Lookup(t, other)
  {
    PutLookup(Loaded(t), labelName, Members(t, labelName) + [address], other);
    LoadedLookup(t, other);
  }

  /** A label listed twice in the file is written back once, holding its last list and
      the new address. */
  lemma WithLabelRepeatedKey()
    ensures WithLabel([("A", ["x"]), ("A", ["y"])], "A", "z") == [("A", ["y", "z"])]
  {
    var t: LabelTable := [("A", ["x"]), ("A", ["y"])];
    assert t[..1] == [("A", ["x"])];
    assert Loaded(t) == [("A", ["y"])];
    assert Members(t, "A") == ["y"];
    assert Put([("A", ["y"])], "A", ["y"] + ["z"]) == [("A", ["y"] + ["z"])];
    assert ["y"] + ["z"] == ["y", "z"];
  }

  /** The unsubscribe store after `unsubscribe(address)`; a missing file is created. */
  function Unsubscribed(store: Option<map<string, bool>>, address: string): (r: map<string, bool>)
    ensures address in r && r[address]
    ensures store.Some? ==> r.Keys == store.value.Keys + {address}
    ensures store.Some? ==> forall a :: a in store.value && a != address ==> r[a] == store.value[a]
    ensures store.None? ==> r.Keys == {address}
  {
    if store.Some? then store.value[address := true] else map[address := true]
  }

  /** Resubscribing after unsubscribing an address the store did not hold gives the store
      back. */
  lemma ResubscribeUndoes(store: map<string, bool>, address: string)
    requires address !in store
    ensures Unsubscribed(Some(store), address) - {address} == store
  {
    assert (Unsubscribed(Some(store), address) - {address}).Keys == store.Keys;
  }

  /** `self.after(0, self.display_senders)`: nothing for an empty list, else the current
      page. */
  function Displayed(senders: seq<Entry>, currentPage: int): seq<Entry>
    requires currentPage >= 1
  {
    if senders == [] then [] else Page(senders, currentPage)
  }

  /** After a deletion that leaves exactly `page_size` senders, the count kept from before
      still says two pages while the second page shows nothing. */
  lemma StalePageCountShowsEmptyPage(senders: seq<Entry>)
    requires |senders| == PageSize
    ensures TotalPages(|senders| + 1) == 2 && TotalPages(|senders|) == 1
    ensures Displayed(senders, 2) == []
  {
  }

  /** The directory page once the directory has been scanned. */
  class SenderList {
    var senders: seq<Entry>
    var currentPage: int
    var totalPages: nat
    var sortedBy: SortState
    var searched: bool
    var isFiltered: bool
    /** The text of the search entry. */
    var query: string
    const files: Files
    /** `email.header.decode_header` followed by joining the decoded parts. */
    const decode: string -> string

    /** The page number stays between 1 and the page count (1 when there are no pages). */
    predicate InRange()
      reads this
    {
      1 <= currentPage <= (if totalPages == 0 then 1 else totalPages)
    }

    /** The page count is that of the list shown, and the page is in range. */
    predicate Valid()
      reads this
    {
      InRange() && totalPages == TotalPages(|senders|)
    }

    /** `has_scanned_display` and `load_senders_threaded`: the full directory, page 1 of
        its page count, no sort, search or filter. */
    constructor (files: Files, decode: string -> string)
      requires files.senders.Some? && files.senders.value.Directory?
      ensures Valid() && currentPage == 1
      ensures Listing(senders, files.senders.value.entries, decode, Everyone)
      ensures sortedBy == Unsorted && !searched && !isFiltered && query == ""
      ensures this.files == files && this.decode == decode
    {
      var xs := LoadSenders(files.senders.value.entries, decode);
      senders := xs;
      totalPages := TotalPages(|xs|);
      currentPage := 1;
      sortedBy := Unsorted;
      searched := false;
      isFiltered := false;
      query := "";
      this.files := files;
      this.decode := decode;
    }

    /** The entries shown: nothing for an empty list, else the current page. */
    function OnScreen(): (r: seq<Entry>)
      reads this
      requires InRange()
      ensures Valid() && senders != [] ==> r == Chunks(senders, PageSize)[currentPage - 1] && r != []
      ensures |r| <= PageSize
    {
      if Valid() && senders != [] then
        PagesAreChunks(senders, currentPage);
        Displayed(senders, currentPage)
      else
        Displayed(senders, currentPage)
    }

    method NextPage()
      requires InRange()
      modifies this
      ensures InRange()
      ensures currentPage == if old(currentPage) < totalPages then old(currentPage) + 1 else old(currentPage)
      ensures senders == old(senders) && totalPages == old(totalPages) && sortedBy == old(sortedBy)
      ensures searched == old(searched) && isFiltered == old(isFiltered) && query == old(query)
    {
      if currentPage < totalPages {
        currentPage := currentPage + 1;
      }
    }

    method PrevPage()
      requires InRange()
      modifies this
      ensures InRange()
      ensures currentPage == if old(currentPage) > 1 then old(currentPage) - 1 else old(currentPage)
      ensures senders == old(senders) && totalPages == old(totalPages) && sortedBy == old(sortedBy)
      ensures searched == old(searched) && isFiltered == old(isFiltered) && query == old(query)
    {
      if currentPage > 1 {
        currentPage := currentPage - 1;
      }
    }

    /** `pagination_scroll`: wheel up turns back a page, anything else forward. */
    method Scroll(delta: int)
      requires InRange()
      modifies this
      ensures InRange()
      ensures delta > 0 ==> currentPage == if old(currentPage) > 1 then old(currentPage) - 1 else old(currentPage)
      ensures delta <= 0 ==> currentPage == if old(currentPage) < totalPages then old(currentPage) + 1 else old(currentPage)
      ensures senders == old(senders) && totalPages == old(totalPages) && sortedBy == old(sortedBy)
      ensures searched == old(searched) && isFiltered == old(isFiltered) && query == old(query)
    {
      if delta > 0 {
        PrevPage();
      } else {
        NextPage();
      }
    }

    /** `handle_sort(key)`: the next sort state, the list sorted in place by it, page 1. */
    method HandleSort(key: SortKey)
      requires Valid()
      modifies this
      ensures Valid() && currentPage == 1
      ensures sortedBy == NextSortState(old(sortedBy), key)
      ensures senders == Sorting.SortBy(old(senders), Before(key, Reverse(key, sortedBy.direction)))
      ensures totalPages == old(totalPages)
      ensures searched == old(searched) && isFiltered == old(isFiltered) && query == old(query)
    {
      sortedBy := NextSortState(sortedBy, key);
      senders := Sorting.SortBy(senders, Before(key, Reverse(key, sortedBy.direction)));
      currentPage := 1;
    }

    /** Reloads the directory keeping the entries `keep` accepts, and goes to page 1 of the
        new page count. */
    method ReloadKeeping(keep: Entry -> bool)
      requires files.senders.Some? && files.senders.value.Directory?
      modifies this
      ensures Valid() && currentPage == 1
      ensures Listing(senders, files.senders.value.entries, decode, keep)
      ensures sortedBy == old(sortedBy) && searched == old(searched)
      ensures isFiltered == old(isFiltered) && query == old(query)
    {
      var all := LoadSenders(files.senders.value.entries, decode);
      ListingFilter(all, files.senders.value.entries, decode, keep);
      senders := Filter(all, keep);
      totalPages := TotalPages(|senders|);
      currentPage := 1;
    }

    /** `handle_filter(label)`. A placeholder clears the filter, reloading the whole
        directory only if a filter was on. A label shows exactly the directory entries the
        label store lists for it, clears the search entry, and goes to page 1. */
    method HandleFilter(labelName: string)
      requires Valid()
      requires (isFiltered || !IsPlaceholder(labelName)) ==> files.senders.Some? && files.senders.value.Directory?
      requires !IsPlaceholder(labelName) ==> files.senderLabels.Some?
      modifies this
      ensures Valid()
      ensures isFiltered == !IsPlaceholder(labelName)
      ensures IsPlaceholder(labelName) && old(isFiltered) ==>
        currentPage == 1 && Listing(senders, files.senders.value.entries, decode, Everyone)
      ensures IsPlaceholder(labelName) && !old(isFiltered) ==>
        senders == old(senders) && currentPage == old(currentPage) && totalPages == old(totalPages)
      ensures !IsPlaceholder(labelName) ==>
        && currentPage == 1 && query == ""
        && Listing(senders, files.senders.value.entries, decode,
                   InList(Members(files.senderLabels.value, labelName)))
      ensures IsPlaceholder(labelName) ==> query == old(query)
      ensures sortedBy == old(sortedBy) && searched == old(searched)
    {
      if IsPlaceholder(labelName) {
        if isFiltered {
          ReloadKeeping(Everyone);
        }
        isFiltered := false;
        return;
      }
      isFiltered := true;
      var filtered := Members(files.senderLabels.value, labelName);
      ReloadKeeping(InList(filtered));
      query := "";
    }

    /** The user types `text` into the search entry. */
    method EnterQuery(text: string)
      modifies this
      ensures query == text
      ensures senders == old(senders) && currentPage == old(currentPage) && totalPages == old(totalPages)
      ensures sortedBy == old(sortedBy) && searched == old(searched) && isFiltered == old(isFiltered)
    {
      query := text;
    }

    /** `toggle_searched(False)`, the exit button: the search entry cleared and the whole
        directory reloaded at page 1. */
    method ExitSearch()
      requires files.senders.Some? && files.senders.value.Directory?
      modifies this
      ensures Valid() && currentPage == 1 && !searched && query == ""
      ensures Listing(senders, files.senders.value.entries, decode, Everyone)
      ensures sortedBy == old(sortedBy) && isFiltered == old(isFiltered)
    {
      searched := false;
      query := "";
      ReloadKeeping(Everyone);
    }

    /** `search_senders`. An empty query does nothing unless a search is on, which it
        ends, reloading the whole directory. Any other query shows exactly the directory
        entries whose lowercased address or name contains it, ignoring case. */
    method SearchSenders()
      requires Valid()
      requires !(query == "" && !searched) ==> files.senders.Some? && files.senders.value.Directory?
      modifies this
      ensures Valid()
      ensures old(query) == "" && !old(searched) ==>
        && senders == old(senders) && currentPage == old(currentPage)
        && totalPages == old(totalPages) && !searched && query == ""
      ensures old(query) == "" && old(searched) ==>
        && currentPage == 1 && !searched && query == ""
        && Listing(senders, files.senders.value.entries, decode, Everyone)
      ensures old(query) != "" ==>
        && currentPage == 1 && searched && query == old(query)
        && Listing(senders, files.senders.value.entries, decode, Searching(query))
      ensures sortedBy == old(sortedBy) && isFiltered == old(isFiltered)
    {
      if query == "" {
        if !searched {
          return;
        }
        ExitSearch();
        ReloadKeeping(Everyone);
      } else {
        searched := true;
        ReloadKeeping(Searching(query));
      }
    }

    /** `add_label(address, label)`: the label store gains the address under the label. */
    method AddLabel(address: string, labelName: string)
      requires files.senderLabels.Some?
      modifies files
      ensures files.senderLabels == Some(WithLabel(old(files.senderLabels.value), labelName, address))
      ensures files.unsubscribed == old(files.unsubscribed) && files.senders == old(files.senders)
      ensures files.categories == old(files.categories)
    {
      files.senderLabels := Some(WithLabel(files.senderLabels.value, labelName, address));
    }

    /** `unsubscribe(address)`: the address is marked `True`, creating the store if needed. */
    method Unsubscribe(address: string)
      modifies files
      ensures files.unsubscribed == Some(Unsubscribed(old(files.unsubscribed), address))
      ensures files.senderLabels == old(files.senderLabels) && files.senders == old(files.senders)
      ensures files.categories == old(files.categories)
    {
      files.unsubscribed := Some(Unsubscribed(files.unsubscribed, address));
    }

    /** `resubscribe(address)`: the key is deleted from an existing store; `del` of a key
        that is not there raises `KeyError` before the store is written. */
    method Resubscribe(address: string) returns (raised: bool)
      modifies files
      ensures raised <==> old(files.unsubscribed).Some? && address !in old(files.unsubscribed).value
      ensures old(files.unsubscribed).Some? && !raised ==>
        files.unsubscribed == Some(old(files.unsubscribed).value - {address})
      ensures old(files.unsubscribed).None? || raised ==> files.unsubscribed == old(files.unsubscribed)
      ensures files.senderLabels == old(files.senderLabels) && files.senders == old(files.senders)
      ensures files.categories == old(files.categories)
    {
      raised := false;
      if files.unsubscribed.Some? {
        if address !in files.unsubscribed.value {
          raised := true;
          return;
        }
        files.unsubscribed := Some(files.unsubscribed.value - {address});
      }
    }

    /** `refresh_sender_list(address)` as written: the address leaves the directory file,
        the list is reloaded and the sort state cleared, but the page count and the page
        are kept from before. */
    method RefreshSenderListAsWritten(address: string)
      requires InRange()
      requires files.senders.Some? && files.senders.value.Directory?
      modifies this, files
      ensures InRange()
      ensures files.senders == Some(Directory(old(files.senders.value.entries) - {address}))
      ensures Listing(senders, files.senders.value.entries, decode, Everyone)
      ensures sortedBy == Unsorted
      ensures totalPages == old(totalPages) && currentPage == old(currentPage)
      ensures searched == old(searched) && isFiltered == old(isFiltered) && query == old(query)
      ensures files.senderLabels == old(files.senderLabels) && files.unsubscribed == old(files.unsubscribed)
      ensures files.categories == old(files.categories)
    {
      files.senders := Some(Directory(files.senders.value.entries - {address}));
      var xs := LoadSenders(files.senders.value.entries, decode);
      senders := xs;
      sortedBy := Unsorted;
    }

    /** `refresh_sender_list(address)` with the page count recomputed and page 1 shown, as
        every other reload of the list does. */
    method RefreshSenderList(address: string)
      requires files.senders.Some? && files.senders.value.Directory?
      modifies this, files
      ensures Valid() && currentPage == 1
      ensures files.senders == Some(Directory(old(files.senders.value.entries) - {address}))
      ensures Listing(senders, files.senders.value.entries, decode, Everyone)
      ensures forall i :: 0 <= i < |senders| ==> senders[i].0 != address
      ensures sortedBy == Unsorted
      ensures searched == old(searched) && isFiltered == old(isFiltered) && query == old(query)
      ensures files.senderLabels == old(files.senderLabels) && files.unsubscribed == old(files.unsubscribed)
      ensures files.categories == old(files.categories)
    {
      files.senders := Some(Directory(files.senders.value.entries - {address}));
      ReloadKeeping(Everyone);
      sortedBy := Unsorted;
    }
  }
}
