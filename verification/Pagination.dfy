/** Listing builds page by page with a cursor (src/bes/storage.rs). */
module Pagination {
  import opened Prelude
  import opened Text

  const MAX_PAGE_SIZE: nat := 500

  const MAX_INVOCATION_ID_LEN: nat := 64

  const LABEL_DIR_NAME: string := "by-label"

  /** What the listing reads of a `BuildListItem`; `details` is what a filter may look at. */
  datatype Build = Build(start: Option<string>, id: string, details: nat)

  datatype BuildPage = BuildPage(builds: seq<Build>, nextCursor: Option<string>, total: nat)

  type Key = (string, string)

  function KeyOf(b: Build): Key {
    (if b.start.Some? then b.start.value else "", b.id)
  }

  predicate KeyLess(a: Key, b: Key) {
    Less(a.0, b.0) || (a.0 == b.0 && Less(a.1, b.1))
  }

  lemma KeyLessIsStrict(a: Key, b: Key)
    ensures !(KeyLess(a, b) && KeyLess(b, a)) && !KeyLess(a, a)
  {
    LessIsStrict(a.0, b.0);
    LessIsStrict(a.1, b.1);
    LessIsStrict(a.0, a.0);
    LessIsStrict(a.1, a.1);
  }

  lemma KeyLessIsTransitive(a: Key, b: Key, c: Key)
    requires KeyLess(a, b) && KeyLess(b, c)
    ensures KeyLess(a, c)
  {
    if Less(a.0, b.0) && Less(b.0, c.0) {
      LessIsTransitive(a.0, b.0, c.0);
    } else if a.0 == b.0 == c.0 {
      LessIsTransitive(a.1, b.1, c.1);
    }
  }

  lemma KeyLessIsTotal(a: Key, b: Key)
    ensures KeyLess(a, b) || KeyLess(b, a) || a == b
  {
    LessIsTotal(a.0, b.0);
    LessIsTotal(a.1, b.1);
  }

  // ----- Cursors -----

  predicate IdChar(c: char) {
    'a' <= c <= 'z' || 'A' <= c <= 'Z' || '0' <= c <= '9' || c == '-' || c == '_'
  }

  /** `is_invocation_id`. */
  predicate IsInvocationId(id: string) {
    1 <= |id| <= MAX_INVOCATION_ID_LEN && (forall i :: 0 <= i < |id| ==> IdChar(id[i])) && id != LABEL_DIR_NAME
  }

  function CursorOf(b: Build): string {
    KeyOf(b).0 + "|" + KeyOf(b).1
  }

  /** Where the last bar is, or the length if there is none. */
  function LastBar(s: string): (n: nat)
    ensures n <= |s|
    ensures n < |s| ==> s[n] == '|' && forall i :: n < i < |s| ==> s[i] != '|'
    ensures n == |s| ==> forall i :: 0 <= i < |s| ==> s[i] != '|'
  {
    if s == "" then 0
    else if s[|s| - 1] == '|' then |s| - 1
    else
      var n := LastBar(s[..|s| - 1]);
      if n == |s| - 1 then |s| else n
  }

  /** `rsplit_once('|')`. */
  function ParseCursor(cursor: string): Option<Key> {
    var n := LastBar(cursor);
    if n == |cursor| then None else Some((cursor[..n], cursor[n + 1..]))
  }

  /** Parsing inverts making exactly when the id has no bar, whatever the start time holds. */
  lemma CursorRoundTripIff(b: Build)
    ensures ParseCursor(CursorOf(b)) == Some(KeyOf(b)) <==> forall i :: 0 <= i < |b.id| ==> b.id[i] != '|'
  {
    var start, id := KeyOf(b).0, KeyOf(b).1;
    var cursor := start + "|" + id;
    var n := LastBar(cursor);
    assert cursor[|start|] == '|';
    assert n < |cursor|;
    if forall i :: 0 <= i < |id| ==> id[i] != '|' {
      assert forall i :: |start| < i < |cursor| ==> cursor[i] == id[i - |start| - 1];
      assert n == |start|;
      assert cursor[..n] == start && cursor[n + 1..] == id;
    } else {
      var i :| 0 <= i < |id| && id[i] == '|';
      assert cursor[|start| + 1 + i] == '|';
      assert n > |start|;
      assert |cursor[..n]| != |start|;
    }
  }

  lemma InvocationIdsRoundTrip(b: Build)
    requires IsInvocationId(b.id)
    ensures ParseCursor(CursorOf(b)) == Some(KeyOf(b))
  {
    CursorRoundTripIff(b);
  }

  // ----- One page -----

  /** Newest first, with no two keys the same. */
  ghost predicate Descending(s: seq<Build>) {
    forall i, j :: 0 <= i < j < |s| ==> KeyLess(KeyOf(s[j]), KeyOf(s[i]))
  }

  function Matching(list: seq<Build>, filter: Build -> bool): seq<Build> {
    if list == [] then [] else (if filter(list[0]) then [list[0]] else []) + Matching(list[1..], filter)
  }

  /** The first build that sorts below `key`, or the length if none does. */
  function FirstBelow(s: seq<Build>, key: Key): (n: nat)
    ensures n <= |s|
    ensures forall i :: 0 <= i < n ==> !KeyLess(KeyOf(s[i]), key)
    ensures n < |s| ==> KeyLess(KeyOf(s[n]), key)
  {
    if s == [] || KeyLess(KeyOf(s[0]), key) then 0 else 1 + FirstBelow(s[1..], key)
  }

  function Clamped(limit: nat): nat {
    Max(1, Min(limit, MAX_PAGE_SIZE))
  }

  /** A cursor that does not parse counts as none. */
  function StartOf(matching: seq<Build>, cursor: Option<string>): (n: nat)
    ensures n <= |matching|
  {
    var after := if cursor.Some? then ParseCursor(cursor.value) else None;
    if after.Some? then FirstBelow(matching, after.value) else 0
  }

  function Page(list: seq<Build>, limit: nat, cursor: Option<string>, filter: Build -> bool): BuildPage {
    var matching := Matching(list, filter);
    var start := StartOf(matching, cursor);
    PageFrom(matching, start, Min(start + Clamped(limit), |matching|))
  }

  function PageFrom(matching: seq<Build>, start: nat, end: nat): BuildPage
    requires start <= end <= |matching|
  {
    var page := matching[start..end];
    BuildPage(page, if end < |matching| && page != [] then Some(CursorOf(page[|page| - 1])) else None, |matching|)
  }

  lemma {:induction false} MatchingFacts(list: seq<Build>, filter: Build -> bool)
    requires Descending(list)
    ensures Descending(Matching(list, filter))
    ensures forall b :: b in Matching(list, filter) <==> b in list && filter(b)
  {
    if list != [] {
      var rest := list[1..];
      MatchingFacts(rest, filter);
      assert list == [list[0]] + rest;
      var m := Matching(rest, filter);
      forall i | 0 <= i < |m| ensures KeyLess(KeyOf(m[i]), KeyOf(list[0])) {
        assert m[i] in rest;
        var j :| 0 <= j < |rest| && rest[j] == m[i];
        assert list[j + 1] == m[i];
      }
    }
  }

  /** `key` is where the previous page ended, if there was one. */
  ghost predicate Below(b: Build, after: Option<Key>) {
    after.Some? ==> KeyLess(KeyOf(b), after.value)
  }

  function After(cursor: Option<string>): Option<Key> {
    if cursor.Some? then ParseCursor(cursor.value) else None
  }

  function LastKey(s: seq<Build>): Key
    requires s != []
  {
    KeyOf(s[|s| - 1])
  }

  lemma BelowFrom(m: seq<Build>, cursor: Option<string>, i: nat)
    requires Descending(m) && StartOf(m, cursor) <= i < |m|
    ensures Below(m[i], After(cursor))
  {
    var start, after := StartOf(m, cursor), After(cursor);
    if after.Some? && start < i {
      KeyLessIsTransitive(KeyOf(m[i]), KeyOf(m[start]), after.value);
    }
  }

  lemma SliceDescends(m: seq<Build>, start: nat, end: nat)
    requires Descending(m) && start <= end <= |m|
    ensures Descending(m[start..end])
  {
  }

  /** A build the page is about: listed, wanted and below the cursor. */
  ghost predicate Due(list: seq<Build>, filter: Build -> bool, cursor: Option<string>, b: Build) {
    b in list && filter(b) && Below(b, After(cursor))
  }

  ghost predicate NamesLast(page: BuildPage) {
    page.nextCursor.Some? ==> page.builds != [] && page.nextCursor == Some(CursorOf(page.builds[|page.builds| - 1]))
  }

  /** `page` lists, newest first, builds below the cursor; it leaves out only builds below
      its own last one, and only if it has a next cursor, which names that one. */
  ghost predicate GoodPage(list: seq<Build>, filter: Build -> bool, cursor: Option<string>, page: BuildPage) {
    && Descending(page.builds) && NamesLast(page)
    && (forall b :: b in page.builds ==> Due(list, filter, cursor, b))
    && (forall b :: Due(list, filter, cursor, b) && b !in page.builds ==>
      page.nextCursor.Some? && KeyLess(KeyOf(b), LastKey(page.builds)))
  }

  ghost function GoodPages(list: seq<Build>, filter: Build -> bool, cursor: Option<string>): iset<BuildPage> {
    iset page: BuildPage | GoodPage(list, filter, cursor, page)
  }

  lemma SliceFrom(m: seq<Build>, start: nat, end: nat, b: Build) returns (i: nat)
    requires start <= end <= |m| && b in m[start..end]
    ensures start <= i < end && m[i] == b
  {
    var k :| 0 <= k < end - start && m[start..end][k] == b;
    i := start + k;
  }

  lemma PageTakes(list: seq<Build>, limit: nat, cursor: Option<string>, filter: Build -> bool, b: Build)
    requires Descending(list) && b in Page(list, limit, cursor, filter).builds
    ensures b in list && filter(b) && Below(b, After(cursor))
  {
    var m := Matching(list, filter);
    var i := SliceFrom(m, StartOf(m, cursor), Min(StartOf(m, cursor) + Clamped(limit), |m|), b);
    MatchingFacts(list, filter);
    BelowFrom(m, cursor, i);
    assert m[i] in m;
  }

  lemma SliceHas(m: seq<Build>, start: nat, end: nat, i: nat)
    requires start <= i < end <= |m|
    ensures m[i] in m[start..end]
  {
    assert m[start..end][i - start] == m[i];
  }

  lemma FromLeaves(m: seq<Build>, start: nat, end: nat, i: nat)
    requires Descending(m) && start < end <= i < |m|
    ensures PageFrom(m, start, end).nextCursor.Some? && PageFrom(m, start, end).builds != []
    ensures KeyLess(KeyOf(m[i]), LastKey(PageFrom(m, start, end).builds))
  {
    assert m[start..end][end - start - 1] == m[end - 1];
  }

  lemma StartsBefore(m: seq<Build>, cursor: Option<string>, i: nat)
    requires i < |m| && Below(m[i], After(cursor))
    ensures StartOf(m, cursor) <= i
  {
  }

  lemma LeftBelow(m: seq<Build>, cursor: Option<string>, end: nat, b: Build)
    requires Descending(m) && b in m && Below(b, After(cursor)) && StartOf(m, cursor) <= end <= |m|
    requires end == |m| || StartOf(m, cursor) < end
    requires b !in m[StartOf(m, cursor)..end]
    ensures var page := PageFrom(m, StartOf(m, cursor), end);
            page.nextCursor.Some? && page.builds != [] && KeyLess(KeyOf(b), LastKey(page.builds))
  {
    var start := StartOf(m, cursor);
    var i :| 0 <= i < |m| && m[i] == b;
    StartsBefore(m, cursor, i);
    if i < end {
      SliceHas(m, start, end, i);
      assert false;
    }
    FromLeaves(m, start, end, i);
  }

  lemma PageLeaves(list: seq<Build>, limit: nat, cursor: Option<string>, filter: Build -> bool, b: Build)
    requires Descending(list) && Due(list, filter, cursor, b) && b !in Page(list, limit, cursor, filter).builds
    ensures Page(list, limit, cursor, filter).nextCursor.Some? && Page(list, limit, cursor, filter).builds != []
    ensures KeyLess(KeyOf(b), LastKey(Page(list, limit, cursor, filter).builds))
  {
    var m := Matching(list, filter);
    MatchingFacts(list, filter);
    LeftBelow(m, cursor, Min(StartOf(m, cursor) + Clamped(limit), |m|), b);
  }

  lemma FromDescends(m: seq<Build>, start: nat, end: nat)
    requires Descending(m) && start <= end <= |m|
    ensures Descending(PageFrom(m, start, end).builds) && NamesLast(PageFrom(m, start, end))
  {
    SliceDescends(m, start, end);
  }

  lemma PageDescends(list: seq<Build>, limit: nat, cursor: Option<string>, filter: Build -> bool)
    requires Descending(list)
    ensures Descending(Page(list, limit, cursor, filter).builds) && NamesLast(Page(list, limit, cursor, filter))
  {
    var m := Matching(list, filter);
    MatchingFacts(list, filter);
    FromDescends(m, StartOf(m, cursor), Min(StartOf(m, cursor) + Clamped(limit), |m|));
  }

  lemma PageIsGood(list: seq<Build>, limit: nat, cursor: Option<string>, filter: Build -> bool, page: BuildPage)
    requires Descending(list) && page == Page(list, limit, cursor, filter)
    ensures page in GoodPages(list, filter, cursor)
  {
    PageDescends(list, limit, cursor, filter);
    forall b | b in page.builds ensures Due(list, filter, cursor, b) {
      PageTakes(list, limit, cursor, filter, b);
    }
    forall b | Due(list, filter, cursor, b) && b !in page.builds
      ensures page.nextCursor.Some? && page.builds != [] && KeyLess(KeyOf(b), LastKey(page.builds))
    {
      PageLeaves(list, limit, cursor, filter, b);
    }
  }

  // ----- A session -----

  /** One request: the builds indexed when it is served, listed newest first. */
  datatype Request = Request(index: map<string, Build>, list: seq<Build>, limit: nat)

  ghost predicate IsListing(index: map<string, Build>, list: seq<Build>) {
    && (forall id :: id in index ==> index[id].id == id && IsInvocationId(id))
    && Descending(list) && forall b :: b in list <==> b.id in index && index[b.id] == b
  }

  lemma JoinDescends(a: seq<Build>, b: seq<Build>)
    requires Descending(a) && Descending(b)
    requires forall i, j :: 0 <= i < |a| && 0 <= j < |b| ==> KeyLess(KeyOf(b[j]), KeyOf(a[i]))
    ensures Descending(a + b)
  {
  }

  /** Where `b` goes in a listing. */
  lemma InsertPlace(list: seq<Build>, b: Build) returns (k: nat)
    requires Descending(list) && forall x :: x in list ==> KeyOf(x) != KeyOf(b)
    ensures k <= |list| && Descending(list[..k] + [b] + list[k..])
  {
    k := FirstBelow(list, KeyOf(b));
    forall i | 0 <= i < k ensures KeyLess(KeyOf(b), KeyOf(list[i])) {
      KeyLessIsTotal(KeyOf(list[i]), KeyOf(b));
      assert list[i] in list;
    }
    forall i | k <= i < |list| ensures KeyLess(KeyOf(list[i]), KeyOf(b)) {
      if i > k {
        KeyLessIsTransitive(KeyOf(list[i]), KeyOf(list[k]), KeyOf(b));
      }
    }
    JoinDescends(list[..k], [b]);
    JoinDescends(list[..k] + [b], list[k..]);
  }

  /** Every index has a listing. */
  lemma {:induction false} ListingExists(index: map<string, Build>) returns (list: seq<Build>)
    requires forall id :: id in index ==> index[id].id == id && IsInvocationId(id)
    ensures IsListing(index, list)
    decreases |index|
  {
    if index == map[] {
      list := [];
    } else {
      var id :| id in index;
      var rest := ListingExists(index - {id});
      var k := InsertPlace(rest, index[id]);
      list := rest[..k] + [index[id]] + rest[k..];
      assert rest == rest[..k] + rest[k..];
    }
  }

  ghost predicate Grows(a: map<string, Build>, b: map<string, Build>) {
    forall id :: id in a ==> id in b && b[id] == a[id]
  }

  function CursorBefore(pages: seq<BuildPage>, i: nat): Option<string>
    requires i <= |pages|
  {
    if i == 0 then None else pages[i - 1].nextCursor
  }

  /** Request `i`: a page below the previous cursor, of builds that were there before or
      were added since. */
  ghost predicate IsRequest(requests: seq<Request>, pages: seq<BuildPage>, filter: Build -> bool, i: nat)
    requires i < |requests| == |pages|
  {
    && IsListing(requests[i].index, requests[i].list)
    && pages[i] == Page(requests[i].list, requests[i].limit, CursorBefore(pages, i), filter)
    && (i > 0 ==>
          CursorBefore(pages, i).Some? && Grows(requests[0].index, requests[i].index) &&
          Grows(requests[i - 1].index, requests[i].index))
  }

  /** A client that follows `nextCursor` while builds are added, with any limits. */
  ghost predicate IsSession(requests: seq<Request>, pages: seq<BuildPage>, filter: Build -> bool) {
    && |requests| == |pages| > 0
    && forall i :: 0 <= i < |pages| ==> IsRequest(requests, pages, filter, i)
  }

  function Served(pages: seq<BuildPage>, k: nat): seq<Build>
    requires k <= |pages|
  {
    if k == 0 then [] else Served(pages, k - 1) + pages[k - 1].builds
  }

  predicate Holds(index: map<string, Build>, b: Build) {
    b.id in index && index[b.id] == b
  }

  /** `served` descends to the build the cursor names. */
  ghost predicate UpTo(served: seq<Build>, cursor: Option<string>) {
    Descending(served) && (cursor.Some? ==> served != [] && After(cursor) == Some(LastKey(served)))
  }

  ghost predicate AllHeld(index: map<string, Build>, served: seq<Build>) {
    forall b :: b in served ==> Holds(index, b)
  }

  /** What was there from the start and is wanted was served or is below. */
  ghost predicate RestBelow(first: map<string, Build>, filter: Build -> bool, served: seq<Build>,
      cursor: Option<string>)
    requires cursor.Some? ==> served != []
  {
    forall b :: Holds(first, b) && filter(b) && b !in served ==> cursor.Some? && KeyLess(KeyOf(b), LastKey(served))
  }

  /** Where the session stands after the request served from `index`. */
  ghost predicate Progress(first: map<string, Build>, index: map<string, Build>, filter: Build -> bool,
      served: seq<Build>, cursor: Option<string>)
  {
    UpTo(served, cursor) && AllHeld(index, served) && RestBelow(first, filter, served, cursor)
  }

  ghost function Progresses(first: map<string, Build>, index: map<string, Build>, filter: Build -> bool,
      cursor: Option<string>): iset<seq<Build>>
  {
    iset served: seq<Build> | Progress(first, index, filter, served, cursor)
  }

  lemma ServedDescends(served: seq<Build>, page: seq<Build>)
    requires Descending(served) && Descending(page)
    requires served != [] && forall b :: b in page ==> KeyLess(KeyOf(b), LastKey(served))
    ensures Descending(served + page)
  {
    var all := served + page;
    forall i, j | 0 <= i < j < |all| ensures KeyLess(KeyOf(all[j]), KeyOf(all[i])) {
      if i < |served| <= j {
        assert all[j] in page;
        if i < |served| - 1 {
          KeyLessIsTransitive(KeyOf(all[j]), LastKey(served), KeyOf(served[i]));
        }
      }
    }
  }

  lemma FirstProgress(index: map<string, Build>, list: seq<Build>, filter: Build -> bool, page: BuildPage)
    requires IsListing(index, list) && page in GoodPages(list, filter, None)
    ensures page.builds in Progresses(index, index, filter, page.nextCursor)
  {
    if page.nextCursor.Some? {
      InvocationIdsRoundTrip(page.builds[|page.builds| - 1]);
    }
  }

  /** Everything left below the last page is below the last build it served. */
  lemma NextLeaves(first: map<string, Build>, index: map<string, Build>, list: seq<Build>, filter: Build -> bool,
                   before: seq<Build>, cursor: Option<string>, page: BuildPage, b: Build)
    requires IsListing(index, list) && Grows(first, index) && page in GoodPages(list, filter, cursor)
    requires before != [] && After(cursor) == Some(LastKey(before)) && KeyLess(KeyOf(b), LastKey(before))
    requires Holds(first, b) && filter(b) && b !in page.builds
    ensures page.nextCursor.Some? && page.builds != [] && KeyLess(KeyOf(b), LastKey(page.builds))
  {
    assert b in list;
  }

  lemma ListedIds(index: map<string, Build>, list: seq<Build>, b: Build)
    requires IsListing(index, list) && b in list
    ensures IsInvocationId(b.id) && Holds(index, b)
  {
  }

  /** The last build of a page is the last one served. */
  lemma LastServed(before: seq<Build>, builds: seq<Build>)
    requires builds != []
    ensures LastKey(before + builds) == LastKey(builds)
  {
  }

  lemma NextUpTo(index: map<string, Build>, list: seq<Build>, filter: Build -> bool, before: seq<Build>,
      cursor: Option<string>, page: BuildPage)
    requires UpTo(before, cursor) && cursor.Some? && IsListing(index, list) && page in GoodPages(list, filter, cursor)
    ensures UpTo(before + page.builds, page.nextCursor)
  {
    ServedDescends(before, page.builds);
    if page.nextCursor.Some? {
      var last := page.builds[|page.builds| - 1];
      assert last in page.builds && Due(list, filter, cursor, last);
      ListedIds(index, list, last);
      InvocationIdsRoundTrip(last);
      LastServed(before, page.builds);
    }
  }

  lemma NextHeld(previous: map<string, Build>, index: map<string, Build>, list: seq<Build>, filter: Build -> bool,
      before: seq<Build>, cursor: Option<string>, page: BuildPage)
    requires AllHeld(previous, before) && Grows(previous, index)
    requires IsListing(index, list) && page in GoodPages(list, filter, cursor)
    ensures AllHeld(index, before + page.builds)
  {
  }

  lemma NextRest(first: map<string, Build>, index: map<string, Build>, list: seq<Build>, filter: Build -> bool,
      before: seq<Build>, cursor: Option<string>, page: BuildPage)
    requires UpTo(before, cursor) && cursor.Some? && RestBelow(first, filter, before, cursor) && Grows(first, index)
    requires IsListing(index, list) && page in GoodPages(list, filter, cursor)
    requires page.nextCursor.Some? ==> before + page.builds != []
    ensures RestBelow(first, filter, before + page.builds, page.nextCursor)
  {
    forall b | Holds(first, b) && filter(b) && b !in before + page.builds
      ensures page.nextCursor.Some? && KeyLess(KeyOf(b), LastKey(before + page.builds))
    {
      NextLeaves(first, index, list, filter, before, cursor, page, b);
      LastServed(before, page.builds);
    }
  }

  lemma NextProgress(first: map<string, Build>, previous: map<string, Build>, index: map<string, Build>,
      list: seq<Build>, filter: Build -> bool, before: seq<Build>, cursor: Option<string>, page: BuildPage)
    requires before in Progresses(first, previous, filter, cursor) && cursor.Some?
    requires IsListing(index, list) && Grows(first, index) && Grows(previous, index)
    requires page in GoodPages(list, filter, cursor)
    ensures before + page.builds in Progresses(first, index, filter, page.nextCursor)
  {
    NextUpTo(index, list, filter, before, cursor, page);
    NextHeld(previous, index, list, filter, before, cursor, page);
    NextRest(first, index, list, filter, before, cursor, page);
  }

  lemma {:induction false} SessionProgress(requests: seq<Request>, pages: seq<BuildPage>, filter: Build -> bool, k: nat)
    requires IsSession(requests, pages, filter) && 0 < k <= |pages|
    ensures Served(pages, k) in Progresses(requests[0].index, requests[k - 1].index, filter, pages[k - 1].nextCursor)
  {
    if k == 1 {
      FirstRequest(requests, pages, filter);
    } else {
      SessionProgress(requests, pages, filter, k - 1);
      NextRequest(requests, pages, filter, k);
    }
  }

  lemma FirstRequest(requests: seq<Request>, pages: seq<BuildPage>, filter: Build -> bool)
    requires |requests| == |pages| > 0 && IsRequest(requests, pages, filter, 0)
    ensures Served(pages, 1) in Progresses(requests[0].index, requests[0].index, filter, pages[0].nextCursor)
  {
    PageIsGood(requests[0].list, requests[0].limit, None, filter, pages[0]);
    FirstProgress(requests[0].index, requests[0].list, filter, pages[0]);
    assert Served(pages, 1) == pages[0].builds;
  }

  lemma NextRequest(requests: seq<Request>, pages: seq<BuildPage>, filter: Build -> bool, k: nat)
    requires 1 < k <= |requests| == |pages| && IsRequest(requests, pages, filter, k - 1)
    requires Served(pages, k - 1) in Progresses(requests[0].index, requests[k - 2].index, filter,
             pages[k - 2].nextCursor)
    ensures Served(pages, k) in Progresses(requests[0].index, requests[k - 1].index, filter, pages[k - 1].nextCursor)
  {
    var r, cursor := requests[k - 1], CursorBefore(pages, k - 1);
    PageIsGood(r.list, r.limit, cursor, filter, pages[k - 1]);
    NextProgress(requests[0].index, requests[k - 2].index, r.index, r.list, filter, Served(pages, k - 1), cursor,
      pages[k - 1]);
  }

  /** No build is served twice, whatever is added between the requests. */
  lemma NeverServedTwice(requests: seq<Request>, pages: seq<BuildPage>, filter: Build -> bool, i: nat, j: nat)
    requires IsSession(requests, pages, filter) && i < j < |Served(pages, |pages|)|
    ensures Served(pages, |pages|)[i].id != Served(pages, |pages|)[j].id
  {
    SessionProgress(requests, pages, filter, |pages|);
    var s := Served(pages, |pages|);
    KeyLessIsStrict(KeyOf(s[i]), KeyOf(s[j]));
    assert s[i] in s && s[j] in s;
  }

  // ----- Said of the builds themselves -----

  /** `a` comes before `b`: it started later, no start counting as the empty string, or
      they started together and its id is the greater. */
  predicate Precedes(a: Build, b: Build) {
    var x, y := if a.start.Some? then a.start.value else "", if b.start.Some? then b.start.value else "";
    Less(y, x) || (x == y && Less(b.id, a.id))
  }

  ghost predicate NewestFirst(s: seq<Build>) {
    forall i, j :: 0 <= i < j < |s| ==> Precedes(s[i], s[j])
  }

  lemma DescendingIsNewestFirst(s: seq<Build>)
    ensures Descending(s) <==> NewestFirst(s)
  {
    if NewestFirst(s) {
      forall i, j | 0 <= i < j < |s| ensures KeyLess(KeyOf(s[j]), KeyOf(s[i])) {
        assert Precedes(s[i], s[j]);
      }
    }
  }

  /** A listing holds every indexed build once, newest first. */
  lemma ListingIsNewestFirst(index: map<string, Build>, list: seq<Build>)
    requires IsListing(index, list)
    ensures NewestFirst(list) && forall id :: id in index ==> index[id] in list
  {
    DescendingIsNewestFirst(list);
  }

  /** How many builds a request may get. */
  function Allowed(limit: nat): nat {
    if limit == 0 then 1 else if limit > 500 then 500 else limit
  }

  /** The listed builds the filter lets through. */
  function Wanted(list: seq<Build>, filter: Build -> bool): set<Build> {
    set b | b in list && filter(b)
  }

  lemma WantedMore(first: Build, rest: seq<Build>, filter: Build -> bool)
    ensures Wanted([first] + rest, filter) == Wanted(rest, filter) + if filter(first) then {first} else {}
  {
  }

  lemma FirstIsNew(list: seq<Build>)
    requires Descending(list) && list != []
    ensures list[0] !in list[1..]
  {
    forall j | 0 < j < |list| ensures list[j] != list[0] {
      KeyLessIsStrict(KeyOf(list[j]), KeyOf(list[0]));
    }
  }

  lemma {:induction false} MatchingCount(list: seq<Build>, filter: Build -> bool)
    requires Descending(list)
    ensures |Matching(list, filter)| == |Wanted(list, filter)|
  {
    if list != [] {
      MatchingCount(list[1..], filter);
      WantedMore(list[0], list[1..], filter);
      assert list == [list[0]] + list[1..];
      FirstIsNew(list);
    }
  }

  function CursorText(b: Build): string {
    (if b.start.Some? then b.start.value else "") + "|" + b.id
  }

  lemma FromIsFull(m: seq<Build>, start: nat, limit: nat)
    requires start <= |m|
    ensures var page := PageFrom(m, start, Min(start + Clamped(limit), |m|));
            && |page.builds| <= Allowed(limit) && page.total == |m|
            && (page.nextCursor.Some? ==>
                  && |page.builds| == Allowed(limit)
                  && page.nextCursor == Some(CursorText(page.builds[|page.builds| - 1])))
  {
  }

  lemma MoreIff(list: seq<Build>, limit: nat, cursor: Option<string>, filter: Build -> bool, page: BuildPage)
    requires Descending(list) && page == Page(list, limit, cursor, filter)
    ensures page.nextCursor.Some? <==> exists b :: Due(list, filter, cursor, b) && b !in page.builds
  {
    if page.nextCursor.Some? {
      var b := NextIsLeft(list, limit, cursor, filter, page);
    } else if b :| Due(list, filter, cursor, b) && b !in page.builds {
      PageLeaves(list, limit, cursor, filter, b);
    }
  }

  /** A page is newest first and counts every match; it has a cursor, the start and id of
      its last build, exactly while matches are left, and then it is full. */
  lemma PageIsFull(list: seq<Build>, limit: nat, cursor: Option<string>, filter: Build -> bool, page: BuildPage)
    requires NewestFirst(list) && page == Page(list, limit, cursor, filter)
    ensures NewestFirst(page.builds) && |page.builds| <= Allowed(limit) && page.total == |Wanted(list, filter)|
    ensures page.nextCursor.Some? <==> exists b :: Due(list, filter, cursor, b) && b !in page.builds
    ensures page.nextCursor.Some? ==>
              |page.builds| == Allowed(limit) && page.nextCursor == Some(CursorText(page.builds[|page.builds| - 1]))
  {
    var m := Matching(list, filter);
    DescendingIsNewestFirst(list);
    PageDescends(list, limit, cursor, filter);
    DescendingIsNewestFirst(page.builds);
    MatchingCount(list, filter);
    FromIsFull(m, StartOf(m, cursor), limit);
    MoreIff(list, limit, cursor, filter, page);
  }

  /** The build after the page's last one is left for the next page. */
  lemma NextIsLeft(list: seq<Build>, limit: nat, cursor: Option<string>, filter: Build -> bool, page: BuildPage)
    returns (b: Build)
    requires Descending(list) && page == Page(list, limit, cursor, filter) && page.nextCursor.Some?
    ensures Due(list, filter, cursor, b) && b !in page.builds
  {
    var m := Matching(list, filter);
    MatchingFacts(list, filter);
    var start := StartOf(m, cursor);
    var end := Min(start + Clamped(limit), |m|);
    b := m[end];
    BelowFrom(m, cursor, end);
    assert m[end] in m;
    if b in page.builds {
      var i := SliceFrom(m, start, end, b);
      KeyLessIsStrict(KeyOf(m[end]), KeyOf(m[i]));
      assert false;
    }
  }

  /** All that a session serves is, from the first page to the last, newest first. */
  lemma ServedNewestFirst(requests: seq<Request>, pages: seq<BuildPage>, filter: Build -> bool)
    requires IsSession(requests, pages, filter)
    ensures NewestFirst(Served(pages, |pages|))
  {
    SessionProgress(requests, pages, filter, |pages|);
    DescendingIsNewestFirst(Served(pages, |pages|));
  }

  /** Once the cursor is absent, every matching build there from the start was served. */
  lemma EverythingIsServed(requests: seq<Request>, pages: seq<BuildPage>, filter: Build -> bool, b: Build)
    requires IsSession(requests, pages, filter) && pages[|pages| - 1].nextCursor == None
    requires Holds(requests[0].index, b) && filter(b)
    ensures b in Served(pages, |pages|)
  {
    SessionProgress(requests, pages, filter, |pages|);
  }
}
