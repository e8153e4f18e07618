/** Pages of a channel's messages, and the walk through them from the newest to the oldest. */
module ChatPaging {
  import opened Prelude

  type Id = string

  /** `at` is the stored timestamp in microseconds. */
  datatype Message = Message(id: Id, channel: Id, at: int, deleted: bool)

  datatype Page = Page(messages: seq<Message>, hasMore: bool)

  const DEFAULT_LIMIT := 50

  /** A timestamp that has been through a Date: the microseconds are cut off. */
  function Milli(at: int): (r: int)
    ensures r <= at < r + 1000 && r % 1000 == 0
  {
    at - at % 1000
  }

  // ---------------------------------------------------------------- the query

  datatype Window = Window(before: Option<int>, after: Option<int>)

  predicate Inside(m: Message, w: Window) {
    (w.before.Some? ==> m.at < w.before.value) && (w.after.Some? ==> w.after.value < m.at)
  }

  predicate Visible(m: Message, channel: Id) {
    m.channel == channel && !m.deleted
  }

  function Select(rows: seq<Message>, channel: Id, w: Window): (r: seq<Message>)
    ensures |r| <= |rows|
  {
    if rows == [] then []
    else (if Visible(rows[0], channel) && Inside(rows[0], w) then [rows[0]] else []) + Select(rows[1..], channel, w)
  }

  predicate NewestFirst(rows: seq<Message>) {
    forall i, j :: 0 <= i < j < |rows| ==> rows[i].at >= rows[j].at
  }

  function Insert(m: Message, rows: seq<Message>): (r: seq<Message>)
    ensures |r| == |rows| + 1
  {
    if rows == [] || rows[0].at <= m.at then [m] + rows else [rows[0]] + Insert(m, rows[1..])
  }

  /** ORDER BY created_at DESC */
  function Sorted(rows: seq<Message>): (r: seq<Message>)
    ensures |r| == |rows|
  {
    if rows == [] then [] else Insert(rows[0], Sorted(rows[1..]))
  }

  function FindById(rows: seq<Message>, id: Id): (r: Option<Message>)
    ensures r.Some? ==> r.value in rows && r.value.id == id
    ensures r.None? ==> forall m :: m in rows ==> m.id != id
  {
    if rows == [] then None else if rows[0].id == id then Some(rows[0]) else FindById(rows[1..], id)
  }

  /** A cursor is the timestamp of the message it names, to the millisecond; one that names no message
      adds no condition. */
  function Cursor(rows: seq<Message>, id: Option<Id>): Option<int> {
    if id.None? || id.value == "" || FindById(rows, id.value).None? then None
    else Some(Milli(FindById(rows, id.value).value.at))
  }

  function Matching(rows: seq<Message>, channel: Id, before: Option<Id>, after: Option<Id>): seq<Message> {
    Sorted(Select(rows, channel, Window(Cursor(rows, before), Cursor(rows, after))))
  }

  function Reversed(s: seq<Message>): (r: seq<Message>)
    ensures |r| == |s| && forall i :: 0 <= i < |s| ==> r[i] == s[|s| - 1 - i]
  {
    seq(|s|, i requires 0 <= i < |s| => s[|s| - 1 - i])
  }

  function Effective(limit: nat): nat {
    if limit == 0 then DEFAULT_LIMIT else limit
  }

  function PageOf(matching: seq<Message>, limit: nat): Page {
    if Effective(limit) < |matching| then Page(Reversed(matching[..Effective(limit)]), true)
    else Page(Reversed(matching), false)
  }

  method ReverseInPlace(a: array<Message>)
    modifies a
    ensures a[..] == Reversed(old(a[..]))
  {
    ghost var was := a[..];
    var n, i := a.Length, 0;
    while i < n / 2
      invariant 0 <= i <= n / 2
      invariant forall k :: 0 <= k < i || n - i <= k < n ==> a[k] == was[n - 1 - k]
      invariant forall k :: i <= k < n - i ==> a[k] == was[k]
    {
      var j := n - 1 - i;
      a[i], a[j] := a[j], a[i];
      i := i + 1;
    }
    assert forall k :: 0 <= k < n ==> a[..][k] == was[n - 1 - k];
  }

  /** Take one row more than the page holds, drop it when it came, and turn the rest round. */
  method GetMessages(rows: seq<Message>, channel: Id, limit: nat, before: Option<Id>, after: Option<Id>) returns (page: Page)
    ensures page == PageOf(Matching(rows, channel, before, after), limit)
    ensures var size, found := if limit == 0 then 50 else limit, |Matching(rows, channel, before, after)|;
      (page.hasMore <==> size < found) && |page.messages| == if size < found then size else found
    ensures forall m <- page.messages :: m in rows && m.channel == channel && !m.deleted
    ensures forall i, j :: 0 <= i < j < |page.messages| ==> page.messages[i].at <= page.messages[j].at
  {
    var size := Effective(limit);
    var matching := Matching(rows, channel, before, after);
    var messages := if size + 1 < |matching| then matching[..size + 1] else matching;
    var hasMore := size < |messages|;
    if hasMore {
      messages := messages[..|messages| - 1];
    }
    assert messages == if size < |matching| then matching[..size] else matching;
    var a := new Message[|messages|](i requires 0 <= i < |messages| => messages[i]);
    assert a[..] == messages;
    ReverseInPlace(a);
    page := Page(a[..], hasMore);
    MatchingIsOrdered(rows, channel, before, after);
    PageIsTaken(matching, messages, page.messages);
  }

  // ---------------------------------------------------------------- the order of the rows

  lemma InsertHead(m: Message, x: Message, rest: seq<Message>)
    ensures Insert(m, [x] + rest) == if x.at <= m.at then [m, x] + rest else [x] + Insert(m, rest)
  {
    assert ([x] + rest)[1..] == rest;
    assert [m] + ([x] + rest) == [m, x] + rest;
  }

  lemma {:induction false} InsertAdds(m: Message, rows: seq<Message>)
    ensures multiset(Insert(m, rows)) == multiset(rows) + multiset{m}
  {
    if rows != [] && rows[0].at > m.at {
      InsertAdds(m, rows[1..]);
      assert rows == [rows[0]] + rows[1..];
    }
  }

  lemma {:induction false} InsertKeepsBound(m: Message, rows: seq<Message>, top: int)
    requires m.at <= top && forall i :: 0 <= i < |rows| ==> rows[i].at <= top
    ensures forall i :: 0 <= i < |Insert(m, rows)| ==> Insert(m, rows)[i].at <= top
  {
    if rows != [] && rows[0].at > m.at {
      InsertKeepsBound(m, rows[1..], top);
    }
  }

  lemma {:induction false} InsertSorts(m: Message, rows: seq<Message>)
    requires NewestFirst(rows)
    ensures NewestFirst(Insert(m, rows))
  {
    if rows != [] && rows[0].at > m.at {
      InsertSorts(m, rows[1..]);
      InsertKeepsBound(m, rows[1..], rows[0].at);
    }
  }

  /** The rows of a page are the selected ones, each as often as it was selected, newest first. */
  lemma {:induction false} SortedIsTheOrder(rows: seq<Message>)
    ensures NewestFirst(Sorted(rows)) && multiset(Sorted(rows)) == multiset(rows)
  {
    if rows != [] {
      SortedIsTheOrder(rows[1..]);
      InsertSorts(rows[0], Sorted(rows[1..]));
      InsertAdds(rows[0], Sorted(rows[1..]));
      assert rows == [rows[0]] + rows[1..];
    }
  }

  lemma SortedKeepsMembers(rows: seq<Message>)
    ensures forall m :: m in Sorted(rows) <==> m in rows
  {
    SortedIsTheOrder(rows);
    forall m ensures m in Sorted(rows) <==> m in rows {
      assert m in multiset(Sorted(rows)) <==> m in multiset(rows);
    }
  }

  // ---------------------------------------------------------------- narrowing the window

  function Below(rows: seq<Message>, cutoff: int): (r: seq<Message>)
    ensures |r| <= |rows|
  {
    if rows == [] then [] else (if rows[0].at < cutoff then [rows[0]] else []) + Below(rows[1..], cutoff)
  }

  lemma {:induction false} BelowMembers(rows: seq<Message>, cutoff: int)
    ensures forall m :: m in Below(rows, cutoff) <==> m in rows && m.at < cutoff
  {
    if rows != [] {
      BelowMembers(rows[1..], cutoff);
    }
  }

  lemma BelowHead(x: Message, rest: seq<Message>, cutoff: int)
    ensures Below([x] + rest, cutoff) == if x.at < cutoff then [x] + Below(rest, cutoff) else Below(rest, cutoff)
  {
    assert ([x] + rest)[1..] == rest;
  }

  lemma {:induction false} BelowInsert(m: Message, rows: seq<Message>, cutoff: int)
    ensures Below(Insert(m, rows), cutoff)
            == if m.at < cutoff then Insert(m, Below(rows, cutoff)) else Below(rows, cutoff)
  {
    if rows == [] {
      BelowHead(m, [], cutoff);
      assert [m] + [] == [m];
    } else {
      var x, rest := rows[0], rows[1..];
      assert rows == [x] + rest;
      BelowHead(x, rest, cutoff);
      if x.at <= m.at {
        BelowHead(m, rows, cutoff);
        InsertHead(m, x, Below(rest, cutoff));
        assert [m, x] + Below(rest, cutoff) == [m] + ([x] + Below(rest, cutoff));
      } else {
        BelowInsert(m, rest, cutoff);
        BelowHead(x, Insert(m, rest), cutoff);
        InsertHead(m, x, Below(rest, cutoff));
      }
    }
  }

  lemma {:induction false} BelowSorted(rows: seq<Message>, cutoff: int)
    ensures Below(Sorted(rows), cutoff) == Sorted(Below(rows, cutoff))
  {
    if rows != [] {
      var x, rest := rows[0], rows[1..];
      assert rows == [x] + rest;
      BelowSorted(rest, cutoff);
      BelowInsert(x, Sorted(rest), cutoff);
      BelowHead(x, rest, cutoff);
    }
  }

  lemma {:induction false} SelectMembers(rows: seq<Message>, channel: Id, w: Window)
    ensures forall m :: m in Select(rows, channel, w) <==> m in rows && Visible(m, channel) && Inside(m, w)
  {
    if rows != [] {
      SelectMembers(rows[1..], channel, w);
    }
  }

  lemma {:induction false} BelowSelect(rows: seq<Message>, channel: Id, w: Window, cutoff: int)
    requires w.before.Some? ==> cutoff <= w.before.value
    ensures Below(Select(rows, channel, w), cutoff) == Select(rows, channel, w.(before := Some(cutoff)))
  {
    if rows != [] {
      BelowSelect(rows[1..], channel, w, cutoff);
      var rest, narrow := Select(rows[1..], channel, w), Select(rows[1..], channel, w.(before := Some(cutoff)));
      BelowHead(rows[0], rest, cutoff);
      assert [] + rest == rest && [] + narrow == narrow;
    }
  }

  lemma {:induction false} BelowAll(rows: seq<Message>, cutoff: int)
    requires forall m :: m in rows ==> m.at < cutoff
    ensures Below(rows, cutoff) == rows
  {
    if rows != [] {
      BelowAll(rows[1..], cutoff);
    }
  }

  lemma {:induction false} BelowDrops(rows: seq<Message>, cutoff: int, k: nat)
    requires k <= |rows| && forall i :: 0 <= i < k ==> cutoff <= rows[i].at
    ensures Below(rows, cutoff) == Below(rows[k..], cutoff)
  {
    if k > 0 {
      BelowDrops(rows[1..], cutoff, k - 1);
      assert rows[1..][k - 1..] == rows[k..];
    }
  }

  // ---------------------------------------------------------------- following the cursor

  predicate Identified(rows: seq<Message>) {
    && (forall i :: 0 <= i < |rows| ==> rows[i].id != "")
    && (forall i, j :: 0 <= i < j < |rows| ==> rows[i].id != rows[j].id)
  }

  /** What the query matches once `before` is the oldest message of a full page. */
  function Rest(matching: seq<Message>, size: nat): seq<Message>
    requires 0 < size < |matching|
  {
    Below(matching, Milli(matching[size - 1].at))
  }

  lemma MatchingIsOrdered(rows: seq<Message>, channel: Id, before: Option<Id>, after: Option<Id>)
    ensures NewestFirst(Matching(rows, channel, before, after))
    ensures forall m :: m in Matching(rows, channel, before, after) ==> m in rows && m.channel == channel && !m.deleted
    ensures forall m :: m in Matching(rows, channel, before, after) && Cursor(rows, before).Some? ==> m.at < Cursor(rows, before).value
  {
    var selected := Select(rows, channel, Window(Cursor(rows, before), Cursor(rows, after)));
    SortedIsTheOrder(selected);
    SortedKeepsMembers(selected);
    SelectMembers(rows, channel, Window(Cursor(rows, before), Cursor(rows, after)));
  }

  /** A page shows the rows it took, the other way round. */
  lemma PageIsTaken(matching: seq<Message>, taken: seq<Message>, shown: seq<Message>)
    requires NewestFirst(matching) && taken <= matching && shown == Reversed(taken)
    ensures forall i, j :: 0 <= i < j < |shown| ==> shown[i].at <= shown[j].at
    ensures forall m <- shown :: m in matching
  {
  }

  /** What a query finds, by columns: exactly the channel's undeleted messages that are older than the
      millisecond of the message `before` names and newer than the millisecond of the one `after` names,
      newest first. */
  lemma MatchingExactly(rows: seq<Message>, channel: Id, before: Option<Id>, after: Option<Id>)
    requires Identified(rows)
    ensures var matching := Matching(rows, channel, before, after);
      && (forall m :: m in matching <==>
            && m in rows && m.channel == channel && !m.deleted
            && (forall x <- rows :: before == Some(x.id) ==> m.at < x.at - x.at % 1000)
            && (forall x <- rows :: after == Some(x.id) ==> x.at - x.at % 1000 < m.at))
      && (forall i, j :: 0 <= i < j < |matching| ==> matching[j].at <= matching[i].at)
  {
    var w := Window(Cursor(rows, before), Cursor(rows, after));
    var selected := Select(rows, channel, w);
    SortedIsTheOrder(selected);
    SortedKeepsMembers(selected);
    SelectMembers(rows, channel, w);
    CursorMeans(rows, before);
    CursorMeans(rows, after);
  }

  lemma CursorMeans(rows: seq<Message>, id: Option<Id>)
    requires Identified(rows)
    ensures Cursor(rows, id).None? ==> forall x <- rows :: id != Some(x.id)
    ensures Cursor(rows, id).Some? ==>
      && (exists x <- rows :: id == Some(x.id))
      && (forall x <- rows :: id == Some(x.id) ==> Cursor(rows, id).value == x.at - x.at % 1000)
  {
  }

  /** Asking again before the oldest message of a full page matches exactly what this page's
      query matched that is older than that message's millisecond. */
  lemma NextQuery(rows: seq<Message>, channel: Id, before: Option<Id>, after: Option<Id>, size: nat)
    requires Identified(rows)
    requires 0 < size < |Matching(rows, channel, before, after)|
    ensures var matching := Matching(rows, channel, before, after);
            Matching(rows, channel, Some(matching[size - 1].id), after) == Rest(matching, size)
  {
    var w := Window(Cursor(rows, before), Cursor(rows, after));
    var matching := Matching(rows, channel, before, after);
    var oldest := matching[size - 1];
    MatchingIsOrdered(rows, channel, before, after);
    assert oldest in matching;
    assert FindById(rows, oldest.id) == Some(oldest);
    assert Cursor(rows, Some(oldest.id)) == Some(Milli(oldest.at));
    BelowSelect(rows, channel, w, Milli(oldest.at));
    BelowSorted(Select(rows, channel, w), Milli(oldest.at));
  }

  /** Messages are skipped between two pages exactly when the first message after the page was sent
      in the same millisecond as the oldest one on it. */
  lemma NextPageContinues(matching: seq<Message>, size: nat)
    requires NewestFirst(matching) && 0 < size < |matching|
    ensures |Rest(matching, size)| <= |matching| - size
    ensures Rest(matching, size) == matching[size..] <==> matching[size].at < Milli(matching[size - 1].at)
  {
    var cutoff := Milli(matching[size - 1].at);
    BelowDrops(matching, cutoff, size);
    if matching[size].at < cutoff {
      BelowAll(matching[size..], cutoff);
    } else {
      BelowMembers(matching, cutoff);
      assert matching[size] in matching[size..] && matching[size] !in Rest(matching, size);
    }
  }

  /** The pages got by following `before` while more is promised, joined oldest first. */
  function Walk(rows: seq<Message>, channel: Id, limit: nat, before: Option<Id>): seq<Message>
    requires Identified(rows)
    decreases |Matching(rows, channel, before, None)|
  {
    var matching := Matching(rows, channel, before, None);
    var page := PageOf(matching, limit);
    if page.hasMore then
      assert page.messages[0] == matching[Effective(limit) - 1];
      MatchingIsOrdered(rows, channel, before, None);
      NextQuery(rows, channel, before, None, Effective(limit));
      NextPageContinues(matching, Effective(limit));
      Walk(rows, channel, limit, Some(page.messages[0].id)) + page.messages
    else
      page.messages
  }

  /** No page ends between two messages of one millisecond. */
  predicate CleanCuts(matching: seq<Message>, size: nat)
    requires 0 < size
  {
    size < |matching| ==> matching[size].at < Milli(matching[size - 1].at) && CleanCuts(matching[size..], size)
  }

  /** Following the cursor ends for any messages and any page size. It shows every matching
      message once, in time order, exactly when no page ends between two messages of one
      millisecond; otherwise it shows fewer. */
  lemma {:induction false} WalkShowsAll(rows: seq<Message>, channel: Id, limit: nat, before: Option<Id>)
    requires Identified(rows)
    ensures var matching := Matching(rows, channel, before, None);
            && |Walk(rows, channel, limit, before)| <= |matching|
            && (CleanCuts(matching, Effective(limit)) ==> Walk(rows, channel, limit, before) == Reversed(matching))
            && (!CleanCuts(matching, Effective(limit)) ==> |Walk(rows, channel, limit, before)| < |matching|)
    decreases |Matching(rows, channel, before, None)|
  {
    var matching, size := Matching(rows, channel, before, None), Effective(limit);
    if size < |matching| {
      WalkStep(rows, channel, limit, before);
      WalkShowsAll(rows, channel, limit, Some(matching[size - 1].id));
      NextPageContinues(matching, size);
      if matching[size].at >= Milli(matching[size - 1].at) {
        RestIsShorter(matching, size);
      } else {
        PageCompletes(matching, size);
      }
    }
  }

  lemma WalkStep(rows: seq<Message>, channel: Id, limit: nat, before: Option<Id>)
    requires Identified(rows) && Effective(limit) < |Matching(rows, channel, before, None)|
    ensures var matching, size := Matching(rows, channel, before, None), Effective(limit);
            && NewestFirst(matching)
            && Matching(rows, channel, Some(matching[size - 1].id), None) == Rest(matching, size)
            && |Rest(matching, size)| < |matching|
            && Walk(rows, channel, limit, before)
               == Walk(rows, channel, limit, Some(matching[size - 1].id)) + Reversed(matching[..size])
  {
    var matching, size := Matching(rows, channel, before, None), Effective(limit);
    MatchingIsOrdered(rows, channel, before, None);
    NextQuery(rows, channel, before, None, size);
    NextPageContinues(matching, size);
    assert PageOf(matching, limit).messages[0].id == matching[size - 1].id;
  }

  lemma PageCompletes(matching: seq<Message>, size: nat)
    requires size <= |matching|
    ensures Reversed(matching[size..]) + Reversed(matching[..size]) == Reversed(matching)
  {
    assert matching[..size] + matching[size..] == matching;
  }

  lemma RestIsShorter(matching: seq<Message>, size: nat)
    requires NewestFirst(matching) && 0 < size < |matching| && matching[size].at >= Milli(matching[size - 1].at)
    ensures |Rest(matching, size)| < |matching| - size
  {
    BelowDrops(matching, Milli(matching[size - 1].at), size + 1);
  }

  predicate DistinctTimes(rows: seq<Message>, channel: Id) {
    forall i, j :: 0 <= i < j < |rows| && Visible(rows[i], channel) && Visible(rows[j], channel) ==> Milli(rows[i].at) != Milli(rows[j].at)
  }

  lemma {:induction false} StrictCutsAreClean(matching: seq<Message>, size: nat)
    requires 0 < size && NewestFirst(matching) && DifferentTimes(matching)
    ensures CleanCuts(matching, size)
  {
    if size < |matching| {
      StrictCutsAreClean(matching[size..], size);
    }
  }

  /** With the channel's messages in different milliseconds, the pages joined oldest first are exactly the
      channel's undeleted messages in time order, each once, for any page size. */
  lemma DistinctTimesShowAll(rows: seq<Message>, channel: Id, limit: nat)
    requires Identified(rows) && DistinctTimes(rows, channel)
    ensures var all := Select(rows, channel, Window(None, None));
            && Walk(rows, channel, limit, None) == Reversed(Sorted(all))
            && NewestFirst(Sorted(all)) && multiset(Sorted(all)) == multiset(all)
            && (forall m :: m in all <==> m in rows && m.channel == channel && !m.deleted)
  {
    var all := Select(rows, channel, Window(None, None));
    SortedIsTheOrder(all);
    SelectMembers(rows, channel, Window(None, None));
    SelectKeepsDistinct(rows, channel, Window(None, None));
    SortedIsStrict(all);
    StrictCutsAreClean(Sorted(all), Effective(limit));
    WalkShowsAll(rows, channel, limit, None);
  }

  predicate DifferentTimes(rows: seq<Message>) {
    forall i, j :: 0 <= i < j < |rows| ==> Milli(rows[i].at) != Milli(rows[j].at)
  }

  lemma DifferentHead(x: Message, rest: seq<Message>)
    requires DifferentTimes(rest) && forall i :: 0 <= i < |rest| ==> Milli(rest[i].at) != Milli(x.at)
    ensures DifferentTimes([x] + rest)
  {
    var all := [x] + rest;
    forall i, j | 0 <= i < j < |all| ensures Milli(all[i].at) != Milli(all[j].at) {
      assert all[j] == rest[j - 1];
      assert i > 0 ==> all[i] == rest[i - 1];
    }
  }

  lemma {:induction false} SelectKeepsDistinct(rows: seq<Message>, channel: Id, w: Window)
    requires DistinctTimes(rows, channel)
    ensures DifferentTimes(Select(rows, channel, w))
  {
    if rows != [] {
      SelectKeepsDistinct(rows[1..], channel, w);
      SelectMembers(rows[1..], channel, w);
      var rest := Select(rows[1..], channel, w);
      if Visible(rows[0], channel) && Inside(rows[0], w) {
        forall i | 0 <= i < |rest| ensures Milli(rest[i].at) != Milli(rows[0].at) {
          assert rest[i] in rest;
          assert rest[i] in rows[1..] && Visible(rest[i], channel);
        }
        DifferentHead(rows[0], rest);
      } else {
        assert [] + rest == rest;
      }
    }
  }

  lemma {:induction false} InsertIsStrict(m: Message, rows: seq<Message>)
    requires DifferentTimes(rows) && forall x :: x in rows ==> Milli(x.at) != Milli(m.at)
    ensures DifferentTimes(Insert(m, rows))
  {
    if rows == [] || rows[0].at <= m.at {
      DifferentHead(m, rows);
    } else {
      var rest := Insert(m, rows[1..]);
      InsertIsStrict(m, rows[1..]);
      InsertAdds(m, rows[1..]);
      forall i | 0 <= i < |rest| ensures Milli(rest[i].at) != Milli(rows[0].at) {
        assert rest[i] in multiset(rest);
        assert rest[i] in rows[1..] || rest[i] == m;
      }
      DifferentHead(rows[0], rest);
    }
  }

  lemma {:induction false} SortedIsStrict(rows: seq<Message>)
    requires DifferentTimes(rows)
    ensures DifferentTimes(Sorted(rows))
  {
    if rows != [] {
      SortedIsStrict(rows[1..]);
      SortedKeepsMembers(rows[1..]);
      InsertIsStrict(rows[0], Sorted(rows[1..]));
    }
  }

  predicate StrictlyNewestFirst(rows: seq<Message>) {
    forall i, j :: 0 <= i < j < |rows| ==> rows[i].at > rows[j].at
  }

  lemma FirstIsMember(rows: seq<Message>)
    ensures rows != [] ==> rows[0] in rows
  {
  }

  /** A strict order leaves no choice. */
  lemma {:induction false} SameMembersSameOrder(a: seq<Message>, b: seq<Message>)
    requires StrictlyNewestFirst(a) && StrictlyNewestFirst(b) && forall m :: m in a <==> m in b
    ensures a == b
  {
    FirstIsMember(a);
    FirstIsMember(b);
    if a != [] {
      assert a[0] in b && b[0] in a;
      forall m ensures m in a[1..] <==> m in b[1..] {
        assert m in a <==> m in b;
      }
      SameMembersSameOrder(a[1..], b[1..]);
    }
  }

  lemma MatchingIsStrict(rows: seq<Message>, channel: Id, before: Option<Id>, after: Option<Id>)
    requires DistinctTimes(rows, channel)
    ensures var w := Window(Cursor(rows, before), Cursor(rows, after)); var r := Matching(rows, channel, before, after);
      StrictlyNewestFirst(r) && forall m :: m in r <==> m in rows && Visible(m, channel) && Inside(m, w)
  {
    var w := Window(Cursor(rows, before), Cursor(rows, after));
    SortedIsTheOrder(Select(rows, channel, w));
    SortedKeepsMembers(Select(rows, channel, w));
    SelectMembers(rows, channel, w);
    SelectKeepsDistinct(rows, channel, w);
    SortedIsStrict(Select(rows, channel, w));
  }

  lemma JoinedStrictly(newer: seq<Message>, m: seq<Message>, older: seq<Message>)
    requires StrictlyNewestFirst(newer) && StrictlyNewestFirst(older) && |m| <= 1
    requires |m| == 1 ==> (forall x :: x in newer ==> m[0].at < x.at) && (forall x :: x in older ==> x.at < m[0].at)
    requires forall x, y :: x in newer && y in older ==> y.at < x.at
    ensures StrictlyNewestFirst(newer + m + older)
  {
    var all := newer + m + older;
    forall i, j | 0 <= i < j < |all| ensures all[i].at > all[j].at {
      assert i < |newer| ==> all[i] in newer;
      assert |newer| + |m| <= j ==> all[j] in older;
    }
  }

  /** The two cursors around any message of the channel: what `after` matches, the message itself, and
      what `before` matches are the whole history, except that `after` matches the message itself too,
      exactly when its timestamp has a fraction of a millisecond. */
  lemma CursorsSplitHistory(rows: seq<Message>, channel: Id, m: Message)
    requires Identified(rows) && DistinctTimes(rows, channel) && m in rows && Visible(m, channel)
    ensures Matching(rows, channel, None, None)
            == Matching(rows, channel, None, Some(m.id)) + (if m.at == Milli(m.at) then [m] else [])
               + Matching(rows, channel, Some(m.id), None)
    ensures m in Matching(rows, channel, None, Some(m.id)) <==> m.at != Milli(m.at)
  {
    assert FindById(rows, m.id) == Some(m) && m.id != "";
    MatchingIsStrict(rows, channel, None, None);
    MatchingIsStrict(rows, channel, None, Some(m.id));
    MatchingIsStrict(rows, channel, Some(m.id), None);
    var all, newer, older := Matching(rows, channel, None, None), Matching(rows, channel, None, Some(m.id)), Matching(rows, channel, Some(m.id), None);
    var itself := if m.at == Milli(m.at) then [m] else [];
    hide Matching, StrictlyNewestFirst, FindById;
    JoinedStrictly(newer, itself, older);
    forall x ensures x in all <==> x in newer + itself + older {
      if x in all && x != m {
        OtherMillisecond(rows, channel, x, m);
      }
    }
    SameMembersSameOrder(all, newer + itself + older);
  }

  lemma OtherMillisecond(rows: seq<Message>, channel: Id, x: Message, m: Message)
    requires DistinctTimes(rows, channel) && x in rows && m in rows && x != m && Visible(x, channel) && Visible(m, channel)
    ensures x.at < Milli(m.at) || Milli(m.at) < x.at
  {
    var i :| 0 <= i < |rows| && rows[i] == x;
    var j :| 0 <= j < |rows| && rows[j] == m;
    assert Milli(x.at) != Milli(m.at);
  }
}
