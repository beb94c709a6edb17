/** The pages of a user's call log: how the store cuts them, what the handler reports, and how the web client turns them. */
module CallLogPages {
  import opened Wrappers
  import opened Strings
  import opened Database

  /** A row of the call log; the table is in ascending order of identifiers. */
  datatype LogRow = LogRow(id: int, user: int)

  predicate InOrder(table: seq<LogRow>) {
    forall i, j :: 0 <= i < j < |table| ==> table[i].id < table[j].id
  }

  /** The rows of one user, the newest first. */
  function UserLog(table: seq<LogRow>, user: int): seq<LogRow> {
    if table == [] then []
    else
      var rest := UserLog(table[..|table| - 1], user);
      if table[|table| - 1].user == user then [table[|table| - 1]] + rest else rest
  }

  predicate Descends(log: seq<LogRow>) {
    forall i, j :: 0 <= i < j < |log| ==> log[i].id > log[j].id
  }

  /** The log has exactly the user's rows, by descending identifier. */
  lemma {:induction false} UserLogDescends(table: seq<LogRow>, user: int)
    requires InOrder(table)
    ensures Descends(UserLog(table, user))
    ensures forall r :: r in UserLog(table, user) <==> r in table && r.user == user
  {
    if table != [] {
      var before, last := table[..|table| - 1], table[|table| - 1];
      var rest := UserLog(before, user);
      UserLogDescends(before, user);
      assert table == before + [last];
      forall i | 0 <= i < |rest|
        ensures rest[i].id < last.id
      {
        assert rest[i] in rest;
        var j :| 0 <= j < |table| - 1 && table[j] == rest[i];
      }
      assert Descends([last] + rest);
    }
  }

  /** LIMIT and OFFSET as SQLite reads them: a negative offset is none. */
  function Slice(log: seq<LogRow>, limit: nat, offset: int): seq<LogRow> {
    var from := if offset < 0 then 0 else if offset > |log| then |log| else offset;
    var to := if from + limit > |log| then |log| else from + limit;
    log[from..to]
  }

  /** The offset of a page in 64-bit arithmetic. */
  function Offset(page: int, size: int): int {
    Wrap64(Wrap64(page - 1) * size)
  }

  function StorePage(page: int): (p: int)
    ensures page >= 1 ==> p == page
    ensures page < 1 ==> p == 1
  {
    if page <= 0 then 1 else page
  }

  function StoreSize(size: int): (n: nat)
    ensures 1 <= size <= 100 ==> n == size
    ensures size < 1 ==> n == 10
    ensures size > 100 ==> n == 100
  {
    if size <= 0 then 10 else if size > 100 then 100 else size
  }

  /** The rows of page `page`. */
  function Page(log: seq<LogRow>, page: int, size: nat): seq<LogRow> {
    Slice(log, size, Offset(page, size))
  }

  lemma SliceGrows(seen: seq<LogRow>, r: LogRow, limit: nat, offset: int)
    ensures var from := if offset < 0 then 0 else offset;
            Slice(seen + [r], limit, offset)
            == if from <= |seen| < from + limit then Slice(seen, limit, offset) + [r] else Slice(seen, limit, offset)
  {}

  /** The query walks the table from its end, skips `offset` of the user's rows and yields the next ones. */
  method SelectPage(table: seq<LogRow>, user: int, limit: nat, offset: int) returns (out: seq<LogRow>)
    ensures out == Slice(UserLog(table, user), limit, offset)
  {
    var from := if offset < 0 then 0 else offset;
    var seen := [];
    out := [];
    assert table[..|table|] == table;
    assert out == Slice(seen, limit, offset);
    hide Slice;
    for i := |table| downto 0
      invariant UserLog(table, user) == seen + UserLog(table[..i], user)
      invariant out == Slice(seen, limit, offset)
    {
      assert table[..i + 1][..i] == table[..i];
      assert seen + ([table[i]] + UserLog(table[..i], user)) == seen + [table[i]] + UserLog(table[..i], user);
      if table[i].user == user {
        SliceGrows(seen, table[i], limit, offset);
        if from <= |seen| < from + limit { out := out + [table[i]]; }
        seen := seen + [table[i]];
      }
    }
    assert UserLog(table, user) == seen;
  }

  method CountCalls(table: seq<LogRow>, user: int) returns (total: nat)
    ensures total == |UserLog(table, user)|
  {
    total := 0;
    assert table[..|table|] == table;
    for i := |table| downto 0
      invariant |UserLog(table, user)| == total + |UserLog(table[..i], user)|
    {
      assert table[..i + 1][..i] == table[..i];
      if table[i].user == user { total := total + 1; }
    }
  }

  method ListCallLogsByUser(table: seq<LogRow>, user: int, page: int, pageSize: int) returns (out: seq<LogRow>, total: nat)
    ensures total == |UserLog(table, user)|
    ensures out == Page(UserLog(table, user), StorePage(page), StoreSize(pageSize))
  {
    hide Wrap64, Slice;
    var p, size := page, pageSize;
    if p <= 0 { p := 1; }
    if size <= 0 { size := 10; }
    if size > 100 { size := 100; }
    var offset := Wrap64(Wrap64(p - 1) * size);
    total := CountCalls(table, user);
    out := SelectPage(table, user, size, offset);
  }

  // ----- the handler -----

  datatype Reply = Invalid(what: string) | Calls(items: seq<LogRow>, page: int, pageSize: int, total: nat, totalPages: nat)

  /** A query parameter: absent when blank, and a positive number otherwise. */
  function PositiveParam(raw: string, default: int): Option<int> {
    if Trim(raw) == "" then Some(default)
    else
      var v := Atoi(Trim(raw));
      if v.Some? && v.value > 0 then v else None
  }

  /** A parameter of spaces is absent, one that prints a number counts if that is positive, and no other is taken. */
  lemma ParamMeans(raw: string, default: int, n: int)
    ensures (forall c <- raw :: IsSpace(c)) ==> PositiveParam(raw, default) == Some(default)
    ensures -INT64_LIMIT <= n < INT64_LIMIT && Trim(raw) == Print(n) ==>
              PositiveParam(raw, default) == if n > 0 then Some(n) else None
    ensures PositiveParam(raw, default).Some? ==> IsBlank(raw) || Atoi(Trim(raw)).Some?
  {
    var left, right := TrimMeans(raw);
    if -INT64_LIMIT <= n < INT64_LIMIT { AtoiPrints(n); }
    hide Trim, Atoi, IsSpace;
  }

  function TotalPages(total: nat, size: nat): nat
    requires size > 0
  {
    if total == 0 then 0 else (total + size - 1) / size
  }

  method HandleListCalls(table: seq<LogRow>, user: int, rawPage: string, rawSize: string) returns (reply: Reply)
    ensures reply.Calls? <==> PositiveParam(rawPage, 1).Some? && PositiveParam(rawSize, 10).Some?
    ensures reply == Invalid("page") <==> PositiveParam(rawPage, 1).None?
    ensures reply == Invalid("page_size") <==> PositiveParam(rawPage, 1).Some? && PositiveParam(rawSize, 10).None?
    ensures reply.Calls? ==>
              var log := UserLog(table, user);
              && reply.page == PositiveParam(rawPage, 1).value >= 1
              && reply.pageSize == StoreSize(PositiveParam(rawSize, 10).value)
              && reply.total == |log| && reply.totalPages == TotalPages(|log|, reply.pageSize)
              && reply.items == Page(log, reply.page, reply.pageSize)
  {
    var page, pageSize := 1, 10;
    if Trim(rawPage) != "" {
      var v := Atoi(Trim(rawPage));
      if v.None? || v.value <= 0 { return Invalid("page"); }
      page := v.value;
    }
    if Trim(rawSize) != "" {
      var v := Atoi(Trim(rawSize));
      if v.None? || v.value <= 0 { return Invalid("page_size"); }
      pageSize := v.value;
    }
    if pageSize > 100 { pageSize := 100; }
    var items, total := ListCallLogsByUser(table, user, page, pageSize);
    var totalPages := 0;
    if total > 0 { totalPages := (total + pageSize - 1) / pageSize; }
    reply := Calls(items, page, pageSize, total, totalPages);
  }

  // ----- the pages partition the log -----

  /** The first `n` pages, one after the other. */
  function FirstPages(log: seq<LogRow>, n: nat, size: nat): seq<LogRow> {
    if n == 0 then [] else FirstPages(log, n - 1, size) + Page(log, n, size)
  }

  lemma Fits(n: int)
    requires -INT64_LIMIT <= n < INT64_LIMIT
    ensures Wrap64(n) == n
  {}

  lemma OffsetFits(page: int, size: nat)
    requires 1 <= page < INT64_LIMIT && (page - 1) * size < INT64_LIMIT
    ensures Offset(page, size) == (page - 1) * size >= 0
  {
    Fits(page - 1);
    hide Wrap64;
    MulMonotone(0, page - 1, size);
    Fits((page - 1) * size);
  }

  /** A page whose offset fits is cut where it should be. */
  lemma PageAt(log: seq<LogRow>, page: int, size: nat)
    requires 1 <= page < INT64_LIMIT && (page - 1) * size < INT64_LIMIT
    ensures (page - 1) * size >= 0 && page * size == (page - 1) * size + size
    ensures (page - 1) * size <= |log| ==>
              Page(log, page, size) == log[(page - 1) * size..(if page * size > |log| then |log| else page * size)]
    ensures (page - 1) * size >= |log| ==> Page(log, page, size) == []
  {
    hide Offset;
    OffsetFits(page, size);
  }

  lemma LastPage(total: nat, size: nat)
    requires total > 0 && size > 0
    ensures (TotalPages(total, size) - 1) * size < total <= TotalPages(total, size) * size
  {
    var n := total + size - 1;
    assert n == n / size * size + n % size;
    assert (n / size - 1) * size == n / size * size - size;
  }

  lemma MulMonotone(a: nat, b: nat, size: nat)
    requires a <= b
    ensures a * size <= b * size
  {}

  /** Every page up to the reported number of pages has an offset within the log. */
  lemma WithinTheLog(total: nat, page: nat, size: nat)
    requires 1 <= size && 1 <= page <= TotalPages(total, size)
    ensures (page - 1) * size < total && page <= total
    ensures page < TotalPages(total, size) ==> page * size <= total
  {
    var n := TotalPages(total, size);
    LastPage(total, size);
    MulMonotone(page - 1, n - 1, size);
    AtLeast(page - 1, size);
    if page < n { MulMonotone(page, n - 1, size); }
  }

  lemma AtLeast(a: nat, size: nat)
    requires 1 <= size
    ensures a <= a * size
  {}

  function Cut(log: seq<LogRow>, to: nat): seq<LogRow> {
    if to > |log| then log else log[..to]
  }

  lemma CutNothing(log: seq<LogRow>)
    ensures Cut(log, 0) == []
  {}

  lemma Extend(log: seq<LogRow>, from: nat, to: nat)
    requires from <= to && from <= |log|
    ensures Cut(log, from) + log[from..(if to > |log| then |log| else to)] == Cut(log, to)
  {}

  lemma {:induction false} FirstPagesArePrefix(log: seq<LogRow>, n: nat, size: nat)
    requires 1 <= size && |log| < INT64_LIMIT && n <= TotalPages(|log|, size)
    ensures n * size >= 0 && FirstPages(log, n, size) == Cut(log, n * size)
  {
    hide Cut, Page;
    if n == 0 {
      CutNothing(log);
    } else {
      FirstPagesArePrefix(log, n - 1, size);
      WithinTheLog(|log|, n, size);
      PageAt(log, n, size);
      Extend(log, (n - 1) * size, n * size);
    }
  }

  /** Pages 1 to the reported number of pages, put together, are exactly the user's log; every page but the last is
      full and none is empty. */
  lemma PagesPartitionTheLog(log: seq<LogRow>, size: nat)
    requires 1 <= size && |log| < INT64_LIMIT
    ensures var n := TotalPages(|log|, size);
            && FirstPages(log, n, size) == log
            && (forall p :: 1 <= p < n ==> |Page(log, p, size)| == size)
            && (n > 0 ==> 1 <= |Page(log, n, size)| <= size)
  {
    var n := TotalPages(|log|, size);
    FirstPagesArePrefix(log, n, size);
    if |log| > 0 {
      LastPage(|log|, size);
      hide TotalPages, Page;
      forall p | 1 <= p <= n
        ensures p < n ==> |Page(log, p, size)| == size
        ensures p == n ==> 1 <= |Page(log, p, size)| <= size
      {
        WithinTheLog(|log|, p, size);
        PageAt(log, p, size);
      }
    }
  }

  /** The first page that starts at row `n` or later. */
  function FirstPageFrom(n: nat, size: nat): nat
    requires size > 0
  {
    1 + (n + size - 1) / size
  }

  lemma StartsAtOrAfter(page: nat, size: nat, n: nat)
    requires page >= 1 && size > 0
    ensures (page - 1) * size >= n <==> page >= FirstPageFrom(n, size)
  {
    var m := n + size - 1;
    var q := m / size;
    assert m == q * size + m % size;
    if page - 1 >= q {
      MulMonotone(q, page - 1, size);
    } else {
      MulMonotone(page - 1, q - 1, size);
      assert (q - 1) * size == q * size - size;
    }
  }

  /** How often an offset has wrapped around. */
  lemma WrapsIff(n: nat, w: nat)
    ensures (2 * w - 1) * INT64_LIMIT <= n < (2 * w + 1) * INT64_LIMIT <==> Wrap64(n) == n - 2 * w * INT64_LIMIT
  {}

  /** The 64-bit offset of the page has wrapped around `w` times and comes out before row `total`; SQLite takes a
      negative offset for none. */
  predicate WrapsIntoTheLog(page: nat, size: nat, total: nat, w: nat)
    requires size > 0 && w > 0
  {
    FirstPageFrom((2 * w - 1) * INT64_LIMIT, size) <= page < FirstPageFrom(2 * w * INT64_LIMIT + total, size)
  }

  lemma WrapsIntoTheLogIs(page: nat, size: nat, total: nat, w: nat)
    requires page >= 1 && size > 0 && w > 0 && total < INT64_LIMIT
    ensures WrapsIntoTheLog(page, size, total, w)
            <==> (2 * w - 1) * INT64_LIMIT <= (page - 1) * size < 2 * w * INT64_LIMIT + total
  {
    StartsAtOrAfter(page, size, (2 * w - 1) * INT64_LIMIT);
    StartsAtOrAfter(page, size, 2 * w * INT64_LIMIT + total);
  }

  lemma BeyondTheLog(total: nat, page: nat, size: nat)
    requires size > 0 && TotalPages(total, size) < page
    ensures (page - 1) * size >= total
  {
    if total > 0 {
      LastPage(total, size);
      MulMonotone(TotalPages(total, size), page - 1, size);
    } else {
      MulMonotone(0, page - 1, size);
    }
  }

  lemma ShowsRows(log: seq<LogRow>, page: int, size: nat)
    requires size > 0 && 1 <= page < INT64_LIMIT
    ensures Page(log, page, size) != [] <==> log != [] && Wrap64((page - 1) * size) < |log|
  {
    Fits(page - 1);
    hide Wrap64;
  }

  /** A page past the last one shows rows if and only if its number lies in one of the ranges whose offset, in 64-bit
      arithmetic, wraps around to before the end. */
  lemma PastTheEndIff(log: seq<LogRow>, page: int, size: nat)
    requires 1 <= size && |log| < INT64_LIMIT && TotalPages(|log|, size) < page < INT64_LIMIT
    ensures Page(log, page, size) != [] <==> log != [] && exists w: nat :: w > 0 && WrapsIntoTheLog(page, size, |log|, w)
  {
    var n := (page - 1) * size;
    BeyondTheLog(|log|, page, size);
    ShowsRows(log, page, size);
    var times := (n + INT64_LIMIT) / (2 * INT64_LIMIT);
    WrapsIff(n, times);
    if Page(log, page, size) != [] {
      WrapsIntoTheLogIs(page, size, |log|, times);
    }
    forall w: nat | w > 0 && WrapsIntoTheLog(page, size, |log|, w)
      ensures log != [] ==> Page(log, page, size) != []
    {
      WrapsIntoTheLogIs(page, size, |log|, w);
      WrapsIff(n, w);
    }
  }

  /** The page numbers before the first such range are safe. */
  lemma EmptyBeforeTheFirstWrap(log: seq<LogRow>, page: int, size: nat)
    requires 1 <= size && |log| < INT64_LIMIT && TotalPages(|log|, size) < page < FirstPageFrom(INT64_LIMIT, size)
    requires page < INT64_LIMIT
    ensures Page(log, page, size) == []
  {
    StartsAtOrAfter(page, size, INT64_LIMIT);
    BeyondTheLog(|log|, page, size);
    PageAt(log, page, size);
  }

  /** For a page number large enough the offset wraps around: page 2^62 + 1, of four rows, is the first page again. */
  lemma WrappedPage(log: seq<LogRow>)
    ensures Page(log, 0x4000_0000_0000_0001, 4) == Page(log, 1, 4)
  {
    WrappedOffset();
    hide Offset;
  }

  lemma WrappedOffset()
    ensures Offset(0x4000_0000_0000_0001, 4) == 0 == Offset(1, 4)
  {
    Fits(0x4000_0000_0000_0000);
    assert Wrap64(0x1_0000_0000_0000_0000) == 0;
  }

  // ----- the web client -----

  function Max(a: int, b: int): int {
    if a < b then b else a
  }

  function Min(a: int, b: int): int {
    if a < b then a else b
  }

  /** The client's part of the state; `shown` is what the table displays. */
  class CallLogView {
    var page: int
    var pageSize: int
    var total: int
    var totalPages: int
    var shown: seq<LogRow>

    constructor ()
      ensures page == 1 && pageSize == 10 && total == 0 && totalPages == 1 && shown == []
    {
      page, pageSize, total, totalPages, shown := 1, 10, 0, 1, [];
    }

    /** refreshCallLogs: `logs(k)` is the user's log when the k-th request is served, or none when that request fails;
        the server refuses a page number of more than 64 bits. The page asked for decreases with every repetition,
        whatever totals the server reports, so it ends. */
    method Refresh(asked: int, logs: nat -> Option<seq<LogRow>>, k: nat) returns (ok: bool, requests: nat)
      requires forall i: nat :: logs(i).Some? ==> |logs(i).value| < INT64_LIMIT
      modifies this
      ensures 1 <= requests <= Max(1, asked)
      ensures ok <==> asked < INT64_LIMIT && logs(k + requests - 1).Some?
      ensures ok ==>
                && pageSize == Max(1, Min(100, if old(pageSize) == 0 then 10 else old(pageSize)))
                && 1 <= page <= totalPages && page <= Max(1, asked)
                && var log := logs(k + requests - 1).value;
                   && total == |log| && totalPages == Max(1, TotalPages(|log|, pageSize))
                   && shown == Page(log, page, pageSize) && (shown == [] <==> log == [])
      ensures !ok ==> shown == old(shown)
      decreases Max(1, asked)
    {
      var reqPage := Max(1, asked);
      var size := Max(1, Min(100, if pageSize == 0 then 10 else pageSize));
      if reqPage >= INT64_LIMIT || logs(k).None? { return false, 1; }
      var log := logs(k).value;
      page := reqPage;
      pageSize := size;
      total := |log|;
      totalPages := Max(1, TotalPages(total, pageSize));
      if page > totalPages {
        ok, requests := Refresh(totalPages, logs, k + 1);
        requests := requests + 1;
      } else {
        shown := Page(log, page, pageSize);
        PagesPartitionTheLog(log, pageSize);
        return true, 1;
      }
    }
  }
}
