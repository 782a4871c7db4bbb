/** Integer parts of the status display: the hex rendering of the fault mask
    (wilo.c:777-786) and the diagnostic page list with its fault pages, the
    as-written skip test of `menuProc` (wilo.c:889-915) and the page fix-up of
    `dispProc` (wilo.c:791-796). */
module Display {

  /** Number of diagnostic pages (`N_PAGE`). */
  const N_PAGE := 30
  const PAGE_FIRST_FAULT := 2
  const PAGE_LAST_FAULT := 8

  datatype PageType = Status | FaultPage | IntPage | Hex8Page | Hex16Page

  /** The `type` column of `pageDef` (wilo.c:234-272). */
  const PageTypes: seq<PageType> := [
    Status, Status,
    FaultPage, FaultPage, FaultPage, FaultPage, FaultPage, FaultPage, FaultPage,
    IntPage, Hex16Page, Hex16Page, IntPage,
    Hex16Page, Hex16Page, Hex8Page,
    Hex8Page, Hex8Page, Hex8Page, Hex8Page, Hex8Page, Hex8Page, Hex8Page, Hex8Page, Hex8Page,
    IntPage, IntPage, IntPage, IntPage,
    Hex8Page
  ]

  /** The fault pages are exactly pages 2..8, one per fault bit 0..6. */
  lemma FaultPagesAreTheRange(p: int)
    requires 0 <= p < N_PAGE
    ensures |PageTypes| == N_PAGE
    ensures PageTypes[p] == FaultPage <==> PAGE_FIRST_FAULT <= p <= PAGE_LAST_FAULT
  {
  }

  /** `(n < 10 ? '0' : 'A' - 10) + n`: an upper-case hexadecimal digit. */
  function HexDigit(n: int): (c: char)
    requires 0 <= n < 16
    ensures '0' <= c <= '9' || 'A' <= c <= 'F'
    ensures n < 10 <==> '0' <= c <= '9'
  {
    if n < 10 then ('0' as int + n) as char else ('A' as int + n - 10) as char
  }

  /** An upper-case hexadecimal digit. */
  predicate IsHexDigit(c: char)
  {
    '0' <= c <= '9' || 'A' <= c <= 'F'
  }

  /** Reading a hexadecimal digit back. */
  function HexValue(c: char): int
  {
    if '0' <= c <= '9' then c as int - '0' as int
    else if 'A' <= c <= 'F' then c as int - 'A' as int + 10
    else 0
  }

  lemma HexRoundTrip(n: int)
    requires 0 <= n < 16
    ensures IsHexDigit(HexDigit(n)) && HexValue(HexDigit(n)) == n
  {
  }

  /** Reading back is injective on hexadecimal digits, so a code read back
      as a byte determines its two characters. */
  lemma HexValueInjective(c: char, d: char)
    requires IsHexDigit(c) && IsHexDigit(d) && HexValue(c) == HexValue(d)
    ensures c == d
  {
  }

  /** Characters 14 and 15 of the first status line: "OK" without faults,
      otherwise the low byte of `fault | scFault` in hexadecimal. */
  function FaultCode(mask: bv16): (code: seq<char>)
    ensures |code| == 2
    ensures mask == 0 <==> code == "OK"
    ensures mask != 0 ==> IsHexDigit(code[0]) && IsHexDigit(code[1])
    ensures mask != 0 ==> 16 * HexValue(code[0]) + HexValue(code[1]) == (mask & 0xFF) as int
  {
    if mask != 0 then
      var hi := ((mask >> 4) & 0xF) as int;
      var lo := (mask & 0xF) as int;
      HexRoundTrip(hi);
      HexRoundTrip(lo);
      assert (mask & 0xFF) as int == 16 * hi + lo by {
        assert mask & 0xFF == ((mask >> 4) & 0xF) * 16 + (mask & 0xF);
      }
      [HexDigit(hi), HexDigit(lo)]
    else "OK"
  }

  /** Bit `k` of a fault mask: the fault shown on page `k + 2`. */
  predicate FaultBit(mask: bv16, k: nat)
    requires k < 16
  {
    (mask >> k) & 1 == 1
  }

  /** The loop test `!((fault | scFault) >> (page - 2)) & 1` parses as
      `(!(mask >> k)) & 1`: a page counts as shown unless every fault bit
      from position `k` upward is clear. */
  predicate ShownAsWritten(mask: bv16, page: int)
    requires PAGE_FIRST_FAULT <= page <= PAGE_LAST_FAULT
  {
    mask >> (page - PAGE_FIRST_FAULT) != 0
  }

  /** A page with its own fault bit set passes the as-written test, but the
      converse fails: the test also passes pages below the highest set bit. */
  lemma ShownAsWrittenWeaker(mask: bv16, page: int)
    requires PAGE_FIRST_FAULT <= page <= PAGE_LAST_FAULT
    ensures FaultBit(mask, page - PAGE_FIRST_FAULT) ==> ShownAsWritten(mask, page)
  {
  }

  /** With only the undervoltage bit (bit 2, page 4) set, page 2 passes the
      as-written test although its own fault (short circuit) is absent. */
  lemma ShownAsWrittenCounterexample()
    ensures ShownAsWritten(0x04, 2) && !FaultBit(0x04, 0)
  {
  }

  /** The as-written test is monotone: once it fails at a page it fails at
      every later fault page. */
  lemma ShownAsWrittenMonotone(mask: bv16, p: int, q: int)
    requires PAGE_FIRST_FAULT <= p <= q <= PAGE_LAST_FAULT
    ensures ShownAsWritten(mask, q) ==> ShownAsWritten(mask, p)
  {
    var k, l := (p - PAGE_FIRST_FAULT) as bv16, (q - PAGE_FIRST_FAULT) as bv16;
    assert mask >> (q - PAGE_FIRST_FAULT) == (mask >> (p - PAGE_FIRST_FAULT)) >> (q - p) by {
      assert mask >> l == (mask >> k) >> (l - k);
    }
  }

  /** The fault of fault page `page` is present in the mask. */
  predicate PageFaultSet(mask: bv16, page: int)
    requires PAGE_FIRST_FAULT <= page <= PAGE_LAST_FAULT
  {
    FaultBit(mask, page - PAGE_FIRST_FAULT)
  }

  /** The fault page `dispProc` falls back to: the first page 2..8 whose own
      fault bit is set, or page 0 when there is none. */
  function FirstFaultPage(mask: bv16): (page: int)
    ensures page == 0 || PAGE_FIRST_FAULT <= page <= PAGE_LAST_FAULT
    ensures page != 0 ==> PageFaultSet(mask, page)
    ensures page != 0 ==> forall q :: PAGE_FIRST_FAULT <= q < page ==> !PageFaultSet(mask, q)
    ensures page == 0 <==> forall q :: PAGE_FIRST_FAULT <= q <= PAGE_LAST_FAULT ==> !PageFaultSet(mask, q)
  {
    FirstFaultPageFrom(mask, PAGE_FIRST_FAULT)
  }

  function FirstFaultPageFrom(mask: bv16, from: int): (page: int)
    requires PAGE_FIRST_FAULT <= from <= PAGE_LAST_FAULT + 1
    ensures page == 0 || from <= page <= PAGE_LAST_FAULT
    ensures page != 0 ==> PageFaultSet(mask, page)
    ensures page != 0 ==> forall q :: from <= q < page ==> !PageFaultSet(mask, q)
    ensures page == 0 <==> forall q :: from <= q <= PAGE_LAST_FAULT ==> !PageFaultSet(mask, q)
    decreases PAGE_LAST_FAULT + 1 - from
  {
    if from > PAGE_LAST_FAULT then 0
    else if PageFaultSet(mask, from) then from
    else FirstFaultPageFrom(mask, from + 1)
  }

  /** The skip loop after KEY_DOWN lands on a fault page (wilo.c:908-914),
      as written: move on while the page is within the fault pages and the
      as-written test fails. */
  function SkipDown(mask: bv16, page: int): (r: int)
    requires PAGE_FIRST_FAULT <= page <= PAGE_LAST_FAULT + 1
    ensures page <= r <= PAGE_LAST_FAULT + 1
    ensures r <= PAGE_LAST_FAULT ==> ShownAsWritten(mask, r)
    ensures forall q :: page <= q < r ==> !ShownAsWritten(mask, q)
    decreases PAGE_LAST_FAULT + 1 - page
  {
    if page <= PAGE_LAST_FAULT && !ShownAsWritten(mask, page) then SkipDown(mask, page + 1) else page
  }

  /** Because the as-written test is monotone, KEY_DOWN onto a fault page
      either stays there or jumps past all fault pages to page 9. */
  lemma {:induction false} SkipDownStaysOrLeaves(mask: bv16, page: int)
    requires PAGE_FIRST_FAULT <= page <= PAGE_LAST_FAULT
    ensures SkipDown(mask, page) == if ShownAsWritten(mask, page) then page else PAGE_LAST_FAULT + 1
    decreases PAGE_LAST_FAULT + 1 - page
  {
    if !ShownAsWritten(mask, page) && page < PAGE_LAST_FAULT {
      ShownAsWrittenMonotone(mask, page, page + 1);
      SkipDownStaysOrLeaves(mask, page + 1);
    }
  }

  /** The skip loop after KEY_UP lands on a fault page (wilo.c:889-895), as
      written: move back while the page is a fault page and the as-written
      test fails, ending at page 1 at the latest. */
  function SkipUp(mask: bv16, page: int): (r: int)
    requires PAGE_FIRST_FAULT - 1 <= page <= PAGE_LAST_FAULT
    ensures PAGE_FIRST_FAULT - 1 <= r <= page
    ensures r >= PAGE_FIRST_FAULT ==> ShownAsWritten(mask, r)
    ensures forall q :: r < q <= page ==> !ShownAsWritten(mask, q)
    decreases page
  {
    if page >= PAGE_FIRST_FAULT && !ShownAsWritten(mask, page) then SkipUp(mask, page - 1) else page
  }

  /** KEY_UP onto a fault page lands on a page whose as-written test passes,
      and every fault page above it up to the start also passes the test
      once it passes there: the pages it skipped are exactly those above the
      highest set fault bit. */
  lemma {:induction false} SkipUpBelowHighest(mask: bv16, page: int, q: int)
    requires PAGE_FIRST_FAULT <= q <= page <= PAGE_LAST_FAULT
    ensures q <= SkipUp(mask, page) <==> ShownAsWritten(mask, q)
    decreases page
  {
    if !ShownAsWritten(mask, page) && q < page {
      SkipUpBelowHighest(mask, page - 1, q);
    } else if ShownAsWritten(mask, page) {
      ShownAsWrittenMonotone(mask, q, page);
    }
  }

  /** The page `dispProc` shows after its fix-up (wilo.c:791-796): a fault
      page whose fault is absent gives way to the first present fault's
      page, or to page 0; every other page stays. */
  function FixedPage(mask: bv16, page: int): int
    requires 0 <= page < N_PAGE
  {
    FaultPagesAreTheRange(page);
    if PageTypes[page] == FaultPage && !PageFaultSet(mask, page) then FirstFaultPage(mask) else page
  }

  /** After the fix-up a fault page (pages 2..8) is shown only while its
      fault is present, and a page whose fault is present is never moved. */
  lemma FixedPageShowsFault(mask: bv16, page: int)
    requires 0 <= page < N_PAGE
    ensures 0 <= FixedPage(mask, page) < N_PAGE
    ensures PAGE_FIRST_FAULT <= FixedPage(mask, page) <= PAGE_LAST_FAULT ==> PageFaultSet(mask, FixedPage(mask, page))
    ensures PageTypes[page] != FaultPage || PageFaultSet(mask, page) ==> FixedPage(mask, page) == page
  {
    FaultPagesAreTheRange(page);
    FaultPagesAreTheRange(FixedPage(mask, page));
  }

  /** The fix-up loop of lines 791-796. */
  method FixPage(mask: bv16, page: int) returns (r: int)
    requires 0 <= page < N_PAGE
    ensures 0 <= r < N_PAGE
    ensures r == FixedPage(mask, page)
  {
    FaultPagesAreTheRange(page);
    r := page;
    if PageTypes[page] == FaultPage && !PageFaultSet(mask, page) {
      r := PAGE_FIRST_FAULT;
      while r <= PAGE_LAST_FAULT
        invariant PAGE_FIRST_FAULT <= r <= PAGE_LAST_FAULT + 1
        invariant forall q :: PAGE_FIRST_FAULT <= q < r ==> !PageFaultSet(mask, q)
      {
        if PageFaultSet(mask, r) {
          break;
        }
        r := r + 1;
      }
      if r > PAGE_LAST_FAULT {
        r := 0;
      }
    }
  }

  /** KEY_UP in the status view (wilo.c:887-895): one page back, and on
      landing on a fault page the as-written skip loop moves further back. */
  function PageUp(mask: bv16, page: int): (r: int)
    requires 0 <= page < N_PAGE
    ensures 0 <= r < N_PAGE
  {
    if page == 0 then 0
    else if PageTypes[page - 1] == FaultPage then (FaultPagesAreTheRange(page - 1); SkipUp(mask, page - 1))
    else page - 1
  }

  /** KEY_DOWN in the status view (wilo.c:908-916): one page on, and on
      landing on a fault page the as-written skip loop moves further on. */
  function PageDown(mask: bv16, page: int): (r: int)
    requires 0 <= page < N_PAGE
    ensures 0 <= r < N_PAGE
  {
    if page == N_PAGE - 1 then page
    else if PageTypes[page + 1] == FaultPage then (FaultPagesAreTheRange(page + 1); SkipDown(mask, page + 1))
    else page + 1
  }

  /** Paging stays on the page list, never moves the wrong way, and never
      ends on a fault page (pages 2..8) whose as-written test fails. */
  lemma PagingStaysInRange(mask: bv16, page: int)
    requires 0 <= page < N_PAGE
    ensures 0 <= PageUp(mask, page) <= page && page <= PageDown(mask, page) < N_PAGE
    ensures page > 0 ==> PageUp(mask, page) < page
    ensures page < N_PAGE - 1 ==> page < PageDown(mask, page)
    ensures PAGE_FIRST_FAULT <= PageUp(mask, page) <= PAGE_LAST_FAULT ==> ShownAsWritten(mask, PageUp(mask, page))
    ensures PAGE_FIRST_FAULT <= PageDown(mask, page) <= PAGE_LAST_FAULT ==> ShownAsWritten(mask, PageDown(mask, page))
  {
    FaultPagesAreTheRange(page);
    if page > 0 {
      FaultPagesAreTheRange(page - 1);
      FaultPagesAreTheRange(PageUp(mask, page));
    }
    if page < N_PAGE - 1 {
      FaultPagesAreTheRange(page + 1);
      FaultPagesAreTheRange(PageDown(mask, page));
    }
  }

  /** The KEY_UP branch of lines 887-895, with its skip loop. The loop test
      `!((fault | scFault) >> (page - 2)) & 1` is taken as written: it holds
      when no fault bit from the page's own bit upward is set. */
  method StepPageUp(mask: bv16, page: int) returns (r: int)
    requires 0 <= page < N_PAGE
    ensures r == PageUp(mask, page)
  {
    r := page;
    if r > 0 {
      r := r - 1;
      if PageTypes[r] == FaultPage {
        FaultPagesAreTheRange(r);
        while r >= PAGE_FIRST_FAULT && mask >> (r - PAGE_FIRST_FAULT) == 0
          invariant PAGE_FIRST_FAULT - 1 <= r <= PAGE_LAST_FAULT
          invariant SkipUp(mask, r) == SkipUp(mask, page - 1)
          decreases r
        {
          assert !ShownAsWritten(mask, r);
          r := r - 1;
        }
      }
    }
  }

  /** The KEY_DOWN branch of lines 908-916, with its as-written skip loop. */
  method StepPageDown(mask: bv16, page: int) returns (r: int)
    requires 0 <= page < N_PAGE
    ensures r == PageDown(mask, page)
  {
    r := page;
    if r < N_PAGE - 1 {
      r := r + 1;
      if PageTypes[r] == FaultPage {
        FaultPagesAreTheRange(r);
        while r <= PAGE_LAST_FAULT && mask >> (r - PAGE_FIRST_FAULT) == 0
          invariant PAGE_FIRST_FAULT <= r <= PAGE_LAST_FAULT + 1
          invariant SkipDown(mask, r) == SkipDown(mask, page + 1)
          decreases PAGE_LAST_FAULT + 1 - r
        {
          r := r + 1;
        }
      }
    }
  }
}
