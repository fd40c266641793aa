/** The session-list paging contract: a stock server that repeats every pinned row on every
    page, and the client rules that decide when the accumulated ids are complete. */
module Paging {
  import opened Basics

  datatype Row = Pin(id: int) | Plain(id: int)

  /** Row ids are 0..total-1, newest first. */
  datatype StockServer = StockServer(total: nat, pins: set<int>) {

    static function Make(total: nat, wanted: set<int>): (s: StockServer)
      ensures s.Valid() && s.total == total
      ensures forall p :: p in s.pins <==> p in wanted && 0 <= p < total
    {
      StockServer(total, set p | p in wanted && 0 <= p < total)
    }

    predicate Valid() {
      forall p :: p in pins ==> 0 <= p < total
    }

    function WindowEnd(offset: nat, limit: nat): nat {
      if offset + limit < total then offset + limit else if offset < total then total else offset
    }

    /** The pinned ids at or above `from` that the window [lo, hi) does not hold, ascending. */
    function Backfill(from: nat, lo: nat, hi: nat): seq<int>
      decreases total - from
    {
      if from >= total then []
      else if from in pins && !(lo <= from < hi) then [from] + Backfill(from + 1, lo, hi)
      else Backfill(from + 1, lo, hi)
    }

    function Label(id: int): Row {
      if id in pins then Pin(id) else Plain(id)
    }

    function RowIds(offset: nat, limit: nat): seq<int> {
      var hi := WindowEnd(offset, limit);
      Backfill(0, offset, hi) + seq(hi - offset, i => offset + i)
    }

    /** Back-filled pins first, then the window; the flag compares the rows that are not pinned with `limit`. */
    function Page(offset: nat, limit: nat): (seq<Row>, bool) {
      var ids := RowIds(offset, limit);
      var rows := seq(|ids|, i requires 0 <= i < |ids| => Label(ids[i]));
      (rows, |rows| - CountPins(rows) >= limit)
    }

    function FullSet(): set<int> {
      Range(0, total) + pins
    }

    function TotalCount(): nat {
      total
    }
  }

  function CountPins(rows: seq<Row>): nat {
    if rows == [] then 0 else CountPins(rows[..|rows| - 1]) + if rows[|rows| - 1].Pin? then 1 else 0
  }

  function Ids(rows: seq<Row>): set<int> {
    set r | r in rows :: r.id
  }

  /** The ids of one page: its window and every pin. */
  function PageIds(server: StockServer, offset: nat, limit: nat): set<int> {
    set i | 0 <= i < server.total && (i in server.pins || offset <= i < offset + limit)
  }

  lemma {:induction false} BackfillHolds(server: StockServer, from: nat, lo: nat, hi: nat)
    requires server.Valid()
    ensures var b := server.Backfill(from, lo, hi);
            (forall i :: 0 <= i < |b| ==> from <= b[i] < server.total)
            && (forall i, j :: 0 <= i < j < |b| ==> b[i] < b[j])
            && (forall p :: p in b <==> p in server.pins && from <= p && !(lo <= p < hi))
    decreases server.total - from
  {
    if from < server.total {
      BackfillHolds(server, from + 1, lo, hi);
    }
  }

  function PinIds(rows: seq<Row>): (ids: set<int>)
    ensures forall id :: id in ids ==> Pin(id) in rows
  {
    if rows == [] then {}
    else PinIds(rows[..|rows| - 1]) + if rows[|rows| - 1].Pin? then {rows[|rows| - 1].id} else {}
  }

  lemma {:induction false} PinIdsHasAll(rows: seq<Row>, k: nat)
    requires k < |rows| && rows[k].Pin?
    ensures rows[k].id in PinIds(rows)
    decreases |rows|
  {
    if k < |rows| - 1 {
      PinIdsHasAll(rows[..|rows| - 1], k);
    }
  }

  /** Rows with distinct ids hold as many pins as there are pinned ids among them. */
  lemma {:induction false} CountPinsIsCardinality(rows: seq<Row>)
    requires forall i, j :: 0 <= i < j < |rows| ==> rows[i].id != rows[j].id
    ensures CountPins(rows) == |PinIds(rows)|
  {
    if rows != [] {
      var front, last := rows[..|rows| - 1], rows[|rows| - 1];
      CountPinsIsCardinality(front);
      assert forall k :: 0 <= k < |front| ==> front[k] == rows[k];
    }
  }

  lemma RowIdsHold(server: StockServer, offset: nat, limit: nat)
    requires server.Valid()
    ensures var ids := server.RowIds(offset, limit);
            (forall i, j :: 0 <= i < j < |ids| ==> ids[i] != ids[j])
            && (forall id :: id in ids <==> id in PageIds(server, offset, limit))
  {
    var hi := server.WindowEnd(offset, limit);
    var back, window := server.Backfill(0, offset, hi), seq(hi - offset, i => offset + i);
    BackfillHolds(server, 0, offset, hi);
    forall id | offset <= id < hi
      ensures id in window
    {
      assert window[id - offset] == id;
    }
    var ids := server.RowIds(offset, limit);
    assert ids == back + window;
    assert forall id :: id in ids <==> id in back || id in window;
    assert forall id :: id in PageIds(server, offset, limit) <==> id in back || offset <= id < hi;
    forall i, j | 0 <= i < j < |ids|
      ensures ids[i] != ids[j]
    {
      if i < |back| <= j {
        assert ids[i] in back && ids[j] == offset + (j - |back|);
      }
    }
  }

  lemma LabelledRows(server: StockServer, ids: seq<int>, rows: seq<Row>)
    requires |rows| == |ids| && forall i :: 0 <= i < |rows| ==> rows[i] == server.Label(ids[i])
    ensures forall id :: id in Ids(rows) <==> id in ids
    ensures forall id :: id in PinIds(rows) <==> id in ids && id in server.pins
  {
    forall id | id in ids
      ensures server.Label(id) in rows
    {
      var i :| 0 <= i < |ids| && ids[i] == id;
      assert rows[i] == server.Label(id);
    }
    forall r | r in rows
      ensures r.id in ids && r == server.Label(r.id)
    {
      var i :| 0 <= i < |rows| && rows[i] == r;
      assert ids[i] == r.id;
    }
    forall i | 0 <= i < |ids| && ids[i] in server.pins
      ensures ids[i] in PinIds(rows)
    {
      PinIdsHasAll(rows, i);
    }
  }

  /** Every page carries its window and every pin, each pin exactly once. */
  lemma PageCarriesEveryPin(server: StockServer, offset: nat, limit: nat)
    requires server.Valid()
    ensures Ids(server.Page(offset, limit).0) == PageIds(server, offset, limit)
    ensures CountPins(server.Page(offset, limit).0) == |server.pins|
  {
    var ids, rows := server.RowIds(offset, limit), server.Page(offset, limit).0;
    RowIdsHold(server, offset, limit);
    LabelledRows(server, ids, rows);
    assert forall i :: 0 <= i < |rows| ==> rows[i].id == ids[i];
    CountPinsIsCardinality(rows);
    forall id | id in server.pins
      ensures id in PinIds(rows)
    {
      assert id in PageIds(server, offset, limit);
    }
    forall id | id in PinIds(rows)
      ensures id in server.pins
    {
    }
    assert PinIds(rows) == server.pins;
  }

  lemma NothingNew<T>(ids: set<T>, seen: set<T>)
    ensures ids - seen == {} <==> ids <= seen
    ensures ids <= seen ==> seen + ids == seen
  {
    if ids - seen == {} {
      forall x | x in ids
        ensures x in seen
      {
        assert x in seen || x in ids - seen;
      }
    }
  }

  /** One request, reduced to what the clients read off it. */
  method FetchPage(server: StockServer, offset: nat, limit: nat) returns (ids: set<int>, pinsOnPage: nat)
    requires server.Valid()
    ensures ids == PageIds(server, offset, limit) && pinsOnPage == |server.pins|
  {
    var rows := server.Page(offset, limit).0;
    PageCarriesEveryPin(server, offset, limit);
    return Ids(rows), CountPins(rows);
  }

  // ---- The completion rule, for any threshold of consecutive zero-new pages ----

  datatype Scan = Scan(seen: set<int>, zeroNew: nat, claimed: bool)

  /** Where page `k` starts. */
  function Start(k: nat, size: nat): nat {
    if k == 0 then 0 else Start(k - 1, size) + size
  }

  lemma {:induction false} StartIsProduct(k: nat, size: nat)
    ensures Start(k, size) == k * size
  {
    if k > 0 {
      StartIsProduct(k - 1, size);
      assert k * size == (k - 1) * size + size;
    }
  }

  lemma {:induction false} StartsApart(j: nat, k: nat, size: nat)
    requires j <= k
    ensures Start(k, size) == Start(j, size) + Start(k - j, size)
    decreases k
  {
    if j < k {
      StartsApart(j, k - 1, size);
      assert Start(k - j, size) == Start(k - 1 - j, size) + size;
    }
  }

  /** The client after at most `k` pages, claiming completion at `threshold` zero-new pages in a row. */
  function ScanPages(server: StockServer, size: nat, threshold: nat, k: nat): Scan {
    if k == 0 then Scan({}, 0, false) else TakePage(server, size, threshold, k - 1, ScanPages(server, size, threshold, k - 1))
  }

  function TakePage(server: StockServer, size: nat, threshold: nat, k: nat, s: Scan): Scan {
    if s.claimed then s
    else
      var ids := PageIds(server, Start(k, size), size);
      var zero := if ids <= s.seen then s.zeroNew + 1 else 0;
      Scan(s.seen + ids, zero, zero >= threshold)
  }

  function Required(pinCount: nat, size: nat): nat
    requires size >= 1
  {
    if pinCount == 0 then 1 else pinCount / size + 1
  }

  function PagesOf(total: nat, size: nat): nat
    requires size >= 1
  {
    (total + size - 1) / size
  }

  /** Every window, then as many zero-new pages as the pins could fill, plus one. */
  function PageBound(server: StockServer, size: nat): nat
    requires size >= 1
  {
    PagesOf(server.total, size) + |server.pins| / size + 1
  }

  lemma ScanStep(server: StockServer, size: nat, threshold: nat, k: nat, seen: set<int>, zeroNew: nat)
    requires ScanPages(server, size, threshold, k) == Scan(seen, zeroNew, false)
    ensures var ids := PageIds(server, Start(k, size), size);
            var zero := if ids <= seen then zeroNew + 1 else 0;
            ScanPages(server, size, threshold, k + 1) == Scan(seen + ids, zero, zero >= threshold)
  {
  }

  /** The ids the first `k` pages show. */
  predicate Shown(server: StockServer, size: nat, k: nat, i: int) {
    k > 0 && 0 <= i < server.total && (i in server.pins || i < Start(k, size))
  }

  /** After `k` pages, `seen` is what they show and the last `zeroNew` windows hold nothing but pins. */
  ghost predicate ScanShape(server: StockServer, size: nat, k: nat, s: Scan) {
    && s.zeroNew <= k
    && (forall i :: i in s.seen <==> Shown(server, size, k, i))
    && forall i :: Start(k - s.zeroNew, size) <= i < Start(k, size) && i < server.total ==> i in server.pins
  }

  lemma TakePageKeepsShape(server: StockServer, size: nat, threshold: nat, k: nat, s: Scan)
    requires server.Valid() && !s.claimed && ScanShape(server, size, k, s)
    ensures ScanShape(server, size, k + 1, TakePage(server, size, threshold, k, s))
  {
    var ids := PageIds(server, Start(k, size), size);
    if ids <= s.seen {
      forall i | Start(k, size) <= i < Start(k + 1, size) && i < server.total
        ensures i in server.pins
      {
        assert i in ids;
      }
    }
  }

  /** A scan has the shape of the pages it really took: `k`, or fewer once it has claimed. */
  lemma {:induction false} ScanKeepsShape(server: StockServer, size: nat, threshold: nat, k: nat) returns (j: nat)
    requires server.Valid()
    ensures j <= k && ScanShape(server, size, j, ScanPages(server, size, threshold, k))
    ensures !ScanPages(server, size, threshold, k).claimed ==> j == k
    ensures ScanPages(server, size, threshold, k).claimed ==> ScanPages(server, size, threshold, k).zeroNew >= threshold
  {
    j := k;
    if k > 0 {
      j := ScanKeepsShape(server, size, threshold, k - 1);
      var p := ScanPages(server, size, threshold, k - 1);
      if !p.claimed {
        TakePageKeepsShape(server, size, threshold, k - 1, p);
        j := k;
      }
    }
  }

  lemma ShownWithinFull(server: StockServer, size: nat, k: nat, seen: set<int>)
    requires server.Valid() && forall i :: i in seen <==> Shown(server, size, k, i)
    ensures seen <= server.FullSet()
    ensures k > 0 && Start(k, size) >= server.total ==> seen == server.FullSet()
  {
    assert forall i :: i in server.FullSet() <==> 0 <= i < server.total;
  }

  /** Pigeonhole: more zero-new pages than the pins can fill means nothing is missing. */
  lemma ClaimIsComplete(server: StockServer, size: nat, threshold: nat, k: nat)
    requires server.Valid() && Start(threshold, size) > |server.pins|
    requires ScanPages(server, size, threshold, k).claimed
    ensures ScanPages(server, size, threshold, k).seen == server.FullSet()
  {
    var j := ScanKeepsShape(server, size, threshold, k);
    var z := ScanPages(server, size, threshold, k).zeroNew;
    StartsApart(threshold, z, size);
    StartsApart(j - z, j, size);
    ShownWithinFull(server, size, j, ScanPages(server, size, threshold, k).seen);
    if Start(j, size) < server.total {
      SubsetSize(Range(Start(j - z, size), Start(j, size)), server.pins);
    }
  }

  lemma PagesCoverTotal(total: nat, size: nat)
    requires size >= 1
    ensures Start(PagesOf(total, size), size) >= total
  {
    var n := PagesOf(total, size);
    StartIsProduct(n, size);
    assert n * size > total - 1 by {
      assert (total + size - 1) == n * size + (total + size - 1) % size;
    }
  }

  /** Past the last row every page is zero-new, so a claim comes within `threshold` more pages. */
  lemma {:induction false} ClaimComes(server: StockServer, size: nat, threshold: nat, k: nat)
    requires server.Valid() && size >= 1
    ensures ScanPages(server, size, threshold, k).claimed
         || k <= PagesOf(server.total, size) || k - PagesOf(server.total, size) <= ScanPages(server, size, threshold, k).zeroNew < threshold
  {
    var n := PagesOf(server.total, size);
    if k > n {
      ClaimComes(server, size, threshold, k - 1);
      var p := ScanPages(server, size, threshold, k - 1);
      if !p.claimed {
        var j := ScanKeepsShape(server, size, threshold, k - 1);
        PagesCoverTotal(server.total, size);
        StartsApart(n, k - 1, size);
        assert PageIds(server, Start(k - 1, size), size) <= p.seen;
      }
    }
  }

  /** The layout that defeats a threshold the pins can fill: `pinCount` pins from the second page on,
      then one plain row behind them. */
  function HiddenRowLayout(size: nat, pinCount: nat): (s: StockServer)
    ensures s.Valid() && |s.pins| == pinCount
  {
    StockServer(size + pinCount + 1, Range(size, size + pinCount))
  }

  lemma PinOnlyWindow(size: nat, pinCount: nat, start: nat)
    requires size <= start <= pinCount
    ensures PageIds(HiddenRowLayout(size, pinCount), start, size) <= HiddenRowLayout(size, pinCount).pins
  {
  }

  lemma {:induction false} PinOnlyWindowsAreZeroNew(size: nat, pinCount: nat, threshold: nat, k: nat)
    requires size >= 1 && Start(threshold, size) <= pinCount && 1 <= k <= threshold + 1 && threshold >= 1
    ensures var s := ScanPages(HiddenRowLayout(size, pinCount), size, threshold, k);
            s.zeroNew == k - 1 && s.claimed == (k == threshold + 1) && size + pinCount !in s.seen
  {
    var server := HiddenRowLayout(size, pinCount);
    if k == 1 {
      assert ScanPages(server, size, threshold, 0) == Scan({}, 0, false);
      assert 0 in PageIds(server, Start(0, size), size);
    } else {
      PinOnlyWindowsAreZeroNew(size, pinCount, threshold, k - 1);
      var j := ScanKeepsShape(server, size, threshold, k - 1);
      StartsApart(1, k - 1, size);
      StartsApart(k - 1, threshold, size);
      PinOnlyWindow(size, pinCount, Start(k - 1, size));
      assert server.pins <= ScanPages(server, size, threshold, k - 1).seen;
    }
  }

  ghost predicate SafeThreshold(pinCount: nat, size: nat, threshold: nat) {
    forall server: StockServer, k: nat {:trigger ScanPages(server, size, threshold, k)} ::
      server.Valid() && |server.pins| == pinCount && ScanPages(server, size, threshold, k).claimed
      ==> ScanPages(server, size, threshold, k).seen == server.FullSet()
  }

  /** A threshold never truncates, on any layout with that many pins, exactly when its pages outnumber
      the pins; the client's own threshold is the least such. */
  lemma SafeExactlyWhenPagesOutnumberPins(pinCount: nat, size: nat, threshold: nat)
    requires size >= 1 && threshold >= 1
    ensures SafeThreshold(pinCount, size, threshold) <==> threshold * size > pinCount
    ensures SafeThreshold(pinCount, size, threshold) <==> threshold >= Required(pinCount, size)
  {
    StartIsProduct(threshold, size);
    OutnumberIsRequired(pinCount, size, threshold);
    if threshold * size > pinCount {
      forall server: StockServer, k: nat | server.Valid() && |server.pins| == pinCount && ScanPages(server, size, threshold, k).claimed
        ensures ScanPages(server, size, threshold, k).seen == server.FullSet()
      {
        ClaimIsComplete(server, size, threshold, k);
      }
    } else {
      PinOnlyWindowsAreZeroNew(size, pinCount, threshold, threshold + 1);
      assert size + pinCount in HiddenRowLayout(size, pinCount).FullSet();
    }
  }

  lemma OutnumberIsRequired(pinCount: nat, size: nat, threshold: nat)
    requires size >= 1 && threshold >= 1
    ensures threshold * size > pinCount <==> threshold >= Required(pinCount, size)
  {
    var q := pinCount / size;
    assert pinCount == q * size + pinCount % size;
    StartIsProduct(threshold, size);
    StartIsProduct(q, size);
    if threshold > q {
      StartsApart(q + 1, threshold, size);
    } else {
      StartsApart(threshold, q, size);
    }
    if pinCount == 0 {
      QuotientOfZero(size);
    }
  }

  lemma QuotientOfZero(size: nat)
    requires size >= 1
    ensures 0 / size == 0
  {
  }

  // ---- The client loops ----

  /** One round of the client loop. */
  method TakeRound(server: StockServer, pageSize: nat, ghost k: nat, offset: nat, seen: set<int>, zeroNew: nat, pinCount: nat)
    returns (seen': set<int>, zeroNew': nat, pinCount': nat, required: nat)
    requires server.Valid() && pageSize >= 1 && offset == Start(k, pageSize)
    requires pinCount == 0 || pinCount == |server.pins|
    requires ScanPages(server, pageSize, Required(|server.pins|, pageSize), k) == Scan(seen, zeroNew, false)
    ensures pinCount' == |server.pins| && required == Required(|server.pins|, pageSize)
    ensures ScanPages(server, pageSize, required, k + 1) == Scan(seen', zeroNew', zeroNew' >= required)
  {
    var ids, pinsOnPage := FetchPage(server, offset, pageSize);
    var unseen := ids - seen;
    NothingNew(ids, seen);
    ScanStep(server, pageSize, Required(|server.pins|, pageSize), k, seen, zeroNew);
    seen' := seen + ids;
    pinCount' := if pinsOnPage > pinCount then pinsOnPage else pinCount;
    zeroNew' := if unseen == {} then zeroNew + 1 else 0;
    required := Required(pinCount', pageSize);
  }

  /** Whatever the page cap, a prune happens only on the complete set; it happens whenever the cap
      leaves room for every window plus the required zero-new pages. */
  method ClientApiServerPages(server: StockServer, pageSize: nat, maxPages: nat)
    returns (seen: set<int>, prunes: seq<set<int>>)
    requires server.Valid() && pageSize >= 1
    ensures seen == ScanPages(server, pageSize, Required(|server.pins|, pageSize), maxPages).seen
    ensures prunes == [] || (prunes == [server.FullSet()] && seen == server.FullSet())
    ensures maxPages >= PageBound(server, pageSize) ==> prunes == [server.FullSet()]
    ensures seen <= server.FullSet()
  {
    seen, prunes := {}, [];
    var zeroNew, pinCount, offset, k, required := 0, 0, 0, 0, 0;
    while k < maxPages
      invariant 0 <= k <= maxPages && offset == Start(k, pageSize)
      invariant ScanPages(server, pageSize, Required(|server.pins|, pageSize), k) == Scan(seen, zeroNew, false)
      invariant pinCount == 0 || pinCount == |server.pins|
    {
      seen, zeroNew, pinCount, required := TakeRound(server, pageSize, k, offset, seen, zeroNew, pinCount);
      if zeroNew >= required {
        OwnScanEnds(server, pageSize, k + 1, maxPages);
        return seen, [seen];
      }
      offset := offset + pageSize;
      k := k + 1;
    }
    OwnScanEnds(server, pageSize, maxPages, maxPages);
  }

  /** What the client's own threshold gives, stopping after `j` pages. */
  lemma OwnScanEnds(server: StockServer, size: nat, j: nat, maxPages: nat)
    requires server.Valid() && size >= 1 && j <= maxPages
    requires j == maxPages || ScanPages(server, size, Required(|server.pins|, size), j).claimed
    ensures var s := ScanPages(server, size, Required(|server.pins|, size), j);
            s == ScanPages(server, size, Required(|server.pins|, size), maxPages)
            && s.seen <= server.FullSet() && (s.claimed ==> s.seen == server.FullSet())
            && (maxPages >= PageBound(server, size) ==> s.claimed)
  {
    var threshold := Required(|server.pins|, size);
    var s := ScanPages(server, size, threshold, j);
    if s.claimed {
      OwnClaimIsComplete(server, size, j);
      StaysClaimed(server, size, threshold, j, maxPages);
    } else {
      var p := ScanKeepsShape(server, size, threshold, maxPages);
      ShownWithinFull(server, size, p, s.seen);
      ClaimComes(server, size, threshold, maxPages);
      QuotientOfZero(size);
    }
  }

  lemma OwnClaimIsComplete(server: StockServer, size: nat, k: nat)
    requires server.Valid() && size >= 1
    requires ScanPages(server, size, Required(|server.pins|, size), k).claimed
    ensures ScanPages(server, size, Required(|server.pins|, size), k).seen == server.FullSet()
  {
    var threshold := Required(|server.pins|, size);
    OutnumberIsRequired(|server.pins|, size, threshold);
    StartIsProduct(threshold, size);
    ClaimIsComplete(server, size, threshold, k);
  }

  lemma {:induction false} StaysClaimed(server: StockServer, size: nat, threshold: nat, j: nat, k: nat)
    requires j <= k && ScanPages(server, size, threshold, j).claimed
    ensures ScanPages(server, size, threshold, k) == ScanPages(server, size, threshold, j)
    decreases k
  {
    if j < k {
      StaysClaimed(server, size, threshold, j, k - 1);
    }
  }

  lemma ShowPage(server: StockServer, size: nat, k: nat, seen: set<int>, ids: set<int>)
    requires server.Valid() && ids == PageIds(server, Start(k, size), size)
    requires forall i :: i in seen <==> Shown(server, size, k, i)
    ensures forall i :: i in seen + ids <==> Shown(server, size, k + 1, i)
  {
  }

  /** The archived walk follows the server's total and so finishes exactly when the cap reaches it. */
  method ClientArchivedPages(server: StockServer, pageSize: nat, maxPages: nat)
    returns (seen: set<int>, complete: bool)
    requires server.Valid() && pageSize >= 1
    ensures complete <==> maxPages >= 1 && Start(maxPages, pageSize) >= server.total
    ensures complete ==> seen == server.FullSet()
  {
    seen, complete := {}, false;
    var offset, k := 0, 0;
    while k < maxPages
      invariant 0 <= k <= maxPages && offset == Start(k, pageSize)
      invariant k > 0 ==> offset < server.total
      invariant forall i :: i in seen <==> Shown(server, pageSize, k, i)
    {
      var ids, _ := FetchPage(server, offset, pageSize);
      ShowPage(server, pageSize, k, seen, ids);
      seen := seen + ids;
      offset := offset + pageSize;
      if offset >= server.TotalCount() {
        ShownWithinFull(server, pageSize, k + 1, seen);
        StartsApart(k + 1, maxPages, pageSize);
        return seen, true;
      }
      k := k + 1;
    }
  }

  /** The old rule is the threshold-one scan, so it truncates exactly where that threshold is unsafe. */
  method ClientNaiveZeroNew(server: StockServer, pageSize: nat, maxPages: nat) returns (seen: set<int>)
    requires server.Valid() && pageSize >= 1
    ensures seen == ScanPages(server, pageSize, 1, maxPages).seen
  {
    seen := {};
    var offset, k := 0, 0;
    while k < maxPages
      invariant 0 <= k <= maxPages && offset == Start(k, pageSize)
      invariant ScanPages(server, pageSize, 1, k) == Scan(seen, 0, false)
    {
      var ids, _ := FetchPage(server, offset, pageSize);
      var unseen := ids - seen;
      NothingNew(ids, seen);
      if unseen == {} {
        StaysClaimed(server, pageSize, 1, k + 1, maxPages);
        return;
      }
      seen := seen + ids;
      offset := offset + pageSize;
      k := k + 1;
    }
  }
}
