/** The FT8 LDPC(174,91) parity-check (Tanner) graph, independent of the
    concrete numbers: the layout of the two tables of ft8/arrays.h, their
    conversion into a 0-origin graph, a structural checker over the tables,
    and the proof that whatever passes the checker is a well-formed graph
    whose two adjacency lists are transposes of each other. */
module Ft8ParityGraph {

  /** Codeword bits: 91 message bits followed by 83 parity bits. */
  const N: nat := 174
  /** Parity checks, one per row of Nm. */
  const M: nat := 83

  /** One row of Nm: the 1-origin codeword bits one parity check constrains.
      The table is `int Nm[][7]`; a row of a degree-6 check has 0 in b7. */
  datatype CheckRow = CheckRow(b1: int, b2: int, b3: int, b4: int, b5: int, b6: int, b7: int)
  {
    function Entries(): (s: seq<int>)
      ensures |s| == 7
    {
      [b1, b2, b3, b4, b5, b6, b7]
    }

    predicate Mentions(x: int) {
      x == b1 || x == b2 || x == b3 || x == b4 || x == b5 || x == b6 || x == b7
    }
  }

  /** One row of Mn: the three 1-origin parity checks one codeword bit is in. */
  datatype BitRow = BitRow(c1: int, c2: int, c3: int)
  {
    function Entries(): (s: seq<int>)
      ensures |s| == 3
    {
      [c1, c2, c3]
    }

    predicate Mentions(x: int) {
      x == c1 || x == c2 || x == c3
    }
  }

  lemma MentionsIsMembership(r: CheckRow, q: BitRow, x: int)
    ensures r.Mentions(x) <==> x in r.Entries()
    ensures q.Mentions(x) <==> x in q.Entries()
  {
  }

  // ---------------------------------------------------------------------
  // Loading: strip the sentinel, convert to 0-origin
  // ---------------------------------------------------------------------

  /** Drops the 0 sentinels of a raw row and converts the remaining
      1-origin indices to 0-origin, keeping their order. */
  function Strip(row: seq<int>): (r: seq<int>)
    ensures |r| <= |row|
  {
    if row == [] then []
    else
      var last := row[|row| - 1];
      Strip(row[..|row| - 1]) + (if last == 0 then [] else [last - 1])
  }

  /** Stripping keeps exactly the non-sentinel entries, shifted down by one. */
  lemma {:induction false} StripMembers(row: seq<int>, y: int)
    ensures y in Strip(row) <==> y + 1 in row && y + 1 != 0
  {
    if row != [] {
      var init, last := row[..|row| - 1], row[|row| - 1];
      assert row == init + [last];
      StripMembers(init, y);
    }
  }

  /** Stripping is done one entry at a time: the prefix of length j + 1
      strips to the prefix of length j, extended by entry j unless it is
      the sentinel. */
  lemma StripStep(row: seq<int>, j: int)
    requires 0 <= j < |row|
    ensures Strip(row[..j + 1]) == Strip(row[..j]) + (if row[j] == 0 then [] else [row[j] - 1])
  {
    assert row[..j + 1][..j] == row[..j];
  }

  /** The adjacency of the code graph, 0-origin and without sentinels:
      checkBits[c] lists the bits of check c, bitChecks[b] the checks of bit b. */
  datatype ParityGraph = ParityGraph(checkBits: seq<seq<int>>, bitChecks: seq<seq<int>>)

  /** Builds the graph from the raw 1-origin tables (Nm, Mn). */
  function Load(nm: seq<CheckRow>, mn: seq<BitRow>): ParityGraph
  {
    ParityGraph(seq(|nm|, c requires 0 <= c < |nm| => Strip(nm[c].Entries())),
                seq(|mn|, b requires 0 <= b < |mn| => Strip(mn[b].Entries())))
  }

  // ---------------------------------------------------------------------
  // What a well-formed graph is
  // ---------------------------------------------------------------------

  predicate Distinct(s: seq<int>) {
    forall i, j | 0 <= i < j < |s| :: s[i] != s[j]
  }

  predicate AllBelow(s: seq<int>, n: int) {
    forall i | 0 <= i < |s| :: 0 <= s[i] < n
  }

  predicate Sized(g: ParityGraph) {
    |g.checkBits| == M && |g.bitChecks| == N
  }

  /** Bit b is in check c's list exactly when check c is in bit b's list. */
  predicate Transposed(g: ParityGraph)
    requires Sized(g)
  {
    forall c, b | 0 <= c < M && 0 <= b < N :: b in g.checkBits[c] <==> c in g.bitChecks[b]
  }

  /** The structural invariant of the FT8 graph: 83 checks of degree 6 or 7,
      174 bits of degree 3, indices in range and distinct within a list,
      and the two lists transposes of each other. */
  predicate ValidGraph(g: ParityGraph) {
    && Sized(g)
    && (forall c | 0 <= c < M ::
          6 <= |g.checkBits[c]| <= 7 && Distinct(g.checkBits[c]) && AllBelow(g.checkBits[c], N))
    && (forall b | 0 <= b < N ::
          |g.bitChecks[b]| == 3 && Distinct(g.bitChecks[b]) && AllBelow(g.bitChecks[b], M))
    && Transposed(g)
  }

  // ---------------------------------------------------------------------
  // The checker over the raw tables
  // ---------------------------------------------------------------------

  /** Raw check row: six 1-origin bits in 1..N, then either the sentinel 0
      or a seventh bit; the bits are listed in increasing order, so the
      sentinel can only stand in the last column and no bit is repeated. */
  predicate CheckRowOk(r: CheckRow) {
    1 <= r.b1 < r.b2 < r.b3 < r.b4 < r.b5 < r.b6 <= N && (r.b7 == 0 || r.b6 < r.b7 <= N)
  }

  /** Raw bit row: three increasing 1-origin checks in 1..M. */
  predicate BitRowOk(r: BitRow) {
    1 <= r.c1 < r.c2 < r.c3 <= M
  }

  /** Entry x of check c's row is the sentinel, or names a bit whose Mn row lists c. */
  predicate ListedBack(mn: seq<BitRow>, c: int, x: int) {
    x == 0 || (1 <= x <= |mn| && mn[x - 1].Mentions(c + 1))
  }

  /** Entry y of bit b's row names a check whose Nm row lists b. */
  predicate ListedForward(nm: seq<CheckRow>, b: int, y: int) {
    1 <= y <= |nm| && nm[y - 1].Mentions(b + 1)
  }

  predicate CheckEntryOk(nm: seq<CheckRow>, mn: seq<BitRow>, c: int)
    requires 0 <= c < |nm|
  {
    var r := nm[c];
    && CheckRowOk(r)
    && ListedBack(mn, c, r.b1) && ListedBack(mn, c, r.b2) && ListedBack(mn, c, r.b3)
    && ListedBack(mn, c, r.b4) && ListedBack(mn, c, r.b5) && ListedBack(mn, c, r.b6)
    && ListedBack(mn, c, r.b7)
  }

  predicate BitEntryOk(nm: seq<CheckRow>, mn: seq<BitRow>, b: int)
    requires 0 <= b < |mn|
  {
    var r := mn[b];
    && BitRowOk(r)
    && ListedForward(nm, b, r.c1) && ListedForward(nm, b, r.c2) && ListedForward(nm, b, r.c3)
  }

  /** The load-time check of the two tables, row by row. */
  predicate ConsistentTables(nm: seq<CheckRow>, mn: seq<BitRow>) {
    && |nm| == M && |mn| == N
    && (forall c | 0 <= c < M :: CheckEntryOk(nm, mn, c))
    && (forall b | 0 <= b < N :: BitEntryOk(nm, mn, b))
  }

  // ---------------------------------------------------------------------
  // Soundness of the checker
  // ---------------------------------------------------------------------

  /** Stripping a row extended by one non-sentinel entry extends the
      stripped row by that entry, shifted to 0-origin. */
  lemma StripSnoc(a: seq<int>, x: int, sa: seq<int>)
    requires x != 0 && Strip(a) == sa
    ensures Strip(a + [x]) == sa + [x - 1]
  {
    assert (a + [x])[..|a|] == a;
  }

  /** A checked Nm row loads as its six or seven bits, each shifted to 0-origin. */
  lemma StripCheckRow(r: CheckRow)
    requires CheckRowOk(r)
    ensures Strip(r.Entries()) ==
      if r.b7 == 0 then [r.b1 - 1, r.b2 - 1, r.b3 - 1, r.b4 - 1, r.b5 - 1, r.b6 - 1]
      else [r.b1 - 1, r.b2 - 1, r.b3 - 1, r.b4 - 1, r.b5 - 1, r.b6 - 1, r.b7 - 1]
  {
    var e1 := [r.b1];
    var e2 := e1 + [r.b2];
    var e3 := e2 + [r.b3];
    var e4 := e3 + [r.b4];
    var e5 := e4 + [r.b5];
    var e6 := e5 + [r.b6];
    var e7 := e6 + [r.b7];
    assert e1 == [] + [r.b1];
    StripSnoc([], r.b1, []);
    StripSnoc(e1, r.b2, [r.b1 - 1]);
    StripSnoc(e2, r.b3, [r.b1 - 1, r.b2 - 1]);
    StripSnoc(e3, r.b4, [r.b1 - 1, r.b2 - 1, r.b3 - 1]);
    StripSnoc(e4, r.b5, [r.b1 - 1, r.b2 - 1, r.b3 - 1, r.b4 - 1]);
    StripSnoc(e5, r.b6, [r.b1 - 1, r.b2 - 1, r.b3 - 1, r.b4 - 1, r.b5 - 1]);
    var s6 := [r.b1 - 1, r.b2 - 1, r.b3 - 1, r.b4 - 1, r.b5 - 1, r.b6 - 1];
    assert e7[..6] == e6;
    if r.b7 != 0 {
      StripSnoc(e6, r.b7, s6);
    }
    assert e7 == r.Entries();
  }

  /** A checked Mn row loads as its three checks, shifted to 0-origin. */
  lemma StripBitRow(r: BitRow)
    requires BitRowOk(r)
    ensures Strip(r.Entries()) == [r.c1 - 1, r.c2 - 1, r.c3 - 1]
  {
    var e1 := [r.c1];
    var e2 := e1 + [r.c2];
    assert e1 == [] + [r.c1];
    StripSnoc([], r.c1, []);
    StripSnoc(e1, r.c2, [r.c1 - 1]);
    StripSnoc(e2, r.c3, [r.c1 - 1, r.c2 - 1]);
    assert e2 + [r.c3] == r.Entries();
  }

  lemma IncreasingIsDistinct(s: seq<int>)
    requires forall i | 0 <= i < |s| - 1 :: s[i] < s[i + 1]
    ensures Distinct(s)
  {
    forall i, j | 0 <= i < j < |s| ensures s[i] < s[j] {
      var k := i;
      while k < j
        invariant i <= k <= j
        invariant s[i] <= s[k]
        invariant k > i ==> s[i] < s[k]
      {
        k := k + 1;
      }
    }
  }

  /** A checked Nm row loads as 6 or 7 distinct bits below N. */
  lemma CheckRowLoads(r: CheckRow)
    requires CheckRowOk(r)
    ensures var s := Strip(r.Entries());
      6 <= |s| <= 7 && Distinct(s) && AllBelow(s, N)
  {
    StripCheckRow(r);
    var s := Strip(r.Entries());
    IncreasingIsDistinct(s);
  }

  /** A checked Mn row loads as 3 distinct checks below M. */
  lemma BitRowLoads(r: BitRow)
    requires BitRowOk(r)
    ensures var s := Strip(r.Entries());
      |s| == 3 && Distinct(s) && AllBelow(s, M)
  {
    StripBitRow(r);
    IncreasingIsDistinct(Strip(r.Entries()));
  }

  lemma LoadedEdge(nm: seq<CheckRow>, mn: seq<BitRow>, c: int, b: int)
    requires ConsistentTables(nm, mn) && 0 <= c < M && 0 <= b < N
    ensures b in Load(nm, mn).checkBits[c] <==> c in Load(nm, mn).bitChecks[b]
  {
    var r, q := nm[c], mn[b];
    StripMembers(r.Entries(), b);
    StripMembers(q.Entries(), c);
    MentionsIsMembership(r, q, b + 1);
    MentionsIsMembership(r, q, c + 1);
    assert CheckEntryOk(nm, mn, c);
    assert BitEntryOk(nm, mn, b);
    if r.Mentions(b + 1) {
      assert ListedBack(mn, c, b + 1);
    }
    if q.Mentions(c + 1) {
      assert ListedForward(nm, b, c + 1);
    }
  }

  /** Every table pair that passes the checker loads as a well-formed,
      transposition-consistent graph. */
  lemma LoadSound(nm: seq<CheckRow>, mn: seq<BitRow>)
    requires ConsistentTables(nm, mn)
    ensures ValidGraph(Load(nm, mn))
  {
    var g := Load(nm, mn);
    forall c | 0 <= c < M
      ensures 6 <= |g.checkBits[c]| <= 7 && Distinct(g.checkBits[c]) && AllBelow(g.checkBits[c], N)
    {
      assert CheckEntryOk(nm, mn, c);
      CheckRowLoads(nm[c]);
    }
    forall b | 0 <= b < N
      ensures |g.bitChecks[b]| == 3 && Distinct(g.bitChecks[b]) && AllBelow(g.bitChecks[b], M)
    {
      assert BitEntryOk(nm, mn, b);
      BitRowLoads(mn[b]);
    }
    forall c, b | 0 <= c < M && 0 <= b < N
      ensures b in g.checkBits[c] <==> c in g.bitChecks[b]
    {
      LoadedEdge(nm, mn, c, b);
    }
  }

  // ---------------------------------------------------------------------
  // Counting edges
  // ---------------------------------------------------------------------

  /** Sum of the lengths of the rows: the number of entries of an adjacency list. */
  function DegreeSum(rows: seq<seq<int>>): nat
  {
    if rows == [] then 0 else DegreeSum(rows[..|rows| - 1]) + |rows[|rows| - 1]|
  }

  /** The edges seen from the checks: pairs (check, bit) with the bit in the check's row. */
  function CheckEdges(rows: seq<seq<int>>, k: nat): set<(int, int)>
    requires k <= |rows|
  {
    set c, b | 0 <= c < k && b in rows[c] :: (c, b)
  }

  /** The edges seen from the bits, again as (check, bit) pairs. */
  function BitEdges(rows: seq<seq<int>>, k: nat): set<(int, int)>
    requires k <= |rows|
  {
    set b, c | 0 <= b < k && c in rows[b] :: (c, b)
  }

  /** The edges of check c with the bits in s. */
  function RowPairs(c: int, s: seq<int>): set<(int, int)> {
    set x | x in s :: (c, x)
  }

  /** The edges of bit b with the checks in s. */
  function ColumnPairs(b: int, s: seq<int>): set<(int, int)> {
    set x | x in s :: (x, b)
  }

  lemma {:induction false} PairsCard(s: seq<int>, a: int)
    requires Distinct(s)
    ensures |RowPairs(a, s)| == |s| && |ColumnPairs(a, s)| == |s|
  {
    if s != [] {
      var init, last := s[..|s| - 1], s[|s| - 1];
      assert s == init + [last];
      PairsCard(init, a);
      assert RowPairs(a, s) == RowPairs(a, init) + {(a, last)};
      assert ColumnPairs(a, s) == ColumnPairs(a, init) + {(last, a)};
    }
  }

  /** The check-side edges of the first k rows are those of the first
      k - 1 rows plus, disjointly, the edges of row k - 1. */
  lemma CheckEdgesStep(rows: seq<seq<int>>, k: nat)
    requires 0 < k <= |rows|
    ensures CheckEdges(rows, k) == CheckEdges(rows, k - 1) + RowPairs(k - 1, rows[k - 1])
    ensures CheckEdges(rows, k - 1) !! RowPairs(k - 1, rows[k - 1])
  {
    var prev, row := CheckEdges(rows, k - 1), RowPairs(k - 1, rows[k - 1]);
    forall e | e in CheckEdges(rows, k) ensures e in prev + row {
      var (c, b) := e;
      if c < k - 1 {
        assert e in prev;
      } else {
        assert e in row;
      }
    }
    forall e | e in prev ensures e.0 < k - 1 {
    }
  }

  lemma BitEdgesStep(rows: seq<seq<int>>, k: nat)
    requires 0 < k <= |rows|
    ensures BitEdges(rows, k) == BitEdges(rows, k - 1) + ColumnPairs(k - 1, rows[k - 1])
    ensures BitEdges(rows, k - 1) !! ColumnPairs(k - 1, rows[k - 1])
  {
    var prev, row := BitEdges(rows, k - 1), ColumnPairs(k - 1, rows[k - 1]);
    forall e | e in BitEdges(rows, k) ensures e in prev + row {
      var (c, b) := e;
      if b < k - 1 {
        assert e in prev;
      } else {
        assert e in row;
      }
    }
    forall e | e in prev ensures e.1 < k - 1 {
    }
  }

  lemma {:induction false} CheckEdgesCard(rows: seq<seq<int>>, k: nat)
    requires k <= |rows|
    requires forall c | 0 <= c < |rows| :: Distinct(rows[c])
    ensures |CheckEdges(rows, k)| == DegreeSum(rows[..k])
  {
    if k > 0 {
      CheckEdgesCard(rows, k - 1);
      CheckEdgesStep(rows, k);
      PairsCard(rows[k - 1], k - 1);
      assert rows[..k][..k - 1] == rows[..k - 1];
    }
  }

  lemma {:induction false} BitEdgesCard(rows: seq<seq<int>>, k: nat)
    requires k <= |rows|
    requires forall b | 0 <= b < |rows| :: Distinct(rows[b])
    ensures |BitEdges(rows, k)| == DegreeSum(rows[..k])
  {
    if k > 0 {
      BitEdgesCard(rows, k - 1);
      BitEdgesStep(rows, k);
      PairsCard(rows[k - 1], k - 1);
      assert rows[..k][..k - 1] == rows[..k - 1];
    }
  }

  lemma {:induction false} UniformDegreeSum(rows: seq<seq<int>>, d: nat)
    requires forall i | 0 <= i < |rows| :: |rows[i]| == d
    ensures DegreeSum(rows) == d * |rows|
  {
    if rows != [] {
      UniformDegreeSum(rows[..|rows| - 1], d);
    }
  }

  /** Counting the edges of a valid graph from either side gives the same
      number: the check rows together hold 3 * N = 522 entries, exactly as
      many as the bit rows. */
  lemma EdgeCount(g: ParityGraph)
    requires ValidGraph(g)
    ensures DegreeSum(g.checkBits) == DegreeSum(g.bitChecks) == 3 * N
  {
    CheckEdgesCard(g.checkBits, M);
    BitEdgesCard(g.bitChecks, N);
    assert g.checkBits[..M] == g.checkBits;
    assert g.bitChecks[..N] == g.bitChecks;
    forall e | e in CheckEdges(g.checkBits, M) ensures e in BitEdges(g.bitChecks, N) {
      var (c, b) := e;
      assert AllBelow(g.checkBits[c], N);
    }
    forall e | e in BitEdges(g.bitChecks, N) ensures e in CheckEdges(g.checkBits, M) {
      var (c, b) := e;
      assert AllBelow(g.bitChecks[b], M);
    }
    assert CheckEdges(g.checkBits, M) == BitEdges(g.bitChecks, N);
    UniformDegreeSum(g.bitChecks, 3);
  }
}
