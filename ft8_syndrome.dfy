/** The parity-check contract of the FT8 LDPC(174,91) code: in a codeword
    the bits named by each row of Nm XOR to zero. A syndrome predicate over
    the graph, the syndrome computation as a loop over the raw table, and
    the algebra of codewords. */
module Ft8Syndrome {
  import opened Ft8ParityGraph
  import opened Ft8Tables

  /** XOR of the word's bits at the given 0-origin positions. */
  function Parity(w: seq<bool>, bits: seq<int>): bool
    requires AllBelow(bits, |w|)
  {
    if bits == [] then false
    else Parity(w, bits[..|bits| - 1]) != w[bits[|bits| - 1]]
  }

  /** Check c holds for w: its bits XOR to zero. */
  predicate CheckSatisfied(g: ParityGraph, w: seq<bool>, c: int)
    requires ValidGraph(g) && |w| == N && 0 <= c < M
  {
    !Parity(w, g.checkBits[c])
  }

  /** A 174-bit word is a codeword when every one of the 83 checks holds. */
  predicate IsCodeword(g: ParityGraph, w: seq<bool>)
    requires ValidGraph(g)
  {
    |w| == N && forall c | 0 <= c < M :: CheckSatisfied(g, w, c)
  }

  function Zeros(n: nat): seq<bool> {
    seq(n, _ => false)
  }

  /** Bitwise XOR of two words of equal length. */
  function Xor(u: seq<bool>, v: seq<bool>): seq<bool>
    requires |u| == |v|
  {
    seq(|u|, i requires 0 <= i < |u| => u[i] != v[i])
  }

  /** The word with bit b inverted: a single bit error. */
  function Flip(w: seq<bool>, b: int): seq<bool>
    requires 0 <= b < |w|
  {
    w[b := !w[b]]
  }

  // ---------------------------------------------------------------------
  // The syndrome computation
  // ---------------------------------------------------------------------

  /** XORs the bits one raw row of Nm names: the 0 sentinel is skipped
      and every other entry x contributes bit x - 1 of the word. */
  method RowParity(w: seq<bool>, row: seq<int>) returns (parity: bool)
    requires |w| == N
    requires forall k | 0 <= k < |row| :: row[k] == 0 || 1 <= row[k] <= N
    ensures AllBelow(Strip(row), N)
    ensures parity == Parity(w, Strip(row))
  {
    parity := false;
    var j := 0;
    while j < |row|
      invariant 0 <= j <= |row|
      invariant AllBelow(Strip(row[..j]), N)
      invariant parity == Parity(w, Strip(row[..j]))
    {
      var x := row[j];
      StripParityStep(w, row, j);
      if x != 0 {
        parity := parity != w[x - 1];
      }
      j := j + 1;
    }
    assert row[..|row|] == row;
  }

  /** Computes the indices of the parity checks that w violates, one row
      of Nm at a time. The result lists exactly the failing checks, in
      increasing order, and is empty exactly for codewords. */
  method Syndrome(w: seq<bool>) returns (failed: seq<int>)
    requires |w| == N
    ensures forall c :: c in failed <==> 0 <= c < M && !CheckSatisfied(Graph(), w, c)
    ensures forall i, j | 0 <= i < j < |failed| :: failed[i] < failed[j]
    ensures failed == [] <==> IsCodeword(Graph(), w)
  {
    failed := [];
    var c := 0;
    while c < M
      invariant 0 <= c <= M
      invariant forall k :: k in failed <==> 0 <= k < c && !CheckSatisfied(Graph(), w, k)
      invariant forall i, j | 0 <= i < j < |failed| :: failed[i] < failed[j]
      invariant forall i | 0 <= i < |failed| :: failed[i] < c
    {
      GraphCheckRow(c);
      EntriesInRange(NmRow(c));
      var parity := RowParity(w, NmRow(c).Entries());
      if parity {
        failed := failed + [c];
      }
      c := c + 1;
    }
    if failed != [] {
      assert failed[0] in failed;
    }
  }

  /** The entries of a well-formed raw row are the sentinel or bit numbers in 1..N. */
  lemma EntriesInRange(r: CheckRow)
    requires CheckRowOk(r)
    ensures forall k | 0 <= k < |r.Entries()| :: r.Entries()[k] == 0 || 1 <= r.Entries()[k] <= N
  {
  }

  /** One entry of a raw row: the sentinel leaves the parity alone, a bit
      number x flips it by bit x - 1 of the word. */
  lemma StripParityStep(w: seq<bool>, row: seq<int>, j: int)
    requires |w| == N && 0 <= j < |row|
    requires row[j] == 0 || 1 <= row[j] <= N
    requires AllBelow(Strip(row[..j]), N)
    ensures AllBelow(Strip(row[..j + 1]), N)
    ensures Parity(w, Strip(row[..j + 1])) ==
      if row[j] == 0 then Parity(w, Strip(row[..j])) else Parity(w, Strip(row[..j])) != w[row[j] - 1]
  {
    StripStep(row, j);
    if row[j] == 0 {
      assert Strip(row[..j]) + [] == Strip(row[..j]);
    } else {
      ParityAppend(w, Strip(row[..j]), row[j] - 1);
    }
  }

  lemma ParityAppend(w: seq<bool>, bits: seq<int>, b: int)
    requires AllBelow(bits, |w|) && 0 <= b < |w|
    ensures AllBelow(bits + [b], |w|)
    ensures Parity(w, bits + [b]) == (Parity(w, bits) != w[b])
  {
    assert (bits + [b])[..|bits|] == bits;
  }

  // ---------------------------------------------------------------------
  // Algebra of the parity checks
  // ---------------------------------------------------------------------

  /** The parity of an XOR of two words is the XOR of their parities. */
  lemma {:induction false} ParityXor(u: seq<bool>, v: seq<bool>, bits: seq<int>)
    requires |u| == |v| && AllBelow(bits, |u|)
    ensures Parity(Xor(u, v), bits) == (Parity(u, bits) != Parity(v, bits))
  {
    if bits != [] {
      ParityXor(u, v, bits[..|bits| - 1]);
    }
  }

  lemma {:induction false} ParityZeros(n: nat, bits: seq<int>)
    requires AllBelow(bits, n)
    ensures !Parity(Zeros(n), bits)
  {
    if bits != [] {
      ParityZeros(n, bits[..|bits| - 1]);
    }
  }

  /** Inverting bit b changes the parity of a list of distinct positions
      exactly when b is in the list. */
  lemma {:induction false} ParityFlip(w: seq<bool>, b: int, bits: seq<int>)
    requires 0 <= b < |w| && AllBelow(bits, |w|) && Distinct(bits)
    ensures Parity(Flip(w, b), bits) == (Parity(w, bits) != (b in bits))
  {
    if bits != [] {
      var init, last := bits[..|bits| - 1], bits[|bits| - 1];
      assert bits == init + [last];
      ParityFlip(w, b, init);
      assert b in bits <==> b in init || b == last;
      assert b == last ==> b !in init;
    }
  }

  /** The all-zero word passes every check. */
  lemma ZeroWordIsCodeword(g: ParityGraph)
    requires ValidGraph(g)
    ensures IsCodeword(g, Zeros(N))
  {
    forall c | 0 <= c < M ensures CheckSatisfied(g, Zeros(N), c) {
      ParityZeros(N, g.checkBits[c]);
    }
  }

  /** The XOR of two codewords is a codeword. */
  lemma CodewordsClosedUnderXor(g: ParityGraph, u: seq<bool>, v: seq<bool>)
    requires ValidGraph(g) && IsCodeword(g, u) && IsCodeword(g, v)
    ensures IsCodeword(g, Xor(u, v))
  {
    forall c | 0 <= c < M ensures CheckSatisfied(g, Xor(u, v), c) {
      assert CheckSatisfied(g, u, c) && CheckSatisfied(g, v, c);
      ParityXor(u, v, g.checkBits[c]);
    }
  }

  /** Inverting bit b toggles exactly the checks listed in b's Mn row and
      leaves every other check as it was. */
  lemma FlipTogglesChecks(g: ParityGraph, w: seq<bool>, b: int, c: int)
    requires ValidGraph(g) && |w| == N && 0 <= b < N && 0 <= c < M
    ensures CheckSatisfied(g, Flip(w, b), c) <==> (CheckSatisfied(g, w, c) <==> c !in g.bitChecks[b])
  {
    ParityFlip(w, b, g.checkBits[c]);
  }

  /** Every single-bit error on a codeword is detected: the checks it
      violates are exactly the three checks of the inverted bit. */
  lemma SingleBitErrorDetected(g: ParityGraph, w: seq<bool>, b: int)
    requires ValidGraph(g) && IsCodeword(g, w) && 0 <= b < N
    ensures forall c | 0 <= c < M :: !CheckSatisfied(g, Flip(w, b), c) <==> c in g.bitChecks[b]
    ensures !IsCodeword(g, Flip(w, b))
  {
    forall c | 0 <= c < M ensures !CheckSatisfied(g, Flip(w, b), c) <==> c in g.bitChecks[b] {
      FlipTogglesChecks(g, w, b, c);
    }
    var c := g.bitChecks[b][0];
    assert AllBelow(g.bitChecks[b], M);
    assert !CheckSatisfied(g, Flip(w, b), c);
  }
}
