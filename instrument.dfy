// instrument.go: the 64 KiB edge-coverage bitmap the fuzzer collects
// from the instrumented library, and its novelty test, merge and picture.
module Instrument {

  /** The bitmap size: 65536 one-byte counters. */
  const MapSize: nat := 65536

  /** The bitmap's rows and columns in Visualize: 1024 rows of 64 cells. */
  const Rows: nat := 1024
  const Cols: nat := 64

  /** Counter `i` of `n` has a bit that counter `i` of `o` lacks. */
  predicate NewBits(n: seq<bv8>, o: seq<bv8>, i: int)
    requires |n| == |o|
  {
    0 <= i < |n| && n[i] & !o[i] != 0
  }

  /** `n` shows coverage `o` does not: some counter has a bit the old one lacks. */
  predicate Novel(n: seq<bv8>, o: seq<bv8>)
    requires |n| == |o|
  {
    exists i :: 0 <= i < |n| && NewBits(n, o, i)
  }

  /** `o` covers `n`: every bit set in `n` is set in `o`. */
  predicate Covers(o: seq<bv8>, n: seq<bv8>)
    requires |n| == |o|
  {
    forall i :: 0 <= i < |n| ==> n[i] | o[i] == o[i]
  }

  lemma ByteCovered(a: bv8, b: bv8)
    ensures a | b == b <==> a & !b == 0
  {
  }

  /** A bitmap that covers the new one makes it not novel; in particular no bitmap is novel against itself. */
  lemma CoveredNotNovel(n: seq<bv8>, o: seq<bv8>)
    requires |n| == |o|
    ensures Covers(o, n) <==> !Novel(n, o)
    ensures !Novel(n, n)
  {
    forall i | 0 <= i < |n|
      ensures n[i] | o[i] == o[i] <==> !NewBits(n, o, i)
    {
      ByteCovered(n[i], o[i]);
    }
    forall i | 0 <= i < |n|
      ensures !NewBits(n, n, i)
    {
      ByteCovered(n[i], n[i]);
    }
  }

  /** Eight counters read as one little-endian 64-bit word, the unit Compare's scan tests. */
  function Pack(a0: bv8, a1: bv8, a2: bv8, a3: bv8, a4: bv8, a5: bv8, a6: bv8, a7: bv8): bv64 {
    (a0 as bv64) | (a1 as bv64 << 8) | (a2 as bv64 << 16) | (a3 as bv64 << 24)
    | (a4 as bv64 << 32) | (a5 as bv64 << 40) | (a6 as bv64 << 48) | (a7 as bv64 << 56)
  }

  /**
   * The word test `new & ^old != 0` on eight packed counters holds exactly
   * when one of the eight byte tests does, so scanning words and scanning
   * bytes agree.
   */
  lemma WordBytes(a0: bv8, a1: bv8, a2: bv8, a3: bv8, a4: bv8, a5: bv8, a6: bv8, a7: bv8,
                  b0: bv8, b1: bv8, b2: bv8, b3: bv8, b4: bv8, b5: bv8, b6: bv8, b7: bv8)
    ensures Pack(a0, a1, a2, a3, a4, a5, a6, a7) & !Pack(b0, b1, b2, b3, b4, b5, b6, b7) != 0 <==>
      (a0 & !b0 != 0 || a1 & !b1 != 0 || a2 & !b2 != 0 || a3 & !b3 != 0
       || a4 & !b4 != 0 || a5 & !b5 != 0 || a6 & !b6 != 0 || a7 & !b7 != 0)
  {
  }

  // ------------------------------------------------------------- merging

  /** The merged counters: the old counter where it is set, the new one where the old is 0. */
  function Merge(n: seq<bv8>, o: seq<bv8>): (m: seq<bv8>)
    requires |n| == |o|
    ensures |m| == |n|
  {
    seq(|n|, i requires 0 <= i < |n| => if o[i] == 0 then n[i] else o[i])
  }

  /** The merge has a set counter exactly where either bitmap has one. */
  lemma MergeUnion(n: seq<bv8>, o: seq<bv8>, i: int)
    requires |n| == |o| && 0 <= i < |n|
    ensures Merge(n, o)[i] != 0 <==> n[i] != 0 || o[i] != 0
  {
  }

  /** The merge covers the old bitmap: nothing old is novel against it. */
  lemma MergeCoversOld(n: seq<bv8>, o: seq<bv8>)
    requires |n| == |o|
    ensures Covers(Merge(n, o), o) && !Novel(o, Merge(n, o))
  {
    var m := Merge(n, o);
    forall i | 0 <= i < |o|
      ensures o[i] | m[i] == m[i]
    {
      if o[i] == 0 {
        assert o[i] | m[i] == m[i];
      }
    }
    CoveredNotNovel(o, m);
  }

  /**
   * The new bitmap is still novel against the merge exactly when some
   * counter set in both has bits in the new one that the old one lacks:
   * the merge keeps the old counter there.
   */
  lemma NovelAfterMerge(n: seq<bv8>, o: seq<bv8>)
    requires |n| == |o|
    ensures Novel(n, Merge(n, o)) <==> exists i :: 0 <= i < |n| && o[i] != 0 && NewBits(n, o, i)
  {
    var m := Merge(n, o);
    forall i | 0 <= i < |n|
      ensures NewBits(n, m, i) <==> o[i] != 0 && NewBits(n, o, i)
    {
      if o[i] == 0 {
        assert n[i] & !n[i] == 0;
      }
    }
  }

  // ----------------------------------------------------------- the bitmap

  /** The character Visualize draws for one counter. */
  function Cell(v: bv8): char {
    if v > 0 then '+' else '-'
  }

  /** Character `col` of line `row` of a picture of 65-character lines. */
  function At(pic: string, row: nat, col: nat): char
    requires row * 65 + col < |pic|
  {
    pic[row * 65 + col]
  }

  /** Appending line `row` keeps the earlier lines and puts the new one at row `row`. */
  lemma AppendLine(pic: string, line: string, row: nat)
    requires |pic| == row * 65 && |line| == 65
    ensures forall r, c :: 0 <= r < row && 0 <= c < 65 ==> At(pic + line, r, c) == At(pic, r, c)
    ensures forall c :: 0 <= c < 65 ==> At(pic + line, row, c) == line[c]
  {
    forall r, c | 0 <= r < row && 0 <= c < 65
      ensures At(pic + line, r, c) == At(pic, r, c)
    {
      assert r * 65 + c < row * 65;
    }
  }

  class Coverage {
    var bitmap: array<bv8>

    predicate Valid()
      reads this
    {
      bitmap.Length == MapSize
    }

    /** NewCoverage: all counters 0. */
    constructor ()
      ensures Valid() && fresh(bitmap) && forall i :: 0 <= i < MapSize ==> bitmap[i] == 0
    {
      bitmap := new bv8[MapSize](_ => 0);
    }

    /** Compare: this bitmap shows coverage `prev` does not. */
    method Compare(prev: Coverage) returns (b: bool)
      requires Valid() && prev.Valid()
      ensures b <==> Novel(bitmap[..], prev.bitmap[..])
    {
      for i := 0 to MapSize
        invariant forall j :: 0 <= j < i ==> !NewBits(bitmap[..], prev.bitmap[..], j)
      {
        if bitmap[i] & !prev.bitmap[i] != 0 {
          assert NewBits(bitmap[..], prev.bitmap[..], i);
          return true;
        }
      }
      return false;
    }

    /**
     * Copy: a fresh bitmap that starts as a copy of `prev` and takes this
     * bitmap's counter wherever `prev`'s is 0; both inputs are unchanged.
     */
    method Copy(prev: Coverage) returns (upd: Coverage)
      requires Valid() && prev.Valid()
      ensures fresh(upd) && fresh(upd.bitmap) && upd.Valid()
      ensures upd.bitmap[..] == Merge(bitmap[..], prev.bitmap[..])
    {
      upd := new Coverage();
      for i := 0 to MapSize
        modifies upd.bitmap
        invariant forall j :: 0 <= j < i ==> upd.bitmap[j] == prev.bitmap[j]
      {
        upd.bitmap[i] := prev.bitmap[i];
      }
      for i := 0 to MapSize
        modifies upd.bitmap
        invariant forall j :: 0 <= j < i ==> upd.bitmap[j] == Merge(bitmap[..], prev.bitmap[..])[j]
        invariant forall j :: i <= j < MapSize ==> upd.bitmap[j] == prev.bitmap[j]
      {
        if bitmap[i] > 0 && upd.bitmap[i] == 0 {
          upd.bitmap[i] := bitmap[i];
        }
      }
    }

    /**
     * Visualize: 1024 lines of 64 cells and a newline; the cell at (row,
     * col) is '+' exactly when counter row * 64 + col is set.
     */
    method Visualize() returns (pic: string)
      requires Valid()
      ensures |pic| == Rows * 65
      ensures forall row, col :: 0 <= row < Rows && 0 <= col < Cols ==> At(pic, row, col) == Cell(bitmap[row * 64 + col])
      ensures forall row :: 0 <= row < Rows ==> At(pic, row, 64) == '\n'
    {
      pic := "";
      for row := 0 to Rows
        invariant |pic| == row * 65
        invariant forall r, c :: 0 <= r < row && 0 <= c < Cols ==> At(pic, r, c) == Cell(bitmap[r * 64 + c])
        invariant forall r :: 0 <= r < row ==> At(pic, r, 64) == '\n'
      {
        var line := VisualizeRow(row);
        AppendLine(pic, line, row);
        pic := pic + line;
      }
    }

    /** One line of Visualize: the 64 cells of row `row` and a newline. */
    method VisualizeRow(row: nat) returns (line: string)
      requires Valid() && row < Rows
      ensures |line| == 65 && line[64] == '\n'
      ensures forall col :: 0 <= col < Cols ==> line[col] == Cell(bitmap[row * 64 + col])
    {
      line := "";
      for col := 0 to Cols
        invariant |line| == col
        invariant forall c :: 0 <= c < col ==> line[c] == Cell(bitmap[row * 64 + c])
      {
        var idx := row * 64 + col;
        line := line + [if bitmap[idx] > 0 then '+' else '-'];
      }
      line := line + "\n";
    }
  }
}
