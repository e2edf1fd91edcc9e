/** Value-level meaning of the recorder's circular buffer: where the samples of a
    block land, which frames a block leaves alone, what a read stages and how the
    cursors move. One channel is a `seq<int>` of `cap` samples; a multichannel
    store or block is a `seq<seq<int>>`, one row per channel. */
module RingSpec {

  /** Cursor after moving over `n` samples from `pos` in a ring of `cap` samples.
      A block that runs past the end continues from frame 0; one that ends exactly
      on the end leaves the cursor AT `cap`, not at 0. */
  function Advance(pos: int, n: int, cap: int): (r: int)
    requires 0 <= pos <= cap && 0 <= n && pos + n <= 2 * cap
    ensures 0 <= r <= cap
    ensures r == cap <==> pos + n == cap || pos + n == 2 * cap
  {
    if pos + n > cap then pos + n - cap else pos + n
  }

  /** The cursor moves modulo the capacity, except that it may rest on `cap`
      itself in place of 0. */
  lemma AdvanceIsModular(pos: int, n: int, cap: int)
    requires 0 <= pos <= cap && 0 <= n && pos + n <= 2 * cap && cap > 0
    ensures Advance(pos, n, cap) == (pos + n) % cap || Advance(pos, n, cap) == cap
    ensures Advance(pos, n, cap) % cap == (pos + n) % cap
  {
    var x := pos + n;
    if x < cap {
      ModOfShifted(x, 0, cap);
    } else if x < 2 * cap {
      ModOfShifted(x - cap, 0, cap);
      ModOfShifted(x - cap, 1, cap);
    } else {
      ModOfShifted(0, 0, cap);
      ModOfShifted(0, 1, cap);
      ModOfShifted(0, 2, cap);
    }
  }

  /** `y + q * cap` leaves remainder `y` for a remainder-sized `y`. */
  lemma ModOfShifted(y: int, q: int, cap: int)
    requires 0 <= y < cap && 0 <= q <= 2
    ensures (y + q * cap) % cap == y
  {
    var a := y + q * cap;
    var d, m := a / cap, a % cap;
    assert a == d * cap + m && 0 <= m < cap;
  }

  /** The frame that sample `i` of a block starting at `pos` occupies. */
  function Slot(pos: int, i: int, cap: int): (j: int)
    requires 0 <= pos <= cap && 0 <= i && pos + i < 2 * cap
    ensures 0 <= j < cap
  {
    if pos + i < cap then pos + i else pos + i - cap
  }

  /** The frame is the cursor position plus `i`, taken modulo the capacity. */
  lemma SlotIsModular(pos: int, i: int, cap: int)
    requires 0 <= pos <= cap && 0 <= i && pos + i < 2 * cap
    ensures Slot(pos, i, cap) == (pos + i) % cap
  {
    if pos + i < cap {
      ModOfShifted(pos + i, 0, cap);
    } else {
      ModOfShifted(pos + i - cap, 1, cap);
    }
  }

  /** How many samples after `pos` the cursor reaches frame `j`. */
  function Distance(pos: int, j: int, cap: int): (d: int)
    requires 0 <= pos <= cap && 0 <= j < cap
    ensures 0 <= d < cap
    ensures Slot(pos, d, cap) == j
  {
    if pos <= j then j - pos else j + cap - pos
  }

  /** Reference definition of a write into one channel, frame by frame: frame `j`
      holds the LAST sample of `block` that lands on it, or keeps its old value. */
  function WriteChannel(row: seq<int>, pos: int, block: seq<int>): (r: seq<int>)
    requires 0 <= pos <= |row| && pos + |block| <= 2 * |row|
    ensures |r| == |row|
  {
    var cap := |row|;
    seq(cap, j requires 0 <= j < cap =>
      if j + cap - pos < |block| then block[j + cap - pos]
      else if pos <= j < pos + |block| then block[j - pos]
      else row[j])
  }

  /** Reference definition of the samples a read stages: sample `i` is frame `Slot(pos, i)`. */
  function ReadChannel(row: seq<int>, pos: int, n: int): (r: seq<int>)
    requires 0 <= pos <= |row| && 0 <= n && pos + n <= 2 * |row|
    ensures |r| == n
  {
    seq(n, i requires 0 <= i < n => row[Slot(pos, i, |row|)])
  }

  /** Sample `i` of a block is the frame that a write puts it in, as long as no
      later sample of the same block (`i + cap`) lands on the same frame. */
  lemma WriteChannelLands(row: seq<int>, pos: int, block: seq<int>, i: int)
    requires 0 <= pos <= |row| && pos + |block| <= 2 * |row|
    requires 0 <= i < |block| && |block| <= i + |row|
    ensures WriteChannel(row, pos, block)[Slot(pos, i, |row|)] == block[i]
  {
  }

  /** A write leaves every frame at distance `|block|` or more from `pos` as it was. */
  lemma WriteChannelKeeps(row: seq<int>, pos: int, block: seq<int>, j: int)
    requires 0 <= pos <= |row| && pos + |block| <= 2 * |row|
    requires 0 <= j < |row| && Distance(pos, j, |row|) >= |block|
    ensures WriteChannel(row, pos, block)[j] == row[j]
  {
  }

  /** A write that does not run past the end (`pos + |block| <= cap`) puts the
      block at `pos` contiguously and leaves the other frames alone. */
  lemma WriteChannelContiguous(row: seq<int>, pos: int, block: seq<int>)
    requires 0 <= pos && pos + |block| <= |row|
    ensures WriteChannel(row, pos, block) == row[..pos] + block + row[pos + |block|..]
  {
    var w := WriteChannel(row, pos, block);
    var s := row[..pos] + block + row[pos + |block|..];
    assert |w| == |s|;
    forall j | 0 <= j < |w| ensures w[j] == s[j] {
      if j < pos {
        assert s[j] == row[j];
      } else if j < pos + |block| {
        assert s[j] == block[j - pos];
      } else {
        assert s[j] == row[j];
      }
    }
  }

  /** A write that runs past the end (`pos + |block| > cap`, `|block| <= cap`)
      puts the first `cap - pos` samples at the tail `[pos, cap)`, the remaining
      `overlap` samples at the head `[0, overlap)`, and leaves `[overlap, pos)` alone. */
  lemma WriteChannelWrapped(row: seq<int>, pos: int, block: seq<int>)
    requires 0 <= pos <= |row| && |row| < pos + |block| && |block| <= |row|
    ensures var overlap := pos + |block| - |row|;
      WriteChannel(row, pos, block)
        == block[|row| - pos..] + row[overlap..pos] + block[..|row| - pos]
  {
    var cap := |row|;
    var overlap := pos + |block| - cap;
    var w := WriteChannel(row, pos, block);
    var s := block[cap - pos..] + row[overlap..pos] + block[..cap - pos];
    assert |w| == |s|;
    forall j | 0 <= j < cap ensures w[j] == s[j] {
      if j < overlap {
        assert s[j] == block[cap - pos + j];
      } else if j < pos {
        assert s[j] == row[j];
      } else {
        assert s[j] == block[j - pos];
      }
    }
  }

  /** Round trip on one channel: reading `|block|` samples from where a block was
      written gives the block back, wrapped or not. */
  lemma ReadAfterWrite(row: seq<int>, pos: int, block: seq<int>)
    requires 0 <= pos <= |row| && |block| <= |row|
    ensures ReadChannel(WriteChannel(row, pos, block), pos, |block|) == block
  {
    var r := ReadChannel(WriteChannel(row, pos, block), pos, |block|);
    forall i | 0 <= i < |block| ensures r[i] == block[i] {
      WriteChannelLands(row, pos, block, i);
    }
  }

  /** Reading the whole ring from the new write cursor gives the history in time
      order: the oldest surviving samples, then the block just written. */
  lemma HistoryInTimeOrder(row: seq<int>, pos: int, block: seq<int>)
    requires 0 <= pos <= |row| && |block| <= |row|
    ensures var cap, n := |row|, |block|;
      var next := Advance(pos, n, cap);
      ReadChannel(WriteChannel(row, pos, block), next, cap)
        == ReadChannel(row, next, cap - n) + block
  {
    var cap, n := |row|, |block|;
    var next := Advance(pos, n, cap);
    var w := WriteChannel(row, pos, block);
    var lhs := ReadChannel(w, next, cap);
    var rhs := ReadChannel(row, next, cap - n) + block;
    forall i | 0 <= i < cap ensures lhs[i] == rhs[i] {
      if i < cap - n {
        var f := Slot(next, i, cap);
        assert Distance(pos, f, cap) == n + i;
        WriteChannelKeeps(row, pos, block, f);
      } else {
        var k := i - (cap - n);
        assert Slot(next, i, cap) == Slot(pos, k, cap);
        WriteChannelLands(row, pos, block, k);
      }
    }
  }

  // ---- multichannel stores and blocks ----

  /** Every channel of `block` fits the ring channel of the same index at `pos`. */
  predicate Fits(rows: seq<seq<int>>, pos: int, block: seq<seq<int>>)
  {
    |block| <= |rows| &&
    forall c :: 0 <= c < |block| ==>
      0 <= pos <= |rows[c]| && pos + |block[c]| <= 2 * |rows[c]|
  }

  /** A write of a multichannel block: channel `c` of the ring takes channel `c`
      of the block; ring channels beyond the block's channel count stay as they are. */
  function WriteFrames(rows: seq<seq<int>>, pos: int, block: seq<seq<int>>): (r: seq<seq<int>>)
    requires Fits(rows, pos, block)
    ensures |r| == |rows|
    ensures forall c :: 0 <= c < |rows| ==> |r[c]| == |rows[c]|
  {
    seq(|rows|, c requires 0 <= c < |rows| =>
      if c < |block| then WriteChannel(rows[c], pos, block[c]) else rows[c])
  }

  /** The staging block a read of `n` samples on `channels` channels fills. */
  function ReadFrames(rows: seq<seq<int>>, pos: int, channels: int, n: int): (r: seq<seq<int>>)
    requires 0 <= channels <= |rows| && 0 <= n
    requires forall c :: 0 <= c < channels ==> 0 <= pos <= |rows[c]| && pos + n <= 2 * |rows[c]|
    ensures |r| == channels
    ensures forall c :: 0 <= c < channels ==> |r[c]| == n
  {
    seq(channels, c requires 0 <= c < channels => ReadChannel(rows[c], pos, n))
  }

  /** What a multichannel write changes: only frames within `|block[c]|` samples
      after `pos`, and only on channels the block has. */
  lemma WriteFramesFootprint(rows: seq<seq<int>>, pos: int, block: seq<seq<int>>, c: int, j: int)
    requires Fits(rows, pos, block)
    requires 0 <= c < |rows| && 0 <= j < |rows[c]|
    requires c >= |block| || (pos <= |rows[c]| && Distance(pos, j, |rows[c]|) >= |block[c]|)
    ensures WriteFrames(rows, pos, block)[c][j] == rows[c][j]
  {
    if c < |block| {
      WriteChannelKeeps(rows[c], pos, block[c], j);
    }
  }

  /** Round trip on a multichannel block of `n <= cap` samples per channel. */
  lemma ReadAfterWriteFrames(rows: seq<seq<int>>, cap: int, pos: int, block: seq<seq<int>>, n: int)
    requires forall c :: 0 <= c < |rows| ==> |rows[c]| == cap
    requires forall c :: 0 <= c < |block| ==> |block[c]| == n
    requires |block| <= |rows| && 0 <= pos <= cap && 0 <= n <= cap
    ensures Fits(rows, pos, block)
    ensures ReadFrames(WriteFrames(rows, pos, block), pos, |block|, n) == block
  {
    var w := WriteFrames(rows, pos, block);
    var r := ReadFrames(w, pos, |block|, n);
    forall c | 0 <= c < |block| ensures r[c] == block[c] {
      ReadAfterWrite(rows[c], pos, block[c]);
    }
  }

  // ---- a ring of 4 frames on one channel ----

  /** Writing `[1, 2, 3, 4]` from frame 0 fills the ring and leaves the cursor
      on the capacity; writing `[5]` from there lands on frame 0 and leaves it at 1. */
  lemma SuccessiveWritesExample()
    ensures Advance(0, 4, 4) == 4 && Advance(4, 1, 4) == 1
    ensures WriteChannel([0, 0, 0, 0], 0, [1, 2, 3, 4]) == [1, 2, 3, 4]
    ensures WriteChannel([1, 2, 3, 4], 4, [5]) == [5, 2, 3, 4]
  {
    WriteChannelContiguous([0, 0, 0, 0], 0, [1, 2, 3, 4]);
    WriteChannelWrapped([1, 2, 3, 4], 4, [5]);
    assert [5] + [1, 2, 3, 4][1..4] + [] == [5, 2, 3, 4];
  }

  /** Writing `[1, 2, 3, 4, 5]` in one block from frame 0: the fifth sample
      overwrites the first and the cursor ends at 1. Reading 4 samples from
      frame 0 afterwards stages exactly those four samples and leaves the read
      cursor on the capacity. */
  lemma OneBlockExample()
    ensures Advance(0, 5, 4) == 1 && Advance(0, 4, 4) == 4
    ensures WriteChannel([0, 0, 0, 0], 0, [1, 2, 3, 4, 5]) == [5, 2, 3, 4]
    ensures ReadChannel([5, 2, 3, 4], 0, 4) == [5, 2, 3, 4]
  {
    var w := WriteChannel([0, 0, 0, 0], 0, [1, 2, 3, 4, 5]);
    assert w[0] == 5 && w[1] == 2 && w[2] == 3 && w[3] == 4;
    var r := ReadChannel([5, 2, 3, 4], 0, 4);
    assert r[0] == 5 && r[1] == 2 && r[2] == 3 && r[3] == 4;
  }
}
