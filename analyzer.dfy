/** The spectrum analyser's per-channel path generator (PathGenerator::process).
    Audio blocks wait in the channel's FIFO; each one pulled is rolled into a
    fixed-size mono buffer (the oldest samples slide out at the front, the
    block lands at the tail) and the whole buffer is handed to the FFT data
    generator; every FFT block produced becomes one path; of the paths
    produced, only the newest is kept for drawing.
    The FFT and the path construction are not modelled: an FFT block records
    the window it was computed from, a path records the arguments it was
    generated with. */
module Analyzer {
  import opened Geometry

  /** The level, in decibels, that both the FFT data and the path are floored at. */
  const FloorDb: real := -48.0

  datatype FFTBlock = FFTBlock(window: seq<real>, floorDb: real)

  datatype AnalyzerPath =
    | EmptyPath
    | PathOf(data: FFTBlock, bounds: Rect, fftSize: nat, binWidth: real, floorDb: real)

  /** The buffer after one block is rolled in: shifted left by the block's
      length, with the block copied to the tail. */
  function Roll(buffer: seq<real>, block: seq<real>): (r: seq<real>)
    requires |block| <= |buffer|
    ensures |r| == |buffer|
    ensures forall i :: 0 <= i < |buffer| - |block| ==> r[i] == buffer[i + |block|]
    ensures forall j :: 0 <= j < |block| ==> r[|buffer| - |block| + j] == block[j]
  {
    (buffer + block)[|block|..]
  }

  /** Every block is no longer than the buffer it is rolled into. */
  predicate BlocksFit(blocks: seq<seq<real>>, n: nat)
  {
    forall i :: 0 <= i < |blocks| ==> |blocks[i]| <= n
  }

  /** The buffer after the blocks are rolled in, first to last. */
  function RollAll(buffer: seq<real>, blocks: seq<seq<real>>): (r: seq<real>)
    requires BlocksFit(blocks, |buffer|)
    ensures |r| == |buffer|
  {
    if blocks == [] then buffer
    else Roll(RollAll(buffer, blocks[..|blocks| - 1]), blocks[|blocks| - 1])
  }

  /** The samples of the blocks, in arrival order. */
  function Concat(blocks: seq<seq<real>>): seq<real>
  {
    if blocks == [] then [] else Concat(blocks[..|blocks| - 1]) + blocks[|blocks| - 1]
  }

  /** The last `n` elements of `s`. */
  function LastN(s: seq<real>, n: nat): seq<real>
    requires n <= |s|
  {
    s[|s| - n..]
  }

  lemma RollLastN(s: seq<real>, n: nat, block: seq<real>)
    requires |block| <= n <= |s|
    ensures Roll(LastN(s, n), block) == LastN(s + block, n)
  {
    var r, t := Roll(LastN(s, n), block), LastN(s + block, n);
    assert |r| == |t|;
    forall i | 0 <= i < n ensures r[i] == t[i] {
      if i < n - |block| {
        assert r[i] == s[|s| - n + i + |block|];
      } else {
        assert r[i] == block[i - (n - |block|)];
      }
    }
  }

  /** Sliding window: however many blocks arrive, the buffer holds the last
      `|buffer|` samples of everything it ever held or received. */
  lemma {:induction false} RollAllKeepsLatest(buffer: seq<real>, blocks: seq<seq<real>>)
    requires BlocksFit(blocks, |buffer|)
    ensures RollAll(buffer, blocks) == LastN(buffer + Concat(blocks), |buffer|)
  {
    if blocks == [] {
      assert buffer + Concat(blocks) == buffer;
    } else {
      var init, last := blocks[..|blocks| - 1], blocks[|blocks| - 1];
      RollAllKeepsLatest(buffer, init);
      RollLastN(buffer + Concat(init), |buffer|, last);
      assert buffer + Concat(blocks) == (buffer + Concat(init)) + last;
    }
  }

  /** The FFT blocks requested while the blocks are pulled: one per block,
      each computed from the buffer just after that block was rolled in, and
      each floored at FloorDb. */
  function Produced(buffer: seq<real>, blocks: seq<seq<real>>): (r: seq<FFTBlock>)
    requires BlocksFit(blocks, |buffer|)
    ensures |r| == |blocks|
    ensures forall i :: 0 <= i < |r| ==> r[i] == FFTBlock(RollAll(buffer, blocks[..i + 1]), FloorDb)
  {
    if blocks == [] then []
    else
      var init := blocks[..|blocks| - 1];
      var earlier := Produced(buffer, init);
      assert forall i :: 0 <= i < |init| ==> earlier[i] == FFTBlock(RollAll(buffer, blocks[..i + 1]), FloorDb) by {
        forall i | 0 <= i < |init| ensures earlier[i] == FFTBlock(RollAll(buffer, blocks[..i + 1]), FloorDb) {
          assert init[..i + 1] == blocks[..i + 1];
        }
      }
      assert blocks[..|blocks|] == blocks;
      earlier + [FFTBlock(RollAll(buffer, blocks), FloorDb)]
  }

  lemma ProducedAppend(buffer: seq<real>, blocks: seq<seq<real>>, block: seq<real>)
    requires BlocksFit(blocks, |buffer|) && |block| <= |buffer|
    ensures BlocksFit(blocks + [block], |buffer|)
    ensures RollAll(buffer, blocks + [block]) == Roll(RollAll(buffer, blocks), block)
    ensures Produced(buffer, blocks + [block]) ==
      Produced(buffer, blocks) + [FFTBlock(Roll(RollAll(buffer, blocks), block), FloorDb)]
  {
    var all := blocks + [block];
    assert all[..|all| - 1] == blocks;
  }

  /** One path per FFT block, in order, each drawn into `bounds` with the
      given FFT size and bin width and floored at FloorDb. */
  function PathsFor(blocks: seq<FFTBlock>, bounds: Rect, fftSize: nat, binWidth: real): seq<AnalyzerPath>
  {
    if blocks == [] then []
    else PathsFor(blocks[..|blocks| - 1], bounds, fftSize, binWidth)
         + [PathOf(blocks[|blocks| - 1], bounds, fftSize, binWidth, FloorDb)]
  }

  /** One path per block, in the order the blocks were produced: path i is
      drawn from block i. */
  lemma {:induction false} PathsForLength(blocks: seq<FFTBlock>, bounds: Rect, fftSize: nat, binWidth: real)
    ensures |PathsFor(blocks, bounds, fftSize, binWidth)| == |blocks|
    ensures forall i :: 0 <= i < |blocks| ==>
      PathsFor(blocks, bounds, fftSize, binWidth)[i] == PathOf(blocks[i], bounds, fftSize, binWidth, FloorDb)
  {
    if blocks != [] {
      var init := blocks[..|blocks| - 1];
      PathsForLength(init, bounds, fftSize, binWidth);
      forall i | 0 <= i < |blocks|
        ensures PathsFor(blocks, bounds, fftSize, binWidth)[i] == PathOf(blocks[i], bounds, fftSize, binWidth, FloorDb)
      {
        if i < |init| {
          assert blocks[i] == init[i];
        }
      }
    }
  }

  /** The path left to draw after the pending paths are drained: the newest
      of them, or the current one when none is pending. */
  function Latest(paths: seq<AnalyzerPath>, current: AnalyzerPath): AnalyzerPath
  {
    if paths == [] then current else paths[|paths| - 1]
  }

  /** What a run of `process` leaves on screen. When audio arrived, the path
      drawn is the one computed from the newest buffer, which holds the last
      N samples received; when nothing at all was pending, the previous path
      stays. */
  lemma ProcessedPath(buffer: seq<real>, fifo: seq<seq<real>>, pendingBlocks: seq<FFTBlock>,
                      pendingPaths: seq<AnalyzerPath>, current: AnalyzerPath,
                      bounds: Rect, fftSize: nat, binWidth: real)
    requires BlocksFit(fifo, |buffer|)
    ensures fifo != [] ==>
      Latest(pendingPaths + PathsFor(pendingBlocks + Produced(buffer, fifo), bounds, fftSize, binWidth), current)
      == PathOf(FFTBlock(LastN(buffer + Concat(fifo), |buffer|), FloorDb), bounds, fftSize, binWidth, FloorDb)
    ensures fifo == [] && pendingBlocks == [] && pendingPaths == [] ==>
      Latest(pendingPaths + PathsFor(pendingBlocks + Produced(buffer, fifo), bounds, fftSize, binWidth), current)
      == current
  {
    if fifo != [] {
      var blocks := pendingBlocks + Produced(buffer, fifo);
      var last := blocks[|blocks| - 1];
      assert last == FFTBlock(RollAll(buffer, fifo[..|fifo|]), FloorDb);
      assert fifo[..|fifo|] == fifo;
      RollAllKeepsLatest(buffer, fifo);
      var ps := pendingPaths + PathsFor(blocks, bounds, fftSize, binWidth);
      assert ps[|ps| - 1] == PathOf(last, bounds, fftSize, binWidth, FloorDb);
    } else {
      assert Produced(buffer, fifo) == [];
    }
  }

  /** The analyser state of one channel. `fifo` stands for the channel's
      queue of complete audio blocks, `fftBlocks` for the FFT data
      generator's queue and `paths` for the path producer's queue. */
  class PathGenerator {
    var fifo: seq<seq<real>>
    const monoBuffer: array<real>
    var fftBlocks: seq<FFTBlock>
    var paths: seq<AnalyzerPath>
    var latestPath: AnalyzerPath
    /** Every path ever generated, in order. */
    ghost var generatedPaths: seq<AnalyzerPath>

    ghost predicate Valid()
      reads this
    {
      monoBuffer.Length > 0 && BlocksFit(fifo, monoBuffer.Length)
    }

    constructor(fftSize: nat)
      requires fftSize > 0
      ensures Valid() && fresh(monoBuffer)
      ensures monoBuffer.Length == fftSize
      ensures forall i :: 0 <= i < fftSize ==> monoBuffer[i] == 0.0
      ensures fifo == [] && fftBlocks == [] && paths == [] && latestPath == EmptyPath
      ensures generatedPaths == []
    {
      monoBuffer := new real[fftSize](_ => 0.0);
      fifo, fftBlocks, paths, latestPath := [], [], [], EmptyPath;
      generatedPaths := [];
    }

    /** Rolls one block into the mono buffer in place: the kept samples are
        copied to the front, then the block to the tail. */
    method ShiftIn(block: seq<real>)
      requires |block| <= monoBuffer.Length
      modifies monoBuffer
      ensures monoBuffer[..] == Roll(old(monoBuffer[..]), block)
    {
      ShiftLeft(|block|);
      CopyToTail(block);
      assert monoBuffer[..] == Roll(old(monoBuffer[..]), block);
    }

    /** The first copy: samples k.. move to the front. The framework's block
        copy leaves the order on overlapping ranges open; this model copies
        in ascending order, which yields the intended left shift. */
    method ShiftLeft(k: nat)
      requires k <= monoBuffer.Length
      modifies monoBuffer
      ensures forall j :: 0 <= j < monoBuffer.Length - k ==> monoBuffer[j] == old(monoBuffer[j + k])
      ensures forall j :: monoBuffer.Length - k <= j < monoBuffer.Length ==> monoBuffer[j] == old(monoBuffer[j])
    {
      var i := 0;
      while i < monoBuffer.Length - k
        invariant 0 <= i <= monoBuffer.Length - k
        invariant forall j :: 0 <= j < i ==> monoBuffer[j] == old(monoBuffer[j + k])
        invariant forall j :: i <= j < monoBuffer.Length ==> monoBuffer[j] == old(monoBuffer[j])
      {
        monoBuffer[i] := monoBuffer[i + k];
        i := i + 1;
      }
    }

    /** The second copy: the block lands on the buffer's last samples. */
    method CopyToTail(block: seq<real>)
      requires |block| <= monoBuffer.Length
      modifies monoBuffer
      ensures forall j :: 0 <= j < monoBuffer.Length - |block| ==> monoBuffer[j] == old(monoBuffer[j])
      ensures forall m :: 0 <= m < |block| ==> monoBuffer[monoBuffer.Length - |block| + m] == block[m]
    {
      var n, k := monoBuffer.Length, |block|;
      var j := 0;
      while j < k
        invariant 0 <= j <= k
        invariant forall m :: 0 <= m < n - k ==> monoBuffer[m] == old(monoBuffer[m])
        invariant forall m :: 0 <= m < j ==> monoBuffer[n - k + m] == block[m]
      {
        monoBuffer[n - k + j] := block[j];
        j := j + 1;
      }
    }

    /** The first loop of `process`: pull every complete block, roll it in,
        and request one FFT of the buffer per block. */
    method PullBlocks()
      requires Valid()
      modifies this, monoBuffer
      ensures Valid()
      ensures fifo == []
      ensures monoBuffer[..] == RollAll(old(monoBuffer[..]), old(fifo))
      ensures fftBlocks == old(fftBlocks) + Produced(old(monoBuffer[..]), old(fifo))
      ensures paths == old(paths) && latestPath == old(latestPath)
      ensures generatedPaths == old(generatedPaths)
    {
      ghost var start := monoBuffer[..];
      ghost var pulled: seq<seq<real>> := [];
      while |fifo| > 0
        invariant Valid()
        invariant old(fifo) == pulled + fifo
        invariant BlocksFit(pulled, monoBuffer.Length)
        invariant monoBuffer[..] == RollAll(start, pulled)
        invariant fftBlocks == old(fftBlocks) + Produced(start, pulled)
        invariant paths == old(paths) && latestPath == old(latestPath)
        invariant generatedPaths == old(generatedPaths)
        decreases |fifo|
      {
        var block := fifo[0];
        PullOne();
        ProducedAppend(start, pulled, block);
        pulled := pulled + [block];
      }
      assert pulled == old(fifo);
    }

    /** One pass of the first loop: the oldest block is pulled, rolled into
        the buffer, and one FFT of the buffer is requested. */
    method PullOne()
      requires Valid() && fifo != []
      modifies this, monoBuffer
      ensures Valid()
      ensures fifo == old(fifo[1..])
      ensures monoBuffer[..] == Roll(old(monoBuffer[..]), old(fifo[0]))
      ensures fftBlocks == old(fftBlocks) + [FFTBlock(monoBuffer[..], FloorDb)]
      ensures paths == old(paths) && latestPath == old(latestPath)
      ensures generatedPaths == old(generatedPaths)
    {
      var block := fifo[0];
      fifo := fifo[1..];
      ShiftIn(block);
      fftBlocks := fftBlocks + [FFTBlock(monoBuffer[..], FloorDb)];
    }

    /** The second loop of `process`: every pending FFT block becomes one path. */
    method GeneratePaths(bounds: Rect, binWidth: real)
      modifies this
      ensures fftBlocks == []
      ensures paths == old(paths) + PathsFor(old(fftBlocks), bounds, monoBuffer.Length, binWidth)
      ensures generatedPaths == old(generatedPaths) + PathsFor(old(fftBlocks), bounds, monoBuffer.Length, binWidth)
      ensures fifo == old(fifo) && latestPath == old(latestPath)
    {
      ghost var done: seq<FFTBlock> := [];
      while |fftBlocks| > 0
        invariant old(fftBlocks) == done + fftBlocks
        invariant paths == old(paths) + PathsFor(done, bounds, monoBuffer.Length, binWidth)
        invariant generatedPaths == old(generatedPaths) + PathsFor(done, bounds, monoBuffer.Length, binWidth)
        invariant fifo == old(fifo) && latestPath == old(latestPath)
        decreases |fftBlocks|
      {
        var data := fftBlocks[0];
        fftBlocks := fftBlocks[1..];
        var path := PathOf(data, bounds, monoBuffer.Length, binWidth, FloorDb);
        paths := paths + [path];
        generatedPaths := generatedPaths + [path];
        assert (done + [data])[..|done|] == done;
        done := done + [data];
      }
      assert done == old(fftBlocks);
    }

    /** The third loop of `process`: drain the pending paths, keeping the last. */
    method TakeLatestPath()
      modifies this
      ensures paths == []
      ensures latestPath == Latest(old(paths), old(latestPath))
      ensures fifo == old(fifo) && fftBlocks == old(fftBlocks)
      ensures generatedPaths == old(generatedPaths)
    {
      while |paths| > 0
        invariant Latest(paths, latestPath) == Latest(old(paths), old(latestPath))
        invariant fifo == old(fifo) && fftBlocks == old(fftBlocks)
        invariant generatedPaths == old(generatedPaths)
        decreases |paths|
      {
        latestPath := paths[0];
        paths := paths[1..];
      }
    }

    /** The state `process` leaves, relative to the state it started from. */
    twostate predicate ProcessedFrom(fftBounds: Rect, sampleRate: real)
      requires old(Valid())
      reads this, monoBuffer
    {
      && fifo == [] && fftBlocks == [] && paths == []
      && monoBuffer[..] == RollAll(old(monoBuffer[..]), old(fifo))
      && generatedPaths == old(generatedPaths) +
           PathsFor(old(fftBlocks) + Produced(old(monoBuffer[..]), old(fifo)),
                    fftBounds, monoBuffer.Length, sampleRate / monoBuffer.Length as real)
      && latestPath == Latest(old(paths) +
           PathsFor(old(fftBlocks) + Produced(old(monoBuffer[..]), old(fifo)),
                    fftBounds, monoBuffer.Length, sampleRate / monoBuffer.Length as real),
           old(latestPath))
    }

    /** PathGenerator::process: all three queues end empty, the buffer has
        every pulled block rolled in, each pending or newly produced FFT block
        yields one path with bin width `sampleRate / fftSize`, and the path
        kept is the newest of those. */
    method Process(fftBounds: Rect, sampleRate: real)
      requires Valid()
      modifies this, monoBuffer
      ensures Valid()
      ensures ProcessedFrom(fftBounds, sampleRate)
    {
      PullBlocks();
      var fftSize := monoBuffer.Length;
      var binWidth := sampleRate / fftSize as real;
      GeneratePaths(fftBounds, binWidth);
      TakeLatestPath();
    }
  }
}
