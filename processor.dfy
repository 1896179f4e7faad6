/** The audio processor: which bus layouts it accepts, how it prepares its
    two mono filter chains, and how one block of audio is processed in place.
    The chains' filtering is not modelled: what a chain does to one channel
    of one block is a function given by the caller. */
module Processor {

  /** A bus's channel set. Sets other than mono and stereo are told apart
      only by their channel count. */
  datatype ChannelSet = Disabled | Mono | Stereo | Discrete(count: nat)

  function Size(channels: ChannelSet): nat
  {
    match channels
    case Disabled => 0
    case Mono => 1
    case Stereo => 2
    case Discrete(n) => n
  }

  datatype BusesLayout = BusesLayout(mainInput: ChannelSet, mainOutput: ChannelSet)

  /** The build-time switches the layout code depends on. */
  datatype BuildFlags = BuildFlags(isMidiEffect: bool, isSynth: bool)

  /** The buses the constructor declares: a stereo input unless the plugin
      is a MIDI effect or a synth, a stereo output unless it is a MIDI effect. */
  function DefaultLayout(flags: BuildFlags): (layout: BusesLayout)
    ensures IsBusesLayoutSupported(flags, layout)
    ensures !flags.isMidiEffect ==> Size(layout.mainOutput) == 2
  {
    BusesLayout(
      if flags.isMidiEffect || flags.isSynth then Disabled else Stereo,
      if flags.isMidiEffect then Disabled else Stereo)
  }

  /** isBusesLayoutSupported: a MIDI effect takes any layout; otherwise the
      output must be mono or stereo and, unless the plugin is a synth, the
      input must match it. */
  function IsBusesLayoutSupported(flags: BuildFlags, layouts: BusesLayout): (supported: bool)
    ensures flags.isMidiEffect ==> supported
    ensures supported && !flags.isMidiEffect ==> Size(layouts.mainOutput) in {1, 2}
    ensures supported && !flags.isMidiEffect && !flags.isSynth ==> layouts.mainInput == layouts.mainOutput
  {
    if flags.isMidiEffect then true
    else if layouts.mainOutput != Mono && layouts.mainOutput != Stereo then false
    else if !flags.isSynth && layouts.mainOutput != layouts.mainInput then false
    else true
  }

  /** An effect accepts exactly mono-to-mono and stereo-to-stereo; a synth
      accepts any input with a mono or stereo output; a MIDI effect accepts
      everything. */
  lemma SupportedLayouts(flags: BuildFlags, layouts: BusesLayout)
    ensures !flags.isMidiEffect && !flags.isSynth ==>
      (IsBusesLayoutSupported(flags, layouts) <==>
        layouts == BusesLayout(Mono, Mono) || layouts == BusesLayout(Stereo, Stereo))
    ensures !flags.isMidiEffect && flags.isSynth ==>
      (IsBusesLayoutSupported(flags, layouts) <==> Size(layouts.mainOutput) in {1, 2} && !layouts.mainOutput.Discrete?)
    ensures flags.isMidiEffect ==> IsBusesLayoutSupported(flags, layouts)
  {
  }

  /** What prepare() is told: sample rate, largest block and channel count. */
  datatype ProcessSpec = ProcessSpec(sampleRate: real, maximumBlockSize: nat, numChannels: nat)

  /** The largest block size as the spec stores it: an unsigned 32-bit value,
      so the signed block size wraps modulo 2^32. */
  const BlockSizeModulus: int := 0x1_0000_0000

  /** The spec both chains are prepared with: one channel each. */
  function MonoSpec(sampleRate: real, samplesPerBlock: int): (spec: ProcessSpec)
    ensures spec.numChannels == 1 && spec.sampleRate == sampleRate
    ensures 0 <= samplesPerBlock < BlockSizeModulus ==> spec.maximumBlockSize == samplesPerBlock
    ensures spec.maximumBlockSize < BlockSizeModulus
    ensures spec.maximumBlockSize % BlockSizeModulus == samplesPerBlock % BlockSizeModulus
  {
    ProcessSpec(sampleRate, samplesPerBlock % BlockSizeModulus, 1)
  }

  /** A mono filter chain, as far as preparation goes. */
  datatype ChainState = Unprepared | Prepared(spec: ProcessSpec)

  /** A channel of `n` zero samples. */
  function Zeros(n: nat): seq<real>
  {
    seq(n, _ => 0.0)
  }

  /** The buffer as one sequence of samples per channel. */
  ghost function Channels(buffer: array2<real>): (chs: seq<seq<real>>)
    reads buffer
    ensures |chs| == buffer.Length0
    ensures forall c :: 0 <= c < |chs| ==> |chs[c]| == buffer.Length1
  {
    seq(buffer.Length0, c requires 0 <= c < buffer.Length0 reads buffer =>
      seq(buffer.Length1, j requires 0 <= j < buffer.Length1 reads buffer => buffer[c, j]))
  }

  /** The channels after the surplus outputs (index in [numIn, numOut)) are
      cleared; every other channel keeps its samples. */
  function ClearSurplus(chs: seq<seq<real>>, numIn: nat, numOut: nat): (r: seq<seq<real>>)
    ensures |r| == |chs|
    ensures forall c :: 0 <= c < |r| ==> |r[c]| == |chs[c]|
    ensures forall c, j :: numIn <= c < numOut && 0 <= c < |r| && 0 <= j < |r[c]| ==> r[c][j] == 0.0
    ensures forall c :: 0 <= c < |r| && (c < numIn || numOut <= c) ==> r[c] == chs[c]
  {
    seq(|chs|, c requires 0 <= c < |chs| => if numIn <= c < numOut then Zeros(|chs[c]|) else chs[c])
  }

  /** A chain processing a channel hands back as many samples as it received. */
  ghost predicate KeepsLength(process: seq<real> -> seq<real>)
  {
    forall s :: |process(s)| == |s|
  }

  /** The channels after the left chain has processed channel 0 and the
      right chain channel 1. */
  function ProcessChannels(chs: seq<seq<real>>, leftProcess: seq<real> -> seq<real>,
                           rightProcess: seq<real> -> seq<real>): seq<seq<real>>
    requires |chs| >= 2
  {
    chs[0 := leftProcess(chs[0])][1 := rightProcess(chs[1])]
  }

  /** Channels from 2 up are never handed to a chain: a surplus output is
      silent, any other channel is left exactly as it was. */
  lemma ProcessBlockLeavesOtherChannels(chs: seq<seq<real>>, numIn: nat, numOut: nat,
                                        leftProcess: seq<real> -> seq<real>, rightProcess: seq<real> -> seq<real>)
    requires |chs| >= 2
    ensures forall c :: 2 <= c < |chs| ==>
      ProcessChannels(ClearSurplus(chs, numIn, numOut), leftProcess, rightProcess)[c] ==
        if numIn <= c < numOut then Zeros(|chs[c]|) else chs[c]
  {
  }

  /** The left chain sees channel 0 and the right chain channel 1, each as
      it came in, or silent when it is a surplus output. */
  lemma ProcessBlockFeedsChains(chs: seq<seq<real>>, numIn: nat, numOut: nat,
                                leftProcess: seq<real> -> seq<real>, rightProcess: seq<real> -> seq<real>)
    requires |chs| >= 2
    ensures ProcessChannels(ClearSurplus(chs, numIn, numOut), leftProcess, rightProcess)[0] ==
      leftProcess(if numIn == 0 < numOut then Zeros(|chs[0]|) else chs[0])
    ensures ProcessChannels(ClearSurplus(chs, numIn, numOut), leftProcess, rightProcess)[1] ==
      rightProcess(if numIn <= 1 < numOut then Zeros(|chs[1]|) else chs[1])
  {
  }

  /** How many channels the host's buffer carries for a layout: enough for
      both the inputs and the outputs. */
  function HostChannels(layouts: BusesLayout): nat
  {
    var numIn, numOut := Size(layouts.mainInput), Size(layouts.mainOutput);
    if numIn < numOut then numOut else numIn
  }

  /** As written, processBlock takes channel 1 unconditionally, yet an
      effect accepts the mono layout, whose buffer has one channel only. */
  lemma MonoLayoutBreaksProcessBlock()
    ensures IsBusesLayoutSupported(BuildFlags(false, false), BusesLayout(Mono, Mono))
    ensures HostChannels(BusesLayout(Mono, Mono)) == 1
  {
  }

  /** The channels after each chain has processed its channel, where that
      channel exists. */
  function ProcessPresentChannels(chs: seq<seq<real>>, leftProcess: seq<real> -> seq<real>,
                                  rightProcess: seq<real> -> seq<real>): seq<seq<real>>
  {
    var afterLeft := if |chs| >= 1 then chs[0 := leftProcess(chs[0])] else chs;
    if |chs| >= 2 then afterLeft[1 := rightProcess(chs[1])] else afterLeft
  }

  /** On a buffer with two or more channels the guarded processing is the
      processing as written. */
  lemma GuardedMatchesAsWritten(chs: seq<seq<real>>, leftProcess: seq<real> -> seq<real>,
                                rightProcess: seq<real> -> seq<real>)
    requires |chs| >= 2
    ensures ProcessPresentChannels(chs, leftProcess, rightProcess) == ProcessChannels(chs, leftProcess, rightProcess)
  {
  }

  /** On a mono buffer the left chain processes the only channel. */
  lemma GuardedMono(chs: seq<seq<real>>, leftProcess: seq<real> -> seq<real>,
                    rightProcess: seq<real> -> seq<real>)
    requires |chs| == 1
    ensures ProcessPresentChannels(chs, leftProcess, rightProcess) == [leftProcess(chs[0])]
  {
  }

  /** Every layout an effect or synth build accepts gives a buffer that the
      guarded processing can handle: it holds every output channel and at
      least one channel. */
  lemma SupportedLayoutsAreProcessable(flags: BuildFlags, layouts: BusesLayout)
    requires !flags.isMidiEffect && IsBusesLayoutSupported(flags, layouts)
    ensures 1 <= HostChannels(layouts)
    ensures Size(layouts.mainOutput) <= HostChannels(layouts)
    ensures !flags.isSynth ==> (HostChannels(layouts) >= 2 <==> layouts.mainOutput == Stereo)
  {
  }

  /** Zeroes channel `c` of the buffer over the whole block. */
  method ClearChannel(buffer: array2<real>, c: nat)
    requires c < buffer.Length0
    modifies buffer
    ensures Channels(buffer) == old(Channels(buffer))[c := Zeros(buffer.Length1)]
  {
    for j := 0 to buffer.Length1
      invariant forall d, k :: 0 <= d < buffer.Length0 && 0 <= k < buffer.Length1 ==>
        buffer[d, k] == if d == c && k < j then 0.0 else old(buffer[d, k])
    {
      buffer[c, j] := 0.0;
    }
    ghost var before, after := old(Channels(buffer)), Channels(buffer);
    forall d | 0 <= d < buffer.Length0 ensures after[d] == before[c := Zeros(buffer.Length1)][d] {
      if d == c {
        assert after[d] == Zeros(buffer.Length1);
      } else {
        assert after[d] == before[d];
      }
    }
  }

  /** Replaces channel `c` of the buffer by what `process` makes of it. */
  method ProcessChannel(buffer: array2<real>, c: nat, process: seq<real> -> seq<real>)
    requires c < buffer.Length0
    requires KeepsLength(process)
    modifies buffer
    ensures Channels(buffer) == old(Channels(buffer))[c := process(old(Channels(buffer))[c])]
  {
    var input := seq(buffer.Length1, j requires 0 <= j < buffer.Length1 reads buffer => buffer[c, j]);
    assert input == Channels(buffer)[c];
    var output := process(input);
    for j := 0 to buffer.Length1
      invariant forall d, k :: 0 <= d < buffer.Length0 && 0 <= k < buffer.Length1 ==>
        buffer[d, k] == if d == c && k < j then output[k] else old(buffer[d, k])
    {
      buffer[c, j] := output[j];
    }
    ghost var before, after := old(Channels(buffer)), Channels(buffer);
    forall d | 0 <= d < buffer.Length0 ensures after[d] == before[c := output][d] {
      if d == c {
        assert after[d] == output;
      } else {
        assert after[d] == before[d];
      }
    }
  }

  class AudioProcessor {
    const flags: BuildFlags
    var layout: BusesLayout
    var leftChain: ChainState
    var rightChain: ChainState

    constructor(flags: BuildFlags)
      ensures this.flags == flags && layout == DefaultLayout(flags)
      ensures leftChain == Unprepared && rightChain == Unprepared
    {
      this.flags := flags;
      layout := DefaultLayout(flags);
      leftChain, rightChain := Unprepared, Unprepared;
    }

    /** prepareToPlay: both chains are prepared with the same mono spec. */
    method PrepareToPlay(sampleRate: real, samplesPerBlock: int)
      modifies this
      ensures leftChain == Prepared(MonoSpec(sampleRate, samplesPerBlock))
      ensures rightChain == leftChain
      ensures layout == old(layout)
    {
      var processSpec := ProcessSpec(sampleRate, samplesPerBlock % BlockSizeModulus, 1);
      leftChain := Prepared(processSpec);
      rightChain := Prepared(processSpec);
    }

    /** processBlock as written: surplus outputs are cleared, then channel 0
        goes through the left chain and channel 1 through the right chain.
        Channel 1 is taken unconditionally, so the buffer must have two. */
    method ProcessBlock(buffer: array2<real>, leftProcess: seq<real> -> seq<real>,
                        rightProcess: seq<real> -> seq<real>)
      requires buffer.Length0 >= 2
      requires Size(layout.mainOutput) <= buffer.Length0
      requires KeepsLength(leftProcess) && KeepsLength(rightProcess)
      modifies buffer
      ensures Channels(buffer) == ProcessChannels(
        ClearSurplus(old(Channels(buffer)), Size(layout.mainInput), Size(layout.mainOutput)),
        leftProcess, rightProcess)
    {
      ClearSurplusChannels(buffer);
      ProcessChannel(buffer, 0, leftProcess);
      ProcessChannel(buffer, 1, rightProcess);
    }

    /** processBlock with each chain run only when its channel exists, so
        that the mono layout it accepts is handled. */
    method ProcessBlockGuarded(buffer: array2<real>, leftProcess: seq<real> -> seq<real>,
                               rightProcess: seq<real> -> seq<real>)
      requires Size(layout.mainOutput) <= buffer.Length0
      requires KeepsLength(leftProcess) && KeepsLength(rightProcess)
      modifies buffer
      ensures Channels(buffer) == ProcessPresentChannels(
        ClearSurplus(old(Channels(buffer)), Size(layout.mainInput), Size(layout.mainOutput)),
        leftProcess, rightProcess)
    {
      ClearSurplusChannels(buffer);
      if buffer.Length0 >= 1 {
        ProcessChannel(buffer, 0, leftProcess);
      }
      if buffer.Length0 >= 2 {
        ProcessChannel(buffer, 1, rightProcess);
      }
    }

    /** The clearing loop of processBlock. */
    method ClearSurplusChannels(buffer: array2<real>)
      requires Size(layout.mainOutput) <= buffer.Length0
      modifies buffer
      ensures Channels(buffer) ==
        ClearSurplus(old(Channels(buffer)), Size(layout.mainInput), Size(layout.mainOutput))
    {
      var totalNumInputChannels := Size(layout.mainInput);
      var totalNumOutputChannels := Size(layout.mainOutput);
      ghost var start := Channels(buffer);
      assert ClearSurplus(start, totalNumInputChannels, totalNumInputChannels) == start;
      var i := totalNumInputChannels;
      while i < totalNumOutputChannels
        invariant totalNumInputChannels <= i
        invariant i <= totalNumOutputChannels || i == totalNumInputChannels
        invariant Channels(buffer) == ClearSurplus(start, totalNumInputChannels, i)
      {
        ClearChannel(buffer, i);
        assert ClearSurplus(start, totalNumInputChannels, i)[i := Zeros(buffer.Length1)]
               == ClearSurplus(start, totalNumInputChannels, i + 1);
        i := i + 1;
      }
      if totalNumOutputChannels < totalNumInputChannels {
        assert ClearSurplus(start, totalNumInputChannels, totalNumInputChannels)
               == ClearSurplus(start, totalNumInputChannels, totalNumOutputChannels);
      }
    }
  }
}
