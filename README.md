# 3BandEQ — a Dafny model of the plugin's control logic

3BandEQ is an audio plugin built on the JUCE framework. It is a three-band equaliser: a low cut, a peak band and a high cut, on a stereo signal. It also has a spectrum analyser. This project models the behaviour of its two source files, `PluginProcessor.cpp` and `PluginEditor.cpp`, and proves properties of that model. The filter mathematics and the drawing are not modelled.

The model covers:

- **Processor** (`processor.dfy`, module `Processor`):
  - the buses layouts the plugin accepts;
  - the spec `prepareToPlay` hands to its two mono filter chains;
  - `processBlock` on a two-dimensional sample buffer. It clears the surplus output channels. Then channel 0 goes through the left chain and channel 1 through the right chain.
  - What a chain does to one channel is a function supplied by the caller.
- **Parameter layout** (`parameters.dfy`, module `Parameters`): the seven parameters `createParameterLayout` declares, with their ranges, defaults and slope choice names. It also covers the IDs the editor's controls attach to.
- **Analyser** (`analyzer.dfy`, module `Analyzer`): `PathGenerator::process` as a class.
  - The FIFO of audio blocks, the FFT data queue and the path queue are `seq` fields.
  - The mono buffer is an `array` rolled in place by a copy loop.
  - The FFT and the path construction are not modelled. An FFT block records the window it came from and its floor. A path records the arguments it was generated with.
- **Response curve** (`response.dfy`, module `Response`; `chain.dfy`, module `Chain`):
  - the "parameters changed" flag, the 60 Hz timer and `updateChain`;
  - the component's own mono chain (bypass flags and which stages are engaged);
  - the per-pixel loop of `paint` that multiplies in the gains of the stages that are not bypassed.
  - A stage's gain at a pixel is a function supplied by the caller.
  - An event-trace model states what any sequence of parameter changes and timer ticks does.
- **Layout and labels** (`geometry.dfy`, `grid.dfy`, `text.dfy`, `arith.dfy`):
  - the integer rectangles of `getRenderArea` and `getAnalysisArea`;
  - the frequency and gain labels drawn on the background grid, with readers that prove the labels denote their values.
- **Editor buttons** (`editor.dfy`, module `EditorControls`): the four bypass buttons' click handlers.

Collaborators whose code is not part of this model are parameters or abstract values:
- the coefficient factories, `updateCutFilter`, `getChainSettings` and `chain.process`;
- the audio FIFO, the FFT data generator and `generatePath`;
- the host's sample rate.

A settings snapshot (`Chain.ChainSettings`) stands for what `getChainSettings` returns. `updateCutFilter` is modelled as: stage `i` of a cut cascade is engaged exactly when `i <= slope`, with coefficients designed for that stage.

## Model

| member | source | states |
|---|---|---|
| Processor.SupportedLayouts | Source/PluginProcessor.cpp:115-137 | An effect build accepts exactly mono→mono and stereo→stereo. A synth build accepts any input with a mono or stereo output. A MIDI-effect build accepts every layout. |
| Processor.DefaultLayout | Source/PluginProcessor.cpp:13-25 | The buses the constructor declares are accepted by isBusesLayoutSupported in every build, and every build but a MIDI effect declares a stereo output. |
| Processor.IsBusesLayoutSupported | Source/PluginProcessor.cpp:115-137 | A MIDI-effect build accepts any layout. Any other build accepts only a mono or stereo output, and an effect only with an input equal to its output. |
| Processor.MonoSpec | Source/PluginProcessor.cpp:99-102 | The spec has one channel and the given sample rate. Its largest block size is `samplesPerBlock` stored as an unsigned 32-bit value: equal to it when it fits, otherwise congruent to it modulo 2^32. |
| Processor.ClearSurplus | Source/PluginProcessor.cpp:152-153 | Every sample of an output channel with index in [numIn, numOut) becomes 0. Every other channel keeps its samples. No channel changes length. |
| Processor.ClearChannel | Source/PluginProcessor.cpp:153 | Clearing channel c zeroes that channel over the whole block and leaves every other channel of the buffer unchanged. |
| Processor.ProcessChannel | Source/PluginProcessor.cpp:159-168 | Processing channel c in place replaces exactly that channel with the chain's output for it; the other channels are unchanged. |
| Processor.ProcessBlockLeavesOtherChannels | Source/PluginProcessor.cpp:152-168 | After processBlock, a channel from 2 up is silent if it is a surplus output and otherwise exactly as it came in; no chain touches it. |
| Processor.ProcessBlockFeedsChains | Source/PluginProcessor.cpp:152-168 | The left chain processes channel 0 and the right chain channel 1, each as it came in, or silent when it is a surplus output. |
| Processor.AudioProcessor.constructor | Source/PluginProcessor.cpp:13-25 | The processor starts with the default buses for its build and both chains unprepared. |
| Processor.AudioProcessor.PrepareToPlay | Source/PluginProcessor.cpp:94-106 | Both chains are prepared with the same spec, MonoSpec(sampleRate, samplesPerBlock); the layout is unchanged. |
| Processor.AudioProcessor.ClearSurplusChannels | Source/PluginProcessor.cpp:152-153 | The clearing loop leaves the buffer equal to ClearSurplus of its old channels for the layout's input and output counts. |
| Processor.AudioProcessor.ProcessBlock | Source/PluginProcessor.cpp:140-169 | processBlock as written requires two channels. The new buffer is the old one with surplus outputs cleared, then channel 0 and channel 1 processed by the left and right chain. |
| Processor.MonoLayoutBreaksProcessBlock | Source/PluginProcessor.cpp:125-135 | An effect build accepts the mono→mono layout, whose buffer carries one channel, less than the two processBlock takes. |
| Processor.AudioProcessor.ProcessBlockGuarded | Source/PluginProcessor.cpp:140-169 | Corrected processBlock: it clears the surplus outputs, then runs each chain only on a channel that exists. |
| Processor.GuardedMatchesAsWritten | Source/PluginProcessor.cpp:159-168 | On any buffer of two or more channels the corrected processing equals the processing as written. |
| Processor.GuardedMono | Source/PluginProcessor.cpp:159-168 | On a mono buffer the corrected processing runs the left chain on the only channel. |
| Processor.SupportedLayoutsAreProcessable | Source/PluginProcessor.cpp:115-137 | Every layout an effect or synth build accepts gives a buffer of at least one channel that holds all outputs, so the corrected processBlock's precondition holds. For an effect, the buffer has two channels exactly when the output is stereo. |
| Parameters.SlopeChoices | Source/PluginProcessor.cpp:202-209 | The slope choices are exactly "12 dB/oct", "24 dB/oct", "36 dB/oct", "48 dB/oct". |
| Parameters.SlopeLabelCountsStages | Source/PluginProcessor.cpp:202-209 | For each cut that is not bypassed, the name of its chosen slope is 12 times the number of that cut's stages the updated chain engages, followed by " dB/oct". |
| Parameters.ParameterLayout | Source/PluginProcessor.cpp:197-257 | The layout as written declares seven parameters, none of them an on/off switch. |
| Parameters.ParameterLayoutWellFormed | Source/PluginProcessor.cpp:212-250 | The layout has seven parameters with distinct IDs. Every float default lies within its non-empty range with a positive step. Both slope parameters default to the first choice. |
| Parameters.BypassAttachmentsUnresolved | Source/PluginEditor.cpp:679-682 | The four bypass-button IDs are not found in the layout as written, while the seven slider IDs are. |
| Parameters.ParameterLayoutWithBypassWellFormed | Source/PluginProcessor.cpp:197-257 | The layout with four boolean bypass switches appended still has unique IDs and valid defaults. |
| Parameters.EditorAttachmentsResolve | Source/PluginEditor.cpp:663-682 | With the bypass switches declared, every one of the eleven IDs the editor attaches to is found. |
| Analyzer.Roll | Source/PluginEditor.cpp:312-321 | Rolling a block into the buffer keeps its length, moves sample i+k to i for the kept samples, and puts the block's k samples at the tail. |
| Analyzer.RollAllKeepsLatest | Source/PluginEditor.cpp:308-325 | After any number of blocks, each no longer than the buffer, the buffer holds exactly the last N samples of its old contents followed by all the blocks. |
| Analyzer.Produced | Source/PluginEditor.cpp:308-325 | One FFT block is requested per pulled block, computed from the buffer just after that block was rolled in, and floored at −48 dB. |
| Analyzer.PathsForLength | Source/PluginEditor.cpp:335-346 | Each FFT block yields exactly one path, in order: path i is generated from block i with the given bounds, FFT size, bin width and floor −48 dB. |
| Analyzer.ProcessedPath | Source/PluginEditor.cpp:302-355 | When audio blocks were pending, the path left to draw is the one generated from the buffer that holds the last N samples received. When nothing was pending, the previous path stays. |
| Analyzer.PathGenerator.constructor | Source/PluginEditor.cpp:269-270 | A generator starts valid, with a zero-filled buffer of the FFT size and empty FIFO, FFT and path queues. |
| Analyzer.PathGenerator.ShiftIn | Source/PluginEditor.cpp:312-321 | The two in-place copies leave the mono buffer equal to Roll of its old contents and the block. |
| Analyzer.PathGenerator.ShiftLeft | Source/PluginEditor.cpp:314-316 | The shift moves sample j+k to j for every kept sample and leaves the last k samples as they were. The model fixes an ascending copy order for the overlapping ranges. |
| Analyzer.PathGenerator.CopyToTail | Source/PluginEditor.cpp:319-321 | The block's samples land on the buffer's last positions in order; the front is unchanged. |
| Analyzer.PathGenerator.PullOne | Source/PluginEditor.cpp:310-325 | Pulling one block removes the oldest block from the FIFO, rolls it into the buffer and queues one FFT of the new buffer floored at −48 dB. |
| Analyzer.PathGenerator.PullBlocks | Source/PluginEditor.cpp:308-326 | The FIFO ends empty. The buffer has every pulled block rolled in. The FFT queue gains exactly Produced of the old buffer and FIFO. The path state is untouched. |
| Analyzer.PathGenerator.GeneratePaths | Source/PluginEditor.cpp:335-346 | The FFT queue ends empty. Each block it held becomes one path, in order, with the buffer's size as FFT size, the given bin width and floor −48 dB. |
| Analyzer.PathGenerator.TakeLatestPath | Source/PluginEditor.cpp:351-354 | The path queue ends empty. The path kept is the newest one pending, or the previous one when none was pending. |
| Analyzer.PathGenerator.Process | Source/PluginEditor.cpp:302-355 | All three queues end empty. The buffer holds every pulled block. Every pending or new FFT block yields one path with bin width sampleRate / fftSize. The path kept is the newest of those. |
| Chain.CutFilterFor | Source/PluginEditor.cpp:390-395 | A cascade set for a slope has stages 0..slope engaged, each with coefficients designed for that stage, and the other stages bypassed with pass-through coefficients. |
| Chain.UpdatedChain | Source/PluginEditor.cpp:379-396 | After updateChain, the chain's low-cut, high-cut and peak bypass flags equal the snapshot's. |
| Chain.EngagedBelow | Source/PluginEditor.cpp:437-456 | The stage indices the loop multiplies in are exactly those below k whose stage is not bypassed. |
| Chain.ContributingStagesMembers | Source/PluginEditor.cpp:432-457 | The response multiplies in the peak stage exactly when Peak is not bypassed. It multiplies in cut stage i exactly when neither its position nor stage i is bypassed. No stage beyond the fourth exists. |
| Chain.EngagedPrefix | Source/PluginEditor.cpp:390-395 | The engaged stages of a cascade set for a slope are exactly 0..slope, in order. |
| Chain.StagesAfterUpdate | Source/PluginEditor.cpp:379-457 | After updateChain, the contributing stages are the peak stage unless bypassed, then low-cut stages 0..slope and high-cut stages 0..slope unless their cut is bypassed. That makes slope+1 stages per engaged cut. |
| Chain.AllBypassedIsUnity | Source/PluginEditor.cpp:427-457 | With every position bypassed, no stage is multiplied in and the response is the unity start value at every pixel. |
| Response.PixelMagnitude | Source/PluginEditor.cpp:427-457 | One pixel's response equals the product, in order, of the gains of exactly the contributing stages. |
| Response.MultiplyCascade | Source/PluginEditor.cpp:434-457 | One cascade's block of the loop extends the product by exactly that cascade's contributing stages: none when the position is bypassed. |
| Response.MultiplyEngaged | Source/PluginEditor.cpp:437-444 | The four guarded multiplications of a cascade, stage 0 to 3, extend the product by exactly its stages that are not bypassed, in index order. |
| Response.MultiplyStage | Source/PluginEditor.cpp:437-438 | One guarded multiplication multiplies in stage k's gain exactly when stage k is not bypassed. |
| Response.Magnitudes | Source/PluginEditor.cpp:418-461 | One value per pixel of the width. Value i is the product of the contributing stages' gains at pixel i. |
| Response.ResponseCurve.ResponseMagnitudes | Source/PluginEditor.cpp:408-461 | paint computes one value per pixel of the analysis area's width, each the product of the contributing stages' gains of the current chain. |
| Response.ChangesRaiseFlag | Source/PluginEditor.cpp:296-300 | Parameter changes alone never rebuild the chain, and at least one change leaves the flag raised. |
| Response.UpdatesAppend | Source/PluginEditor.cpp:370-374 | A run of events continues from the flag its first part left: rebuild counts add up and the final flag composes. |
| Response.ChangesThenTickUpdateOnce | Source/PluginEditor.cpp:370-374 | Any number (at least one) of changes followed by a tick rebuild the chain exactly once and leave the flag down. |
| Response.IdleTickUpdatesNothing | Source/PluginEditor.cpp:370-374 | A tick with the flag down rebuilds nothing. |
| Response.ChangeIsNotLost | Source/PluginEditor.cpp:296-374 | A change followed at any later point by a tick always causes one more rebuild. |
| Response.UpdatesAtMostTicks | Source/PluginEditor.cpp:370-374 | The chain is never rebuilt more often than the timer ticks. |
| Response.ResponseCurve.constructor | Source/PluginEditor.cpp:267-284 | The component builds its chain once from the snapshot. It starts with the flag down, a value set in a header that is not part of this model. |
| Response.ResponseCurve.ParameterValueChanged | Source/PluginEditor.cpp:296-300 | A parameter change raises the flag and changes nothing else. |
| Response.ResponseCurve.SetFFTAnalysisEnabled | Source/PluginEditor.cpp:744-751 | The analyser is switched to the given state and nothing else changes. The cited lines are the call site; the setter's body is in a header that is not part of this model. |
| Response.ResponseCurve.UpdateChain | Source/PluginEditor.cpp:379-396 | The chain becomes UpdatedChain of the snapshot and sample rate: the bypass flags are copied and the coefficients redesigned. Flag and analyser state are unchanged. |
| Response.ResponseCurve.TimerCallback | Source/PluginEditor.cpp:357-377 | Both path generators run over the analysis area exactly when analysis is enabled; otherwise they are untouched. The chain is rebuilt exactly when the flag was raised. The flag always ends down. |
| Response.ResponseCurve.Run | Source/PluginEditor.cpp:296-377 | Running the listener for each parameter change and the timer callback for each tick leaves the flag at FlagAfter and adds UpdatesDuring rebuilds, so every lemma of the event model holds of the component. After at least one rebuild the chain is the one built from the snapshot; with none it is unchanged. |
| Geometry.RenderArea | Source/PluginEditor.cpp:632-642 | The render area lies within the component. For a component of at least 40×14 it is the bounds less 12 at the top, 2 at the bottom and 20 on each side. A smaller component collapses it to zero width or height. |
| Geometry.AnalysisArea | Source/PluginEditor.cpp:644-652 | The analysis area lies within the render area and has the same x and width, 4 less at top and bottom. For at least 40×22 it is (20, 16, w−40, h−22). |
| Geometry.AnalysisAreaWithinBounds | Source/PluginEditor.cpp:632-652 | The analysis area lies within the component's bounds. |
| Text.NatToStringRoundTrip | Source/PluginEditor.cpp:591 | Reading back the decimal text appended for a whole number gives that number. |
| Text.NatToStringInjective | Source/PluginEditor.cpp:591 | Different whole numbers never get the same decimal text. |
| Grid.Log10Floor | Source/PluginEditor.cpp:575 | `(int)log10(f)` is the k with 10^k ≤ f < 10^(k+1), one less than f's number of decimal digits. |
| Grid.FirstDigit | Source/PluginEditor.cpp:575-576 | `f / 10^digits` truncated is a digit from 1 to 9. |
| Grid.FirstDigitIsLeadingChar | Source/PluginEditor.cpp:574-576 | The digit computed through the logarithm is the first character of f's decimal text. |
| Grid.GridFrequenciesLabellable | Source/PluginEditor.cpp:517-523 | Every grid frequency is a positive whole number of hertz and, above 999 Hz, a whole number of kilohertz. |
| Grid.FrequencyLabel | Source/PluginEditor.cpp:574-594 | A grid frequency is labelled exactly when its decimal text starts with 1, 2, 3 or 5. |
| Grid.FrequencyLabelRoundTrip | Source/PluginEditor.cpp:584-594 | A frequency label reads back as its frequency in hertz. It contains a "k" exactly when the frequency is above 999 Hz. |
| Grid.GainLabel | Source/PluginEditor.cpp:614-617 | A gain label starts with "+" exactly when the gain is positive, and with "-" exactly when it is negative. |
| Grid.GainLabelRoundTrip | Source/PluginEditor.cpp:614-617 | Every gain label reads back as its gain. |
| Grid.GridGainLabels | Source/PluginEditor.cpp:549-552 | The five gain lines are labelled "-24", "-12", "0", "+12", "+24". |
| EditorControls.Editor.constructor | Source/PluginEditor.cpp:658-756 | The editor holds the given response curve; all four buttons start off and every slider enabled, so each band's controls agree with its button. |
| EditorControls.Editor.LowCutBypassClicked | Source/PluginEditor.cpp:715-723 | Both low-cut sliders become enabled exactly when the low-cut button is off. Every other slider and button is unchanged. |
| EditorControls.Editor.HighCutBypassClicked | Source/PluginEditor.cpp:724-732 | Both high-cut sliders become enabled exactly when the high-cut button is off. Every other slider and button is unchanged. |
| EditorControls.Editor.PeakBypassClicked | Source/PluginEditor.cpp:733-742 | The three peak sliders become enabled exactly when the peak button is off. Every other slider and button is unchanged. |
| EditorControls.Editor.AnalyzerBypassClicked | Source/PluginEditor.cpp:744-751 | The analyser becomes enabled exactly when its button is on, the opposite sense of the band buttons. Flag, chain and size are unchanged. |

## Left out

- Drawing is not modelled: colours, fonts, the background image, path stroking, the look-and-feel classes and `RotarySliderWithLabels`. It is graphics-library output with no state of its own.
- Floating point is modelled as exact `real`.
- The magnitudes' conversion to decibels, `getMagnitudeForFrequency`, the log-frequency mapping of a pixel and the `jmap` pixel mapping are not modelled. A stage's gain at a pixel is an uninterpreted function.
- Filter design and processing are not part of this model: the coefficient factories, `updateCutFilter`, `getChainSettings`, `chain.prepare` and `chain.process`. They live in headers and the framework. They appear as a settings snapshot, coefficient records and caller-supplied functions.
- The FIFO, the FFT data generator and `generatePath` are not part of this model. They appear as `seq` queues and records of their inputs.
- Analyzer.PathGenerator.PullBlocks: every pull from a non-empty FIFO is taken to succeed. A failed `getAudioBuffer` is not modelled.
- Analyzer.PathGenerator.PullBlocks: the FIFO's shared storage with the processor is not modelled. The FIFO is a field of the generator.
- Analyzer.PathGenerator.constructor: the generator's defaults come from a header that is not part of this model. The model starts it with a zero-filled buffer of the FFT size and empty queues.
- Analyzer.PathGenerator.ShiftLeft: the source shifts with a framework block copy whose order on overlapping ranges is not guaranteed; the model fixes an ascending copy, which gives the intended left shift.
- Analyzer.PathGenerator.Valid: a FIFO block longer than the mono buffer is excluded (BlocksFit). For such a block the source's first copy would be given a negative count (Source/PluginEditor.cpp:316).
- Response.ResponseCurve.TimerCallback: the atomic compare-and-set is a plain boolean test and reset. There are no interleavings of the audio and message threads.
- Response.ResponseCurve.TimerCallback: `repaint` is not modelled.
- Response.ResponseCurve.constructor: listener registration, the listener removal in the destructor and `startTimerHz` are not modelled.
- Response.ResponseCurve.constructor: whether analysis starts enabled is set in a header. It is a constructor argument here.
- Response.ResponseCurve.constructor: the flag's initial value is set in a header that is not part of this model. The model starts it down.
- Response.ResponseCurve.SetFFTAnalysisEnabled: the setter's body is in a header that is not part of this model. The model takes it to assign the flag and nothing else.
- Response.ResponseCurve.Run: the processor reports one settings snapshot and sample rate for the whole run. Changing settings between ticks is stated one tick at a time by TimerCallback.
- Response.Magnitudes: computes the products of stage gains, not the decibel values the source stores.
- The `paint` read of `magnitudes.front()` on a zero-width area is not modelled, since it is part of drawing.
- Text.NatToStringRoundTrip: grid labels are whole numbers here. The float-to-text formatting of the framework is not modelled, and the kHz label is stated only for whole kilohertz, which every grid frequency is.
- Grid.Log10Floor: `log10` and `pow` are taken to be exact on the grid's powers of ten.
- The editor's `resized` layout of sliders and buttons is not modelled. It uses ratio-based float sizes and sets only component bounds.
- EditorControls.Editor.constructor: the slider label text and the look-and-feel setup are not modelled. The buttons' and sliders' starting states are the framework's defaults (a button starts off, a slider enabled), not code in this file.
- EditorControls.Editor.LowCutBypassClicked: the safe-pointer check for a deleted editor is not modelled. The editor always exists.
- The processor's host boilerplate is not modelled: name, MIDI flags, programs, tail length, state save and restore, `createEditor`, `createPluginFilter`, `releaseResources` and `ScopedNoDenormals`.
- Processor.AudioProcessor.ProcessBlock: the chains' coefficients are not refreshed in processBlock, because the source does not refresh them there.
- Processor.AudioProcessor.ProcessBlock: MIDI is ignored.
- The parameter layout follows the code: seven parameters, with no bypass switches. The four bypass switches the editor and the settings snapshot expect appear only in the corrected layout.

## Findings

| source | as written | input that shows it | evidently intended | confidence | as-written member | corrected member |
|---|---|---|---|---|---|---|
| Source/PluginProcessor.cpp:125-160 | An effect build accepts the mono→mono layout, but processBlock always takes channel 1. | Buses layout mono in, mono out: the buffer has one channel, and channel 1 does not exist. | Run the right chain only when the buffer has a second channel. | not executed | Processor.MonoLayoutBreaksProcessBlock | Processor.AudioProcessor.ProcessBlockGuarded |
| Source/PluginEditor.cpp:679-682 | The editor attaches its four bypass buttons to IDs "LowCut_Bypass", "HighCut_Bypass", "Peak_Bypass" and "Analyzer_Bypass". createParameterLayout never declares them. | Building the editor: looking up "LowCut_Bypass" in the layout finds nothing. Latent as shipped: createEditor returns the framework's generic editor instead (Source/PluginProcessor.cpp:177-181), so this editor is never built. | Declare four boolean bypass parameters next to the seven others. | not executed | Parameters.BypassAttachmentsUnresolved | Parameters.EditorAttachmentsResolve |
