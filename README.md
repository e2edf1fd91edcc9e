# ReSampler buffer manager, modelled in Dafny

ReSampler is an audio plug-in. It records everything it hears into a circular
buffer, so that the last 15 s to 5 min of audio is always there to look at and
export. This project models the plug-in's `BufferManager` and proves
properties of it.

`BufferManager` owns a multichannel sample store of `bufferLength × sampleRate`
frames per channel. It keeps two flags, `isRecording` and `isPlaying`, and two
cursors, `writePosition` and `readPosition`. The audio callback makes two calls
on every block:

- `writeToBuffer` copies the block into the ring at the write cursor.
- `readFromBuffer` stages as many samples from the read cursor and adds them
  onto the block.

When a copy runs past the end of the ring, it is split in two: a tail segment
`[pos, cap)` and a head segment `[0, overlap)`. `setBufferLength` reallocates
the store and clears it. `initializeBuffer` stores the host's channel count and
sample rate, then sizes the store from a persisted length, or 30 s when none
was persisted.

Files:

- `ring_spec.dfy`, module `RingSpec`: the meaning of the ring on values. A
  channel is a `seq<int>`. The module defines how a cursor advances (`Advance`),
  which frame a sample occupies (`Slot`), a frame-by-frame reference definition
  of a write (`WriteChannel`, `WriteFrames`) and the samples a read stages
  (`ReadChannel`, `ReadFrames`). Its lemmas cover where samples land, what a
  write leaves alone, the write→read round trip and reading history back in
  time order.
- `buffer_manager.dfy`, module `BufferManagerModel`: the class `BufferManager`.
  The store is an `array2<int>` indexed `[channel, frame]`. A `ready` flag
  stands for "the store pointer is non-null". `CopyFrom` and `AddFrom` give the
  element-wise effect of the audio-buffer copy and add primitives. The write
  and read methods keep the code's own branches and per-channel loops. Each
  method's `ensures` ties the new store and cursors to the `RingSpec`
  functions.
- `plugin_processor.dfy`, module `PluginProcessorModel`: the callback's
  "write, then read" on the same block.
- `buffer_scenarios.dfy`, module `BufferScenarios`: concrete runs on a 4-frame
  ring and on the default 2 × 44100 Hz × 30 s session.

Samples are exact integers. The additive mix is therefore exact, and a sample
read back equals the sample written.

### Behaviour kept as the code has it

- **The write cursor can rest on the capacity.** A write that does not wrap
  and ends exactly on the end of the ring leaves the cursor at `cap`, not at 0
  (`BufferManager.cpp:85`). The next write then takes the wrapping branch with
  a tail segment of length 0. The cursor invariant is `0 <= writePosition <= cap`,
  and `Advance` returns `cap` exactly when `pos + n` is `cap` or `2·cap`.
- **What a block must satisfy.** The code never compares a block's length with
  the capacity. It only needs the head segment to fit: `overlap <= cap`, that
  is `pos + n <= 2·cap`. The model requires exactly that and no more. A block
  longer than the ring is therefore allowed when its head still fits, and its
  later samples overwrite earlier ones: `[1,2,3,4,5]` into an empty 4-frame
  ring gives `[5,2,3,4]`, with the cursor at 1 (`OneBlockExample`,
  `OneBlockRecording`). The round-trip properties are stated for
  `n <= cap`.
- **Resizing.** `setBufferLength` does not check `length`, so the model
  requires `length > 0`. It:
  - resets only `writePosition`, and only when a store already existed;
  - never touches `readPosition`.

  A first allocation leaves the write cursor where it is. It is provably
  already 0 then, because writes are inert before any store exists. So every
  resize ends with `writePosition == 0`.
- **The read cursor after a shrink.** After a shrink, `readPosition` can lie
  beyond the new capacity. `readFromBuffer` would then copy a negative count.
  The read therefore requires `0 <= readPosition <= cap`. It also requires
  `readPosition + n <= 2·cap` and no more channels in the block than in the
  store. All of these apply only when the read actually runs.

## Model

| member | source | states |
|---|---|---|
| RingSpec.Advance | Source/BufferManager.cpp:69-86 | the cursor after a block of `n` samples from `pos` stays in `[0, cap]` and equals `cap` exactly when the block ends on the end of the ring (`pos + n` is `cap` or `2·cap`) |
| RingSpec.AdvanceIsModular | Source/BufferManager.cpp:69-86 | the new cursor is `(pos + n) mod cap` or `cap`, and is always congruent to `pos + n` modulo `cap` |
| RingSpec.Slot | Source/BufferManager.cpp:74-75 | sample `i` of a block that starts at `pos` lands on a frame inside the ring, `[0, cap)` |
| RingSpec.SlotIsModular | Source/BufferManager.cpp:74-75 | that frame is `(pos + i) mod cap`, the same for the tail/head split and for a contiguous copy |
| RingSpec.Distance | Source/BufferManager.cpp:69-86 | the number of samples after `pos` at which the cursor reaches frame `j` is below `cap`, and `Slot` maps it back to `j` (it is `Slot`'s inverse) |
| RingSpec.WriteChannel | Source/BufferManager.cpp:69-86 | a write into one channel keeps that channel's length; what it puts where is stated by the lemmas below |
| RingSpec.ReadChannel | Source/BufferManager.cpp:99-116 | a read stages exactly `n` samples per channel |
| RingSpec.WriteChannelLands | Source/BufferManager.cpp:72-77 | after a write, frame `Slot(pos, i)` holds sample `i` of the block, for every sample that no later sample of the same block overwrites |
| RingSpec.WriteChannelKeeps | Source/BufferManager.cpp:72-76 | a write leaves every frame `|block|` or more samples after `pos` unchanged |
| RingSpec.WriteChannelContiguous | Source/BufferManager.cpp:79-86 | a write that does not run past the end puts the block at `[pos, pos+n)` and leaves `[0, pos)` and `[pos+n, cap)` unchanged |
| RingSpec.WriteChannelWrapped | Source/BufferManager.cpp:69-78 | a wrapping write puts the first `cap − pos` samples on the tail `[pos, cap)` and the remaining `overlap` samples on the head `[0, overlap)`, and leaves `[overlap, pos)` unchanged |
| RingSpec.ReadAfterWrite | Source/BufferManager.cpp:60-121 | reading `n <= cap` samples from where a block was just written gives back exactly that block, wrapped or not |
| RingSpec.HistoryInTimeOrder | Source/BufferManager.cpp:60-121 | after a write, reading the whole ring from the new write cursor gives the oldest surviving samples, then the block just written, in time order |
| RingSpec.WriteFrames | Source/BufferManager.cpp:72-84 | a multichannel write keeps the channel count and every channel's length |
| RingSpec.ReadFrames | Source/BufferManager.cpp:102-114 | the staging block has the output block's channel count and `n` samples in each channel |
| RingSpec.WriteFramesFootprint | Source/BufferManager.cpp:72-84 | a multichannel write changes nothing on channels at or beyond the block's channel count, and nothing outside the written cyclic range |
| RingSpec.ReadAfterWriteFrames | Source/BufferManager.cpp:60-121 | the multichannel round trip: reading back a just-written block of `n <= cap` samples per channel returns the block |
| RingSpec.SuccessiveWritesExample | Source/BufferManager.cpp:69-86 | in a 4-frame ring, writing `[1,2,3,4]` from 0 fills it and leaves the cursor at 4; then writing `[5]` gives `[5,2,3,4]` with the cursor at 1 |
| RingSpec.OneBlockExample | Source/BufferManager.cpp:69-116 | writing `[1,2,3,4,5]` from 0 into 4 frames gives `[5,2,3,4]` with the cursor at 1; reading 4 from 0 stages `[5,2,3,4]` and leaves the cursor at 4 |
| BufferManagerModel.CopyFrom | Source/BufferManager.cpp:74-75 | copying a range of one channel changes exactly that range of the destination channel, to the source samples; all other samples are unchanged |
| BufferManagerModel.AddFrom | Source/BufferManager.cpp:120 | adding at unity gain changes exactly the first `n` samples of one channel, each to old value plus staged value |
| BufferManagerModel.BufferManager.constructor | Source/BufferManager.h:14-26 | a fresh manager has 2 channels, 44100 Hz and length 30; it is recording, not playing, with both cursors at 0, and has no store yet |
| BufferManagerModel.BufferManager.GetBufferLength | Source/BufferManager.h:36 | the length is positive, and an allocated store has `length × sampleRate` frames |
| BufferManagerModel.BufferManager.GetBufferSampleRate | Source/BufferManager.h:37 | the sample rate is positive and sizes the allocated store |
| BufferManagerModel.BufferManager.GetBufferPointer | Source/BufferManager.h:38 | there is a store exactly after the first resize; it has one row per channel and `length × sampleRate` frames |
| BufferManagerModel.BufferManager.InitializeBuffer | Source/BufferManager.cpp:21-40 | stores the channel count and sample rate, then sizes the store from the persisted length, or 30 when none is persisted; the result is a zero-filled store, write cursor 0, other state unchanged |
| BufferManagerModel.BufferManager.SetBufferLength | Source/BufferManager.cpp:42-58 | records the length; allocates `numChannels × (length × sampleRate)` zero samples; resets the write cursor only when a store existed (it ends at 0 either way); leaves the read cursor, flags and parameters alone |
| BufferManagerModel.BufferManager.WriteToBuffer | Source/BufferManager.cpp:60-87 | with no store, or with recording off: the store and every cursor are unchanged; otherwise the store becomes `WriteFrames(old store, wp, block)` and the cursor becomes `Advance(wp, n, cap)`; the object invariant, including `0 <= wp <= cap`, is kept |
| BufferManagerModel.BufferManager.ReadFromBuffer | Source/BufferManager.cpp:89-122 | with no store, or with playing off: the block and the cursors are unchanged; otherwise every output sample becomes old value plus the staged sample `ReadFrames(store, rp, channels, n)[c][i]` (which is `store[c, (rp + i) mod cap]`), the read cursor becomes `Advance(rp, n, cap)` and the store is not modified |
| PluginProcessorModel.ProcessBlock | Source/PluginProcessor.cpp:152-153 | record then play back on the same block: while recording, the store becomes `WriteFrames(old store, wp, block)` (otherwise it is unchanged); while playing, every output sample becomes old value plus `ReadFrames(new store, rp, channels, n)`, so playback sees the block just recorded (otherwise the block is unchanged); each cursor advances by `Advance` exactly when its flag is on; length, parameters and store identity are unchanged; when recording and playing from the write cursor with `n <= cap`, every sample comes out doubled and the cursors stay together |
| BufferScenarios.SuccessiveWritesScenario | Source/BufferManager.cpp:60-87 | through the class, on a 1-channel, 4 Hz, 1 s store: `[1,2,3,4]` then `[5]` give `[5,2,3,4]`; the cursor is at 4 in between and at 1 after |
| BufferScenarios.OneBlockRecording | Source/BufferManager.cpp:60-87 | through the class: `[1,2,3,4,5]` in one block gives store `[5,2,3,4]` and write cursor 1 |
| BufferScenarios.OneBlockPlaybackScenario | Source/BufferManager.cpp:89-122 | then playing 4 samples from 0 onto a block of 10s gives `[15,12,13,14]` and read cursor 4 |
| BufferScenarios.DefaultSessionScenario | Source/BufferManager.cpp:21-40 | 2 channels at 44100 Hz with nothing persisted give 30 s, i.e. 2 × 1,323,000 frames, with write cursor 0 |
| BufferScenarios.InertWriteScenario | Source/BufferManager.cpp:63-64 | a write before the first resize, or while recording is off, leaves the write cursor at 0 and every frame of both channels of the 2 × 8 store at 0 |
| BufferScenarios.RecordThenReplay | Source/BufferManager.cpp:60-122 | through the class: recording a block of `n <= cap` samples while the read cursor is on the write cursor, then playing back onto a separate output block, adds exactly the recorded samples onto the output, and the cursors end together |

## Left out

- Locking: `bufferLock` and the scoped locks in `setBufferLength`, `writeToBuffer` and `readFromBuffer` exist to serialise the audio and UI threads. Every operation is modelled as one sequential, atomic method call.
- Settings file: `initializeBuffer` reads the persisted length from a settings file. That is I/O, so it becomes the `persistedLength: Option<int>` argument, and the model requires a persisted value to be positive.
- Floating point: samples are `float` and the mix uses gain `1.0f`. The model uses exact integers.
- Store identity on resize: the audio buffer's `setSize` resizes the SAME store object in place. The model allocates a fresh array on every resize, so it does not capture that a caller holding the old store pointer (the waveform display) sees the resized store.
- 32-bit arithmetic: `bufferLength * sampleRate` and the cursor sums are `int` in the code. The model does not model overflow; the menu's lengths (at most 300 s) keep them far from it at usual rates.
- The rest of the audio callback: `processBlock` clears the output channels that have no input channel (`PluginProcessor.cpp:143-144`); that step is not modelled. The rest of `PluginProcessor.cpp` is host boilerplate.
- The editor: `PluginEditor.cpp`/`PluginEditor.h` are user interface (painting, themes, menus, file chooser, settings persistence, waveform display, mouse selection) and are not part of this model. That includes how the UI toggles `isRecording`. The model exposes `bufferState` as a public field, as the code does.
- Export: the editor only chooses a folder to save recordings in (`PluginEditor.cpp:388-395`); writing a selection to a file is not part of this model.
- Callers' obligations: the code does not check these conditions, and the model requires them instead of inventing error paths:
  - a positive length and sample rate;
  - a non-negative channel count;
  - blocks with no more channels than the store;
  - a head segment that fits (`pos + n <= 2·cap`);
  - a read cursor within the capacity.
