/** Concrete runs of the buffer manager, as a client sees them. */
module BufferScenarios {
  import opened RingSpec
  import opened BufferManagerModel

  /** One channel at 4 samples per second, one second long: a ring of 4 frames.
      Writing `[1, 2, 3, 4]` ends exactly on the capacity and leaves the write
      cursor AT 4; writing `[5]` next wraps it to frame 0 and the cursor to 1. */
  method SuccessiveWritesScenario() returns (contents: seq<int>, middle: int, final: int)
    ensures contents == [5, 2, 3, 4]
    ensures middle == 4 && final == 1
  {
    SuccessiveWritesExample();
    var manager := new BufferManager();
    manager.InitializeBuffer(1, 4, Some(1));
    assert Rows(manager.recordBuffer)[0] == [0, 0, 0, 0];
    var first := new int[1, 4]((c, i) => i + 1);
    assert Rows(first)[0] == [1, 2, 3, 4];
    manager.WriteToBuffer(first);
    middle := manager.bufferState.writePosition;
    var second := new int[1, 1]((c, i) => 5);
    assert Rows(second)[0] == [5];
    manager.WriteToBuffer(second);
    final := manager.bufferState.writePosition;
    contents := Rows(manager.recordBuffer)[0];
  }

  /** The same ring, recording `[1, 2, 3, 4, 5]` in ONE block: the block is
      longer than the ring but its head segment still fits, so the fifth sample
      overwrites the first and the write cursor ends at 1. */
  method OneBlockRecording() returns (manager: BufferManager)
    ensures fresh(manager) && fresh(manager.recordBuffer) && manager.Valid() && manager.ready
    ensures manager.recordBuffer.Length0 == 1 && manager.recordBuffer.Length1 == 4
    ensures manager.recordBuffer[0, 0] == 5 && manager.recordBuffer[0, 1] == 2
    ensures manager.recordBuffer[0, 2] == 3 && manager.recordBuffer[0, 3] == 4
    ensures manager.bufferState == BufferState(true, false, 1, 0)
  {
    OneBlockExample();
    manager := new BufferManager();
    manager.InitializeBuffer(1, 4, Some(1));
    ghost var silent := Rows(manager.recordBuffer);
    assert silent[0] == [0, 0, 0, 0];
    var block := new int[1, 5]((c, i) => i + 1);
    ghost var samples := Rows(block);
    assert samples[0] == [1, 2, 3, 4, 5];
    manager.WriteToBuffer(block);
    var ring := manager.recordBuffer;
    ghost var contents := Rows(ring)[0];
    assert Rows(ring) == WriteFrames(silent, 0, samples);
    assert contents == WriteChannel(silent[0], 0, samples[0]);
    assert ring[0, 0] == contents[0] && ring[0, 1] == contents[1];
    assert ring[0, 2] == contents[2] && ring[0, 3] == contents[3];
  }

  /** Playing back 4 samples from frame 0 of that ring onto an output block
      holding 10s adds `[5, 2, 3, 4]` to it and leaves the read cursor on the
      capacity. */
  method OneBlockPlaybackScenario() returns (contents: seq<int>, writePosition: int, output: seq<int>, readPosition: int)
    ensures contents == [5, 2, 3, 4] && writePosition == 1
    ensures output == [15, 12, 13, 14] && readPosition == 4
  {
    var manager := OneBlockRecording();
    var ring := manager.recordBuffer;
    contents := [ring[0, 0], ring[0, 1], ring[0, 2], ring[0, 3]];
    writePosition := manager.bufferState.writePosition;
    manager.bufferState := manager.bufferState.(isPlaying := true);
    var out := new int[1, 4]((c, i) => 10);
    manager.ReadFromBuffer(out);
    readPosition := manager.bufferState.readPosition;
    assert Slot(0, 1, 4) == 1 && Slot(0, 2, 4) == 2 && Slot(0, 3, 4) == 3;
    output := [out[0, 0], out[0, 1], out[0, 2], out[0, 3]];
  }

  /** The default session: 2 channels at 44100 Hz and no persisted length give
      30 seconds, i.e. 1,323,000 silent frames per channel. */
  method DefaultSessionScenario() returns (channels: int, frames: int, writePosition: int, lengthSeconds: int)
    ensures channels == 2 && frames == 1323000 && writePosition == 0 && lengthSeconds == 30
  {
    var manager := new BufferManager();
    manager.InitializeBuffer(2, 44100, None);
    channels, frames := manager.recordBuffer.Length0, manager.recordBuffer.Length1;
    writePosition := manager.bufferState.writePosition;
    lengthSeconds := manager.GetBufferLength();
  }

  /** Before any store exists, and while recording is paused, a write changes
      nothing: the cursor stays where it was and every frame of the 2 x 8 store
      stays silent. */
  method InertWriteScenario() returns (beforeInit: int, whilePaused: int, paused: seq<seq<int>>)
    ensures beforeInit == 0 && whilePaused == 0
    ensures |paused| == 2 && forall c :: 0 <= c < 2 ==> |paused[c]| == 8
    ensures forall c, j :: 0 <= c < 2 && 0 <= j < 8 ==> paused[c][j] == 0
  {
    var manager := new BufferManager();
    var block := new int[2, 8]((c, i) => 7);
    manager.WriteToBuffer(block);
    beforeInit := manager.bufferState.writePosition;
    manager.InitializeBuffer(2, 4, Some(2));
    manager.bufferState := manager.bufferState.(isRecording := false);
    manager.WriteToBuffer(block);
    whilePaused := manager.bufferState.writePosition;
    paused := Rows(manager.recordBuffer);
  }

  /** Round trip through the class: a block recorded while the read cursor sits on
      the write cursor is what the next playback adds onto a separate output
      block, sample for sample, whether or not the write wrapped. */
  method RecordThenReplay(manager: BufferManager, block: array2<int>, out: array2<int>)
    requires manager.Valid() && manager.ready
    requires manager.bufferState.isRecording && manager.bufferState.isPlaying
    requires manager.bufferState.readPosition == manager.bufferState.writePosition
    requires block != manager.recordBuffer && out != manager.recordBuffer && out != block
    requires block.Length0 == out.Length0 <= manager.recordBuffer.Length0
    requires block.Length1 == out.Length1 <= manager.recordBuffer.Length1
    modifies manager, manager.recordBuffer, out
    ensures manager.Valid()
    ensures forall c, i :: 0 <= c < out.Length0 && 0 <= i < out.Length1 ==>
      out[c, i] == old(out[c, i]) + block[c, i]
    ensures manager.bufferState.readPosition == manager.bufferState.writePosition
  {
    ghost var stored := Rows(manager.recordBuffer);
    ghost var samples := Rows(block);
    ghost var position := manager.bufferState.writePosition;
    manager.WriteToBuffer(block);
    ReadAfterWriteFrames(stored, manager.recordBuffer.Length1, position, samples, block.Length1);
    manager.ReadFromBuffer(out);
  }
}
