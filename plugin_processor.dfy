/** The audio callback's use of the buffer manager: every block is first recorded
    and then, while playing, has the played-back samples mixed onto it. */
module PluginProcessorModel {
  import opened RingSpec
  import opened BufferManagerModel

  /** One audio callback on the block `buffer`: record it, then play back onto it.
      The store takes the block at the write cursor, the block gets the samples
      staged from the read cursor of the store AS JUST WRITTEN, and each cursor
      advances only while its flag is on. When recording and playing with both
      cursors on the same frame, the block read back is the block just written,
      so every sample comes out doubled and the two cursors stay together. */
  method ProcessBlock(manager: BufferManager, buffer: array2<int>)
    requires manager.Valid() && buffer != manager.recordBuffer
    requires manager.ready && manager.bufferState.isRecording ==>
      buffer.Length0 <= manager.recordBuffer.Length0 &&
      manager.bufferState.writePosition + buffer.Length1 <= 2 * manager.recordBuffer.Length1
    requires manager.ready && manager.bufferState.isPlaying ==>
      buffer.Length0 <= manager.recordBuffer.Length0 &&
      0 <= manager.bufferState.readPosition <= manager.recordBuffer.Length1 &&
      manager.bufferState.readPosition + buffer.Length1 <= 2 * manager.recordBuffer.Length1
    modifies manager, manager.recordBuffer, buffer
    ensures manager.Valid()
    ensures manager.recordBuffer == old(manager.recordBuffer) && manager.ready == old(manager.ready)
    ensures manager.bufferLength == old(manager.bufferLength)
    ensures manager.bufferParameters == old(manager.bufferParameters)
    ensures old(manager.ready && manager.bufferState.isRecording) ==>
      Rows(manager.recordBuffer) ==
        WriteFrames(old(Rows(manager.recordBuffer)), old(manager.bufferState.writePosition), old(Rows(buffer)))
    ensures !old(manager.ready && manager.bufferState.isRecording) ==> unchanged(manager.recordBuffer)
    ensures old(manager.ready && manager.bufferState.isPlaying) ==>
      forall c, i :: 0 <= c < buffer.Length0 && 0 <= i < buffer.Length1 ==>
        buffer[c, i] == old(buffer[c, i]) +
          ReadFrames(Rows(manager.recordBuffer), old(manager.bufferState.readPosition),
                     buffer.Length0, buffer.Length1)[c][i]
    ensures !old(manager.ready && manager.bufferState.isPlaying) ==> unchanged(buffer)
    ensures manager.bufferState == old(manager.bufferState).(
      writePosition :=
        if old(manager.ready && manager.bufferState.isRecording)
        then Advance(old(manager.bufferState.writePosition), buffer.Length1, manager.recordBuffer.Length1)
        else old(manager.bufferState.writePosition),
      readPosition :=
        if old(manager.ready && manager.bufferState.isPlaying)
        then Advance(old(manager.bufferState.readPosition), buffer.Length1, manager.recordBuffer.Length1)
        else old(manager.bufferState.readPosition))
    ensures old(manager.ready && manager.bufferState.isRecording && manager.bufferState.isPlaying &&
                manager.bufferState.readPosition == manager.bufferState.writePosition) &&
            buffer.Length1 <= manager.recordBuffer.Length1 ==>
      (forall c, i :: 0 <= c < buffer.Length0 && 0 <= i < buffer.Length1 ==>
        buffer[c, i] == 2 * old(buffer[c, i])) &&
      manager.bufferState.readPosition == manager.bufferState.writePosition
  {
    ghost var block := Rows(buffer);
    ghost var stored := Rows(manager.recordBuffer);
    ghost var position := manager.bufferState.writePosition;
    ghost var echo := manager.ready && manager.bufferState.isRecording && manager.bufferState.isPlaying &&
                      manager.bufferState.readPosition == position &&
                      buffer.Length1 <= manager.recordBuffer.Length1;
    manager.WriteToBuffer(buffer);
    assert Rows(buffer) == block;
    if echo {
      ReadAfterWriteFrames(stored, manager.recordBuffer.Length1, position, block, buffer.Length1);
    }
    manager.ReadFromBuffer(buffer);
  }
}
