/** The recorder's buffer manager: a multichannel circular store that the audio
    callback writes every block into and, while playing, reads back from and mixes
    onto its output. Samples are exact integers; the store is an `array2<int>`
    indexed `[channel, frame]`. */
module BufferManagerModel {
  import opened RingSpec

  datatype Option<T> = None | Some(value: T)

  /** Channel count and sample rate the store is sized for. */
  datatype BufferParameters = BufferParameters(numChannels: int, sampleRate: int)

  /** Transport flags and the two cursors. */
  datatype BufferState = BufferState(isRecording: bool, isPlaying: bool, writePosition: int, readPosition: int)

  const DefaultParameters := BufferParameters(2, 44100)
  const DefaultState := BufferState(true, false, 0, 0)
  const DefaultBufferLength := 30

  /** The store as one sequence of samples per channel. */
  function Rows(a: array2<int>): (rows: seq<seq<int>>)
    reads a
    ensures |rows| == a.Length0
    ensures forall c :: 0 <= c < a.Length0 ==> |rows[c]| == a.Length1
  {
    seq(a.Length0, c requires 0 <= c < a.Length0 reads a =>
      seq(a.Length1, j requires 0 <= j < a.Length1 reads a => a[c, j]))
  }

  /** Element-wise effect of copying `numSamples` samples of one channel of
      `source` into one channel of `dest`. */
  method CopyFrom(dest: array2<int>, destChannel: int, destStart: int,
                  source: array2<int>, sourceChannel: int, sourceStart: int, numSamples: int)
    requires dest != source
    requires 0 <= destChannel < dest.Length0 && 0 <= sourceChannel < source.Length0
    requires 0 <= numSamples && 0 <= destStart && destStart + numSamples <= dest.Length1
    requires 0 <= sourceStart && sourceStart + numSamples <= source.Length1
    modifies dest
    ensures forall c, j :: 0 <= c < dest.Length0 && 0 <= j < dest.Length1 ==>
      dest[c, j] == if c == destChannel && destStart <= j < destStart + numSamples
                    then source[sourceChannel, sourceStart + j - destStart]
                    else old(dest[c, j])
  {
    var k := 0;
    while k < numSamples
      invariant 0 <= k <= numSamples
      invariant forall c, j :: 0 <= c < dest.Length0 && 0 <= j < dest.Length1 ==>
        dest[c, j] == if c == destChannel && destStart <= j < destStart + k
                      then source[sourceChannel, sourceStart + j - destStart]
                      else old(dest[c, j])
    {
      dest[destChannel, destStart + k] := source[sourceChannel, sourceStart + k];
      k := k + 1;
    }
  }

  /** Element-wise effect of adding the first `numSamples` samples of one channel
      of `source` onto the same frames of one channel of `dest`, at unity gain. */
  method AddFrom(dest: array2<int>, destChannel: int, source: array2<int>, sourceChannel: int, numSamples: int)
    requires dest != source
    requires 0 <= destChannel < dest.Length0 && 0 <= sourceChannel < source.Length0
    requires 0 <= numSamples <= dest.Length1 && numSamples <= source.Length1
    modifies dest
    ensures forall c, j :: 0 <= c < dest.Length0 && 0 <= j < dest.Length1 ==>
      dest[c, j] == if c == destChannel && j < numSamples
                    then old(dest[c, j]) + source[sourceChannel, j]
                    else old(dest[c, j])
  {
    var k := 0;
    while k < numSamples
      invariant 0 <= k <= numSamples
      invariant forall c, j :: 0 <= c < dest.Length0 && 0 <= j < dest.Length1 ==>
        dest[c, j] == if c == destChannel && j < k
                      then old(dest[c, j]) + source[sourceChannel, j]
                      else old(dest[c, j])
    {
      dest[destChannel, k] := dest[destChannel, k] + source[sourceChannel, k];
      k := k + 1;
    }
  }

  class BufferManager {
    var bufferState: BufferState
    var bufferLength: int
    var bufferParameters: BufferParameters
    /** Whether the store has been allocated (the source's non-null buffer pointer). */
    var ready: bool
    var recordBuffer: array2<int>

    /** What holds between calls, even while the parameters have just been
        replaced and the store not yet resized to them. */
    ghost predicate Coherent()
      reads this
    {
      bufferParameters.numChannels >= 0 && bufferParameters.sampleRate > 0 && bufferLength > 0 &&
      (!ready ==> recordBuffer.Length0 == 0 && recordBuffer.Length1 == 0) &&
      0 <= bufferState.writePosition <= recordBuffer.Length1
    }

    /** Object invariant: an allocated store has one row per channel and
        `bufferLength * sampleRate` frames per row; the write cursor lies in
        `[0, capacity]` (it may rest ON the capacity). */
    ghost predicate Valid()
      reads this
    {
      Coherent() &&
      (ready ==> recordBuffer.Length0 == bufferParameters.numChannels &&
                 recordBuffer.Length1 == bufferLength * bufferParameters.sampleRate)
    }

    /** A fresh manager: default parameters, length and state; no store yet. */
    constructor ()
      ensures Valid() && !ready && fresh(recordBuffer)
      ensures bufferParameters.numChannels == 2 && bufferParameters.sampleRate == 44100
      ensures bufferLength == 30
      ensures bufferState.isRecording && !bufferState.isPlaying
      ensures bufferState.writePosition == 0 && bufferState.readPosition == 0
    {
      bufferState := DefaultState;
      bufferLength := DefaultBufferLength;
      bufferParameters := DefaultParameters;
      ready := false;
      recordBuffer := new int[0, 0];
    }

    /** The length in seconds last set. */
    function GetBufferLength(): (r: int)
      reads this
      requires Valid()
      ensures r > 0
      ensures ready ==> recordBuffer.Length1 == r * bufferParameters.sampleRate
    {
      bufferLength
    }

    /** The sample rate the store is sized for. */
    function GetBufferSampleRate(): (r: int)
      reads this
      requires Valid()
      ensures r > 0
      ensures ready ==> recordBuffer.Length1 == bufferLength * r
    {
      bufferParameters.sampleRate
    }

    /** The store, or nothing before the first `SetBufferLength`. */
    function GetBufferPointer(): (p: Option<array2<int>>)
      reads this
      requires Valid()
      ensures p.Some? <==> ready
      ensures p.Some? ==> p.value.Length0 == bufferParameters.numChannels &&
                          p.value.Length1 == GetBufferLength() * GetBufferSampleRate()
    {
      if ready then Some(recordBuffer) else None
    }

    /** Stores the parameters, then sizes the store from the persisted length, or
        from 30 seconds when none was persisted. */
    method InitializeBuffer(numChannels: int, sampleRate: int, persistedLength: Option<int>)
      requires Coherent()
      requires numChannels >= 0 && sampleRate > 0
      requires persistedLength.Some? ==> persistedLength.value > 0
      modifies this
      ensures Valid() && ready
      ensures bufferParameters == BufferParameters(numChannels, sampleRate)
      ensures bufferLength == if persistedLength.Some? then persistedLength.value else DefaultBufferLength
      ensures fresh(recordBuffer)
      ensures recordBuffer.Length0 == numChannels && recordBuffer.Length1 == bufferLength * sampleRate
      ensures forall c, j :: 0 <= c < recordBuffer.Length0 && 0 <= j < recordBuffer.Length1 ==> recordBuffer[c, j] == 0
      ensures bufferState == old(bufferState).(writePosition := 0)
    {
      bufferParameters := BufferParameters(numChannels, sampleRate);
      if persistedLength.Some? {
        SetBufferLength(persistedLength.value);
      } else {
        SetBufferLength(DefaultBufferLength);
      }
    }

    /** Reallocates the store to `length * sampleRate` silent frames per channel.
        When a store already existed the write cursor is reset; a first allocation
        leaves it alone (it is still 0). The read cursor is never touched. */
    method SetBufferLength(length: int)
      requires Coherent()
      requires length > 0
      modifies this
      ensures Valid() && ready
      ensures bufferLength == length
      ensures bufferParameters == old(bufferParameters)
      ensures fresh(recordBuffer)
      ensures recordBuffer.Length0 == bufferParameters.numChannels
      ensures recordBuffer.Length1 == length * bufferParameters.sampleRate
      ensures forall c, j :: 0 <= c < recordBuffer.Length0 && 0 <= j < recordBuffer.Length1 ==> recordBuffer[c, j] == 0
      ensures bufferState == old(bufferState).(writePosition := if old(ready) then 0 else old(bufferState.writePosition))
      ensures bufferState.writePosition == 0
    {
      bufferLength := length;
      var channels, frames := bufferParameters.numChannels, bufferLength * bufferParameters.sampleRate;
      if !ready {
        recordBuffer := new int[channels, frames]((c, j) => 0);
        ready := true;
      } else {
        recordBuffer := new int[channels, frames]((c, j) => 0);
        bufferState := bufferState.(writePosition := 0);
      }
    }

    /** Records one block: does nothing unless the store exists and recording is
        on; otherwise copies every channel of `buffer` into the ring at the write
        cursor, split into a tail and a head segment when it runs past the end,
        and advances the cursor. */
    method WriteToBuffer(buffer: array2<int>)
      requires Valid()
      requires buffer != recordBuffer
      requires ready && bufferState.isRecording ==>
        buffer.Length0 <= recordBuffer.Length0 &&
        bufferState.writePosition + buffer.Length1 <= 2 * recordBuffer.Length1
      modifies this, recordBuffer
      ensures Valid()
      ensures recordBuffer == old(recordBuffer) && ready == old(ready)
      ensures bufferLength == old(bufferLength) && bufferParameters == old(bufferParameters)
      ensures old(ready && bufferState.isRecording) ==>
        Fits(old(Rows(recordBuffer)), old(bufferState.writePosition), Rows(buffer)) &&
        Rows(recordBuffer) == WriteFrames(old(Rows(recordBuffer)), old(bufferState.writePosition), Rows(buffer)) &&
        bufferState == old(bufferState).(writePosition :=
          Advance(old(bufferState.writePosition), buffer.Length1, recordBuffer.Length1))
      ensures !old(ready && bufferState.isRecording) ==>
        unchanged(recordBuffer) && bufferState == old(bufferState)
    {
      if !ready || !bufferState.isRecording {
        return;
      }
      var ring := recordBuffer;
      var numChannels, numSamples := buffer.Length0, buffer.Length1;
      var capacity := ring.Length1;
      var writePosition := bufferState.writePosition;
      ghost var before := Rows(ring);
      ghost var input := Rows(buffer);
      if writePosition + numSamples > capacity {
        var overlap := writePosition + numSamples - capacity;
        var channel := 0;
        while channel < numChannels
          modifies ring
          invariant 0 <= channel <= numChannels
          invariant forall c, j :: 0 <= c < ring.Length0 && 0 <= j < capacity ==>
            ring[c, j] == if c < channel then WriteChannel(before[c], writePosition, input[c])[j] else before[c][j]
        {
          CopyFrom(ring, channel, writePosition, buffer, channel, 0, capacity - writePosition);
          CopyFrom(ring, channel, 0, buffer, channel, capacity - writePosition, overlap);
          channel := channel + 1;
        }
        bufferState := bufferState.(writePosition := overlap);
      } else {
        var channel := 0;
        while channel < numChannels
          modifies ring
          invariant 0 <= channel <= numChannels
          invariant forall c, j :: 0 <= c < ring.Length0 && 0 <= j < capacity ==>
            ring[c, j] == if c < channel then WriteChannel(before[c], writePosition, input[c])[j] else before[c][j]
        {
          CopyFrom(ring, channel, writePosition, buffer, channel, 0, numSamples);
          channel := channel + 1;
        }
        bufferState := bufferState.(writePosition := writePosition + numSamples);
      }
      ghost var written := WriteFrames(before, writePosition, input);
      forall c | 0 <= c < ring.Length0 ensures Rows(ring)[c] == written[c] {
        assert forall j :: 0 <= j < capacity ==> Rows(ring)[c][j] == written[c][j];
      }
    }

    /** Plays back one block: does nothing unless the store exists and playing is
        on; otherwise stages `buffer`'s length of samples from the read cursor
        (`ReadFrames`), split like a write when it runs past the end, advances the
        cursor, and adds the staged samples onto `buffer`. The store is only read. */
    method ReadFromBuffer(buffer: array2<int>)
      requires Valid()
      requires buffer != recordBuffer
      requires ready && bufferState.isPlaying ==>
        buffer.Length0 <= recordBuffer.Length0 &&
        0 <= bufferState.readPosition <= recordBuffer.Length1 &&
        bufferState.readPosition + buffer.Length1 <= 2 * recordBuffer.Length1
      modifies this, buffer
      ensures Valid()
      ensures recordBuffer == old(recordBuffer) && ready == old(ready) && unchanged(recordBuffer)
      ensures bufferLength == old(bufferLength) && bufferParameters == old(bufferParameters)
      ensures old(ready && bufferState.isPlaying) ==>
        (forall c, i :: 0 <= c < buffer.Length0 && 0 <= i < buffer.Length1 ==>
          buffer[c, i] == old(buffer[c, i]) +
            ReadFrames(Rows(recordBuffer), old(bufferState.readPosition), buffer.Length0, buffer.Length1)[c][i]) &&
        bufferState == old(bufferState).(readPosition :=
          Advance(old(bufferState.readPosition), buffer.Length1, recordBuffer.Length1))
      ensures !old(ready && bufferState.isPlaying) ==>
        unchanged(buffer) && bufferState == old(bufferState)
    {
      if !ready || !bufferState.isPlaying {
        return;
      }
      var ring := recordBuffer;
      var numChannels, numSamples := buffer.Length0, buffer.Length1;
      var tmpBuffer := new int[numChannels, numSamples];
      var capacity := ring.Length1;
      var readPosition := bufferState.readPosition;
      if readPosition + numSamples > capacity {
        var overlap := readPosition + numSamples - capacity;
        var channel := 0;
        while channel < numChannels
          modifies tmpBuffer
          invariant 0 <= channel <= numChannels
          invariant forall c, i :: 0 <= c < channel && 0 <= i < numSamples ==>
            tmpBuffer[c, i] == ring[c, Slot(readPosition, i, capacity)]
        {
          CopyFrom(tmpBuffer, channel, 0, ring, channel, readPosition, capacity - readPosition);
          CopyFrom(tmpBuffer, channel, capacity - readPosition, ring, channel, 0, overlap);
          channel := channel + 1;
        }
        bufferState := bufferState.(readPosition := overlap);
      } else {
        var channel := 0;
        while channel < numChannels
          modifies tmpBuffer
          invariant 0 <= channel <= numChannels
          invariant forall c, i :: 0 <= c < channel && 0 <= i < numSamples ==>
            tmpBuffer[c, i] == ring[c, Slot(readPosition, i, capacity)]
        {
          CopyFrom(tmpBuffer, channel, 0, ring, channel, readPosition, numSamples);
          channel := channel + 1;
        }
        bufferState := bufferState.(readPosition := readPosition + numSamples);
      }
      ghost var staged := ReadFrames(Rows(ring), readPosition, numChannels, numSamples);
      forall c, i | 0 <= c < numChannels && 0 <= i < numSamples
        ensures tmpBuffer[c, i] == staged[c][i]
      {
        assert staged[c] == ReadChannel(Rows(ring)[c], readPosition, numSamples);
      }
      var channel := 0;
      while channel < numChannels
        modifies buffer
        invariant 0 <= channel <= numChannels
        invariant forall c, i :: 0 <= c < numChannels && 0 <= i < numSamples ==>
          buffer[c, i] == if c < channel then old(buffer[c, i]) + tmpBuffer[c, i] else old(buffer[c, i])
      {
        AddFrom(buffer, channel, tmpBuffer, channel, numSamples);
        channel := channel + 1;
      }
    }
  }
}
