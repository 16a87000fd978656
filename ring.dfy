/** The fixed-size ring buffer of flow samples kept in the controller's
    state: FLOW_BUFFER_SIZE slots of which ringBufferLen, from
    ringBufferStartIdx on and wrapping around, hold samples. Its methods are
    proved against Window.Append and Window.Mean. */
module Ring {
  import opened Window

  /** The slot of a position that has gone at most once around a buffer of
      n slots. */
  function Wrap(a: nat, n: nat): nat
  {
    if a < n then a else a - n
  }

  /** The firmware's modulo agrees with Wrap on such positions. */
  lemma ModBelowTwice(a: nat, n: nat)
    requires 0 < n && a < 2 * n
    ensures a % n == Wrap(a, n)
  {
    if a < n {
      assert a == 0 * n + a;
    } else {
      assert a == 1 * n + (a - n);
    }
  }

  /** The slot index a % n the firmware computes for a position at most once
      around the buffer. */
  method SlotIndex(a: nat, n: nat) returns (r: nat)
    requires 0 < n && a < 2 * n
    ensures r == Wrap(a, n) && r < n
  {
    ModBelowTwice(a, n);
    r := a % n;
  }

  /** The len slots of data from start on, wrapping around at the end,
      oldest first. */
  function Occupied(data: seq<real>, start: nat, len: nat): (r: seq<real>)
    requires start < |data| && len <= |data|
    ensures |r| == len
  {
    if len == 0 then []
    else Occupied(data, start, len - 1) + [data[Wrap(start + len - 1, |data|)]]
  }

  /** The i-th occupied slot is at start + i, wrapped. */
  lemma {:induction false} OccupiedAt(data: seq<real>, start: nat, len: nat, i: nat)
    requires start < |data| && len <= |data| && i < len
    ensures Occupied(data, start, len)[i] == data[Wrap(start + i, |data|)]
  {
    if i < len - 1 {
      OccupiedAt(data, start, len - 1, i);
    }
  }

  /** Writing the slot after the occupied ones extends them by one. */
  lemma OccupiedGrow(data: seq<real>, start: nat, len: nat, x: real)
    requires start < |data| && len < |data|
    ensures Occupied(data[Wrap(start + len, |data|) := x], start, len + 1)
            == Occupied(data, start, len) + [x]
  {
    var d := data[Wrap(start + len, |data|) := x];
    var a, b := Occupied(d, start, len + 1), Occupied(data, start, len) + [x];
    forall i | 0 <= i < len + 1 ensures a[i] == b[i] {
      OccupiedAt(d, start, len + 1, i);
      if i < len {
        OccupiedAt(data, start, len, i);
      }
    }
  }

  /** Overwriting the oldest slot of a full buffer and advancing the start by
      one evicts the oldest sample. */
  lemma OccupiedRotate(data: seq<real>, start: nat, x: real)
    requires start < |data|
    ensures Occupied(data[start := x], Wrap(start + 1, |data|), |data|)
            == Occupied(data, start, |data|)[1..] + [x]
  {
    var n := |data|;
    var d := data[start := x];
    var a, b := Occupied(d, Wrap(start + 1, n), n), Occupied(data, start, n)[1..] + [x];
    forall i | 0 <= i < n ensures a[i] == b[i] {
      OccupiedAt(d, Wrap(start + 1, n), n, i);
      if i < n - 1 {
        OccupiedAt(data, start, n, i + 1);
      }
    }
  }

  class FlowBuffer {
    const capacity: nat
    const flowRingBuffer: array<real>
    var ringBufferLen: nat
    var ringBufferStartIdx: nat

    /** The samples in the buffer, oldest first. */
    ghost var Samples: seq<real>

    ghost predicate Valid()
      reads this, flowRingBuffer
    {
      && 0 < capacity
      && flowRingBuffer.Length == capacity
      && ringBufferLen <= capacity && ringBufferStartIdx < capacity
      && Samples == Occupied(flowRingBuffer[..], ringBufferStartIdx, ringBufferLen)
    }

    /** An empty buffer of n slots, all zero. */
    constructor (n: nat)
      requires 0 < n
      ensures Valid() && fresh(flowRingBuffer)
      ensures capacity == n && Samples == []
      ensures ringBufferLen == 0 && ringBufferStartIdx == 0
      ensures forall k :: 0 <= k < n ==> flowRingBuffer[k] == 0.0
    {
      capacity := n;
      flowRingBuffer := new real[n](_ => 0.0);
      ringBufferLen, ringBufferStartIdx := 0, 0;
      Samples := [];
    }

    /** The mean of the samples in the buffer. */
    method AverageFlowFromBuffer() returns (avg: real)
      requires Valid() && 0 < ringBufferLen
      ensures avg == Mean(Samples)
    {
      var sum := 0.0;
      var i := 0;
      while i < ringBufferLen
        invariant 0 <= i <= ringBufferLen
        invariant sum == Sum(Samples[..i])
      {
        var idx := SlotIndex(ringBufferStartIdx + i, capacity);
        OccupiedAt(flowRingBuffer[..], ringBufferStartIdx, ringBufferLen, i);
        sum := sum + flowRingBuffer[idx];
        assert Samples[..i + 1][..i] == Samples[..i];
        i := i + 1;
      }
      assert Samples[..i] == Samples;
      avg := sum / (ringBufferLen as real);
    }

    /** Writes the sample into the slot after the newest one; when the buffer
        is full that slot holds the oldest sample, which is evicted. */
    method AddToRingBuffer(flow: real)
      requires Valid()
      modifies this, flowRingBuffer
      ensures Valid()
      ensures Samples == Append(old(Samples), flow, capacity)
      ensures old(ringBufferLen) < capacity ==>
                ringBufferLen == old(ringBufferLen) + 1 && ringBufferStartIdx == old(ringBufferStartIdx)
      ensures old(ringBufferLen) == capacity ==>
                ringBufferLen == capacity
                && ringBufferStartIdx == Wrap(old(ringBufferStartIdx) + 1, capacity)
    {
      var n, start, len := capacity, ringBufferStartIdx, ringBufferLen;
      var nextIdx := SlotIndex(start + len, n);
      if nextIdx == start {
        if len == 0 {
          ringBufferLen := len + 1;
        } else {
          // wrapping: the oldest sample is overwritten
          ringBufferStartIdx := SlotIndex(start + 1, n);
        }
      } else {
        ringBufferLen := len + 1;
      }
      ghost var data := flowRingBuffer[..];
      flowRingBuffer[nextIdx] := flow;
      assert flowRingBuffer[..] == data[nextIdx := flow];
      Samples := Append(Samples, flow, n);
      if len < n {
        OccupiedGrow(data, start, len, flow);
      } else {
        OccupiedRotate(data, start, flow);
      }
    }

    /** Empties the buffer and puts its start back at slot 0. */
    method ResetRingBuffer()
      requires Valid()
      modifies this
      ensures Valid()
      ensures ringBufferLen == 0 && ringBufferStartIdx == 0 && Samples == []
    {
      ringBufferStartIdx := 0;
      ringBufferLen := 0;
      Samples := [];
    }
  }
}
