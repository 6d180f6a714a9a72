/** The value-level specification every renderer variant's frame bookkeeping follows:
    a fence counter, the GPU's completed value, one recorded fence value per back
    buffer (`g_FrameFenceValues`) and the current back-buffer index. The imperative
    classes are proved to move their state exactly as these functions do. */
module FrameRing {
  import opened Helpers

  /** `g_NumFrames` / `NUM_BACKBUFFERS`. */
  const NumFrames: nat := 3

  datatype Ring = Ring(fenceValue: nat, completed: nat, slots: seq<nat>, index: nat)

  predicate WellFormed(r: Ring) {
    |r.slots| == NumFrames && r.index < NumFrames
  }

  /** The bookkeeping invariant: the GPU never runs ahead of the counter, no slot records
      a value beyond it, the slot of the current back buffer is retired (its allocator may
      be reset), and every value signalled but not yet completed is recorded in some slot. */
  ghost predicate Inv(r: Ring) {
    && WellFormed(r)
    && r.completed <= r.fenceValue
    && (forall j | 0 <= j < NumFrames :: r.slots[j] <= r.fenceValue)
    && r.slots[r.index] <= r.completed
    && (forall v | r.completed < v <= r.fenceValue :: v in r.slots)
  }

  /** State right after initialisation: counter equal to the fence's completed value,
      every slot 0, and the index the swap chain reports. */
  function Initial(counter: nat, index: nat): (r: Ring)
    requires index < NumFrames
    ensures Inv(r)
    ensures r.fenceValue == r.completed == counter
    ensures forall j | 0 <= j < NumFrames :: r.slots[j] == 0
  {
    Ring(counter, counter, [0, 0, 0], index)
  }

  /** `WaitForFenceValue(target)`: when the fence is behind it waits until the fence reaches
      `target`; otherwise it returns at once. */
  function AfterWait(completed: nat, target: nat): (c: nat)
    ensures c >= completed && c >= target
    ensures completed >= target ==> c == completed
    ensures completed < target ==> c == target
  {
    if completed < target then target else completed
  }

  /** One presented frame: signal a fresh value, record it into the slot of the back
      buffer just submitted, adopt the swap chain's new index, wait on that slot. */
  function Frame(r: Ring, newIndex: nat): (r': Ring)
    requires WellFormed(r) && newIndex < NumFrames
    ensures WellFormed(r') && r'.index == newIndex
    ensures r'.fenceValue == r.fenceValue + 1
    ensures r'.slots[r.index] == r'.fenceValue
    ensures forall j | 0 <= j < NumFrames && j != r.index :: r'.slots[j] == r.slots[j]
    ensures r'.completed >= r.completed && r'.slots[newIndex] <= r'.completed
    ensures r.slots[newIndex] <= r.completed && newIndex != r.index ==> r'.completed == r.completed
  {
    var signalled := r.fenceValue + 1;
    var slots := r.slots[r.index := signalled];
    Ring(signalled, AfterWait(r.completed, slots[newIndex]), slots, newIndex)
  }

  /** `Flush` / `WaitForGPU`: signal a fresh value and wait for exactly it. */
  function Flush(r: Ring): (r': Ring)
    requires r.completed <= r.fenceValue
    ensures r'.fenceValue == r.fenceValue + 1 && r'.completed == r'.fenceValue
    ensures r'.slots == r.slots && r'.index == r.index
  {
    var signalled := r.fenceValue + 1;
    r.(fenceValue := signalled, completed := AfterWait(r.completed, signalled))
  }

  /** `ResizeSwapChain` after its no-op check: flush, copy the current slot's value into
      every slot, and adopt the re-read index. */
  function Resize(r: Ring, newIndex: nat): (r': Ring)
    requires WellFormed(r) && newIndex < NumFrames && r.completed <= r.fenceValue
    ensures WellFormed(r') && r'.index == newIndex
    ensures r'.fenceValue == r.fenceValue + 1 && r'.completed == r'.fenceValue
    ensures forall j | 0 <= j < NumFrames :: r'.slots[j] == r.slots[r.index]
  {
    var f := Flush(r);
    var v := r.slots[r.index];
    f.(slots := [v, v, v], index := newIndex)
  }

  /** The GPU finishes more of the queued work by itself. */
  function Progress(r: Ring, value: nat): (r': Ring)
    requires r.completed <= value <= r.fenceValue
    ensures r'.completed == value && r'.fenceValue == r.fenceValue
    ensures r'.slots == r.slots && r'.index == r.index
  {
    r.(completed := value)
  }

  lemma FramePreservesInv(r: Ring, newIndex: nat)
    requires Inv(r) && newIndex < NumFrames
    ensures Inv(Frame(r, newIndex))
  {
    var r' := Frame(r, newIndex);
    forall v | r'.completed < v <= r'.fenceValue
      ensures v in r'.slots
    {
      if v == r'.fenceValue {
        assert r'.slots[r.index] == v;
      } else {
        assert v in r.slots;
        var j :| 0 <= j < NumFrames && r.slots[j] == v;
        assert j != r.index;
        assert r'.slots[j] == v;
      }
    }
  }

  lemma FlushPreservesInv(r: Ring)
    requires Inv(r)
    ensures Inv(Flush(r))
  {
  }

  lemma ResizePreservesInv(r: Ring, newIndex: nat)
    requires Inv(r) && newIndex < NumFrames
    ensures Inv(Resize(r, newIndex))
  {
  }

  lemma ProgressPreservesInv(r: Ring, value: nat)
    requires Inv(r) && r.completed <= value <= r.fenceValue
    ensures Inv(Progress(r, value))
  {
    var r' := Progress(r, value);
    forall v | r'.completed < v <= r'.fenceValue
      ensures v in r'.slots
    {
      assert r.completed < v;
    }
  }

  /** The values strictly above `lo` and at most `hi`. */
  ghost function Interval(lo: nat, hi: nat): (s: set<nat>)
    ensures forall v :: v in s <==> lo < v <= hi
    decreases hi
  {
    if hi <= lo then {} else Interval(lo, hi - 1) + {hi}
  }

  lemma {:induction false} IntervalSize(lo: nat, hi: nat)
    requires lo <= hi
    ensures |Interval(lo, hi)| == hi - lo
    decreases hi - lo
  {
    if lo < hi {
      IntervalSize(lo, hi - 1);
      assert hi !in Interval(lo, hi - 1);
    }
  }

  lemma {:induction false} SubsetSize<T>(a: set<T>, b: set<T>)
    requires a <= b
    ensures |a| <= |b|
    decreases |b|
  {
    if a != {} {
      var x :| x in a;
      SubsetSize(a - {x}, b - {x});
    }
  }

  /** Back-pressure: at the start of every frame the CPU is at most `NumFrames - 1`
      submissions ahead of the GPU, because each unfinished value occupies one of the
      slots other than the (retired) current one. */
  lemma BackpressureBound(r: Ring)
    requires Inv(r)
    ensures r.fenceValue - r.completed <= NumFrames - 1
  {
    var a, b := (r.index + 1) % NumFrames, (r.index + 2) % NumFrames;
    var others := {r.slots[a], r.slots[b]};
    forall v | v in Interval(r.completed, r.fenceValue)
      ensures v in others
    {
      assert v in r.slots;
      var j :| 0 <= j < NumFrames && r.slots[j] == v;
      assert j != r.index;
      assert j == a || j == b;
    }
    IntervalSize(r.completed, r.fenceValue);
    SubsetSize(Interval(r.completed, r.fenceValue), others);
  }

  /** At the moment of `Present` (after the signal, before the wait) at most `NumFrames`
      frames are in flight. */
  lemma InFlightAtPresent(r: Ring, newIndex: nat)
    requires Inv(r) && newIndex < NumFrames
    ensures Frame(r, newIndex).fenceValue - r.completed <= NumFrames
  {
    BackpressureBound(r);
  }

  /** After a flush nothing is in flight, so every back buffer may be released. */
  lemma FlushRetiresEverything(r: Ring)
    requires Inv(r)
    ensures forall j | 0 <= j < NumFrames :: Flush(r).slots[j] <= Flush(r).completed
  {
  }

  /** Starting from all-zero slots at any index, the first present waits exactly when the
      swap chain hands back the buffer just submitted, and the second does not wait when
      it moves on to the third buffer. A third present that returns to the starting buffer
      waits exactly for the first frame's signal. */
  lemma FirstFramesDoNotBlock(counter: nat, start: nat, next: nat, after: nat)
    requires start < NumFrames && next < NumFrames && after < NumFrames
    ensures Frame(Initial(counter, start), next).completed == counter <==> next != start
    ensures next != start && after != start && after != next ==>
      Frame(Frame(Initial(counter, start), next), after).completed == counter
    ensures next != start && after != start && after != next ==>
      Frame(Frame(Frame(Initial(counter, start), next), after), start).completed == counter + 1
  {
  }
}
