/** The packing scheduler: one cycle of the packer service and its effect on
    the operator's sync point. Whether the transfer pool is empty and how the
    submission and its one-confirmation wait turn out are inputs to a cycle. */
module PackerService {

  /** How packAndSubmit followed by wait(1) turns out: either call failed,
      or the batch was confirmed in the given block. */
  datatype Submission = Failed | Confirmed(blockNumber: nat)

  /** What one cycle did: slept because the pool was empty, advanced the
      sync point after a confirmed submission, or logged a packing failure. */
  datatype Cycle = Slept | Packed | PackingFailed

  /** The sync point as a value. */
  datatype Point = Point(batchID: nat, blockNumber: nat)

  /** One cycle on the sync point's value: it advances exactly when the
      pool is non-empty and the submission is confirmed, and then moves the
      batch ID on by one and takes the receipt's block; otherwise nothing
      changes. */
  function Step(p: Point, poolEmpty: bool, s: Submission): (q: Point)
    ensures q.batchID == p.batchID + 1 <==> !poolEmpty && s.Confirmed?
    ensures q.batchID == p.batchID + 1 ==> q.blockNumber == s.blockNumber
    ensures q.batchID != p.batchID + 1 ==> q == p
  {
    if poolEmpty then p
    else match s
      case Failed => p
      case Confirmed(block) => Point(p.batchID + 1, block)
  }

  /** What one cycle did, as a function of its inputs. */
  function CycleOf(poolEmpty: bool, s: Submission): Cycle
  {
    if poolEmpty then Slept else if s.Confirmed? then Packed else PackingFailed
  }

  /** The operator's record of the last acknowledged batch, shared with the
      node and updated in place by the packer. */
  class SyncedPoint {
    var batchID: nat
    var blockNumber: nat

    constructor (batchID: nat, blockNumber: nat)
      ensures this.batchID == batchID && this.blockNumber == blockNumber
    {
      this.batchID := batchID;
      this.blockNumber := blockNumber;
    }

    function View(): Point
      reads this
    {
      Point(batchID, blockNumber)
    }
  }

  class Packer {
    const syncpoint: SyncedPoint

    constructor (syncpoint: SyncedPoint)
      ensures this.syncpoint == syncpoint
    {
      this.syncpoint := syncpoint;
    }

    /** One cycle. With an empty pool nothing is packed and the sync point
        is left alone (the source then sleeps ten seconds). Otherwise a
        confirmed submission advances the batch ID by one and takes the
        receipt's block number, with no check that it grows; a failure is
        absorbed and leaves the sync point unchanged. */
    method OnRun(poolEmpty: bool, submission: Submission) returns (c: Cycle)
      modifies syncpoint
      ensures c == CycleOf(poolEmpty, submission)
      ensures syncpoint.View() == Step(old(syncpoint.View()), poolEmpty, submission)
    {
      if poolEmpty {
        return Slept;
      }
      match submission {
        case Failed =>
          c := PackingFailed;
        case Confirmed(block) =>
          syncpoint.batchID := syncpoint.batchID + 1;
          syncpoint.blockNumber := block;
          c := Packed;
      }
    }
  }

  // ---------------------------------------------------------------------
  // Properties
  // ---------------------------------------------------------------------

  /** The inputs of one cycle. */
  datatype CycleInput = CycleInput(poolEmpty: bool, submission: Submission)

  /** The sync point after a sequence of cycles. */
  function Replay(p: Point, cycles: seq<CycleInput>): Point
    decreases |cycles|
  {
    if cycles == [] then p
    else
      var last := cycles[|cycles| - 1];
      Step(Replay(p, cycles[..|cycles| - 1]), last.poolEmpty, last.submission)
  }

  /** The number of cycles that packed and had their submission confirmed. */
  function Confirmations(cycles: seq<CycleInput>): nat
    decreases |cycles|
  {
    if cycles == [] then 0
    else
      var last := cycles[|cycles| - 1];
      Confirmations(cycles[..|cycles| - 1]) +
        (if CycleOf(last.poolEmpty, last.submission) == Packed then 1 else 0)
  }

  /** Over any sequence of cycles the batch ID grows by exactly the number
      of confirmed submissions; without one the sync point is unchanged. */
  lemma {:induction false} ReplayCounts(p: Point, cycles: seq<CycleInput>)
    ensures Replay(p, cycles).batchID == p.batchID + Confirmations(cycles)
    ensures Confirmations(cycles) == 0 ==> Replay(p, cycles) == p
    decreases |cycles|
  {
    if cycles != [] {
      ReplayCounts(p, cycles[..|cycles| - 1]);
    }
  }

  /** Nothing keeps the block number from going down: a confirmation
      reported in an earlier block than the recorded one is taken as is. */
  lemma BlockNumberNotMonotone()
    ensures Step(Point(5, 900), false, Confirmed(800)).blockNumber < 900
  {
  }

  /** Sync point {5, 900} and a confirmation at block 1000 give {6, 1000}. */
  lemma ConfirmedExample()
    ensures Step(Point(5, 900), false, Confirmed(1000)) == Point(6, 1000)
  {
  }
}
