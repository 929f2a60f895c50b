/** The checkpointable account store the state-transition engine runs against.
    Only its contract is known: read, write, checkpoint, commit, revert. It is
    modelled as the current ledger plus a stack of snapshots; a checkpoint
    token is the depth of the stack when the snapshot was taken. */
module StorageEngine {
  import opened Accounts

  class StateStorageEngine {
    /** The current ledger. */
    var states: Ledger
    /** Snapshots taken by GetCheckpoint and not yet committed or reverted,
        oldest first. */
    var checkpoints: seq<Ledger>

    constructor (initial: Ledger)
      ensures states == initial && checkpoints == []
    {
      states := initial;
      checkpoints := [];
    }

    /** Reads one account; a missing account is an error. */
    method Get(id: int) returns (r: Result<Account>)
      ensures r.Ok? <==> id in states
      ensures r.Ok? ==> r.value == states[id]
      ensures r.Err? ==> r.error == NotFound
    {
      if id in states {
        r := Ok(states[id]);
      } else {
        r := Err(NotFound);
      }
    }

    /** Writes one account, leaving every other entry as it was. */
    method Update(id: int, state: Account)
      modifies this`states
      ensures states == old(states)[id := state]
    {
      states := states[id := state];
    }

    /** Takes a snapshot of the current ledger and returns its token. */
    method GetCheckpoint() returns (c: nat)
      modifies this`checkpoints
      ensures c == |old(checkpoints)|
      ensures checkpoints == old(checkpoints) + [states]
    {
      c := |checkpoints|;
      checkpoints := checkpoints + [states];
    }

    /** Makes the writes since the latest checkpoint permanent by discarding
        that snapshot; the ledger is unchanged. */
    method Commit()
      requires checkpoints != []
      modifies this`checkpoints
      ensures checkpoints == old(checkpoints)[..|old(checkpoints)| - 1]
    {
      checkpoints := checkpoints[..|checkpoints| - 1];
    }

    /** Undoes every write made since checkpoint c was taken and discards c
        and the checkpoints taken after it. */
    method Revert(c: nat)
      requires c < |checkpoints|
      modifies this
      ensures states == old(checkpoints)[c]
      ensures checkpoints == old(checkpoints)[..c]
    {
      states := checkpoints[c];
      checkpoints := checkpoints[..c];
    }
  }
}
