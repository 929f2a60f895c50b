/** The transfer state-transition engine: checks and updates of one account,
    the ledger steps that read, check, update and write back, and the batch
    loop that applies a list of transfers with per-transfer rollback and then
    credits the collected fees.

    Each ledger step is defined twice: as a function on ledger values (the
    specification, about which the properties are proved) and as a method
    over the storage engine (the source's imperative form), whose contract
    ties the engine's new state to that function. */
module StateTransitions {
  import opened Accounts
  import opened StorageEngine

  // ---------------------------------------------------------------------
  // Checks and updates of one account
  // ---------------------------------------------------------------------

  /** The sender check. The three failures are tested in a fixed order:
      a zero amount first, then the balance, then the token. */
  function ValidateSender(state: Account, tokenID: nat, amount: nat, fee: nat): (r: Outcome)
    ensures r == Fail(ZeroAmount) <==> amount == 0
    ensures r == Fail(InsufficientFund) <==> amount != 0 && state.balance < amount + fee
    ensures r == Fail(WrongTokenID) <==>
              amount != 0 && amount + fee <= state.balance && state.tokenID != tokenID
    ensures r == Pass <==>
              amount != 0 && amount + fee <= state.balance && state.tokenID == tokenID
  {
    if amount == 0 then Fail(ZeroAmount)
    else if state.balance < amount + fee then Fail(InsufficientFund)
    else if state.tokenID != tokenID then Fail(WrongTokenID)
    else Pass
  }

  /** The receiver check: only the token is checked, never the amount. */
  function ValidateReceiver(state: Account, tokenID: nat): (r: Outcome)
    ensures r == Pass <==> state.tokenID == tokenID
    ensures r.Fail? ==> r.error == WrongTokenID
  {
    if state.tokenID != tokenID then Fail(WrongTokenID) else Pass
  }

  /** A copy of the sender with the decrement taken off and the nonce
      advanced. Its one caller validates first, so the balance covers the
      decrement. */
  function ApplySender(sender: Account, decrement: nat): (r: Account)
    requires decrement <= sender.balance
    ensures r.balance + decrement == sender.balance
    ensures r.nonce == sender.nonce + 1
    ensures r.pubkeyID == sender.pubkeyID && r.tokenID == sender.tokenID
  {
    sender.(balance := sender.balance - decrement, nonce := sender.nonce + 1)
  }

  /** A copy of the receiver with the increment added. */
  function ApplyReceiver(receiver: Account, increment: nat): (r: Account)
    ensures r.balance == receiver.balance + increment
    ensures r.nonce == receiver.nonce
    ensures r.pubkeyID == receiver.pubkeyID && r.tokenID == receiver.tokenID
  {
    receiver.(balance := receiver.balance + increment)
  }

  // ---------------------------------------------------------------------
  // Ledger steps as functions on ledger values
  // ---------------------------------------------------------------------

  /** m2 is m with exactly the entry at id replaced by the given account. */
  ghost predicate OnlyChanged(m: Ledger, m2: Ledger, id: int)
  {
    id in m && m2.Keys == m.Keys &&
    forall k :: k in m && k != id ==> m2[k] == m[k]
  }

  /** m2 is a successor of m: the same accounts, each with its token and
      public key unchanged and a nonce that has not gone down. */
  ghost predicate Evolves(m: Ledger, m2: Ledger)
  {
    m2.Keys == m.Keys &&
    forall k :: k in m ==>
      m2[k].tokenID == m[k].tokenID && m2[k].pubkeyID == m[k].pubkeyID &&
      m[k].nonce <= m2[k].nonce
  }

  /** processSender on a ledger value: read, check, debit amount + fee,
      advance the nonce, write back. */
  function SenderStep(m: Ledger, senderID: int, tokenID: nat, amount: nat, fee: nat): (r: Result<Ledger>)
    ensures r.Ok? <==> senderID in m && ValidateSender(m[senderID], tokenID, amount, fee) == Pass
    ensures r.Err? ==>
              r.error == (if senderID in m then ValidateSender(m[senderID], tokenID, amount, fee).error
                          else NotFound)
    ensures r.Ok? ==>
              OnlyChanged(m, r.value, senderID) && Evolves(m, r.value) &&
              r.value[senderID].balance + amount + fee == m[senderID].balance &&
              r.value[senderID].nonce == m[senderID].nonce + 1
  {
    if senderID !in m then Err(NotFound)
    else
      var state := m[senderID];
      match ValidateSender(state, tokenID, amount, fee)
      case Fail(e) => Err(e)
      case Pass => Ok(m[senderID := ApplySender(state, amount + fee)])
  }

  /** processReceiver on a ledger value: read, check the token, credit the
      increment, write back. */
  function ReceiverStep(m: Ledger, receiverID: int, increment: nat, tokenID: nat): (r: Result<Ledger>)
    ensures r.Ok? <==> receiverID in m && m[receiverID].tokenID == tokenID
    ensures r.Err? ==> r.error == (if receiverID in m then WrongTokenID else NotFound)
    ensures r.Ok? ==>
              OnlyChanged(m, r.value, receiverID) && Evolves(m, r.value) &&
              r.value[receiverID].balance == m[receiverID].balance + increment &&
              r.value[receiverID].nonce == m[receiverID].nonce
  {
    if receiverID !in m then Err(NotFound)
    else
      var state := m[receiverID];
      match ValidateReceiver(state, tokenID)
      case Fail(e) => Err(e)
      case Pass => Ok(m[receiverID := ApplyReceiver(state, increment)])
  }

  lemma EvolvesTransitive(m1: Ledger, m2: Ledger, m3: Ledger)
    requires Evolves(m1, m2) && Evolves(m2, m3)
    ensures Evolves(m1, m3)
  {
  }

  /** processTransfer on a ledger value: the sender side, then the receiver
      side against the ledger the sender side left. */
  function TransferStep(m: Ledger, tx: Transfer, tokenID: nat): (r: Result<Ledger>)
    ensures r.Ok? <==>
              tx.fromIndex in m && tx.toIndex in m &&
              ValidateSender(m[tx.fromIndex], tokenID, tx.amount, tx.fee) == Pass &&
              m[tx.toIndex].tokenID == tokenID
    ensures r.Ok? ==> Evolves(m, r.value)
  {
    match SenderStep(m, tx.fromIndex, tokenID, tx.amount, tx.fee)
    case Err(e) => Err(e)
    case Ok(m1) =>
      var r := ReceiverStep(m1, tx.toIndex, tx.amount, tokenID);
      if r.Ok? then EvolvesTransitive(m, m1, r.value); r else r
  }

  /** The accepted transfers so far and the ledger they left. */
  datatype Progress = Progress(accepted: seq<Transfer>, ledger: Ledger)

  /** The batch loop on a ledger value: each transfer in order, against the
      ledger the earlier ones left; one that fails leaves no trace. */
  function Run(m: Ledger, txs: seq<Transfer>, tokenID: nat): (p: Progress)
    ensures Evolves(m, p.ledger)
    ensures |p.accepted| <= |txs|
    decreases |txs|
  {
    if txs == [] then Progress([], m)
    else
      var prev := Run(m, txs[..|txs| - 1], tokenID);
      var tx := txs[|txs| - 1];
      match TransferStep(prev.ledger, tx, tokenID)
      case Ok(m2) =>
        EvolvesTransitive(m, prev.ledger, m2);
        Progress(prev.accepted + [tx], m2)
      case Err(_) => prev
  }

  /** The sum of the fees of a list of transfers. */
  function SumFees(txs: seq<Transfer>): nat
    decreases |txs|
  {
    if txs == [] then 0 else SumFees(txs[..|txs| - 1]) + txs[|txs| - 1].fee
  }

  /** What the batch call returns, and the ledger it leaves. */
  datatype CommitOutcome = CommitOutcome(result: Result<seq<Transfer>>, ledger: Ledger)

  /** processTransferCommit on a ledger value. The batch token is read from
      the fee receiver before the loop; the fee credit after the loop is not
      guarded by a checkpoint, so its failure is the call's failure. */
  function TransferCommit(txs: seq<Transfer>, feeReceiverID: int, m: Ledger): (c: CommitOutcome)
    ensures c.result.Ok? <==> feeReceiverID in m
    ensures feeReceiverID !in m ==> c.result == Err(NotFound) && c.ledger == m
  {
    if feeReceiverID !in m then CommitOutcome(Err(NotFound), m)
    else
      var tokenID := m[feeReceiverID].tokenID;
      var p := Run(m, txs, tokenID);
      match ReceiverStep(p.ledger, feeReceiverID, SumFees(p.accepted), tokenID)
      case Ok(m2) => CommitOutcome(Ok(p.accepted), m2)
      case Err(e) => CommitOutcome(Err(e), p.ledger)
  }

  // ---------------------------------------------------------------------
  // Ledger steps over the storage engine
  // ---------------------------------------------------------------------

  function OutcomeOf(r: Result<Ledger>): Outcome
  {
    if r.Ok? then Pass else Fail(r.error)
  }

  method ProcessSender(senderID: int, tokenID: nat, amount: nat, fee: nat, engine: StateStorageEngine)
    returns (r: Outcome)
    modifies engine
    ensures r == OutcomeOf(SenderStep(old(engine.states), senderID, tokenID, amount, fee))
    ensures engine.states ==
              if r.Pass? then SenderStep(old(engine.states), senderID, tokenID, amount, fee).value
              else old(engine.states)
    ensures engine.checkpoints == old(engine.checkpoints)
  {
    var state := engine.Get(senderID);
    if state.Err? {
      return Fail(state.error);
    }
    var check := ValidateSender(state.value, tokenID, amount, fee);
    if check.Fail? {
      return check;
    }
    var decrement := amount + fee;
    var postState := ApplySender(state.value, decrement);
    engine.Update(senderID, postState);
    r := Pass;
  }

  method ProcessReceiver(receiverID: int, increment: nat, tokenID: nat, engine: StateStorageEngine)
    returns (r: Outcome)
    modifies engine
    ensures r == OutcomeOf(ReceiverStep(old(engine.states), receiverID, increment, tokenID))
    ensures engine.states ==
              if r.Pass? then ReceiverStep(old(engine.states), receiverID, increment, tokenID).value
              else old(engine.states)
    ensures engine.checkpoints == old(engine.checkpoints)
  {
    var state := engine.Get(receiverID);
    if state.Err? {
      return Fail(state.error);
    }
    var check := ValidateReceiver(state.value, tokenID);
    if check.Fail? {
      return check;
    }
    var postState := ApplyReceiver(state.value, increment);
    engine.Update(receiverID, postState);
    r := Pass;
  }

  /** On failure the sender's write may already have happened: when the
      sender side passed and the receiver side failed, the ledger holds the
      sender step's result, otherwise it is untouched. */
  method ProcessTransfer(tx: Transfer, tokenID: nat, engine: StateStorageEngine) returns (r: Outcome)
    modifies engine
    ensures r == OutcomeOf(TransferStep(old(engine.states), tx, tokenID))
    ensures r.Pass? ==> engine.states == TransferStep(old(engine.states), tx, tokenID).value
    ensures r.Fail? ==>
              engine.states ==
                var s := SenderStep(old(engine.states), tx.fromIndex, tokenID, tx.amount, tx.fee);
                if s.Ok? then s.value else old(engine.states)
    ensures engine.checkpoints == old(engine.checkpoints)
  {
    r := ProcessSender(tx.fromIndex, tokenID, tx.amount, tx.fee, engine);
    if r.Fail? {
      return;
    }
    r := ProcessReceiver(tx.toIndex, tx.amount, tokenID, engine);
  }

  method ProcessTransferCommit(txs: seq<Transfer>, feeReceiverID: int, engine: StateStorageEngine)
    returns (r: Result<seq<Transfer>>)
    modifies engine
    ensures r == TransferCommit(txs, feeReceiverID, old(engine.states)).result
    ensures engine.states == TransferCommit(txs, feeReceiverID, old(engine.states)).ledger
    ensures engine.checkpoints == old(engine.checkpoints)
  {
    ghost var m0 := engine.states;
    var feeReceiver := engine.Get(feeReceiverID);
    if feeReceiver.Err? {
      return Err(feeReceiver.error);
    }
    var tokenID := feeReceiver.value.tokenID;
    var acceptedTxs: seq<Transfer> := [];
    for i := 0 to |txs|
      invariant Progress(acceptedTxs, engine.states) == Run(m0, txs[..i], tokenID)
      invariant engine.checkpoints == old(engine.checkpoints)
    {
      assert txs[..i + 1][..i] == txs[..i];
      var checkpoint := engine.GetCheckpoint();
      var outcome := ProcessTransfer(txs[i], tokenID, engine);
      if outcome.Pass? {
        engine.Commit();
        acceptedTxs := acceptedTxs + [txs[i]];
      } else {
        engine.Revert(checkpoint);
      }
    }
    assert txs[..|txs|] == txs;
    var fees := SumFees(acceptedTxs);
    var outcome := ProcessReceiver(feeReceiverID, fees, tokenID, engine);
    match outcome {
      case Fail(e) => r := Err(e);
      case Pass => r := Ok(acceptedTxs);
    }
  }
}
