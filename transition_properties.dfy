/** Properties of the transfer state-transition engine, proved about the
    ledger-value functions that the engine's methods are tied to. */
module TransitionProperties {
  import opened Accounts
  import opened StateTransitions

  // ---------------------------------------------------------------------
  // One transfer
  // ---------------------------------------------------------------------

  /** The sender step takes exactly amount + fee out of the ledger. */
  lemma SenderStepTotal(m: Ledger, senderID: int, tokenID: nat, amount: nat, fee: nat)
    requires SenderStep(m, senderID, tokenID, amount, fee).Ok?
    ensures Total(SenderStep(m, senderID, tokenID, amount, fee).value) + amount + fee == Total(m)
  {
    var m2 := SenderStep(m, senderID, tokenID, amount, fee).value;
    assert m2 == m[senderID := m2[senderID]];
    TotalUpdate(m, senderID, m2[senderID]);
  }

  /** The receiver step puts exactly the increment into the ledger. */
  lemma ReceiverStepTotal(m: Ledger, receiverID: int, increment: nat, tokenID: nat)
    requires ReceiverStep(m, receiverID, increment, tokenID).Ok?
    ensures Total(ReceiverStep(m, receiverID, increment, tokenID).value) == Total(m) + increment
  {
    var m2 := ReceiverStep(m, receiverID, increment, tokenID).value;
    assert m2 == m[receiverID := m2[receiverID]];
    TotalUpdate(m, receiverID, m2[receiverID]);
  }

  /** An accepted transfer moves amount + fee out of the sender and amount
      into the receiver, so the ledger's total drops by the fee alone. This
      holds also when sender and receiver are the same account. */
  lemma TransferStepTotal(m: Ledger, tx: Transfer, tokenID: nat)
    requires TransferStep(m, tx, tokenID).Ok?
    ensures Total(TransferStep(m, tx, tokenID).value) + tx.fee == Total(m)
  {
    var m1 := SenderStep(m, tx.fromIndex, tokenID, tx.amount, tx.fee).value;
    SenderStepTotal(m, tx.fromIndex, tokenID, tx.amount, tx.fee);
    ReceiverStepTotal(m1, tx.toIndex, tx.amount, tokenID);
  }

  /** An accepted transfer between two distinct accounts: the sender is
      debited amount + fee and its nonce advances, the receiver is credited
      amount with its nonce unchanged, and no other account changes. */
  lemma TransferStepEffect(m: Ledger, tx: Transfer, tokenID: nat)
    requires TransferStep(m, tx, tokenID).Ok?
    requires tx.fromIndex != tx.toIndex
    ensures var m2 := TransferStep(m, tx, tokenID).value;
      m2[tx.fromIndex].balance + tx.amount + tx.fee == m[tx.fromIndex].balance &&
      m2[tx.fromIndex].nonce == m[tx.fromIndex].nonce + 1 &&
      m2[tx.toIndex].balance == m[tx.toIndex].balance + tx.amount &&
      m2[tx.toIndex].nonce == m[tx.toIndex].nonce &&
      forall k :: k in m && k != tx.fromIndex && k != tx.toIndex ==> m2[k] == m[k]
  {
  }

  /** An accepted transfer from an account to itself: the one account is
      debited amount + fee and credited amount again from the re-read state,
      so it loses the fee alone, and its nonce advances once. */
  lemma TransferStepSelf(m: Ledger, tx: Transfer, tokenID: nat)
    requires TransferStep(m, tx, tokenID).Ok?
    requires tx.fromIndex == tx.toIndex
    ensures var a := m[tx.fromIndex];
      TransferStep(m, tx, tokenID).value ==
        m[tx.fromIndex := a.(balance := a.balance - tx.fee, nonce := a.nonce + 1)]
  {
  }

  /** An accepted transfer leaves every account it does not name as it was. */
  lemma TransferStepFrame(m: Ledger, tx: Transfer, tokenID: nat, k: int)
    requires TransferStep(m, tx, tokenID).Ok?
    requires k in m && k != tx.fromIndex && k != tx.toIndex
    ensures TransferStep(m, tx, tokenID).value[k] == m[k]
  {
  }

  /** Which error a rejected transfer reports: the checks run in the order
      sender lookup, sender check, receiver lookup, receiver token. */
  lemma TransferStepError(m: Ledger, tx: Transfer, tokenID: nat)
    ensures var r := TransferStep(m, tx, tokenID);
      r.Err? ==>
        r.error ==
          if tx.fromIndex !in m then NotFound
          else if ValidateSender(m[tx.fromIndex], tokenID, tx.amount, tx.fee).Fail? then
            ValidateSender(m[tx.fromIndex], tokenID, tx.amount, tx.fee).error
          else if tx.toIndex !in m then NotFound
          else WrongTokenID
  {
  }

  // ---------------------------------------------------------------------
  // The batch loop
  // ---------------------------------------------------------------------

  /** One more transfer: it is accepted exactly when processTransfer
      succeeds against the ledger the earlier transfers left; if it fails,
      accepted list and ledger are those from before its checkpoint. */
  lemma RunAppend(m: Ledger, txs: seq<Transfer>, tx: Transfer, tokenID: nat)
    ensures var prev := Run(m, txs, tokenID);
      var step := TransferStep(prev.ledger, tx, tokenID);
      Run(m, txs + [tx], tokenID) ==
        if step.Ok? then Progress(prev.accepted + [tx], step.value) else prev
  {
  }

  /** Running a + b is running a and then b from the ledger a left: the
      transfers accepted in a stay accepted whatever follows, and the later
      ones are judged against the ledger the earlier ones left. */
  lemma {:induction false} RunConcat(m: Ledger, a: seq<Transfer>, b: seq<Transfer>, tokenID: nat)
    ensures var pa := Run(m, a, tokenID);
      var pb := Run(pa.ledger, b, tokenID);
      Run(m, a + b, tokenID) == Progress(pa.accepted + pb.accepted, pb.ledger)
    decreases |b|
  {
    if b == [] {
      assert a + b == a;
      assert Run(m, a, tokenID).accepted + [] == Run(m, a, tokenID).accepted;
    } else {
      var init := b[..|b| - 1];
      RunConcat(m, a, init, tokenID);
      RunConcatStep(m, a, init, b[|b| - 1], tokenID);
      assert init + [b[|b| - 1]] == b;
    }
  }

  /** Running a + b equals running a and then b from the ledger a left. */
  ghost predicate ConcatHolds(m: Ledger, a: seq<Transfer>, b: seq<Transfer>, tokenID: nat)
  {
    var pa := Run(m, a, tokenID);
    var pb := Run(pa.ledger, b, tokenID);
    Run(m, a + b, tokenID) == Progress(pa.accepted + pb.accepted, pb.ledger)
  }

  lemma RunConcatStep(m: Ledger, a: seq<Transfer>, b: seq<Transfer>, tx: Transfer, tokenID: nat)
    requires ConcatHolds(m, a, b, tokenID)
    ensures ConcatHolds(m, a, b + [tx], tokenID)
  {
    var pa := Run(m, a, tokenID);
    var pb := Run(pa.ledger, b, tokenID);
    assert a + (b + [tx]) == (a + b) + [tx];
    RunAppend(m, a + b, tx, tokenID);
    RunAppend(pa.ledger, b, tx, tokenID);
    assert (pa.accepted + pb.accepted) + [tx] == pa.accepted + (pb.accepted + [tx]);
  }

  /** An account that no transfer of the batch names keeps its entry
      through the whole loop. */
  lemma {:induction false} RunUntouched(m: Ledger, txs: seq<Transfer>, tokenID: nat, k: int)
    requires k in m
    requires forall i :: 0 <= i < |txs| ==> txs[i].fromIndex != k && txs[i].toIndex != k
    ensures k in Run(m, txs, tokenID).ledger && Run(m, txs, tokenID).ledger[k] == m[k]
    decreases |txs|
  {
    if txs != [] {
      var init := txs[..|txs| - 1];
      var tx := txs[|txs| - 1];
      assert txs == init + [tx];
      RunUntouched(m, init, tokenID, k);
      RunAppend(m, init, tx, tokenID);
      var prev := Run(m, init, tokenID);
      if TransferStep(prev.ledger, tx, tokenID).Ok? {
        TransferStepFrame(prev.ledger, tx, tokenID, k);
      }
    }
  }

  /** Rejection is repeatable: a transfer rejected against a ledger is
      rejected again when offered twice in a row, and leaves no trace. */
  lemma RejectionRepeats(m: Ledger, tx: Transfer, tokenID: nat)
    requires TransferStep(m, tx, tokenID).Err?
    ensures Run(m, [tx, tx], tokenID) == Progress([], m)
  {
    RunAppend(m, [], tx, tokenID);
    assert [] + [tx] == [tx];
    RunAppend(m, [tx], tx, tokenID);
    assert [tx] + [tx] == [tx, tx];
  }

  /** Over the whole loop, the ledger's total drops by exactly the fees of
      the accepted transfers. */
  lemma {:induction false} RunTotal(m: Ledger, txs: seq<Transfer>, tokenID: nat)
    ensures Total(Run(m, txs, tokenID).ledger) + SumFees(Run(m, txs, tokenID).accepted) == Total(m)
    decreases |txs|
  {
    if txs != [] {
      var init := txs[..|txs| - 1];
      var tx := txs[|txs| - 1];
      assert txs == init + [tx];
      RunTotal(m, init, tokenID);
      RunAppend(m, init, tx, tokenID);
      var prev := Run(m, init, tokenID);
      if TransferStep(prev.ledger, tx, tokenID).Ok? {
        TransferStepTotal(prev.ledger, tx, tokenID);
        assert (prev.accepted + [tx])[..|prev.accepted|] == prev.accepted;
      }
    }
  }

  /** Whether tx succeeds against the ledger the loop leaves after the
      transfers in before. */
  ghost predicate SucceedsAfter(m: Ledger, before: seq<Transfer>, tx: Transfer, tokenID: nat)
  {
    TransferStep(Run(m, before, tokenID).ledger, tx, tokenID).Ok?
  }

  /** For each position of the input, whether its transfer was accepted. */
  ghost function Flags(m: Ledger, txs: seq<Transfer>, tokenID: nat): (f: seq<bool>)
    ensures |f| == |txs|
    decreases |txs|
  {
    if txs == [] then []
    else
      var n := |txs| - 1;
      Flags(m, txs[..n], tokenID) + [SucceedsAfter(m, txs[..n], txs[n], tokenID)]
  }

  /** The transfers whose flag is set, in order. */
  function Keep(txs: seq<Transfer>, f: seq<bool>): seq<Transfer>
    requires |f| == |txs|
    decreases |txs|
  {
    if txs == [] then []
    else
      var n := |txs| - 1;
      Keep(txs[..n], f[..n]) + (if f[n] then [txs[n]] else [])
  }

  /** The positions whose flag is set, in increasing order. */
  function TruePositions(f: seq<bool>): seq<nat>
    decreases |f|
  {
    if f == [] then []
    else
      var n := |f| - 1;
      TruePositions(f[..n]) + (if f[n] then [n] else [])
  }

  /** acc is the list of txs's transfers at the positions pos. */
  ghost predicate Picks(acc: seq<Transfer>, pos: seq<nat>, txs: seq<Transfer>)
  {
    |pos| == |acc| && forall j :: 0 <= j < |pos| ==> pos[j] < |txs| && acc[j] == txs[pos[j]]
  }

  ghost predicate StrictlyIncreasing(pos: seq<nat>)
  {
    forall j, k :: 0 <= j < k < |pos| ==> pos[j] < pos[k]
  }

  /** Keeping the flagged transfers picks them at the flagged positions,
      which increase strictly and are exactly the flagged ones. */
  lemma {:induction false} KeepPicks(txs: seq<Transfer>, f: seq<bool>)
    requires |f| == |txs|
    ensures Picks(Keep(txs, f), TruePositions(f), txs)
    ensures StrictlyIncreasing(TruePositions(f))
    ensures forall i :: 0 <= i < |f| ==> (i in TruePositions(f) <==> f[i])
    decreases |txs|
  {
    if txs != [] {
      var n := |txs| - 1;
      KeepPicks(txs[..n], f[..n]);
      var pos := TruePositions(f[..n]);
      assert n !in pos;
    }
  }

  lemma PrefixOfPrefix(s: seq<Transfer>, n: nat, i: nat)
    requires i < n <= |s|
    ensures s[..n][..i] == s[..i] && s[..n][i] == s[i]
  {
  }

  /** The transfer at position i was flagged exactly when it succeeds against
      the ledger left by the transfers before it. */
  lemma {:induction false} FlagsAt(m: Ledger, txs: seq<Transfer>, tokenID: nat, i: nat)
    requires i < |txs|
    ensures Flags(m, txs, tokenID)[i] == SucceedsAfter(m, txs[..i], txs[i], tokenID)
    decreases |txs|
  {
    var n := |txs| - 1;
    var init := txs[..n];
    var f := Flags(m, txs, tokenID);
    var g := Flags(m, init, tokenID);
    assert f == g + [SucceedsAfter(m, init, txs[n], tokenID)];
    if i < n {
      assert f[i] == g[i];
      FlagsAt(m, init, tokenID, i);
      PrefixOfPrefix(txs, n, i);
    }
  }

  /** The loop's accepted list is the input with exactly the flagged
      transfers kept. */
  lemma {:induction false} RunKeeps(m: Ledger, txs: seq<Transfer>, tokenID: nat)
    ensures Run(m, txs, tokenID).accepted == Keep(txs, Flags(m, txs, tokenID))
    decreases |txs|
  {
    if txs != [] {
      var n := |txs| - 1;
      var init := txs[..n];
      var f := Flags(m, txs, tokenID);
      var g := Flags(m, init, tokenID);
      RunKeeps(m, init, tokenID);
      assert f == g + [SucceedsAfter(m, init, txs[n], tokenID)];
      assert f[..n] == g;
      assert Keep(txs, f) == Keep(init, g) + (if f[n] then [txs[n]] else []);
      assert txs == init + [txs[n]];
      RunAppend(m, init, txs[n], tokenID);
    }
  }

  /** The accepted list is the input list's transfers at strictly
      increasing positions, so it keeps their relative order; the transfer
      at position i is among them exactly when processTransfer succeeds
      against the ledger left by the transfers before position i. */
  lemma RunAcceptedInOrder(m: Ledger, txs: seq<Transfer>, tokenID: nat)
    ensures var pos := TruePositions(Flags(m, txs, tokenID));
      Picks(Run(m, txs, tokenID).accepted, pos, txs) && StrictlyIncreasing(pos) &&
      forall i :: 0 <= i < |txs| ==> (i in pos <==> SucceedsAfter(m, txs[..i], txs[i], tokenID))
  {
    var f := Flags(m, txs, tokenID);
    RunKeeps(m, txs, tokenID);
    KeepPicks(txs, f);
    AcceptedPositions(m, txs, tokenID);
  }

  /** Position i is flagged exactly when its transfer succeeds after the
      transfers before it. */
  lemma AcceptedPositions(m: Ledger, txs: seq<Transfer>, tokenID: nat)
    ensures var pos := TruePositions(Flags(m, txs, tokenID));
      forall i :: 0 <= i < |txs| ==> (i in pos <==> SucceedsAfter(m, txs[..i], txs[i], tokenID))
  {
    var f := Flags(m, txs, tokenID);
    KeepPicks(txs, f);
    forall i | 0 <= i < |txs|
      ensures f[i] == SucceedsAfter(m, txs[..i], txs[i], tokenID)
    {
      FlagsAt(m, txs, tokenID, i);
    }
  }

  // ---------------------------------------------------------------------
  // The whole batch call
  // ---------------------------------------------------------------------

  /** A fee receiver that no transfer of the batch names ends the call with
      its starting state plus exactly the fees of the accepted transfers:
      same nonce, token and key, and the batch succeeds. */
  lemma CommitFeeCredit(txs: seq<Transfer>, feeReceiverID: int, m: Ledger)
    requires feeReceiverID in m
    requires forall i :: 0 <= i < |txs| ==>
               txs[i].fromIndex != feeReceiverID && txs[i].toIndex != feeReceiverID
    ensures var c := TransferCommit(txs, feeReceiverID, m);
      c.result.Ok? &&
      c.ledger[feeReceiverID] ==
        m[feeReceiverID].(balance := m[feeReceiverID].balance + SumFees(c.result.value))
  {
    RunUntouched(m, txs, m[feeReceiverID].tokenID, feeReceiverID);
  }

  /** A successful batch conserves the sum of all balances: what leaves the
      senders reaches the receivers and the fee receiver. */
  lemma CommitTotal(txs: seq<Transfer>, feeReceiverID: int, m: Ledger)
    requires TransferCommit(txs, feeReceiverID, m).result.Ok?
    ensures Total(TransferCommit(txs, feeReceiverID, m).ledger) == Total(m)
  {
    var tokenID := m[feeReceiverID].tokenID;
    var p := Run(m, txs, tokenID);
    RunTotal(m, txs, tokenID);
    ReceiverStepTotal(p.ledger, feeReceiverID, SumFees(p.accepted), tokenID);
  }

  /** A successful batch keeps every account's token and public key, and no
      nonce goes down. */
  lemma CommitEvolves(txs: seq<Transfer>, feeReceiverID: int, m: Ledger)
    requires TransferCommit(txs, feeReceiverID, m).result.Ok?
    ensures Evolves(m, TransferCommit(txs, feeReceiverID, m).ledger)
  {
  }

  // ---------------------------------------------------------------------
  // Worked examples
  // ---------------------------------------------------------------------

  /** Balance 100, amount 50, fee 5, matching token: the sender is left
      with 45 and the receiver gains 50. Balance 10 instead: the transfer is
      rejected with InsufficientFund. */
  lemma SingleTransferExamples()
    ensures var m := map[0 := Account(0, 7, 100, 3), 1 := Account(1, 7, 20, 0)];
      var r := TransferStep(m, Transfer(0, 1, 50, 5, 3), 7);
      r.Ok? && r.value[0].balance == 45 && r.value[0].nonce == 4 && r.value[1].balance == 70
    ensures var m := map[0 := Account(0, 7, 10, 3), 1 := Account(1, 7, 20, 0)];
      TransferStep(m, Transfer(0, 1, 50, 5, 3), 7) == Err(InsufficientFund)
  {
  }

  /** The ledger and batch of the example below: accounts 0, 2 and the fee
      receiver 9 hold token 7, account 1 holds token 8. */
  const ExampleLedger: Ledger :=
    map[0 := Account(0, 7, 100, 0), 1 := Account(1, 8, 100, 0),
        2 := Account(2, 7, 0, 0), 9 := Account(9, 7, 0, 0)]
  const ExampleBatch: seq<Transfer> :=
    [Transfer(0, 2, 10, 1, 0), Transfer(1, 2, 10, 2, 0), Transfer(0, 2, 10, 3, 1)]
  const ExampleAfterFirst: Ledger :=
    ExampleLedger[0 := Account(0, 7, 89, 1)][2 := Account(2, 7, 10, 0)]
  const ExampleAfterThird: Ledger :=
    ExampleAfterFirst[0 := Account(0, 7, 76, 2)][2 := Account(2, 7, 20, 0)]

  lemma ExampleBatchPrefixes()
    ensures [] + [ExampleBatch[0]] == ExampleBatch[..1]
    ensures ExampleBatch[..1] + [ExampleBatch[1]] == ExampleBatch[..2]
    ensures ExampleBatch[..2] + [ExampleBatch[2]] == ExampleBatch
  {
  }

  lemma ExampleFirstTransfer()
    ensures TransferStep(ExampleLedger, ExampleBatch[0], 7) == Ok(ExampleAfterFirst)
  {
    var debited := ExampleLedger[0 := Account(0, 7, 89, 1)];
    assert SenderStep(ExampleLedger, 0, 7, 10, 1) == Ok(debited);
    assert ReceiverStep(debited, 2, 10, 7) == Ok(ExampleAfterFirst);
  }

  lemma ExampleThirdTransfer()
    ensures TransferStep(ExampleAfterFirst, ExampleBatch[2], 7) == Ok(ExampleAfterThird)
  {
    var debited := ExampleAfterFirst[0 := Account(0, 7, 76, 2)];
    assert SenderStep(ExampleAfterFirst, 0, 7, 10, 3) == Ok(debited);
    assert ReceiverStep(debited, 2, 10, 7) == Ok(ExampleAfterThird);
  }

  lemma ExampleFirstStep()
    ensures Run(ExampleLedger, ExampleBatch[..1], 7) == Progress([ExampleBatch[0]], ExampleAfterFirst)
  {
    RunAppend(ExampleLedger, [], ExampleBatch[0], 7);
    ExampleBatchPrefixes();
    ExampleFirstTransfer();
  }

  lemma ExampleSecondStep()
    ensures Run(ExampleLedger, ExampleBatch[..2], 7) == Progress([ExampleBatch[0]], ExampleAfterFirst)
  {
    ExampleFirstStep();
    RunAppend(ExampleLedger, ExampleBatch[..1], ExampleBatch[1], 7);
    ExampleBatchPrefixes();
    assert TransferStep(ExampleAfterFirst, ExampleBatch[1], 7) == Err(WrongTokenID);
  }

  lemma ExampleThirdStep()
    ensures Run(ExampleLedger, ExampleBatch, 7) ==
            Progress([ExampleBatch[0], ExampleBatch[2]], ExampleAfterThird)
  {
    ExampleSecondStep();
    RunAppend(ExampleLedger, ExampleBatch[..2], ExampleBatch[2], 7);
    ExampleBatchPrefixes();
    ExampleThirdTransfer();
  }

  /** A batch of three with fees 1, 2 and 3 whose second sender holds a
      different token: the first and third are accepted, the fee receiver
      is credited 1 + 3 = 4, and the rejected sender is untouched. */
  lemma BatchExample()
    ensures var c := TransferCommit(ExampleBatch, 9, ExampleLedger);
      c.result == Ok([ExampleBatch[0], ExampleBatch[2]]) && c.ledger[9].balance == 4 &&
      c.ledger[0].balance == 76 && c.ledger[1] == ExampleLedger[1] && c.ledger[2].balance == 20
  {
    ExampleThirdStep();
    ExampleFees();
    ExampleFeeCredit();
  }

  lemma ExampleFees()
    ensures SumFees([ExampleBatch[0], ExampleBatch[2]]) == 4
  {
    var acc := [ExampleBatch[0], ExampleBatch[2]];
    assert [ExampleBatch[0]][..0] == [];
    assert SumFees([ExampleBatch[0]]) == 1;
    assert acc[..1] == [ExampleBatch[0]];
  }

  lemma ExampleFeeCredit()
    ensures ReceiverStep(ExampleAfterThird, 9, 4, 7) == Ok(ExampleAfterThird[9 := Account(9, 7, 4, 0)])
  {
    assert ExampleAfterThird[9] == Account(9, 7, 0, 0);
  }
}
