/** Values shared by the state-transition engine: account states, transfer
    transactions, the error kinds a transition can fail with, and the ledger
    as a map from account index to account state. */
module Accounts {

  /** One ledger entry. All four attributes are arbitrary-precision and
      non-negative. */
  datatype Account = Account(pubkeyID: nat, tokenID: nat, balance: nat, nonce: nat)

  /** A transfer transaction. It carries no token ID: the token is inferred
      from the batch's fee receiver. The nonce is carried but never checked. */
  datatype Transfer = Transfer(fromIndex: int, toIndex: int, amount: nat, fee: nat, nonce: nat)

  /** The exceptions a transition can throw. */
  datatype TransitionError = ZeroAmount | InsufficientFund | WrongTokenID | NotFound

  /** A check or ledger step that returns nothing: it passes, or throws. */
  datatype Outcome = Pass | Fail(error: TransitionError)

  /** A computation that yields a value or throws. */
  datatype Result<T> = Ok(value: T) | Err(error: TransitionError)

  /** The storage engine's contents: account index to account state. */
  type Ledger = map<int, Account>

  /** The sum of the balances of every account in the ledger. */
  ghost function Total(m: Ledger): nat
    decreases |m|
  {
    if m == map[] then 0
    else
      NonEmptyHasKey(m);
      var k :| k in m;
      m[k].balance + Total(m - {k})
  }

  lemma NonEmptyHasKey(m: Ledger)
    requires m != map[]
    ensures exists k :: k in m
  {
    if forall k :: k !in m {
      assert false;
    }
  }

  /** Any entry can be split off first when summing balances. */
  lemma {:induction false} TotalRemove(m: Ledger, k: int)
    requires k in m
    ensures Total(m) == m[k].balance + Total(m - {k})
    decreases |m|
  {
    var j :| j in m && Total(m) == m[j].balance + Total(m - {j});
    if j != k {
      assert k in m - {j};
      TotalRemove(m - {j}, k);
      assert j in m - {k};
      TotalRemove(m - {k}, j);
      assert m - {j} - {k} == m - {k} - {j};
    }
  }

  /** Overwriting an existing entry changes the total by the difference of
      the two balances; the other entries contribute as before. */
  lemma TotalUpdate(m: Ledger, k: int, a: Account)
    requires k in m
    ensures Total(m[k := a]) + m[k].balance == Total(m) + a.balance
  {
    TotalRemove(m, k);
    TotalRemove(m[k := a], k);
    assert m[k := a] - {k} == m - {k};
  }
}
