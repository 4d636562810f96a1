/**
 * `createTransactionCollector` (src/application/txTools/createTransaction.ts):
 * a closure holding a raw-transaction slot and three lists that its
 * operations push into. Spawning adds the front instructions followed by the
 * end instructions reversed; the reversal happens in place on the end list.
 */
module TransactionCollector {
  import opened Solana

  /** The elements of `s` in the opposite order. */
  function Reverse<T>(s: seq<T>): (r: seq<T>)
    ensures |r| == |s|
  {
    if s == [] then [] else Reverse(s[1..]) + [s[0]]
  }

  lemma {:induction false} ReverseAt<T>(s: seq<T>, k: nat)
    requires k < |s|
    ensures Reverse(s)[k] == s[|s| - 1 - k]
  {
    if k < |s| - 1 {
      ReverseAt(s[1..], k);
    }
  }

  /** Reversing twice gives the original order back. */
  lemma ReverseReverse<T>(s: seq<T>)
    ensures Reverse(Reverse(s)) == s
  {
    forall k | 0 <= k < |s| ensures Reverse(Reverse(s))[k] == s[k] {
      ReverseAt(Reverse(s), k);
      ReverseAt(s, |s| - 1 - k);
    }
  }

  /** The instructions one spawn adds: the front list, then the end list reversed. */
  function SpawnedInstructions(front: seq<Instruction>, end: seq<Instruction>): (r: seq<Instruction>)
    ensures |r| == |front| + |end|
    ensures r[..|front|] == front
    ensures forall k :: |front| <= k < |r| ==> r[k] == end[|r| - 1 - k]
  {
    forall k | 0 <= k < |end| ensures Reverse(end)[k] == end[|end| - 1 - k] {
      ReverseAt(end, k);
    }
    assert forall k :: |front| <= k < |front| + |end| ==> (front + Reverse(end))[k] == Reverse(end)[k - |front|];
    front + Reverse(end)
  }

  /**
   * Because the first spawn reverses the end list in place, a second spawn
   * adds the end instructions in the order they were added.
   */
  lemma SecondSpawnSeesOriginalOrder(front: seq<Instruction>, end: seq<Instruction>)
    ensures SpawnedInstructions(front, Reverse(end)) == front + end
  {
    ReverseReverse(end);
  }

  /** An item of the transaction queue: an SDK inner transaction, or a spawned web3 transaction. */
  datatype QueueItem = Inner(tx: InnerTransaction) | Legacy(transaction: Transaction)

  function AsQueue(inner: seq<InnerTransaction>): (q: seq<QueueItem>)
    ensures |q| == |inner| && forall k :: 0 <= k < |q| ==> q[k] == Inner(inner[k])
  {
    if inner == [] then [] else [Inner(inner[0])] + AsQueue(inner[1..])
  }

  class TransactionPiecesCollector {
    const defaultRawTransaction: Transaction?
    var innerTransaction: Transaction?
    var frontInstructions: seq<Instruction>
    var endInstructions: seq<Instruction>
    var innerTransactions: seq<InnerTransaction>

    constructor (defaultRaw: Transaction?)
      ensures defaultRawTransaction == defaultRaw && innerTransaction == null
      ensures frontInstructions == [] && endInstructions == [] && innerTransactions == []
    {
      defaultRawTransaction := defaultRaw;
      innerTransaction := null;
      frontInstructions, endInstructions, innerTransactions := [], [], [];
    }

    predicate HasInstructions()
      reads this
    {
      |frontInstructions| > 0 || |endInstructions| > 0
    }

    method SetRawTransaction(rawTransaction: Transaction)
      modifies this
      ensures innerTransaction == rawTransaction
      ensures frontInstructions == old(frontInstructions) && endInstructions == old(endInstructions)
      ensures innerTransactions == old(innerTransactions)
    {
      innerTransaction := rawTransaction;
    }

    method AddInstruction(instructions: seq<Instruction>)
      modifies this
      ensures frontInstructions == old(frontInstructions) + instructions
      ensures innerTransaction == old(innerTransaction) && endInstructions == old(endInstructions)
      ensures innerTransactions == old(innerTransactions)
    {
      frontInstructions := frontInstructions + instructions;
    }

    method AddEndInstruction(instructions: seq<Instruction>)
      modifies this
      ensures endInstructions == old(endInstructions) + instructions
      ensures innerTransaction == old(innerTransaction) && frontInstructions == old(frontInstructions)
      ensures innerTransactions == old(innerTransactions)
    {
      endInstructions := endInstructions + instructions;
    }

    method AddInnerTransactions(transactions: seq<InnerTransaction>)
      modifies this
      ensures innerTransactions == old(innerTransactions) + transactions
      ensures innerTransaction == old(innerTransaction) && frontInstructions == old(frontInstructions)
      ensures endInstructions == old(endInstructions)
    {
      innerTransactions := innerTransactions + transactions;
    }

    /** The one transaction a spawn may add to: the raw slot, else the default transaction. */
    function Target(): set<Transaction>
      reads this
    {
      if innerTransaction != null then {innerTransaction}
      else if defaultRawTransaction != null then {defaultRawTransaction}
      else {}
    }

    /**
     * `spawnTransaction`: take the raw-transaction slot, else the default
     * transaction, else a new one; when there are instructions, reverse the
     * end list in place and add the front list followed by it.
     */
    method SpawnTransaction() returns (tx: Transaction)
      modifies this, Target()
      ensures innerTransaction == old(innerTransaction)
      ensures old(innerTransaction) != null && defaultRawTransaction != null && defaultRawTransaction != old(innerTransaction) ==>
                unchanged(defaultRawTransaction)
      ensures !old(HasInstructions()) ==> unchanged(old(Target()))
      ensures frontInstructions == old(frontInstructions) && innerTransactions == old(innerTransactions)
      ensures old(innerTransaction) != null ==> tx == old(innerTransaction)
      ensures old(innerTransaction) == null && defaultRawTransaction != null ==> tx == defaultRawTransaction
      ensures old(innerTransaction) == null && defaultRawTransaction == null ==> fresh(tx)
      ensures !old(HasInstructions()) ==> endInstructions == old(endInstructions)
      ensures !old(HasInstructions()) && old(innerTransaction) != null ==>
                tx.instructions == old(innerTransaction.instructions)
      ensures !old(HasInstructions()) && old(innerTransaction) == null && defaultRawTransaction != null ==>
                tx.instructions == old(defaultRawTransaction.instructions)
      ensures !old(HasInstructions()) && old(innerTransaction) == null && defaultRawTransaction == null ==>
                tx.instructions == []
      ensures old(HasInstructions()) ==> endInstructions == Reverse(old(endInstructions))
      ensures old(HasInstructions()) && old(innerTransaction) != null ==>
                tx.instructions == old(innerTransaction.instructions) +
                                   SpawnedInstructions(old(frontInstructions), old(endInstructions))
      ensures old(HasInstructions()) && old(innerTransaction) == null && defaultRawTransaction != null ==>
                tx.instructions == old(defaultRawTransaction.instructions) +
                                   SpawnedInstructions(old(frontInstructions), old(endInstructions))
      ensures old(HasInstructions()) && old(innerTransaction) == null && defaultRawTransaction == null ==>
                tx.instructions == SpawnedInstructions(old(frontInstructions), old(endInstructions))
    {
      if innerTransaction != null {
        tx := innerTransaction;
      } else if defaultRawTransaction != null {
        tx := defaultRawTransaction;
      } else {
        tx := new Transaction();
      }
      if |frontInstructions| > 0 || |endInstructions| > 0 {
        endInstructions := Reverse(endInstructions);
        tx.Add(frontInstructions + endInstructions);
      }
    }

    /**
     * `spawnTransactionQueue`: the inner transactions alone when there is no
     * instruction, otherwise the inner transactions followed by one spawned
     * transaction.
     */
    method SpawnTransactionQueue() returns (queue: seq<QueueItem>)
      modifies this, Target()
      ensures innerTransaction == old(innerTransaction)
      ensures innerTransactions == old(innerTransactions) && frontInstructions == old(frontInstructions)
      ensures !old(HasInstructions()) ==> queue == AsQueue(innerTransactions) && endInstructions == old(endInstructions)
      ensures !old(HasInstructions()) ==> unchanged(old(Target()))
      ensures old(innerTransaction) != null && defaultRawTransaction != null && defaultRawTransaction != old(innerTransaction) ==>
                unchanged(defaultRawTransaction)
      ensures old(HasInstructions()) ==>
                && |queue| == |innerTransactions| + 1
                && queue[..|innerTransactions|] == AsQueue(innerTransactions)
                && queue[|innerTransactions|].Legacy?
                && endInstructions == Reverse(old(endInstructions))
                && (old(innerTransaction) != null ==>
                      queue[|innerTransactions|].transaction == old(innerTransaction) &&
                      old(innerTransaction).instructions == old(innerTransaction.instructions) +
                        SpawnedInstructions(old(frontInstructions), old(endInstructions)))
                && (old(innerTransaction) == null && defaultRawTransaction != null ==>
                      queue[|innerTransactions|].transaction == defaultRawTransaction &&
                      defaultRawTransaction.instructions == old(defaultRawTransaction.instructions) +
                        SpawnedInstructions(old(frontInstructions), old(endInstructions)))
                && (old(innerTransaction) == null && defaultRawTransaction == null ==>
                      fresh(queue[|innerTransactions|].transaction) &&
                      queue[|innerTransactions|].transaction.instructions ==
                        SpawnedInstructions(old(frontInstructions), old(endInstructions)))
    {
      if |frontInstructions| > 0 || |endInstructions| > 0 {
        var tx := SpawnTransaction();
        queue := AsQueue(innerTransactions) + [Legacy(tx)];
      } else {
        queue := AsQueue(innerTransactions);
      }
    }
  }
}
