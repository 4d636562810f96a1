/**
 * The swap transaction builder of src/application/swap/txSwap.ts: choosing
 * the up and down sides, the ordered preconditions, the compute-limit
 * prefix added to each inner transaction, the per-transaction
 * Setup/Swap/Cleanup description, and the slippage-error test.
 */
module TxSwap {
  import opened Wrappers
  import opened Solana
  import TransactionCollector

  // ---------------------------------------------------------------- sides and preconditions

  datatype Coin = Coin(mint: string, symbol: string)

  /** The swap store fields `txSwap` reads; amounts are the decimal values the user typed, if any. */
  datatype SwapState = SwapState(coin1: Option<Coin>, coin2: Option<Coin>,
                                 coin1Amount: Option<real>, coin2Amount: Option<real>,
                                 directionReversed: bool, hasRoute: bool, hasRouteType: bool)

  /** `amount || '0'`: a missing or zero amount counts as zero. */
  function OrZero(amount: Option<real>): (r: real)
    ensures amount.Some? ==> r == amount.value
    ensures amount.None? ==> r == 0.0
  {
    if amount.Some? && amount.value != 0.0 then amount.value else 0.0
  }

  datatype Sides = Sides(upCoin: Option<Coin>, upCoinAmount: real, downCoin: Option<Coin>, downCoinAmount: real)

  /** The up side is coin 1 unless the direction is reversed, in which case the two sides trade places. */
  function ChooseSides(s: SwapState): (r: Sides)
    ensures !s.directionReversed ==> r == Sides(s.coin1, OrZero(s.coin1Amount), s.coin2, OrZero(s.coin2Amount))
    ensures s.directionReversed ==> r == Sides(s.coin2, OrZero(s.coin2Amount), s.coin1, OrZero(s.coin1Amount))
  {
    var upCoin := if s.directionReversed then s.coin2 else s.coin1;
    var upCoinAmount := OrZero(if s.directionReversed then s.coin2Amount else s.coin1Amount);
    var downCoin := if s.directionReversed then s.coin1 else s.coin2;
    var downCoinAmount := OrZero(if s.directionReversed then s.coin1Amount else s.coin2Amount);
    Sides(upCoin, upCoinAmount, downCoin, downCoinAmount)
  }

  /** Flipping the direction exchanges the up and down sides. */
  lemma ReversingSwapsSides(s: SwapState)
    ensures var a, b := ChooseSides(s), ChooseSides(s.(directionReversed := !s.directionReversed));
            b == Sides(a.downCoin, a.downCoinAmount, a.upCoin, a.upCoinAmount)
  {
  }

  /** The assertion messages of `txSwap`, in the order they are checked. */
  datatype SwapError =
    | UpAmountNotPositive
    | DownAmountNotPositive
    | NoUpCoin
    | NoDownCoin
    | SameMint
    | NoRoute
    | NotEnoughBalance(symbol: string)
    | NoRouteType

  /**
   * The first failing assertion before the transaction is built, or `None`
   * when all pass. `hasEnoughBalance` stands for the wallet's balance check.
   */
  function SwapPrecheck(s: SwapState, hasEnoughBalance: (Coin, real) -> bool): (r: Option<SwapError>)
    ensures var sides := ChooseSides(s);
            r.None? <==> sides.upCoinAmount > 0.0 && sides.downCoinAmount > 0.0
                         && sides.upCoin.Some? && sides.downCoin.Some?
                         && sides.upCoin.value.mint != sides.downCoin.value.mint
                         && s.hasRoute && hasEnoughBalance(sides.upCoin.value, sides.upCoinAmount)
                         && s.hasRouteType
    ensures ChooseSides(s).upCoinAmount <= 0.0 ==> r == Some(UpAmountNotPositive)
    ensures ChooseSides(s).upCoinAmount > 0.0 && ChooseSides(s).downCoinAmount <= 0.0
            ==> r == Some(DownAmountNotPositive)
  {
    var sides := ChooseSides(s);
    if !(sides.upCoinAmount > 0.0) then Some(UpAmountNotPositive)
    else if !(sides.downCoinAmount > 0.0) then Some(DownAmountNotPositive)
    else if sides.upCoin.None? then Some(NoUpCoin)
    else if sides.downCoin.None? then Some(NoDownCoin)
    else if sides.upCoin.value.mint == sides.downCoin.value.mint then Some(SameMint)
    else if !s.hasRoute then Some(NoRoute)
    else if !hasEnoughBalance(sides.upCoin.value, sides.upCoinAmount) then Some(NotEnoughBalance(sides.upCoin.value.symbol))
    else if !s.hasRouteType then Some(NoRouteType)
    else None
  }

  /** Choosing the same mint on both sides is refused once amounts and coins are given. */
  lemma SameMintRefused(s: SwapState, hasEnoughBalance: (Coin, real) -> bool)
    requires ChooseSides(s).upCoinAmount > 0.0 && ChooseSides(s).downCoinAmount > 0.0
    requires ChooseSides(s).upCoin.Some? && ChooseSides(s).downCoin.Some?
    requires ChooseSides(s).upCoin.value.mint == ChooseSides(s).downCoin.value.mint
    ensures SwapPrecheck(s, hasEnoughBalance) == Some(SameMint)
  {
  }

  // ---------------------------------------------------------------- isSwapTransaction

  /** The ten swap instruction kinds. */
  predicate IsSwapType(t: InstructionType) {
    !t.OtherInstructionType?
  }

  /** `isSwapTransaction`: one of the ten swap kinds is among the transaction's instruction types. */
  function IsSwapTransaction(tx: InnerTransaction): (r: bool)
    ensures r <==> exists k :: 0 <= k < |tx.instructionTypes| && IsSwapType(tx.instructionTypes[k])
  {
    var types := tx.instructionTypes;
    var r := ClmmSwapBaseIn in types || ClmmSwapBaseOut in types || AmmV4Swap in types || AmmV4SwapBaseIn in types
             || AmmV4SwapBaseOut in types || AmmV5SwapBaseIn in types || AmmV5SwapBaseOut in types
             || RouteSwap1 in types || RouteSwap2 in types || RouteSwap in types;
    assert r ==> exists k :: 0 <= k < |types| && IsSwapType(types[k]);
    assert (exists k :: 0 <= k < |types| && IsSwapType(types[k])) ==> r by {
      if k :| 0 <= k < |types| && IsSwapType(types[k]) {
        assert types[k] in types;
      }
    }
    r
  }

  // ---------------------------------------------------------------- translationSwapTxDescription

  /** `findIndex(isSwapTransaction)`: the first swap's index, or -1. */
  function FindSwapIndex(txs: seq<InnerTransaction>): (r: int)
    ensures -1 <= r < |txs|
    ensures r == -1 <==> forall j :: 0 <= j < |txs| ==> !IsSwapTransaction(txs[j])
    ensures r >= 0 ==> IsSwapTransaction(txs[r]) && forall j :: 0 <= j < r ==> !IsSwapTransaction(txs[j])
  {
    if txs == [] then -1
    else if IsSwapTransaction(txs[0]) then 0
    else
      var rest := FindSwapIndex(txs[1..]);
      assert forall j :: 1 <= j < |txs| ==> txs[j] == txs[1..][j - 1];
      if rest == -1 then -1 else rest + 1
  }

  /** `allTxs.length - 1 - [...allTxs].reverse().findIndex(isSwapTransaction)` */
  function LastSwapIndex(txs: seq<InnerTransaction>): int {
    |txs| - 1 - FindSwapIndex(TransactionCollector.Reverse(txs))
  }

  /** The last swap's index, or the length when there is no swap. */
  lemma LastSwapIndexMeaning(txs: seq<InnerTransaction>)
    ensures var last := LastSwapIndex(txs);
            && 0 <= last <= |txs|
            && (last == |txs| <==> forall j :: 0 <= j < |txs| ==> !IsSwapTransaction(txs[j]))
            && (last < |txs| ==> IsSwapTransaction(txs[last])
                                 && forall j :: last < j < |txs| ==> !IsSwapTransaction(txs[j]))
  {
    var rev := TransactionCollector.Reverse(txs);
    forall k | 0 <= k < |txs| ensures rev[k] == txs[|txs| - 1 - k] {
      TransactionCollector.ReverseAt(txs, k);
    }
    forall j | 0 <= j < |txs| ensures txs[j] == rev[|txs| - 1 - j] {
    }
  }

  datatype Description = Setup | Swap | Cleanup

  /** `translationSwapTxDescription(tx, idx, allTxs)` */
  function TranslationSwapTxDescription(idx: int, allTxs: seq<InnerTransaction>): Description {
    var swapFirstIdx := FindSwapIndex(allTxs);
    var swapLastIdx := LastSwapIndex(allTxs);
    if idx < swapFirstIdx then Setup else if idx > swapLastIdx then Cleanup else Swap
  }

  /**
   * A transaction is Setup when no swap comes at or before it but one comes
   * later, Cleanup when a swap comes before it and none at or after it, and
   * Swap otherwise.
   */
  lemma DescriptionMeaning(idx: nat, txs: seq<InnerTransaction>)
    requires idx < |txs|
    ensures TranslationSwapTxDescription(idx, txs) == Setup
            <==> (forall j :: 0 <= j <= idx ==> !IsSwapTransaction(txs[j]))
                 && exists j :: idx < j < |txs| && IsSwapTransaction(txs[j])
    ensures TranslationSwapTxDescription(idx, txs) == Cleanup
            <==> (forall j :: idx <= j < |txs| ==> !IsSwapTransaction(txs[j]))
                 && exists j :: 0 <= j < idx && IsSwapTransaction(txs[j])
  {
    LastSwapIndexMeaning(txs);
    var first, last := FindSwapIndex(txs), LastSwapIndex(txs);
    if first >= 0 {
      assert last < |txs| by {
        assert IsSwapTransaction(txs[first]);
      }
    }
  }

  /** With no swap transaction at all, every transaction is described as Swap. */
  lemma NoSwapMeansAllSwap(idx: nat, txs: seq<InnerTransaction>)
    requires idx < |txs|
    requires forall j :: 0 <= j < |txs| ==> !IsSwapTransaction(txs[j])
    ensures TranslationSwapTxDescription(idx, txs) == Swap
  {
    DescriptionMeaning(idx, txs);
  }

  function Rank(d: Description): nat {
    match d
    case Setup => 0
    case Swap => 1
    case Cleanup => 2
  }

  /** Along the queue the descriptions never go back: Setup..., then Swap..., then Cleanup... */
  lemma DescriptionsOrdered(i: nat, j: nat, txs: seq<InnerTransaction>)
    requires i <= j < |txs|
    ensures Rank(TranslationSwapTxDescription(i, txs)) <= Rank(TranslationSwapTxDescription(j, txs))
  {
  }

  // ---------------------------------------------------------------- checkSwapSlippageError

  /** The shape of `SignatureResult.err` that `checkSwapSlippageError` reads. */
  datatype InstructionErrorDetail = Custom(code: int) | OtherDetail(name: string)

  datatype TransactionError = NoError | InstructionError(index: int, detail: InstructionErrorDetail) | OtherError

  /** `checkSwapSlippageError`: a custom program error 38 or 6022; any other shape is not a slippage error. */
  function CheckSwapSlippageError(err: TransactionError): (r: bool)
    ensures r <==> err.InstructionError? && err.detail.Custom? && err.detail.code in {38, 6022}
  {
    match err
    case InstructionError(_, Custom(code)) => code == 38 || code == 6022
    case _ => false
  }

  // ---------------------------------------------------------------- compute-limit prefix

  /** Account keys equal to this program address are given the owner's key. */
  const MEMO_PROGRAM_ID: string := "MemoSq4gqABAXKb96qnH8TysNcWxMyWCqXgDLGmfcHr"

  function ReplaceMemoKeys(keys: seq<AccountMeta>, owner: string): (r: seq<AccountMeta>)
    ensures |r| == |keys|
    ensures forall k :: 0 <= k < |r| ==> r[k] == if keys[k].pubkey == MEMO_PROGRAM_ID then keys[k].(pubkey := owner) else keys[k]
  {
    seq(|keys|, k requires 0 <= k < |keys| =>
      if keys[k].pubkey == MEMO_PROGRAM_ID then keys[k].(pubkey := owner) else keys[k])
  }

  /** Each instruction rebuilt with the same program and data and its Memo keys replaced. */
  function RebuildInstructions(ins: seq<Instruction>, owner: string): (r: seq<Instruction>)
    ensures |r| == |ins|
    ensures forall k :: 0 <= k < |r| ==> r[k].programId == ins[k].programId && r[k].data == ins[k].data
    ensures forall k :: 0 <= k < |r| ==> r[k].keys == ReplaceMemoKeys(ins[k].keys, owner)
  {
    seq(|ins|, k requires 0 <= k < |ins| => Instruction(ins[k].programId, ReplaceMemoKeys(ins[k].keys, owner), ins[k].data))
  }

  /**
   * One iteration of the loop: a transaction whose first instruction is not
   * already from the compute-budget program, and which still fits with one
   * more instruction, gets the limit instruction in front.
   */
  function WithComputeLimit(tx: InnerTransaction, limitIns: Instruction, owner: string,
                            fits: seq<Instruction> -> bool): InnerTransaction
    requires tx.instructions != []
  {
    if tx.instructions[0].programId != limitIns.programId && fits([limitIns] + tx.instructions)
    then tx.(instructions := RebuildInstructions([limitIns] + tx.instructions, owner))
    else tx
  }

  /** Applying the prefix a second time changes nothing. */
  lemma WithComputeLimitIdempotent(tx: InnerTransaction, limitIns: Instruction, owner: string,
                                   fits: seq<Instruction> -> bool)
    requires tx.instructions != []
    ensures var once := WithComputeLimit(tx, limitIns, owner, fits);
            && once.instructions != []
            && WithComputeLimit(once, limitIns, owner, fits) == once
  {
  }

  /** A prefixed transaction has exactly one more instruction, the limit, and no Memo key left (unless the owner is Memo). */
  lemma WithComputeLimitShape(tx: InnerTransaction, limitIns: Instruction, owner: string,
                              fits: seq<Instruction> -> bool)
    requires tx.instructions != []
    requires tx.instructions[0].programId != limitIns.programId && fits([limitIns] + tx.instructions)
    requires owner != MEMO_PROGRAM_ID
    ensures var r := WithComputeLimit(tx, limitIns, owner, fits).instructions;
            && |r| == |tx.instructions| + 1
            && r[0].programId == limitIns.programId && r[0].data == limitIns.data
            && (forall k :: 1 <= k < |r| ==> r[k].programId == tx.instructions[k - 1].programId)
            && forall k, m :: 0 <= k < |r| && 0 <= m < |r[k].keys| ==> r[k].keys[m].pubkey != MEMO_PROGRAM_ID
  {
  }

  /**
   * The loop over `innerTransactions`, updating each element in place. An
   * element without instructions makes the source throw there; the model
   * stops and reports that index.
   */
  method PrependComputeLimit(innerTransactions: array<InnerTransaction>, limitIns: Instruction, owner: string,
                             fits: seq<Instruction> -> bool) returns (failedAt: Option<nat>)
    modifies innerTransactions
    ensures failedAt.None? ==> forall k :: 0 <= k < innerTransactions.Length ==>
              (old(innerTransactions[k]).instructions != []
               && innerTransactions[k] == WithComputeLimit(old(innerTransactions[k]), limitIns, owner, fits))
    ensures failedAt.Some? ==> var f := failedAt.value;
              && f < innerTransactions.Length && old(innerTransactions[f]).instructions == []
              && (forall k :: 0 <= k < f ==> (old(innerTransactions[k]).instructions != []
                   && innerTransactions[k] == WithComputeLimit(old(innerTransactions[k]), limitIns, owner, fits)))
              && forall k :: f <= k < innerTransactions.Length ==> innerTransactions[k] == old(innerTransactions[k])
  {
    var i := 0;
    while i < innerTransactions.Length
      invariant 0 <= i <= innerTransactions.Length
      invariant forall k :: 0 <= k < i ==> (old(innerTransactions[k]).instructions != []
                  && innerTransactions[k] == WithComputeLimit(old(innerTransactions[k]), limitIns, owner, fits))
      invariant forall k :: i <= k < innerTransactions.Length ==> innerTransactions[k] == old(innerTransactions[k])
    {
      var tx := innerTransactions[i];
      if tx.instructions == [] {
        return Some(i);
      }
      if tx.instructions[0].programId != limitIns.programId && fits([limitIns] + tx.instructions) {
        innerTransactions[i] := tx.(instructions := RebuildInstructions([limitIns] + tx.instructions, owner));
      }
      i := i + 1;
    }
    return None;
  }
}
