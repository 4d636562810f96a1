/**
 * The Solana and SDK values the transaction code handles, reduced to the
 * parts that code reads: instructions with their program and account keys,
 * the SDK's "inner simple transactions" with their instruction types, and the
 * web3 `Transaction` object that accumulates instructions in place.
 */
module Solana {

  datatype AccountMeta = AccountMeta(pubkey: string, isSigner: bool, isWritable: bool)

  datatype Instruction = Instruction(programId: string, keys: seq<AccountMeta>, data: seq<int>)

  /** The SDK's `InstructionType`: the ten swap kinds by name, every other kind by its own name. */
  datatype InstructionType =
    | ClmmSwapBaseIn
    | ClmmSwapBaseOut
    | AmmV4Swap
    | AmmV4SwapBaseIn
    | AmmV4SwapBaseOut
    | AmmV5SwapBaseIn
    | AmmV5SwapBaseOut
    | RouteSwap1
    | RouteSwap2
    | RouteSwap
    | OtherInstructionType(name: string)

  datatype InnerTransaction = InnerTransaction(instructions: seq<Instruction>, instructionTypes: seq<InstructionType>)

  /** A web3 `Transaction`: `add` appends instructions to the object itself. */
  class Transaction {
    var instructions: seq<Instruction>

    constructor ()
      ensures instructions == []
    {
      instructions := [];
    }

    method Add(more: seq<Instruction>)
      modifies this
      ensures instructions == old(instructions) + more
    {
      instructions := instructions + more;
    }
  }
}
