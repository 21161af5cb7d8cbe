/**
 * The program's instruction format (`Instruction::decode`): one tag byte, then, for
 * `Deposit` and `Withdraw`, the amount as exactly 8 little-endian bytes.
 */
module Instruction {
  import opened Bytes
  import opened Wrappers
  import opened Solana

  datatype Instruction = Initialize | CreateAccount | Deposit(amount: u64) | Withdraw(amount: u64)

  /** A decoded instruction together with the bytes that followed its tag. */
  datatype Decoded = Decoded(instruction: Instruction, rest: Bytes)

  const InitializeTag: u8 := 0
  const CreateAccountTag: u8 := 1
  const DepositTag: u8 := 2
  const WithdrawTag: u8 := 3

  /** `u64::from_le_bytes(rest.try_into()?)`: only a slice of exactly 8 bytes converts. */
  function AmountOf(rest: Bytes): (r: Option<u64>)
    ensures r.Some? <==> |rest| == 8
  {
    if |rest| == 8 then
      Pow256Eight();
      Some(FromLe(rest))
    else
      None
  }

  function Decode(data: Bytes): (r: Result<Decoded, ProgramError>)
    ensures r.Success? <==>
      |data| > 0 && (data[0] == InitializeTag || data[0] == CreateAccountTag ||
                     ((data[0] == DepositTag || data[0] == WithdrawTag) && |data| == 9))
    ensures r.Failure? ==> r.error == InvalidInstructionData
    ensures r.Success? ==> r.value.rest == data[1..]
  {
    if |data| == 0 then Failure(InvalidInstructionData)
    else
      var tag, rest := data[0], data[1..];
      if tag == InitializeTag then Success(Decoded(Initialize, rest))
      else if tag == CreateAccountTag then Success(Decoded(CreateAccount, rest))
      else if tag == DepositTag then
        match AmountOf(rest)
        case None => Failure(InvalidInstructionData)
        case Some(amount) => Success(Decoded(Deposit(amount), rest))
      else if tag == WithdrawTag then
        match AmountOf(rest)
        case None => Failure(InvalidInstructionData)
        case Some(amount) => Success(Decoded(Withdraw(amount), rest))
      else Failure(InvalidInstructionData)
  }

  /** The 8 payload bytes the program reads as `amount`. */
  function AmountBytes(amount: u64): (r: Bytes)
    ensures |r| == 8
  {
    ToLe(amount, 8)
  }

  /** Tags 0 and 1 decode whatever follows them, and hand back what follows unchanged. */
  lemma DecodeUnitTags(rest: Bytes)
    ensures Decode([InitializeTag] + rest) == Success(Decoded(Initialize, rest))
    ensures Decode([CreateAccountTag] + rest) == Success(Decoded(CreateAccount, rest))
  {
    assert ([InitializeTag] + rest)[1..] == rest;
    assert ([CreateAccountTag] + rest)[1..] == rest;
  }

  /** A deposit or withdraw instruction decodes to its amount, and the rest is the amount's bytes. */
  lemma DecodeAmountTags(amount: u64)
    ensures Decode([DepositTag] + AmountBytes(amount)) == Success(Decoded(Deposit(amount), AmountBytes(amount)))
    ensures Decode([WithdrawTag] + AmountBytes(amount)) == Success(Decoded(Withdraw(amount), AmountBytes(amount)))
  {
    Pow256Eight();
    FromLeToLe(amount, 8);
    assert ([DepositTag] + AmountBytes(amount))[1..] == AmountBytes(amount);
    assert ([WithdrawTag] + AmountBytes(amount))[1..] == AmountBytes(amount);
  }

  /** Every decoded amount is read from exactly the 8 bytes after the tag, in little-endian order. */
  lemma DecodedAmount(data: Bytes)
    requires Decode(data).Success?
    requires Decode(data).value.instruction.Deposit? || Decode(data).value.instruction.Withdraw?
    ensures |data| == 9 && AmountBytes(Decode(data).value.instruction.amount) == data[1..]
  {
    ToLeFromLe(data[1..]);
  }

  /** The empty instruction and every unknown tag are rejected. */
  lemma DecodeRejects(data: Bytes)
    requires |data| == 0 || data[0] > WithdrawTag
    ensures Decode(data) == Failure(InvalidInstructionData)
  {
  }
}
