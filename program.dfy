/**
 * `process_instruction`: decodes the instruction and routes each variant to its own
 * processor. `initialize::process` only logs and returns `Ok(())`. `user_account` and
 * `pool_account` are not declared as modules of the crate, so no instruction reaches them.
 */
module Program {
  import opened Bytes
  import opened Wrappers
  import opened Solana
  import Instruction
  import Provision
  import CreateAccount
  import Deposit
  import Withdraw

  /** What one instruction does, given the host and the requests made before it. */
  function Spec(programId: Pubkey, accounts: seq<AccountView>, data: Bytes, host: Host, log: seq<Invocation>): Effect
  {
    match Instruction.Decode(data)
    case Failure(error) => Effect(Err(error), accounts, [])
    case Success(Decoded(instruction, _)) =>
      match instruction
      case Initialize => Effect(Ok, accounts, [])
      case CreateAccount => Provision.Spec(CreateAccount.Scheme, programId, accounts, host, log)
      case Deposit(amount) => Deposit.Spec(programId, accounts, amount)
      case Withdraw(amount) => Withdraw.Spec(programId, accounts, amount)
  }

  method ProcessInstruction(programId: Pubkey, accounts: seq<Account>, data: Bytes, rt: Runtime) returns (outcome: Outcome)
    requires WellFormed(accounts)
    modifies rt, accounts, DataArrays(accounts)
    ensures var e := Spec(programId, old(Views(accounts)), data, rt.host, old(rt.log));
      outcome == e.outcome && Views(accounts) == e.accounts && rt.log == old(rt.log) + e.requests
  {
    ghost var before, requested := Views(accounts), rt.log;
    var decoded := Instruction.Decode(data);
    if decoded.Failure? {
      return Err(decoded.error);
    }
    match decoded.value.instruction
    case Initialize =>
      outcome := Ok;
    case CreateAccount =>
      assert Spec(programId, before, data, rt.host, requested) ==
        Provision.Spec(CreateAccount.Scheme, programId, before, rt.host, requested);
      outcome := CreateAccount.Process(programId, accounts, rt);
    case Deposit(amount) =>
      assert Spec(programId, before, data, rt.host, requested) == Deposit.Spec(programId, before, amount);
      outcome := Deposit.Process(programId, accounts, amount);
    case Withdraw(amount) =>
      assert Spec(programId, before, data, rt.host, requested) == Withdraw.Spec(programId, before, amount);
      outcome := Withdraw.Process(programId, accounts, amount);
  }

  /** A malformed instruction is refused with `InvalidInstructionData` before any processor runs. */
  lemma DecodeErrorRunsNothing(programId: Pubkey, accounts: seq<AccountView>, data: Bytes, host: Host, log: seq<Invocation>)
    requires |data| == 0 || data[0] > 3 || (2 <= data[0] <= 3 && |data| != 9)
    ensures Spec(programId, accounts, data, host, log) == Effect(Err(InvalidInstructionData), accounts, [])
  {
  }

  /** Tag 2 followed by an amount runs the deposit processor with that amount; tag 3, the withdraw processor. */
  lemma AmountTagsRoute(programId: Pubkey, accounts: seq<AccountView>, amount: u64, host: Host, log: seq<Invocation>)
    ensures Spec(programId, accounts, [Instruction.DepositTag] + Instruction.AmountBytes(amount), host, log) ==
      Deposit.Spec(programId, accounts, amount)
    ensures Spec(programId, accounts, [Instruction.WithdrawTag] + Instruction.AmountBytes(amount), host, log) ==
      Withdraw.Spec(programId, accounts, amount)
  {
    Instruction.DecodeAmountTags(amount);
  }

  /** Tag 0 changes nothing and tag 1 runs `create_account`, whatever bytes follow the tag. */
  lemma UnitTagsRoute(programId: Pubkey, accounts: seq<AccountView>, rest: Bytes, host: Host, log: seq<Invocation>)
    ensures Spec(programId, accounts, [Instruction.InitializeTag] + rest, host, log) == Effect(Ok, accounts, [])
    ensures Spec(programId, accounts, [Instruction.CreateAccountTag] + rest, host, log) ==
      Provision.Spec(CreateAccount.Scheme, programId, accounts, host, log)
  {
    Instruction.DecodeUnitTags(rest);
  }
}
