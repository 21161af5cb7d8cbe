/**
 * `withdraw::process`: debits `amount` from the pool record (second account) and
 * credits the same amount to the lamports of the user account (first account). The
 * user's own record is never read or written and the pool's lamports never move, so
 * the tracked records lose `amount` while the lamports gain it.
 */
module Withdraw {
  import opened Bytes
  import opened Wrappers
  import opened Solana
  import Borsh

  /** What `process` does to the accounts it is given, as a function of their views. */
  function Spec(programId: Pubkey, accounts: seq<AccountView>, amount: u64): Effect
  {
    if |accounts| < 2 then Effect(Err(NotEnoughAccountKeys), accounts, [])
    else
      var user, pool := accounts[0], accounts[1];
      if user.owner != programId || pool.owner != programId then Effect(Err(IncorrectProgramId), accounts, [])
      else match Borsh.Decode(pool.data)
        case None => Effect(Err(BorshIoError), accounts, [])
        case Some(total) =>
          if total < amount then Effect(Err(InsufficientFunds), accounts, [])
          else DebitSpec(accounts, user, pool, total - amount, amount)
  }

  /** Serializing the debited pool record into the pool buffer, then crediting the user's lamports. */
  function DebitSpec(accounts: seq<AccountView>, user: AccountView, pool: AccountView, total: u64, amount: u64): Effect
  {
    var poolBytes := Borsh.Encode(total);
    var afterPool := SetData(accounts, pool.key, WriteAll(pool.data, poolBytes));
    if |pool.data| < |poolBytes| then Effect(Err(BorshIoError), afterPool, [])
    else if user.lamports + amount > U64_MAX then Effect(Panic(ArithmeticOverflow), afterPool, [])
    else Effect(Ok, SetLamports(afterPool, user.key, user.lamports + amount), [])
  }

  method Process(programId: Pubkey, accounts: seq<Account>, amount: u64) returns (outcome: Outcome)
    requires WellFormed(accounts)
    modifies accounts, DataArrays(accounts)
    ensures outcome == Spec(programId, old(Views(accounts)), amount).outcome
    ensures Views(accounts) == Spec(programId, old(Views(accounts)), amount).accounts
  {
    ghost var before := Views(accounts);
    if |accounts| < 1 {
      return Err(NotEnoughAccountKeys);
    }
    var userAccount := accounts[0];
    if |accounts| < 2 {
      return Err(NotEnoughAccountKeys);
    }
    var poolAccount := accounts[1];

    if userAccount.owner != programId || poolAccount.owner != programId {
      return Err(IncorrectProgramId);
    }

    var poolRecord := Borsh.Decode(poolAccount.data[..]);
    if poolRecord.None? {
      return Err(BorshIoError);
    }
    var total := poolRecord.value;

    if total < amount {
      return Err(InsufficientFunds);
    }
    total := total - amount;

    assert Spec(programId, before, amount) == DebitSpec(before, before[0], before[1], total, amount);
    outcome := Debit(accounts, userAccount, poolAccount, total, amount);
  }

  method Debit(accounts: seq<Account>, userAccount: Account, poolAccount: Account, total: u64, amount: u64)
    returns (outcome: Outcome)
    requires WellFormed(accounts) && userAccount in accounts && poolAccount in accounts
    modifies userAccount, poolAccount.data
    ensures var e := DebitSpec(old(Views(accounts)), old(userAccount.View()), old(poolAccount.View()), total, amount);
      outcome == e.outcome && Views(accounts) == e.accounts
  {
    var written := SerializeInto(accounts, poolAccount, Borsh.Encode(total));
    if !written {
      return Err(BorshIoError);
    }
    if userAccount.lamports + amount > U64_MAX {
      return Panic(ArithmeticOverflow);
    }
    StoreLamports(accounts, userAccount, userAccount.lamports + amount);
    return Ok;
  }

  /** The guards that must pass for the pool record to be rewritten. */
  ghost predicate Covered(programId: Pubkey, accounts: seq<AccountView>, amount: u64)
  {
    |accounts| >= 2 &&
    accounts[0].owner == programId && accounts[1].owner == programId &&
    Borsh.Decode(accounts[1].data).Some? && amount <= Borsh.Decode(accounts[1].data).value
  }

  /**
   * A withdrawal succeeds exactly when both accounts are the program's, the pool record
   * decodes and covers the amount, and the user's lamports do not overflow. The write
   * into the pool buffer never falls short: a decoded buffer is 8 bytes.
   */
  lemma SucceedsIff(programId: Pubkey, accounts: seq<AccountView>, amount: u64)
    ensures Spec(programId, accounts, amount).outcome == Ok <==>
      Covered(programId, accounts, amount) && accounts[0].lamports + amount <= U64_MAX
  {
  }

  /** A wrongly owned user or pool account is refused before anything is read or written. */
  lemma RejectsForeignOwner(programId: Pubkey, accounts: seq<AccountView>, amount: u64)
    requires |accounts| >= 2 && (accounts[0].owner != programId || accounts[1].owner != programId)
    ensures Spec(programId, accounts, amount) == Effect(Err(IncorrectProgramId), accounts, [])
  {
  }

  /** A pool holding less than `amount` refuses the withdrawal: pool data and user lamports stay. */
  lemma RejectsInsufficientPool(programId: Pubkey, accounts: seq<AccountView>, amount: u64)
    requires |accounts| >= 2 && accounts[0].owner == programId && accounts[1].owner == programId
    requires Borsh.Decode(accounts[1].data).Some? && Borsh.Decode(accounts[1].data).value < amount
    ensures Spec(programId, accounts, amount) == Effect(Err(InsufficientFunds), accounts, [])
  {
  }

  /**
   * Only the pool record is read: the outcome does not depend on the user account's
   * data, and that data is never written (unless the user and pool are one account).
   */
  lemma IgnoresUserData(programId: Pubkey, accounts: seq<AccountView>, userData: Bytes, amount: u64)
    requires Coherent(accounts)
    requires |accounts| >= 2 && accounts[0].key != accounts[1].key
    ensures var other := accounts[0 := accounts[0].(data := userData)];
      Spec(programId, other, amount).outcome == Spec(programId, accounts, amount).outcome &&
      Spec(programId, accounts, amount).accounts[0].data == accounts[0].data
  {
  }

  /**
   * On success the pool buffer held exactly 8 bytes (a buffer of any other length
   * fails to decode and never reaches the write), so the whole buffer now holds
   * `Encode(total - amount)`. The user's lamports grow by exactly `amount`. With two
   * distinct accounts, the user's data and the pool's lamports are untouched.
   */
  lemma DebitsPoolCreditsUser(programId: Pubkey, accounts: seq<AccountView>, amount: u64)
    requires Coherent(accounts)
    requires Spec(programId, accounts, amount).outcome == Ok
    ensures var e := Spec(programId, accounts, amount);
      var total := Borsh.Decode(accounts[1].data).value;
      |accounts[1].data| == Borsh.RecordSize && e.accounts[1].data == Borsh.Encode(total - amount) &&
      Borsh.Decode(e.accounts[1].data) == Some(total - amount) &&
      e.accounts[0].lamports == accounts[0].lamports + amount &&
      (accounts[0].key != accounts[1].key ==>
        e.accounts[0].data == accounts[0].data && e.accounts[1].lamports == accounts[1].lamports)
  {
    var total := Borsh.Decode(accounts[1].data).value;
    Borsh.DecodeEncode(total - amount);
    var e := Spec(programId, accounts, amount);
    assert e.accounts[1].data == Borsh.Encode(total - amount);
  }

  /**
   * Conservation leak: a successful withdrawal between distinct accounts keeps
   * pool record + user lamports constant, so the records' total falls by `amount`
   * while the two accounts' lamports rise by `amount`.
   */
  lemma LamportsGrowByAmount(programId: Pubkey, accounts: seq<AccountView>, amount: u64)
    requires Coherent(accounts)
    requires Spec(programId, accounts, amount).outcome == Ok && accounts[0].key != accounts[1].key
    ensures var e := Spec(programId, accounts, amount);
      var total := Borsh.Decode(accounts[1].data).value;
      var total' := Borsh.Decode(e.accounts[1].data).value;
      total' + e.accounts[0].lamports == total + accounts[0].lamports &&
      e.accounts[0].lamports + e.accounts[1].lamports == accounts[0].lamports + accounts[1].lamports + amount &&
      Borsh.Decode(e.accounts[0].data) == Borsh.Decode(accounts[0].data)
  {
    DebitsPoolCreditsUser(programId, accounts, amount);
  }

  /**
   * The pool record is written before the lamports are credited: when the credit
   * overflows, the run aborts with the debited pool record already in the buffer.
   */
  lemma OverflowAfterPoolWrite(programId: Pubkey, accounts: seq<AccountView>, amount: u64)
    requires Coherent(accounts)
    requires Covered(programId, accounts, amount) && accounts[0].lamports + amount > U64_MAX
    ensures var e := Spec(programId, accounts, amount);
      e.outcome == Panic(ArithmeticOverflow) &&
      Borsh.Decode(e.accounts[1].data) == Some(Borsh.Decode(accounts[1].data).value - amount) &&
      e.accounts[0].lamports == accounts[0].lamports
  {
    var total := Borsh.Decode(accounts[1].data).value;
    Borsh.DecodeEncode(total - amount);
    var e := Spec(programId, accounts, amount);
    assert e.accounts[1].data == Borsh.Encode(total - amount);
  }

  /** No run touches an account other than the two, or calls out; every failure before the pool write changes nothing. */
  lemma TouchesOnlyTheTwo(programId: Pubkey, accounts: seq<AccountView>, amount: u64)
    requires Coherent(accounts)
    ensures var e := Spec(programId, accounts, amount);
      |e.accounts| == |accounts| && e.requests == [] &&
      (!Covered(programId, accounts, amount) ==> e.accounts == accounts) &&
      forall i :: 0 <= i < |accounts| && i >= 2 && accounts[i].key != accounts[0].key && accounts[i].key != accounts[1].key ==>
        e.accounts[i] == accounts[i]
  {
  }
}
