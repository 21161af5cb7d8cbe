/**
 * `deposit::process`: moves `amount` from the pool record (second account) to the
 * user record (first account). Both accounts must be owned by the program; both
 * records are decoded; the pool must hold at least `amount`; then the user buffer is
 * rewritten, and only after that is the pool buffer borrowed, checked and rewritten.
 */
module Deposit {
  import opened Bytes
  import opened Wrappers
  import opened Solana
  import Borsh

  /** What `process` does to the accounts it is given, as a function of their views. */
  function Spec(programId: Pubkey, accounts: seq<AccountView>, amount: u64): Effect
  {
    if |accounts| < 2 then Effect(Err(NotEnoughAccountKeys), accounts, [])
    else
      var user, pool := accounts[0], accounts[1];
      if user.owner != programId || pool.owner != programId then Effect(Err(IncorrectProgramId), accounts, [])
      else if Borsh.Decode(user.data).None? then Effect(Err(InvalidAccountData), accounts, [])
      else if Borsh.Decode(pool.data).None? then Effect(Err(InvalidAccountData), accounts, [])
      else
        var balance, total := Borsh.Decode(user.data).value, Borsh.Decode(pool.data).value;
        if total < amount then Effect(Err(InsufficientFunds), accounts, [])
        else if balance + amount > U64_MAX then Effect(Panic(ArithmeticOverflow), accounts, [])
        else WriteBackSpec(accounts, user, pool, balance + amount, total - amount)
  }

  /** Re-encoding both records and writing them back, the user buffer first. */
  function WriteBackSpec(accounts: seq<AccountView>, user: AccountView, pool: AccountView, balance: u64, total: u64): Effect
  {
    var userBytes, poolBytes := Borsh.Encode(balance), Borsh.Encode(total);
    if |user.data| < |userBytes| then Effect(Err(AccountDataTooSmall), accounts, [])
    else if |user.data| != |userBytes| then Effect(Panic(SliceLengthMismatch), accounts, [])
    else
      var afterUser := SetData(accounts, user.key, userBytes);
      // the user buffer is still mutably borrowed when the pool buffer is borrowed
      if pool.key == user.key then Effect(Err(AccountBorrowFailed), afterUser, [])
      else if |pool.data| < |poolBytes| then Effect(Err(AccountDataTooSmall), afterUser, [])
      else if |pool.data| != |poolBytes| then Effect(Panic(SliceLengthMismatch), afterUser, [])
      else Effect(Ok, SetData(afterUser, pool.key, poolBytes), [])
  }

  method Process(programId: Pubkey, accounts: seq<Account>, amount: u64) returns (outcome: Outcome)
    requires WellFormed(accounts)
    modifies DataArrays(accounts)
    ensures outcome == Spec(programId, old(Views(accounts)), amount).outcome
    ensures Views(accounts) == Spec(programId, old(Views(accounts)), amount).accounts
  {
    ghost var before := Views(accounts);
    if |accounts| < 1 {
      return Err(NotEnoughAccountKeys);
    }
    var userAccount := accounts[0];
    if |accounts| < 2 {
      return Err(NotEnoughAccountKeys);
    }
    var poolAccount := accounts[1];

    if userAccount.owner != programId || poolAccount.owner != programId {
      return Err(IncorrectProgramId);
    }

    var userRecord := Borsh.Decode(userAccount.data[..]);
    if userRecord.None? {
      return Err(InvalidAccountData);
    }
    var poolRecord := Borsh.Decode(poolAccount.data[..]);
    if poolRecord.None? {
      return Err(InvalidAccountData);
    }
    var balance, total := userRecord.value, poolRecord.value;

    if total < amount {
      return Err(InsufficientFunds);
    }
    if balance + amount > U64_MAX {
      return Panic(ArithmeticOverflow);
    }
    balance := balance + amount;
    total := total - amount;
    assert Spec(programId, before, amount) == WriteBackSpec(before, before[0], before[1], balance, total);
    outcome := WriteBack(accounts, userAccount, poolAccount, balance, total);
  }

  method WriteBack(accounts: seq<Account>, userAccount: Account, poolAccount: Account, balance: u64, total: u64)
    returns (outcome: Outcome)
    requires WellFormed(accounts) && userAccount in accounts && poolAccount in accounts
    modifies userAccount.data, poolAccount.data
    ensures var e := WriteBackSpec(old(Views(accounts)), old(userAccount.View()), old(poolAccount.View()), balance, total);
      outcome == e.outcome && Views(accounts) == e.accounts
  {
    var userBytes := Borsh.Encode(balance);
    var poolBytes := Borsh.Encode(total);

    if userAccount.data.Length < |userBytes| {
      return Err(AccountDataTooSmall);
    }
    var copied := CopyFromSlice(accounts, userAccount, userBytes);
    if !copied {
      return Panic(SliceLengthMismatch);
    }

    if poolAccount == userAccount {
      return Err(AccountBorrowFailed);
    }
    if poolAccount.data.Length < |poolBytes| {
      return Err(AccountDataTooSmall);
    }
    copied := CopyFromSlice(accounts, poolAccount, poolBytes);
    if !copied {
      return Panic(SliceLengthMismatch);
    }
    return Ok;
  }

  /** The guards, in the order the code runs them, that must all pass for the user record to be written. */
  ghost predicate Funded(programId: Pubkey, accounts: seq<AccountView>, amount: u64)
  {
    |accounts| >= 2 &&
    accounts[0].owner == programId && accounts[1].owner == programId &&
    Borsh.Decode(accounts[0].data).Some? && Borsh.Decode(accounts[1].data).Some? &&
    amount <= Borsh.Decode(accounts[1].data).value &&
    Borsh.Decode(accounts[0].data).value + amount <= U64_MAX
  }

  /**
   * A deposit succeeds exactly when both accounts are the program's, both records
   * decode, the pool covers the amount, the user balance does not overflow, and the two
   * accounts are different. The capacity checks never fail: a decoded buffer is 8 bytes.
   */
  lemma SucceedsIff(programId: Pubkey, accounts: seq<AccountView>, amount: u64)
    requires Coherent(accounts)
    ensures Spec(programId, accounts, amount).outcome == Ok <==>
      Funded(programId, accounts, amount) && accounts[0].key != accounts[1].key
  {
  }

  /** A wrongly owned user or pool account is refused before anything is read or written. */
  lemma RejectsForeignOwner(programId: Pubkey, accounts: seq<AccountView>, amount: u64)
    requires |accounts| >= 2 && (accounts[0].owner != programId || accounts[1].owner != programId)
    ensures Spec(programId, accounts, amount) == Effect(Err(IncorrectProgramId), accounts, [])
  {
  }

  /** A record that does not decode is refused with nothing written. */
  lemma RejectsMalformedRecord(programId: Pubkey, accounts: seq<AccountView>, amount: u64)
    requires |accounts| >= 2 && accounts[0].owner == programId && accounts[1].owner == programId
    requires |accounts[0].data| != Borsh.RecordSize || |accounts[1].data| != Borsh.RecordSize
    ensures Spec(programId, accounts, amount) == Effect(Err(InvalidAccountData), accounts, [])
  {
  }

  /** A pool holding less than `amount` refuses the deposit with nothing written. */
  lemma RejectsInsufficientPool(programId: Pubkey, accounts: seq<AccountView>, amount: u64)
    requires |accounts| >= 2 && accounts[0].owner == programId && accounts[1].owner == programId
    requires Borsh.Decode(accounts[0].data).Some? && Borsh.Decode(accounts[1].data).Some?
    requires Borsh.Decode(accounts[1].data).value < amount
    ensures Spec(programId, accounts, amount) == Effect(Err(InsufficientFunds), accounts, [])
  {
  }

  /**
   * Every failure except the aliased-accounts one leaves every account as it was, and
   * no run ever changes lamports, touches an account other than the two, or calls out.
   */
  lemma FailureLeavesAccounts(programId: Pubkey, accounts: seq<AccountView>, amount: u64)
    requires Coherent(accounts)
    ensures var e := Spec(programId, accounts, amount);
      |e.accounts| == |accounts| && e.requests == [] &&
      (e.outcome != Ok && e.outcome != Err(AccountBorrowFailed) ==> e.accounts == accounts) &&
      forall i :: 0 <= i < |accounts| ==>
        e.accounts[i].lamports == accounts[i].lamports && e.accounts[i].key == accounts[i].key &&
        e.accounts[i].owner == accounts[i].owner &&
        (i >= 2 && accounts[i].key != accounts[0].key && accounts[i].key != accounts[1].key ==> e.accounts[i] == accounts[i])
  {
  }

  /**
   * On success value moves from the pool record to the user record: the user record
   * holds `balance + amount`, the pool record `total - amount` (no underflow), their sum
   * is unchanged, and both buffers hold exactly the new encodings.
   */
  lemma MovesAmountFromPoolToUser(programId: Pubkey, accounts: seq<AccountView>, amount: u64)
    requires Coherent(accounts)
    requires Spec(programId, accounts, amount).outcome == Ok
    ensures var e := Spec(programId, accounts, amount);
      var balance, total := Borsh.Decode(accounts[0].data).value, Borsh.Decode(accounts[1].data).value;
      amount <= total &&
      e.accounts[0].data == Borsh.Encode(balance + amount) &&
      e.accounts[1].data == Borsh.Encode(total - amount) &&
      Borsh.Decode(e.accounts[0].data) == Some(balance + amount) &&
      Borsh.Decode(e.accounts[1].data) == Some(total - amount) &&
      Borsh.Decode(e.accounts[0].data).value + Borsh.Decode(e.accounts[1].data).value == balance + total
  {
    var balance, total := Borsh.Decode(accounts[0].data).value, Borsh.Decode(accounts[1].data).value;
    Borsh.DecodeEncode(balance + amount);
    Borsh.DecodeEncode(total - amount);
  }

  /** A deposit of 0 into two distinct program accounts with valid records succeeds and changes no byte. */
  lemma ZeroAmountChangesNothing(programId: Pubkey, accounts: seq<AccountView>)
    requires Coherent(accounts)
    requires |accounts| >= 2 && accounts[0].owner == programId && accounts[1].owner == programId
    requires Borsh.Decode(accounts[0].data).Some? && Borsh.Decode(accounts[1].data).Some?
    requires accounts[0].key != accounts[1].key
    ensures Spec(programId, accounts, 0) == Effect(Ok, accounts, [])
  {
    Borsh.EncodeDecode(accounts[0].data);
    Borsh.EncodeDecode(accounts[1].data);
    var e := Spec(programId, accounts, 0);
    assert e.accounts == accounts;
  }

  /**
   * Write order: the user buffer is written before the pool buffer is borrowed. When
   * the same account is passed as user and pool, the funded deposit fails at that
   * borrow, and the user's write (balance + amount) is left in place.
   */
  lemma AliasedAccountsKeepFirstWrite(programId: Pubkey, accounts: seq<AccountView>, amount: u64)
    requires Coherent(accounts)
    requires Funded(programId, accounts, amount) && accounts[0].key == accounts[1].key
    ensures var e := Spec(programId, accounts, amount);
      e.outcome == Err(AccountBorrowFailed) &&
      Borsh.Decode(e.accounts[0].data) == Some(Borsh.Decode(accounts[0].data).value + amount) &&
      e.accounts[1] == e.accounts[0]
  {
    Borsh.DecodeEncode(Borsh.Decode(accounts[0].data).value + amount);
  }

  /**
   * Worked example: a user record at 0 and a pool record at 100, both program-owned,
   * deposit 30: the user record becomes 30 and the pool record 70. A pool at 0 refuses 10.
   */
  lemma DepositThirtyFromHundred(programId: Pubkey, user: Pubkey, pool: Pubkey)
    requires user != pool
    ensures var accounts := [AccountView(user, programId, 0, Borsh.Encode(0)), AccountView(pool, programId, 0, Borsh.Encode(100))];
      var e := Spec(programId, accounts, 30);
      e.outcome == Ok && Borsh.Decode(e.accounts[0].data) == Some(30) && Borsh.Decode(e.accounts[1].data) == Some(70)
    ensures var accounts := [AccountView(user, programId, 0, Borsh.Encode(0)), AccountView(pool, programId, 0, Borsh.Encode(0))];
      Spec(programId, accounts, 10) == Effect(Err(InsufficientFunds), accounts, [])
  {
    Borsh.DecodeEncode(0);
    Borsh.DecodeEncode(100);
    Borsh.DecodeEncode(30);
    Borsh.DecodeEncode(70);
  }
}
