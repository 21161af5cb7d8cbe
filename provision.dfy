/**
 * The shared shape of the three provisioning processors (`create_account`,
 * `user_account`, `pool_account`): take the payer and the system program from the
 * account list, derive a program address, optionally require the payer to hold the
 * rent minimum, ask the system program to create a 128-byte account at that address,
 * then write the zero record into the third account of the list.
 */
module Provision {
  import opened Bytes
  import opened Wrappers
  import opened Solana
  import Borsh

  /** The size every processor asks the system program to allocate. */
  const AccountSpace: u64 := 128

  /** The bytes of an ASCII string literal such as `b"user_wallet"`. */
  function Ascii(s: string): (r: Bytes)
    ensures |r| == |s|
  {
    seq(|s|, i requires 0 <= i < |s| => (s[i] as int % 256) as u8)
  }

  const UserWalletSeed: Bytes := Ascii("user_wallet")
  const PoolWalletSeed: Bytes := Ascii("pool_wallet")

  /**
   * What tells the processors apart: the seeds the address is derived from (given the
   * payer's key), the signer seeds passed to `invoke_signed` (given the payer's key
   * and the bump), and whether the payer's lamports are checked against the rent minimum.
   */
  datatype Scheme = Scheme(
    derivationSeeds: Pubkey -> seq<Bytes>,
    signerSeeds: (Pubkey, u8) -> seq<seq<Bytes>>,
    checksRent: bool)

  /** The `invoke_signed(create_account …)` request for payer `payer` and system program `system`. */
  function Request(s: Scheme, programId: Pubkey, payer: AccountView, system: AccountView, host: Host): (r: Invocation)
    ensures r.instruction.from == payer.key && r.instruction.owner == programId
    ensures r.instruction.space == AccountSpace && r.instruction.lamports == host.minimumBalance(AccountSpace as nat)
    ensures r.instruction.to == host.findProgramAddress(s.derivationSeeds(payer.key), programId).0
    ensures r.signerSeeds == s.signerSeeds(payer.key, host.findProgramAddress(s.derivationSeeds(payer.key), programId).1)
    ensures r.accountInfos == [payer.key, system.key]
  {
    var (pda, bump) := host.findProgramAddress(s.derivationSeeds(payer.key), programId);
    var ix := CreateAccountIx(payer.key, pda, host.minimumBalance(AccountSpace as nat), AccountSpace, programId);
    Invocation(ix, [payer.key, system.key], s.signerSeeds(payer.key, bump))
  }

  /** What a provisioning processor does, given the host and the requests made before it. */
  function Spec(s: Scheme, programId: Pubkey, accounts: seq<AccountView>, host: Host, log: seq<Invocation>): Effect
  {
    if |accounts| < 2 then Effect(Err(NotEnoughAccountKeys), accounts, [])
    else
      var payer, system := accounts[0], accounts[1];
      if s.checksRent && payer.lamports < host.minimumBalance(AccountSpace as nat) then
        Effect(Err(InsufficientFunds), accounts, [])
      else
        var request := Request(s, programId, payer, system, host);
        match host.systemProgram(log, request)
        case Some(error) => Effect(Err(error), accounts, [request])
        case None => ZeroRecordSpec(accounts, [request])
  }

  /** Writing the zero record into the third account: too short is an error, too long a panic. */
  function ZeroRecordSpec(accounts: seq<AccountView>, requests: seq<Invocation>): Effect
  {
    var record := Borsh.Encode(0);
    if |accounts| < 3 then Effect(Err(NotEnoughAccountKeys), accounts, requests)
    else
      var target := accounts[2];
      if |target.data| < |record| then Effect(Err(AccountDataTooSmall), accounts, requests)
      else if |target.data| != |record| then Effect(Panic(SliceLengthMismatch), accounts, requests)
      else Effect(Ok, SetData(accounts, target.key, record), requests)
  }

  method Run(s: Scheme, programId: Pubkey, accounts: seq<Account>, rt: Runtime) returns (outcome: Outcome)
    requires WellFormed(accounts)
    modifies rt, DataArrays(accounts)
    ensures var e := Spec(s, programId, old(Views(accounts)), rt.host, old(rt.log));
      outcome == e.outcome && Views(accounts) == e.accounts && rt.log == old(rt.log) + e.requests
  {
    if |accounts| < 1 {
      return Err(NotEnoughAccountKeys);
    }
    var payer := accounts[0];
    if |accounts| < 2 {
      return Err(NotEnoughAccountKeys);
    }
    var system := accounts[1];

    var (pda, bump) := rt.host.findProgramAddress(s.derivationSeeds(payer.key), programId);
    var rent := rt.host.minimumBalance(AccountSpace as nat);
    if s.checksRent && payer.lamports < rent {
      return Err(InsufficientFunds);
    }

    var ix := CreateAccountIx(payer.key, pda, rent, AccountSpace, programId);
    var rejection := rt.InvokeSigned(ix, [payer.key, system.key], s.signerSeeds(payer.key, bump));
    if rejection.Some? {
      return Err(rejection.value);
    }

    outcome := WriteZeroRecord(accounts);
  }

  method WriteZeroRecord(accounts: seq<Account>) returns (outcome: Outcome)
    requires WellFormed(accounts)
    modifies DataArrays(accounts)
    ensures var e := ZeroRecordSpec(old(Views(accounts)), []);
      outcome == e.outcome && Views(accounts) == e.accounts
  {
    var record := Borsh.Encode(0);
    if |accounts| < 3 {
      return Err(NotEnoughAccountKeys);
    }
    var target := accounts[2];
    if target.data.Length < |record| {
      return Err(AccountDataTooSmall);
    }
    var copied := CopyFromSlice(accounts, target, record);
    if !copied {
      return Panic(SliceLengthMismatch);
    }
    return Ok;
  }

  /** Whether the run reaches the allocation request: two accounts, and the rent check (if any) passed. */
  ghost predicate Requests(s: Scheme, accounts: seq<AccountView>, host: Host)
  {
    |accounts| >= 2 && !(s.checksRent && accounts[0].lamports < host.minimumBalance(AccountSpace as nat))
  }

  /**
   * Exactly one allocation request is made when the run gets past the payer checks,
   * and none otherwise; a run that makes none changes nothing.
   */
  lemma RequestsOnceAfterChecks(s: Scheme, programId: Pubkey, accounts: seq<AccountView>, host: Host, log: seq<Invocation>)
    ensures var e := Spec(s, programId, accounts, host, log);
      (Requests(s, accounts, host) ==> e.requests == [Request(s, programId, accounts[0], accounts[1], host)]) &&
      (!Requests(s, accounts, host) ==> e.requests == [] && e.accounts == accounts)
  {
  }

  /** A payer below the rent minimum is refused, when the processor checks it, before any request. */
  lemma RentCheckPrecedesRequest(s: Scheme, programId: Pubkey, accounts: seq<AccountView>, host: Host, log: seq<Invocation>)
    requires |accounts| >= 2 && s.checksRent && accounts[0].lamports < host.minimumBalance(AccountSpace as nat)
    ensures Spec(s, programId, accounts, host, log) == Effect(Err(InsufficientFunds), accounts, [])
  {
  }

  /** A rejected allocation aborts with the system program's error before any write. */
  lemma RejectedAllocationWritesNothing(s: Scheme, programId: Pubkey, accounts: seq<AccountView>, host: Host, log: seq<Invocation>)
    requires Requests(s, accounts, host)
    requires host.systemProgram(log, Request(s, programId, accounts[0], accounts[1], host)).Some?
    ensures var request := Request(s, programId, accounts[0], accounts[1], host);
      Spec(s, programId, accounts, host, log) ==
        Effect(Err(host.systemProgram(log, request).value), accounts, [request])
  {
  }

  /**
   * After an accepted allocation, the third account decides the outcome by its length
   * alone (it is never compared with the derived address): under 8 bytes is
   * `AccountDataTooSmall`, exactly 8 is success with the zero record written, longer is
   * the `copy_from_slice` panic; a missing third account is `NotEnoughAccountKeys`.
   */
  lemma WriteOutcomeByLength(s: Scheme, programId: Pubkey, accounts: seq<AccountView>, host: Host, log: seq<Invocation>)
    requires Coherent(accounts)
    requires Requests(s, accounts, host)
    requires host.systemProgram(log, Request(s, programId, accounts[0], accounts[1], host)).None?
    ensures var e := Spec(s, programId, accounts, host, log);
      (|accounts| == 2 ==> e.outcome == Err(NotEnoughAccountKeys) && e.accounts == accounts) &&
      (|accounts| > 2 && |accounts[2].data| < Borsh.RecordSize ==> e.outcome == Err(AccountDataTooSmall) && e.accounts == accounts) &&
      (|accounts| > 2 && |accounts[2].data| > Borsh.RecordSize ==> e.outcome == Panic(SliceLengthMismatch) && e.accounts == accounts) &&
      (|accounts| > 2 && |accounts[2].data| == Borsh.RecordSize ==>
        e.outcome == Ok && e.accounts[2].data == Borsh.Encode(0) && Borsh.Decode(e.accounts[2].data) == Some(0))
  {
    Borsh.DecodeEncode(0);
  }

  /**
   * The processor's own code writes no lamports, and no account other than the third
   * has its data written. (What an accepted `create_account` request does to the
   * payer's lamports is the system program's effect and is not part of this model.)
   * The run succeeds exactly when it reaches the request, the request is accepted, and
   * the third account holds exactly 8 bytes.
   */
  lemma WritesOnlyTheThird(s: Scheme, programId: Pubkey, accounts: seq<AccountView>, host: Host, log: seq<Invocation>)
    requires Coherent(accounts)
    ensures var e := Spec(s, programId, accounts, host, log);
      |e.accounts| == |accounts| &&
      (forall i :: 0 <= i < |accounts| ==>
        e.accounts[i].lamports == accounts[i].lamports &&
        (|accounts| < 3 || accounts[i].key != accounts[2].key ==> e.accounts[i] == accounts[i])) &&
      (e.outcome == Ok <==>
        Requests(s, accounts, host) && |accounts| > 2 && |accounts[2].data| == Borsh.RecordSize &&
        host.systemProgram(log, Request(s, programId, accounts[0], accounts[1], host)).None?)
  {
  }
}
