/**
 * `pool_account::process`: derives the singleton pool address from `["pool_wallet"]`
 * alone, refuses a payer below the rent minimum, requests the account, and writes the
 * zero `PoolWallet` into the third account. Its signer seeds are two one-element seed
 * sets, `[["pool_wallet"], [bump]]`, not the derivation seeds followed by the bump.
 */
module PoolAccount {
  import opened Bytes
  import opened Solana
  import Provision

  const Scheme: Provision.Scheme := Provision.Scheme(
    (payer: Pubkey) => [Provision.PoolWalletSeed],
    (payer: Pubkey, bump: u8) => [[Provision.PoolWalletSeed], [[bump]]],
    true)

  method Process(programId: Pubkey, accounts: seq<Account>, rt: Runtime) returns (outcome: Outcome)
    requires WellFormed(accounts)
    modifies rt, DataArrays(accounts)
    ensures var e := Provision.Spec(Scheme, programId, old(Views(accounts)), rt.host, old(rt.log));
      outcome == e.outcome && Views(accounts) == e.accounts && rt.log == old(rt.log) + e.requests
  {
    outcome := Provision.Run(Scheme, programId, accounts, rt);
  }

  /**
   * With the rent minimum covered, the request is for the address derived from
   * `["pool_wallet"]` under the program, whoever pays, signed with the seed sets
   * `["pool_wallet"]` and `[bump]`.
   */
  lemma RequestsPoolAddress(programId: Pubkey, accounts: seq<AccountView>, host: Host, log: seq<Invocation>)
    requires |accounts| >= 2 && accounts[0].lamports >= host.minimumBalance(128)
    ensures var (pda, bump) := host.findProgramAddress([Provision.PoolWalletSeed], programId);
      Provision.Spec(Scheme, programId, accounts, host, log).requests ==
        [Invocation(
          CreateAccountIx(accounts[0].key, pda, host.minimumBalance(128), 128, programId),
          [accounts[0].key, accounts[1].key],
          [[Provision.PoolWalletSeed], [[bump]]])]
  {
  }

  /** Payers do not enter the derivation: every payer asks for the same pool address. */
  lemma AddressIgnoresPayer(programId: Pubkey, a: seq<AccountView>, b: seq<AccountView>, host: Host)
    requires |a| >= 2 && |b| >= 2
    ensures Provision.Request(Scheme, programId, a[0], a[1], host).instruction.to ==
      Provision.Request(Scheme, programId, b[0], b[1], host).instruction.to
  {
  }

  /** A payer below the rent minimum is refused before the allocation is requested. */
  lemma RefusesPayerBelowRent(programId: Pubkey, accounts: seq<AccountView>, host: Host, log: seq<Invocation>)
    requires |accounts| >= 2 && accounts[0].lamports < host.minimumBalance(128)
    ensures Provision.Spec(Scheme, programId, accounts, host, log) == Effect(Err(InsufficientFunds), accounts, [])
  {
  }
}
