/**
 * `create_account::process`: derives the user-wallet address from
 * `["user_wallet", payer]`, requests its creation with no balance check of its own,
 * and writes the zero `UserWallet` into the third account.
 */
module CreateAccount {
  import opened Bytes
  import opened Solana
  import Provision

  const Scheme: Provision.Scheme := Provision.Scheme(
    (payer: Pubkey) => [Provision.UserWalletSeed, payer],
    (payer: Pubkey, bump: u8) => [[Provision.UserWalletSeed, payer, [bump]]],
    false)

  method Process(programId: Pubkey, accounts: seq<Account>, rt: Runtime) returns (outcome: Outcome)
    requires WellFormed(accounts)
    modifies rt, DataArrays(accounts)
    ensures var e := Provision.Spec(Scheme, programId, old(Views(accounts)), rt.host, old(rt.log));
      outcome == e.outcome && Views(accounts) == e.accounts && rt.log == old(rt.log) + e.requests
  {
    outcome := Provision.Run(Scheme, programId, accounts, rt);
  }

  /**
   * With two accounts present the request always goes out, whatever the payer holds:
   * payer to the address derived from `["user_wallet", payer]`, the rent minimum for
   * 128 bytes, 128 bytes owned by the program, signed with `["user_wallet", payer, [bump]]`.
   */
  lemma RequestsWithoutBalanceCheck(programId: Pubkey, accounts: seq<AccountView>, host: Host, log: seq<Invocation>)
    requires |accounts| >= 2
    ensures var payer := accounts[0].key;
      var (pda, bump) := host.findProgramAddress([Provision.UserWalletSeed, payer], programId);
      Provision.Spec(Scheme, programId, accounts, host, log).requests ==
        [Invocation(
          CreateAccountIx(payer, pda, host.minimumBalance(128), 128, programId),
          [payer, accounts[1].key],
          [[Provision.UserWalletSeed, payer, [bump]]])]
  {
  }

  /**
   * The derived address depends only on the payer's key and the program: two runs with
   * the same payer key ask for the same address with the same signer seeds.
   */
  lemma SameAddressForSamePayer(programId: Pubkey, a: seq<AccountView>, b: seq<AccountView>, host: Host, log: seq<Invocation>)
    requires |a| >= 2 && |b| >= 2 && a[0].key == b[0].key
    ensures var ra := Provision.Spec(Scheme, programId, a, host, log).requests[0];
      var rb := Provision.Spec(Scheme, programId, b, host, log).requests[0];
      ra.instruction == rb.instruction && ra.signerSeeds == rb.signerSeeds
  {
  }

  /**
   * With only the payer and the system program supplied, the allocation is still
   * requested; a missing third account is noticed only afterwards.
   */
  lemma RequestsBeforeMissingThirdAccount(programId: Pubkey, accounts: seq<AccountView>, host: Host, log: seq<Invocation>)
    requires |accounts| == 2
    requires host.systemProgram(log, Provision.Request(Scheme, programId, accounts[0], accounts[1], host)).None?
    ensures var e := Provision.Spec(Scheme, programId, accounts, host, log);
      e.outcome == Err(NotEnoughAccountKeys) && |e.requests| == 1 && e.accounts == accounts
  {
  }
}
