/**
 * `user_account::process`: like `create_account`, with the first account (named the
 * pool account) as payer, but it first refuses a payer holding less than the rent
 * minimum for 128 bytes.
 */
module UserAccount {
  import opened Bytes
  import opened Solana
  import Provision
  import CreateAccount

  const Scheme: Provision.Scheme := Provision.Scheme(
    (payer: Pubkey) => [Provision.UserWalletSeed, payer],
    (payer: Pubkey, bump: u8) => [[Provision.UserWalletSeed, payer, [bump]]],
    true)

  method Process(programId: Pubkey, accounts: seq<Account>, rt: Runtime) returns (outcome: Outcome)
    requires WellFormed(accounts)
    modifies rt, DataArrays(accounts)
    ensures var e := Provision.Spec(Scheme, programId, old(Views(accounts)), rt.host, old(rt.log));
      outcome == e.outcome && Views(accounts) == e.accounts && rt.log == old(rt.log) + e.requests
  {
    outcome := Provision.Run(Scheme, programId, accounts, rt);
  }

  /** The request goes out exactly when the payer holds at least the rent minimum, and then it is fixed by the payer. */
  lemma RequestsOnlyWithRent(programId: Pubkey, accounts: seq<AccountView>, host: Host, log: seq<Invocation>)
    requires |accounts| >= 2
    ensures var e := Provision.Spec(Scheme, programId, accounts, host, log);
      var payer := accounts[0].key;
      var (pda, bump) := host.findProgramAddress([Provision.UserWalletSeed, payer], programId);
      (accounts[0].lamports < host.minimumBalance(128) ==> e == Effect(Err(InsufficientFunds), accounts, [])) &&
      (accounts[0].lamports >= host.minimumBalance(128) ==>
        e.requests == [Invocation(
          CreateAccountIx(payer, pda, host.minimumBalance(128), 128, programId),
          [payer, accounts[1].key],
          [[Provision.UserWalletSeed, payer, [bump]]])])
  {
  }

  /** It asks for the same address as `create_account` for the same payer: the two derivations agree. */
  lemma SameAddressAsCreateAccount(programId: Pubkey, accounts: seq<AccountView>, host: Host)
    requires |accounts| >= 2
    ensures Provision.Request(Scheme, programId, accounts[0], accounts[1], host) ==
      Provision.Request(CreateAccount.Scheme, programId, accounts[0], accounts[1], host)
  {
  }
}
