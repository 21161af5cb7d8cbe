# solana-wallet-pda, modelled in Dafny

A Dafny model of a small Solana program that keeps balances in two kinds of
8-byte records: one `UserWallet { balance: u64 }` per user and a singleton
`PoolWallet { total_balance: u64 }`. Both live in program-derived accounts (PDAs).
The model covers:

- the instruction decoder and the dispatcher (`src/lib.rs`);
- the Borsh encoding the records share (8 little-endian bytes; decoding needs exactly 8);
- the two transfer processors, `deposit` (pool record to user record) and `withdraw`
  (pool record to the user's lamports);
- the three provisioning processors, `create_account`, `user_account` and
  `pool_account`. Each derives a PDA, asks the system program to create a 128-byte
  account there, and writes the zero record into the third account supplied.

Files and modules:

- `bytes.dfy` (`Bytes`): `u8`/`u64`, powers of 256, little-endian `ToLe`/`FromLe` and the two round-trip lemmas.
- `borsh.dfy` (`Borsh`): `Encode`/`Decode` of a one-`u64` record, with both round trips.
- `solana.dfy` (`Solana`): the runtime as the program sees it.
  - `ProgramError`, and `Outcome`: `Ok`, `Err`, or a panic.
  - `AccountView`, the value of an account.
  - The `Account` class, whose `lamports` and `data` array change in place.
  - `copy_from_slice` and Borsh `serialize` into a slice.
  - The `Runtime` class, which records every `invoke_signed` request.
- `instruction.dfy` (`Instruction`): `Instruction::decode`.
- `deposit.dfy`, `withdraw.dfy` (`Deposit`, `Withdraw`): each processor.
  - A pure `Spec` of its effect on the account views.
  - The imperative `Process` method, proved to match `Spec`.
  - Lemmas about `Spec`.
- `provision.dfy` (`Provision`): what the three provisioning processors share, with its lemmas.
- `create_account.dfy`, `user_account.dfy`, `pool_account.dfy`: each processor's seeds, rent check and `Process`, with lemmas about its request.
- `program.dfy` (`Program`): `process_instruction`, as a `Spec` and a method.

Modelling conventions:

- An account's identity is its key. Entries of the account list that repeat a key
  are clones of one `AccountInfo` and share one lamports cell and one data buffer
  (`Solana.WellFormed`); accounts with different keys have different buffers.
- A write to an account is therefore a write to every list entry that carries
  its key (`SetData`, `SetLamports`).
- The `Process` methods take a `WellFormed` account list; `Solana.WellFormedCoherent`
  carries that over to the `Coherent` views every `Spec` lemma requires, and
  `Solana.SetDataCoherent` and `Solana.SetLamportsCoherent` show that writes by key keep
  the views coherent.
- The source keeps its unchecked `u64 +=`. An overflow is a panic (`Panic(ArithmeticOverflow)`), not an error value.
- `copy_from_slice` between slices of different lengths is a panic (`Panic(SliceLengthMismatch)`).
- Buffers are shown exactly as the code leaves them, with no rollback.

Parameters standing for the host (`Solana.Host`):

- `findProgramAddress`: an uninterpreted deterministic function.
- `minimumBalance`: stands for `Rent::default().minimum_balance`.
- `systemProgram`: the system program's answer to a `create_account` request,
  given the requests made before it.

## Model

| member | source | states |
|---|---|---|
| Bytes.FromLe | src/lib.rs:45-48 | the value of `n` little-endian bytes is below 256^n, so 8 bytes always make a `u64` |
| Bytes.FromLeToLe | src/lib.rs:45-48 | writing a value that fits in `n` bytes as `n` little-endian bytes and reading them back returns the value |
| Bytes.ToLeFromLe | src/lib.rs:45-48 | reading `n` bytes and writing the value back as `n` bytes returns the same bytes |
| Borsh.Encode | src/deposit.rs:46-51 | the Borsh encoding of a `UserWallet`/`PoolWallet` is always 8 bytes |
| Borsh.Decode | src/deposit.rs:31-37 | `try_from_slice` of a record succeeds if and only if the buffer is exactly 8 bytes long |
| Borsh.DecodeEncode | src/deposit.rs:10-18 | every record decodes from its own encoding |
| Borsh.EncodeDecode | src/deposit.rs:31-37 | a buffer that decodes is exactly the encoding of the decoded value |
| Borsh.EncodeInjective | src/deposit.rs:46-51 | different balances have different encodings |
| Instruction.AmountOf | src/lib.rs:45-48 | `rest.try_into()` into `[u8; 8]` succeeds if and only if exactly 8 bytes remain |
| Instruction.Decode | src/lib.rs:34-62 | decoding succeeds iff the input is non-empty and its tag is 0 or 1, or 2 or 3 with exactly 8 bytes after it. Every failure is `InvalidInstructionData`. On success the returned remainder is the input minus its first byte |
| Instruction.DecodeUnitTags | src/lib.rs:42-43 | tag 0 is `Initialize` and tag 1 is `CreateAccount`, whatever follows, and the remainder handed back is what followed |
| Instruction.DecodeAmountTags | src/lib.rs:44-57 | tag 2 (3) followed by the 8 little-endian bytes of `a` decodes to `Deposit(a)` (`Withdraw(a)`), and those 8 bytes are handed back |
| Instruction.DecodedAmount | src/lib.rs:44-57 | every decoded amount is the little-endian value of exactly the 8 bytes after the tag |
| Instruction.DecodeRejects | src/lib.rs:34-58 | empty input and every tag above 3 give `InvalidInstructionData` |
| Solana.CopyFromSlice | src/deposit.rs:57 | `copy_from_slice` writes the whole buffer iff the lengths agree and otherwise leaves it alone. Only the target account's data changes |
| Solana.SerializeInto | src/withdraw.rs:42 | serializing into the data slice overwrites as many leading bytes as fit and keeps the rest. It reports failure when not all bytes fit. Only the target's data changes |
| Solana.Runtime.InvokeSigned | src/create_account.rs:49-53 | every `invoke_signed` request is appended to the log, and the system program's answer decides whether it fails |
| Deposit.Process | src/deposit.rs:20-73 | the imperative processor leaves outcome and accounts exactly as `Deposit.Spec` says, given the accounts before the call |
| Deposit.WriteBack | src/deposit.rs:46-63 | re-encodes both records and writes them back. The user buffer is checked and written before the pool buffer is borrowed, checked and written |
| Deposit.SucceedsIff | src/deposit.rs:27-63 | a deposit succeeds iff five conditions hold: both owners are the program, both records decode, the pool covers `amount`, the user balance does not overflow, and user and pool are distinct accounts. The capacity checks never fail after a decode |
| Deposit.RejectsForeignOwner | src/deposit.rs:27-29 | a user or pool account not owned by the program gives `IncorrectProgramId`, with no account changed |
| Deposit.RejectsMalformedRecord | src/deposit.rs:31-37 | a record buffer that is not exactly 8 bytes gives `InvalidAccountData`, with no account changed |
| Deposit.RejectsInsufficientPool | src/deposit.rs:39-41 | `total_balance < amount` gives `InsufficientFunds`, with no account changed |
| Deposit.FailureLeavesAccounts | src/deposit.rs:27-63 | every failure except the aliased-borrow one changes nothing. No run changes lamports, owners or keys, touches an account other than the two, or makes a request |
| Deposit.MovesAmountFromPoolToUser | src/deposit.rs:39-63 | on success the user buffer holds `Encode(balance + amount)` and the pool buffer `Encode(total - amount)`, with `amount <= total` and the sum of the two records unchanged |
| Deposit.ZeroAmountChangesNothing | src/deposit.rs:39-63 | a deposit of 0 between two distinct program accounts with valid records succeeds and leaves every byte as it was |
| Deposit.AliasedAccountsKeepFirstWrite | src/deposit.rs:53-63 | when user and pool are the same account, a funded deposit fails with `AccountBorrowFailed` at the second borrow, and the user record already holds `balance + amount` |
| Deposit.DepositThirtyFromHundred | src/deposit.rs:39-44 | with records user 0 and pool 100, depositing 30 succeeds with user 30 and pool 70. With an empty pool, depositing 10 gives `InsufficientFunds` and changes nothing |
| Withdraw.Process | src/withdraw.rs:20-49 | the imperative processor leaves outcome and accounts exactly as `Withdraw.Spec` says, given the accounts before the call |
| Withdraw.Debit | src/withdraw.rs:39-45 | the debited pool record is serialized into the pool buffer first, and only then are the user's lamports credited |
| Withdraw.SucceedsIff | src/withdraw.rs:26-45 | a withdrawal succeeds iff both owners are the program, the pool record decodes and covers `amount`, and the user's lamports do not overflow |
| Withdraw.RejectsForeignOwner | src/withdraw.rs:26-28 | a user or pool account not owned by the program gives `IncorrectProgramId`, with no account changed |
| Withdraw.RejectsInsufficientPool | src/withdraw.rs:34-36 | `total_balance < amount` gives `InsufficientFunds` with pool data and user lamports unchanged |
| Withdraw.IgnoresUserData | src/withdraw.rs:31-45 | while user and pool are distinct accounts, the outcome does not depend on the user account's data and that data is never written |
| Withdraw.DebitsPoolCreditsUser | src/withdraw.rs:39-45 | on success the pool buffer, which must be exactly 8 bytes to decode (a buffer of any other length never reaches the write), holds exactly `Encode(total - amount)`, and the user's lamports rise by exactly `amount`. With distinct accounts, the user data and the pool lamports are untouched |
| Withdraw.LamportsGrowByAmount | src/withdraw.rs:39-45 | between distinct user and pool accounts, on success `pool record + user lamports` is preserved and the user record is unchanged, so the records lose `amount` while the two accounts' lamports gain `amount` |
| Withdraw.OverflowAfterPoolWrite | src/withdraw.rs:42-45 | when the lamport credit overflows, the run panics with the debited pool record already written and the lamports unchanged |
| Withdraw.TouchesOnlyTheTwo | src/withdraw.rs:22-45 | no run touches accounts other than the two or makes a request, and every failure before the pool write changes nothing |
| Provision.Request | src/create_account.rs:27-53 | the request is `create_account` from the payer to the PDA derived from the scheme's seeds. It carries the rent minimum for 128 bytes, 128 bytes of space, the program as owner, the payer and system program as account infos, and the scheme's signer seeds with the derived bump |
| Provision.Run | src/create_account.rs:18-82 | the shared imperative body leaves outcome, accounts and request log exactly as `Provision.Spec` says |
| Provision.WriteZeroRecord | src/create_account.rs:55-74 | writing the zero record into the third account has the outcome and effect `Provision.ZeroRecordSpec` gives |
| Provision.RequestsOnceAfterChecks | src/user_account.rs:29-51 | one request exactly when two accounts are present and any rent check passes, none otherwise. A run with no request changes nothing |
| Provision.RentCheckPrecedesRequest | src/user_account.rs:32-35 | when the processor checks rent, a payer below the minimum gets `InsufficientFunds` before any request |
| Provision.RejectedAllocationWritesNothing | src/create_account.rs:49-53 | a rejected allocation returns the system program's error, and no data is written |
| Provision.WriteOutcomeByLength | src/create_account.rs:55-74 | after an accepted allocation the third account's length decides, and it is never compared with the PDA. Missing gives `NotEnoughAccountKeys`; under 8 bytes gives `AccountDataTooSmall`; exactly 8 gives success with `Encode(0)` written; over 8 panics |
| Provision.WritesOnlyTheThird | src/user_account.rs:53-67 | the processor's own code writes no lamports (what an accepted `create_account` does to the payer is not modelled, see Left out), and only the third account's data is written. Success holds iff the request is made and accepted and the third account holds exactly 8 bytes |
| CreateAccount.Process | src/create_account.rs:18-82 | `create_account::process` is the provisioning body with seeds `["user_wallet", payer]`, signer `["user_wallet", payer, [bump]]` and no rent check |
| CreateAccount.RequestsWithoutBalanceCheck | src/create_account.rs:32-53 | with two accounts the request always goes out, whatever the payer's lamports, with exactly the fields and seeds of the source |
| CreateAccount.SameAddressForSamePayer | src/create_account.rs:27-30 | the same payer key and program give the same derived address, instruction and signer seeds |
| CreateAccount.RequestsBeforeMissingThirdAccount | src/create_account.rs:49-65 | with only two accounts the allocation is still requested, and, once it is accepted, the run fails with `NotEnoughAccountKeys` |
| UserAccount.Process | src/user_account.rs:18-75 | `user_account::process` is the provisioning body with the user-wallet seeds of the first account and a rent check |
| UserAccount.RequestsOnlyWithRent | src/user_account.rs:26-51 | a payer below the rent minimum gets `InsufficientFunds` with no request. Otherwise the request has exactly the fields and seeds of the source |
| UserAccount.SameAddressAsCreateAccount | src/user_account.rs:26-27 | it issues the same request as `create_account` for the same payer |
| PoolAccount.Process | src/pool_account.rs:18-72 | `pool_account::process` is the provisioning body with the seed `["pool_wallet"]`, signer seed sets `[["pool_wallet"], [bump]]` and a rent check |
| PoolAccount.RequestsPoolAddress | src/pool_account.rs:25-49 | with rent covered, the request is for the PDA of `["pool_wallet"]`, signed with the two one-element seed sets |
| PoolAccount.AddressIgnoresPayer | src/pool_account.rs:25 | the pool address does not depend on who pays |
| PoolAccount.RefusesPayerBelowRent | src/pool_account.rs:29-35 | a payer below the rent minimum gets `InsufficientFunds` before any request |
| Program.ProcessInstruction | src/lib.rs:11-23 | the dispatcher leaves outcome, accounts and request log exactly as `Program.Spec` says. `Program.Spec` decodes, then runs exactly the processor of the decoded variant |
| Program.DecodeErrorRunsNothing | src/lib.rs:16 | a malformed instruction gives `InvalidInstructionData` with no processor run, no account changed and no request |
| Program.AmountTagsRoute | src/lib.rs:20-21 | tag 2 plus an amount runs exactly the deposit processor with that amount, and tag 3 the withdraw processor |
| Program.UnitTagsRoute | src/lib.rs:18-19 | tag 0 changes nothing and returns `Ok`, and tag 1 runs exactly `create_account`, whatever follows the tag |

## Behaviour of the code worth knowing

- Tags are 0 = Initialize, 1 = CreateAccount, 2 = Deposit, 3 = Withdraw (`src/lib.rs:41-58`).
- `Deposit` moves value from the pool record to the user record (`src/deposit.rs:39-44`).
- The user balance is raised with an unchecked `+=`; an overflow panics, and the
  program has no overflow error value.
- The two capacity checks are not both made before the writes. The user buffer is
  written before the pool buffer is even borrowed (`src/deposit.rs:53-63`).
- `Withdraw` debits the pool record and credits the user's lamports. It never
  touches the user record or the pool's lamports (`src/withdraw.rs:39-45`).
- A record decodes only from a buffer of exactly 8 bytes.
- Writing the zero record into a buffer longer than 8 bytes panics in
  `copy_from_slice`; no prefix is written.
- The third account receiving the zero record is never checked to be the derived address.

## Left out

- `Pubkey::find_program_address`: its hash search for an off-curve address is
  foreign cryptography. It is the uninterpreted `Host.findProgramAddress`, so the
  off-curve property and the panic when no bump works are not modelled.
- `invoke_signed` of `system_instruction::create_account`: a cross-program call into the runtime.
  - It is modelled only as a recorded request and the system program's verdict.
  - The model does not capture what an accepted call does to the payer's lamports or to the new account.
  - It does not capture whether the runtime accepts these requests. The PDA is not among the
    account infos passed, and the pool processor's signer seeds are shaped as they are.
- `Rent::default().minimum_balance`: its arithmetic uses floating point. It is the host parameter `Host.minimumBalance`.
- Logging (`msg!`), the `entrypoint!` macro, and the unused `data` argument of the provisioning processors.
- `RefCell` borrow failures: `try_borrow_mut_data` and `try_borrow_mut_lamports` are taken to succeed.
  The exception is deposit with the same account as user and pool. There the
  second mutable borrow of the data fails, and the model returns `AccountBorrowFailed`.
- The host's all-or-nothing rollback on error. The accounts are shown as the code leaves them.
- The exact `ProgramError` produced from Borsh `io::Error`s at `src/withdraw.rs:31` and `src/withdraw.rs:42`. It is the single value `BorshIoError`.
- The `try_to_vec` error paths (`src/deposit.rs:46-51` and the provisioning processors). Serializing a `u64` into a vector cannot fail, so `Borsh.Encode` is total.
- The advancing of the `&mut [u8]` writer by Borsh `serialize` at `src/withdraw.rs:42`. It shortens the `AccountInfo`'s view of the data. The model shows the bytes of the underlying buffer.
- Deposit.Spec: overflow checks. The unchecked `+=` at `src/deposit.rs:43` is modelled as a panic, the behaviour with overflow checks on. A build without them would wrap instead.
- Withdraw.Spec: overflow checks. The unchecked `+=` at `src/withdraw.rs:45` is modelled the same way, as a panic, and a build without them would wrap.
- The runtime's checks after an instruction returns: that the instruction's total of lamports is
  unchanged (a withdraw of a positive `amount` raises it at `src/withdraw.rs:45` and lowers no
  balance), and that only an account's owner writes its data (the provisioning processors write
  the third account without checking its owner, `src/create_account.rs:65-74`). An `Ok` outcome
  is what the program returns, not what the cluster commits.
- `src/initialize.rs`: the processor only logs and returns `Ok`. The dispatcher's `Initialize` case is that `Ok`, with nothing changed.
