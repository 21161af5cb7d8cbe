/**
 * The part of the Solana runtime the program touches: public keys, the
 * `ProgramError` values it returns, accounts (`AccountInfo`) with their lamports and
 * data buffers, and the two host services it calls: `Pubkey::find_program_address`
 * and `invoke_signed` of a system-program `create_account` instruction.
 */
module Solana {
  import opened Bytes
  import opened Wrappers

  const PubkeySize: nat := 32

  type Pubkey = k: Bytes | |k| == PubkeySize witness seq(32, _ => 0)

  /** The `ProgramError` variants the program can return. */
  datatype ProgramError =
    | InvalidInstructionData
    | InvalidAccountData
    | IncorrectProgramId
    | InsufficientFunds
    | AccountDataTooSmall
    | NotEnoughAccountKeys
    | AccountBorrowFailed
    | BorshIoError
    | Custom(code: u32)

  /** Why the program aborts when it panics instead of returning an error. */
  datatype PanicReason =
    | ArithmeticOverflow   // an unchecked `+=` on a `u64` that overflows
    | SliceLengthMismatch  // `copy_from_slice` between slices of different lengths

  /** How one run of a processor ends: `Ok(())`, `Err(e)`, or a panic. */
  datatype Outcome = Ok | Err(error: ProgramError) | Panic(reason: PanicReason)

  /** What a processor sees of one account: an `AccountInfo`'s key, owner, lamports and data. */
  datatype AccountView = AccountView(key: Pubkey, owner: Pubkey, lamports: u64, data: Bytes)

  /**
   * Entries of the account list that repeat a key are clones of one `AccountInfo`:
   * they share one lamports cell and one data buffer, so views with the same key are
   * the same view.
   */
  ghost predicate Coherent(views: seq<AccountView>)
  {
    forall i, j :: 0 <= i < |views| && 0 <= j < |views| && views[i].key == views[j].key ==> views[i] == views[j]
  }

  /** The views after the data of the account `key` becomes `data`. */
  function SetData(views: seq<AccountView>, key: Pubkey, data: Bytes): (r: seq<AccountView>)
    ensures |r| == |views|
    ensures forall i :: 0 <= i < |views| ==> r[i] == if views[i].key == key then views[i].(data := data) else views[i]
  {
    seq(|views|, i requires 0 <= i < |views| => if views[i].key == key then views[i].(data := data) else views[i])
  }

  /** The views after the lamports of the account `key` become `lamports`. */
  function SetLamports(views: seq<AccountView>, key: Pubkey, lamports: u64): (r: seq<AccountView>)
    ensures |r| == |views|
    ensures forall i :: 0 <= i < |views| ==> r[i] == if views[i].key == key then views[i].(lamports := lamports) else views[i]
  {
    seq(|views|, i requires 0 <= i < |views| => if views[i].key == key then views[i].(lamports := lamports) else views[i])
  }

  lemma SetDataCoherent(views: seq<AccountView>, key: Pubkey, data: Bytes)
    requires Coherent(views)
    ensures Coherent(SetData(views, key, data))
  {
  }

  lemma SetLamportsCoherent(views: seq<AccountView>, key: Pubkey, lamports: u64)
    requires Coherent(views)
    ensures Coherent(SetLamports(views, key, lamports))
  {
  }

  /** What a processor leaves behind: how it ended, the accounts, the cross-program calls it made. */
  datatype Effect = Effect(outcome: Outcome, accounts: seq<AccountView>, requests: seq<Invocation>)

  /** `system_instruction::create_account(from, to, lamports, space, owner)`. */
  datatype CreateAccountIx = CreateAccountIx(from: Pubkey, to: Pubkey, lamports: u64, space: u64, owner: Pubkey)

  /** One `invoke_signed` call: the instruction, the keys of the account infos passed, the signer seeds. */
  datatype Invocation = Invocation(instruction: CreateAccountIx, accountInfos: seq<Pubkey>, signerSeeds: seq<seq<Bytes>>)

  /**
   * The host services, left uninterpreted: the program-address derivation (a hash
   * search over bump seeds), `Rent::minimum_balance`, and the system program's answer
   * to a `create_account` request given the requests made before it (None: accepted).
   */
  datatype Host = Host(
    findProgramAddress: (seq<Bytes>, Pubkey) -> (Pubkey, u8),
    minimumBalance: nat -> u64,
    systemProgram: (seq<Invocation>, Invocation) -> Option<ProgramError>)

  /** An `AccountInfo`: key and owner are fixed, lamports and the data buffer change in place. */
  class Account {
    const key: Pubkey
    const owner: Pubkey
    var lamports: u64
    const data: array<u8>

    constructor (key: Pubkey, owner: Pubkey, lamports: u64, data: array<u8>)
      ensures this.key == key && this.owner == owner && this.lamports == lamports && this.data == data
    {
      this.key := key;
      this.owner := owner;
      this.lamports := lamports;
      this.data := data;
    }

    function View(): (v: AccountView)
      reads this, data
      ensures v.key == key && v.owner == owner && v.lamports == lamports && v.data == data[..]
    {
      AccountView(key, owner, lamports, data[..])
    }
  }

  function DataArrays(accounts: seq<Account>): set<array<u8>>
  {
    set i | 0 <= i < |accounts| :: accounts[i].data
  }

  /**
   * The account list a program receives: entries that repeat a key are clones sharing
   * one lamports cell and one data buffer (here, one `Account`), and accounts with
   * different keys have different data buffers.
   */
  predicate WellFormed(accounts: seq<Account>)
  {
    (forall i, j :: 0 <= i < |accounts| && 0 <= j < |accounts| && accounts[i].key == accounts[j].key ==> accounts[i] == accounts[j]) &&
    (forall i, j :: 0 <= i < |accounts| && 0 <= j < |accounts| && accounts[i].data == accounts[j].data ==> accounts[i] == accounts[j])
  }

  function Views(accounts: seq<Account>): (r: seq<AccountView>)
    reads accounts, DataArrays(accounts)
    ensures |r| == |accounts|
    ensures forall i :: 0 <= i < |accounts| ==> r[i] == accounts[i].View()
  {
    seq(|accounts|, i requires 0 <= i < |accounts| reads accounts, DataArrays(accounts) => accounts[i].View())
  }

  lemma WellFormedCoherent(accounts: seq<Account>)
    requires WellFormed(accounts)
    ensures Coherent(Views(accounts))
  {
  }

  /**
   * `dst.copy_from_slice(src)` on the data of `target`: it copies only when the
   * lengths agree (the caller panics on `false`).
   */
  method CopyFromSlice(accounts: seq<Account>, target: Account, src: Bytes) returns (copied: bool)
    requires WellFormed(accounts) && target in accounts
    modifies target.data
    ensures copied == (target.data.Length == |src|)
    ensures Views(accounts) == if copied then SetData(old(Views(accounts)), target.key, src) else old(Views(accounts))
  {
    if target.data.Length != |src| {
      return false;
    }
    forall i | 0 <= i < |src| {
      target.data[i] := src[i];
    }
    assert target.data[..] == src;
    return true;
  }

  /**
   * Borsh `serialize` of `src` into the data of `target` through a `&mut [u8]` writer
   * (`write_all`): it writes as many bytes as fit, leaves the rest of the buffer as it
   * was, and reports failure when not all of `src` fit.
   */
  function WriteAll(dst: Bytes, src: Bytes): (r: Bytes)
    ensures |r| == |dst|
    ensures |src| <= |dst| ==> r[..|src|] == src && r[|src|..] == dst[|src|..]
    ensures |dst| < |src| ==> r == src[..|dst|]
  {
    if |src| <= |dst| then src + dst[|src|..] else src[..|dst|]
  }

  method SerializeInto(accounts: seq<Account>, target: Account, src: Bytes) returns (written: bool)
    requires WellFormed(accounts) && target in accounts
    modifies target.data
    ensures written == (|src| <= target.data.Length)
    ensures Views(accounts) == SetData(old(Views(accounts)), target.key, WriteAll(old(target.data[..]), src))
  {
    ghost var before := target.data[..];
    var n := if |src| <= target.data.Length then |src| else target.data.Length;
    forall i | 0 <= i < n {
      target.data[i] := src[i];
    }
    assert target.data[..] == WriteAll(before, src);
    return |src| <= target.data.Length;
  }

  /** `**lamports = v` on `target`. */
  method StoreLamports(accounts: seq<Account>, target: Account, v: u64)
    requires WellFormed(accounts) && target in accounts
    modifies target
    ensures Views(accounts) == SetLamports(old(Views(accounts)), target.key, v)
  {
    target.lamports := v;
  }

  /** The host as the program sees it: fixed services, and the log of requests made to the system program. */
  class Runtime {
    const host: Host
    var log: seq<Invocation>

    constructor (host: Host)
      ensures this.host == host && log == []
    {
      this.host := host;
      log := [];
    }

    /** `invoke_signed`: the request is recorded; the system program decides whether it fails. */
    method InvokeSigned(ix: CreateAccountIx, accountInfos: seq<Pubkey>, signerSeeds: seq<seq<Bytes>>)
      returns (rejection: Option<ProgramError>)
      modifies this
      ensures log == old(log) + [Invocation(ix, accountInfos, signerSeeds)]
      ensures rejection == host.systemProgram(old(log), Invocation(ix, accountInfos, signerSeeds))
    {
      var request := Invocation(ix, accountInfos, signerSeeds);
      rejection := host.systemProgram(log, request);
      log := log + [request];
    }
  }
}
