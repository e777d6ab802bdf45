/** The life of a program: deployed under the digest of its own package, closed once and for ever. */
module Programs {
  import opened Wrappers
  import opened Core
  import opened Ledger
  import opened Frames
  import opened NativeAccounting
  import Package

  /** No identity is both open and closed, and every stored package is the one its identity names. */
  ghost predicate ProgramsSound(env: Env, s: Snapshot) {
    && s.programs.live.Keys !! s.programs.closed.Keys
    && forall id | id in s.programs.live :: env.packageId(s.programs.live[id].package) == Some(id)
  }

  lemma ActionKeepsPrograms(env: Env, s: Snapshot, op: ProgramOperation, owner: Address, height: nat)
    requires ProgramsSound(env, s)
    ensures var r := ProgramAction(env, s, op, owner, height);
            r.Ok? ==> ProgramsSound(env, r.value.state) && s.programs.closed.Keys <= r.value.state.programs.closed.Keys
  {
  }

  lemma ProgramStepKeepsPrograms(env: Env, s: Snapshot, op: ProgramOperation, height: nat)
    requires ProgramsSound(env, s)
    ensures var s' := ApplyProgram(env, s, op, height).state;
            ProgramsSound(env, s') && s.programs.closed.Keys <= s'.programs.closed.Keys
  {
    var owner := env.addressOf(op.publicKey);
    ActionKeepsPrograms(env, SetAccount(s, owner, AccountOf(s, owner)), op, owner, height);
    hide ProgramAction;
  }

  /** No operation of any family, accepted or not, breaks the law or forgets a closed identity. */
  lemma StepKeepsPrograms(env: Env, s: Snapshot, op: Op)
    requires ProgramsSound(env, s)
    ensures var s' := Apply(env, s, op).state;
            ProgramsSound(env, s') && s.programs.closed.Keys <= s'.programs.closed.Keys
  {
    match op
    case Transfer(tx) => TransferWrites(env, s, tx);
    case Bridge(o) => BridgeWrites(s, o);
    case Token(o) => TokenWrites(env, s, o, env.tokenOpId(o.unsigned));
    case Swap(o) => SwapWrites(env, s, o);
    case Reserve(o) => ReserveWrites(env, s, o);
    case Program(o, height) => ProgramStepKeepsPrograms(env, s, o, height);
    case Credit(a, amount) =>
  }

  /** Once closed, an identity is never open again. */
  lemma {:induction false} ClosedStaysClosed(env: Env, s: Snapshot, ops: seq<Op>, id: string)
    requires ProgramsSound(env, s) && id in s.programs.closed
    ensures var end := Run(env, s, ops);
            end.Some? ==>
              && ProgramsSound(env, end.value)
              && id in end.value.programs.closed
              && id !in end.value.programs.live
    decreases |ops|
  {
    if ops != [] {
      StepKeepsPrograms(env, s, ops[0]);
      ClosedStaysClosed(env, Apply(env, s, ops[0]).state, ops[1..], id);
    }
  }

  lemma {:induction false} RunsKeepPrograms(env: Env, s: Snapshot, ops: seq<Op>)
    requires ProgramsSound(env, s)
    ensures var end := Run(env, s, ops); end.Some? ==> ProgramsSound(env, end.value)
    decreases |ops|
  {
    if ops != [] {
      StepKeepsPrograms(env, s, ops[0]);
      RunsKeepPrograms(env, Apply(env, s, ops[0]).state, ops[1..]);
    }
  }

  /** In a sound state a call fails for exactly two reasons: no gas, or no such program. The stored package
      always decodes. */
  lemma CallFailsExactly(env: Env, s: Snapshot, op: ProgramOperation, owner: Address, height: nat)
    requires ProgramsSound(env, s) && op.kind == Call
    ensures var r := ProgramAction(env, s, op, owner, height);
            && (r == Err(InvalidProgramOperation) <==> op.gasLimit == 0)
            && (r == Err(ProgramNotFound) <==> op.gasLimit != 0 && op.programId !in s.programs.live)
            && (r.Err? ==> r.error.InvalidProgramOperation? || r.error.ProgramNotFound?)
  {
  }

  /** What an applied program operation moves: the fee in the receipt, from the payer to the fee pool, without
      wrapping and within what the operation authorised. */
  lemma FeeIsPaidExactly(env: Env, s: Snapshot, op: ProgramOperation, height: nat)
    requires Metered(env) && ApplyProgram(env, s, op, height).outcome == Done(true)
    ensures var s' := ApplyProgram(env, s, op, height).state;
            var owner, id := env.addressOf(op.publicKey), env.programOpId(op);
            && id in s'.programs.receipts
            && AuthorisedFee(s, op).Ok?
            && s'.programs.receipts[id].feePaid <= AuthorisedFee(s, op).value <= op.fee
            && AccountOf(s, owner).balance == AccountOf(s', owner).balance + s'.programs.receipts[id].feePaid
            && s'.native.feePool == s.native.feePool + s'.programs.receipts[id].feePaid
            && forall a | a != owner :: AccountOf(s', a) == AccountOf(s, a)
  {
    var owner := env.addressOf(op.publicKey);
    var entered := SetAccount(s, owner, AccountOf(s, owner));
    ChargedWithinAuthorised(env, entered, op, owner, height);
    ProgramActionWrites(env, entered, op, owner, height);
    hide ProgramAction;
    var run := ProgramAction(env, entered, op, owner, height).value;
    var charged := ChargedFee(entered, op, AuthorisedFee(s, op).value, run.gasUsed).value;
    assert WrappingSub(AccountOf(s, owner).balance, charged) == AccountOf(s, owner).balance - charged;
  }

  lemma GenesisHasNoPrograms(env: Env, chainId: string, feeMinimum: u128, accounts: map<Address, Account>)
    ensures ProgramsSound(env, GenesisState(chainId, feeMinimum, accounts))
  {
  }

  /** The ledger's loader is the package decoder. */
  ghost predicate LoadsPackages<M>(env: Env, t: Package.Tools<M>) {
    forall b :: env.packageId(b) == Package.LoadedId(t, b)
  }

  /** In every state that a run reaches from genesis, the bytes stored for an open program decode, verify, and decode to
      a program with that very identity. */
  lemma StoredPackagesDecode<M>(env: Env, t: Package.Tools<M>, chainId: string, feeMinimum: u128,
      accounts: map<Address, Account>, ops: seq<Op>, id: string)
    requires LoadsPackages(env, t)
    ensures var end := Run(env, GenesisState(chainId, feeMinimum, accounts), ops);
            end.Some? && id in end.value.programs.live ==>
              var p := Package.Decode(t, end.value.programs.live[id].package);
              p.Ok? && Package.Verify(t, p.value).Ok? && |p.value.codeHash| >= 40 && Package.ProgramId(p.value) == id
  {
    hide Run, Package.ProgramId;
    GenesisHasNoPrograms(env, chainId, feeMinimum, accounts);
    RunsKeepPrograms(env, GenesisState(chainId, feeMinimum, accounts), ops);
    var end := Run(env, GenesisState(chainId, feeMinimum, accounts), ops);
    if end.Some? && id in end.value.programs.live {
      assert Package.LoadedId(t, end.value.programs.live[id].package) == Some(id);
    }
  }
}
