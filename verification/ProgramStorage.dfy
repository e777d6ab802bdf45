/** What program operations do to the program they name, and that what a creator stored is what is read. */
module ProgramStorage {
  import opened Wrappers
  import opened Core
  import opened Ledger
  import opened Frames
  import opened Effects
  import opened Consent

  function Owner(env: Env, o: ProgramOperation): Address {
    env.addressOf(o.publicKey)
  }

  /** What an applied program operation makes of the book: deployment enters the signed package with an empty store,
      storing writes one entry of the creator's own program, closing is the creator's, and a call changes no program. */
  predicate Carries(env: Env, s: Snapshot, o: ProgramOperation, height: nat, b: ProgramBook) {
    var live, id := s.programs.live, o.programId;
    match o.kind
    case Deploy =>
      && id !in live && id !in s.programs.closed && env.packageId(o.package) == Some(id)
      && b.live == live[id := ProgramRecord(o.package, Owner(env, o), height, map[])] && b.closed == s.programs.closed
    case Call => id in live && o.gasLimit > 0 && b.live == live && b.closed == s.programs.closed
    case StorageSet =>
      && id in live && live[id].creator == Owner(env, o)
      && b.live == live[id := live[id].(storage := live[id].storage[o.key := o.value])] && b.closed == s.programs.closed
    case Close =>
      && id in live && live[id].creator == Owner(env, o)
      && b.live == live - {id} && b.closed == s.programs.closed[id := height]
  }

  /** What the receipt says. */
  predicate Receipted(env: Env, s: Snapshot, o: ProgramOperation, r: ProgramReceipt) {
    && r.programId == o.programId && r.kind == o.kind && r.gasLimit == o.gasLimit && r.feePaid == ProgramFee(env, s, o)
    && (o.kind == Call && o.programId in s.programs.live ==>
          match env.execute(s.programs.live[o.programId].package, o.gasLimit)
          case RunOk(data, used) => r.returnData == data && r.gasUsed == used && r.error == None
          case RunErr(message) => r.returnData == [] && r.gasUsed == o.gasLimit && r.error == Some(message))
  }

  lemma ActionCarries(env: Env, s: Snapshot, o: ProgramOperation, height: nat)
    requires ProgramAction(env, s, o, Owner(env, o), height).Ok?
    ensures Carries(env, s, o, height, ProgramAction(env, s, o, Owner(env, o), height).value.state.programs)
    ensures ProgramAction(env, s, o, Owner(env, o), height).value.state.programs.receipts == s.programs.receipts
  {
  }

  /** An applied program operation does exactly what its kind says and leaves a true receipt. */
  lemma ProgramTakesEffect(env: Env, s: Snapshot, o: ProgramOperation, height: nat)
    requires Metered(env) && Apply(env, s, Program(o, height)).outcome == Done(true)
    ensures var b, id := Apply(env, s, Program(o, height)).state.programs, env.programOpId(o);
            && Signed(env, s, Program(o, height)) && Carries(env, s, o, height, b)
            && id !in s.programs.receipts && id in b.receipts && b.receipts == s.programs.receipts[id := b.receipts[id]]
            && Receipted(env, s, o, b.receipts[id])
  {
    hide Carries, Signed, ProgramFee;
    ProgramIsSigned(env, s, o, height);
    var owner := Owner(env, o);
    var entered := SetAccount(s, owner, AccountOf(s, owner));
    ActionCarries(env, entered, o, height);
    SettledAsCharged(env, s, o, height);
    CarriesSameBook(env, entered, s, o, height, ProgramAction(env, entered, o, owner, height).value.state.programs,
      Apply(env, s, Program(o, height)).state.programs);
  }

  lemma CarriesSameBook(env: Env, s: Snapshot, t: Snapshot, o: ProgramOperation, height: nat, b: ProgramBook,
      c: ProgramBook)
    requires s.programs == t.programs && b.live == c.live && b.closed == c.closed
    ensures Carries(env, s, o, height, b) ==> Carries(env, t, o, height, c)
  {
  }

  lemma SettledAsCharged(env: Env, s: Snapshot, o: ProgramOperation, height: nat)
    requires Metered(env) && Apply(env, s, Program(o, height)).outcome == Done(true)
    ensures var b, id, owner := Apply(env, s, Program(o, height)).state.programs, env.programOpId(o), Owner(env, o);
            var run := ProgramAction(env, SetAccount(s, owner, AccountOf(s, owner)), o, owner, height);
            && run.Ok? && id !in s.programs.receipts && id in b.receipts
            && b == run.value.state.programs.(receipts := run.value.state.programs.receipts[id := b.receipts[id]])
            && Receipted(env, s, o, b.receipts[id])
  {
    var owner := Owner(env, o);
    var entered := SetAccount(s, owner, AccountOf(s, owner));
    var run := ProgramAction(env, entered, o, owner, height).value;
    assert ChargedFee(entered, o, AuthorisedFee(s, o).value, run.gasUsed).value == ProgramFee(env, s, o);
    assert o.kind == Call ==> run == CallProgram(env, entered, o);
    hide ProgramAction, ProgramFee;
  }

  /** The value an open program has stored under a key. */
  predicate Stores(s: Snapshot, id: string, key: string, value: string) {
    id in s.programs.live && key in s.programs.live[id].storage && s.programs.live[id].storage[key] == value
  }

  /** An operation that would store under that key, or close the program. */
  predicate Overwrites(op: Op, id: string, key: string) {
    op.Program? && op.program.programId == id && (op.program.kind == Close || (op.program.kind == StorageSet && op.program.key == key))
  }

  lemma StepKeepsStored(env: Env, s: Snapshot, op: Op, id: string, key: string, value: string)
    requires Metered(env) && Stores(s, id, key, value) && !Overwrites(op, id, key)
    ensures Stores(Apply(env, s, op).state, id, key, value)
  {
    match op
    case Transfer(tx) => TransferWrites(env, s, tx);
    case Bridge(o) => BridgeWrites(s, o);
    case Token(o) => TokenWrites(env, s, o, env.tokenOpId(o.unsigned));
    case Swap(o) => SwapWrites(env, s, o);
    case Reserve(o) => ReserveWrites(env, s, o);
    case Program(o, height) =>
      if Apply(env, s, op).outcome == Done(true) {
        ProgramTakesEffect(env, s, o, height);
        hide ApplyProgram, Receipted, Signed;
      } else {
        hide ProgramEffect;
      }
    case Credit(a, amount) =>
  }

  /** What a creator stored is what is read: after the store, whatever operations follow with whatever outcome, the value
      stands until something is stored under that key or the program is closed. */
  lemma StoredIsRead(env: Env, s: Snapshot, o: ProgramOperation, height: nat, ops: seq<Op>)
    requires Metered(env) && o.kind == StorageSet && Apply(env, s, Program(o, height)).outcome == Done(true)
    requires forall i :: 0 <= i < |ops| ==> !Overwrites(ops[i], o.programId, o.key)
    ensures Stores(Through(env, Apply(env, s, Program(o, height)).state, ops), o.programId, o.key, o.value)
  {
    hide Apply, Receipted, Signed, Overwrites, Metered;
    ProgramTakesEffect(env, s, o, height);
    RunKeepsStored(env, Apply(env, s, Program(o, height)).state, ops, o.programId, o.key, o.value);
  }

  lemma {:induction false} RunKeepsStored(env: Env, s: Snapshot, ops: seq<Op>, id: string, key: string, value: string)
    requires Metered(env) && Stores(s, id, key, value)
    requires forall i :: 0 <= i < |ops| ==> !Overwrites(ops[i], id, key)
    ensures Stores(Through(env, s, ops), id, key, value)
    decreases |ops|
  {
    hide Apply, Stores, Overwrites, Metered;
    if ops != [] {
      StepKeepsStored(env, s, ops[0], id, key, value);
      RunKeepsStored(env, Apply(env, s, ops[0]).state, ops[1..], id, key, value);
    }
  }
}
