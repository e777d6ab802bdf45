/** The Ethereum contract that holds the deposited ether. */
module Escrow {
  import opened Wrappers
  import opened Core

  datatype EscrowError =
    | ZeroValue | DepositUsed | NotRelayer | ReleaseUsed | InvalidRelease | InsufficientReserve | ReleaseFailed

  /** What a deposit logs. The destination is `None` where its bytes are not text. */
  datatype DepositEvent = DepositEvent(id: Hash, amount: nat, destination: Option<string>, block: nat)

  /** What a release logs. */
  datatype Payment = Payment(id: Hash, recipient: string, amount: nat)

  datatype EscrowView = EscrowView(
    balance: nat, deposits: set<Hash>, releases: set<Hash>, events: seq<DepositEvent>, payments: seq<Payment>)

  const EMPTY_ESCROW := EscrowView(0, {}, {}, [], [])

  predicate IsZeroAddress(s: string) {
    forall i :: 2 <= i < |s| ==> s[i] == '0'
  }

  datatype Called = Called(escrow: EscrowView, result: Result<(), EscrowError>)

  function Deposited(e: EscrowView, id: Hash, value: nat, destination: Option<string>, block: nat): Called {
    if value == 0 then Called(e, Err(ZeroValue))
    else if id in e.deposits then Called(e, Err(DepositUsed))
    else
      Called(e.(balance := e.balance + value, deposits := e.deposits + {id},
                events := e.events + [DepositEvent(id, value, destination, block)]), Ok(()))
  }

  /** `accepts`: whether the recipient takes the transfer. */
  function Released(e: EscrowView, byRelayer: bool, id: Hash, recipient: string, amount: nat, accepts: bool)
    : Called
  {
    if !byRelayer then Called(e, Err(NotRelayer))
    else if id in e.releases then Called(e, Err(ReleaseUsed))
    else if IsZeroAddress(recipient) || amount == 0 then Called(e, Err(InvalidRelease))
    else if e.balance < amount then Called(e, Err(InsufficientReserve))
    else if !accepts then Called(e, Err(ReleaseFailed))
    else
      Called(e.(balance := e.balance - amount, releases := e.releases + {id},
                payments := e.payments + [Payment(id, recipient, amount)]), Ok(()))
  }

  /** A plain transfer to the contract. */
  function Received(e: EscrowView, value: nat): EscrowView {
    e.(balance := e.balance + value)
  }

  /** One event for every used deposit identity, and only for those. */
  ghost predicate EventsMatch(e: EscrowView) {
    && (forall i, j :: 0 <= i < j < |e.events| ==> e.events[i].id != e.events[j].id)
    && (forall i :: 0 <= i < |e.events| ==> e.events[i].amount > 0)
    && e.deposits == (set i | 0 <= i < |e.events| :: e.events[i].id)
  }

  lemma DepositKeepsEvents(e: EscrowView, id: Hash, value: nat, destination: Option<string>, block: nat)
    requires EventsMatch(e)
    ensures EventsMatch(Deposited(e, id, value, destination, block).escrow)
  {
    var e' := Deposited(e, id, value, destination, block).escrow;
    if e' != e {
      forall i | 0 <= i < |e.events| ensures e.events[i].id != id {
        assert e.events[i].id in e.deposits;
      }
      assert e'.events[|e.events|].id == id;
      forall x | x in e'.deposits ensures exists i :: 0 <= i < |e'.events| && e'.events[i].id == x {
        if x != id {
          var i :| 0 <= i < |e.events| && e.events[i].id == x;
          assert e'.events[i].id == x;
        }
      }
    }
  }

  /* ---------- any calls, by anyone ---------- */

  datatype Call =
    | DepositCall(id: Hash, value: nat, destination: Option<string>, block: nat)
    | ReleaseCall(byRelayer: bool, id: Hash, recipient: string, amount: nat, accepts: bool)
    | TransferCall(value: nat)

  function AfterCall(e: EscrowView, c: Call): EscrowView {
    match c
    case DepositCall(id, value, destination, block) => Deposited(e, id, value, destination, block).escrow
    case ReleaseCall(byRelayer, id, recipient, amount, accepts) =>
      Released(e, byRelayer, id, recipient, amount, accepts).escrow
    case TransferCall(value) => Received(e, value)
  }

  function AfterCalls(e: EscrowView, calls: seq<Call>): EscrowView
    decreases |calls|
  {
    if calls == [] then e else AfterCalls(AfterCall(e, calls[0]), calls[1..])
  }

  function TotalDeposited(events: seq<DepositEvent>): nat {
    if events == [] then 0 else TotalDeposited(events[..|events| - 1]) + events[|events| - 1].amount
  }

  function TotalPaid(payments: seq<Payment>): nat {
    if payments == [] then 0 else TotalPaid(payments[..|payments| - 1]) + payments[|payments| - 1].amount
  }

  function TotalTransferred(calls: seq<Call>): nat {
    if calls == [] then 0 else (if calls[0].TransferCall? then calls[0].value else 0) + TotalTransferred(calls[1..])
  }

  /** One payment for every used release identity, and only for those. */
  ghost predicate PaymentsMatch(e: EscrowView) {
    && (forall i, j :: 0 <= i < j < |e.payments| ==> e.payments[i].id != e.payments[j].id)
    && (forall i :: 0 <= i < |e.payments| ==> e.payments[i].amount > 0 && !IsZeroAddress(e.payments[i].recipient))
    && e.releases == (set i | 0 <= i < |e.payments| :: e.payments[i].id)
  }

  /** What is paid was ordered by the relayer, in one of the calls. */
  predicate Ordered(p: Payment, calls: seq<Call>) {
    exists i :: 0 <= i < |calls| && calls[i].ReleaseCall? && calls[i].byRelayer
      && Payment(calls[i].id, calls[i].recipient, calls[i].amount) == p
  }

  lemma ReleaseKeepsPayments(e: EscrowView, byRelayer: bool, id: Hash, recipient: string, amount: nat, accepts: bool)
    requires PaymentsMatch(e)
    ensures PaymentsMatch(Released(e, byRelayer, id, recipient, amount, accepts).escrow)
  {
    hide IsZeroAddress;
    var e' := Released(e, byRelayer, id, recipient, amount, accepts).escrow;
    if e' != e {
      forall i | 0 <= i < |e.payments| ensures e.payments[i].id != id {
        assert e.payments[i].id in e.releases;
      }
      assert e'.payments[|e.payments|].id == id;
      forall x | x in e'.releases ensures exists i :: 0 <= i < |e'.payments| && e'.payments[i].id == x {
        if x != id {
          var i :| 0 <= i < |e.payments| && e.payments[i].id == x;
          assert e'.payments[i].id == x;
        }
      }
    }
  }

  /** Only a deposit touches the deposits, and only a release the payments. */
  lemma OtherCallsMatch(e: EscrowView, e': EscrowView)
    ensures e'.events == e.events && e'.deposits == e.deposits ==> (EventsMatch(e') <==> EventsMatch(e))
    ensures e'.payments == e.payments && e'.releases == e.releases ==> (PaymentsMatch(e') <==> PaymentsMatch(e))
  {
  }

  lemma LastDeposit(events: seq<DepositEvent>, e: DepositEvent)
    ensures TotalDeposited(events + [e]) == TotalDeposited(events) + e.amount
  {
    assert (events + [e])[..|events|] == events;
  }

  lemma LastPayment(payments: seq<Payment>, p: Payment)
    ensures TotalPaid(payments + [p]) == TotalPaid(payments) + p.amount
  {
    assert (payments + [p])[..|payments|] == payments;
  }

  lemma CallConserves(e: EscrowView, c: Call)
    requires EventsMatch(e) && PaymentsMatch(e)
    ensures var e' := AfterCall(e, c);
            && EventsMatch(e') && PaymentsMatch(e')
            && e'.balance + TotalPaid(e'.payments) - TotalDeposited(e'.events)
               == e.balance + TotalPaid(e.payments) - TotalDeposited(e.events) + (if c.TransferCall? then c.value else 0)
            && forall p | p in e'.payments :: p in e.payments || Ordered(p, [c])
  {
    hide IsZeroAddress, EventsMatch, PaymentsMatch, TotalPaid, TotalDeposited;
    OtherCallsMatch(e, AfterCall(e, c));
    match c
    case DepositCall(id, value, destination, block) =>
      DepositKeepsEvents(e, id, value, destination, block);
      LastDeposit(e.events, DepositEvent(id, value, destination, block));
    case ReleaseCall(byRelayer, id, recipient, amount, accepts) =>
      ReleaseKeepsPayments(e, byRelayer, id, recipient, amount, accepts);
      LastPayment(e.payments, Payment(id, recipient, amount));
      assert [c][0] == c;
    case TransferCall(value) =>
  }

  lemma OrderedLater(p: Payment, first: Call, rest: seq<Call>)
    requires Ordered(p, [first]) || Ordered(p, rest)
    ensures Ordered(p, [first] + rest)
  {
    if Ordered(p, [first]) {
      assert ([first] + rest)[0] == first;
    } else {
      var i :| 0 <= i < |rest| && rest[i].ReleaseCall? && rest[i].byRelayer
        && Payment(rest[i].id, rest[i].recipient, rest[i].amount) == p;
      assert ([first] + rest)[i + 1] == rest[i];
    }
  }

  lemma {:induction false} CallsConserve(e: EscrowView, calls: seq<Call>)
    requires EventsMatch(e) && PaymentsMatch(e)
    ensures var e' := AfterCalls(e, calls);
            && EventsMatch(e') && PaymentsMatch(e')
            && e'.balance + TotalPaid(e'.payments) - TotalDeposited(e'.events)
               == e.balance + TotalPaid(e.payments) - TotalDeposited(e.events) + TotalTransferred(calls)
            && forall p | p in e'.payments :: p in e.payments || Ordered(p, calls)
    decreases |calls|
  {
    hide AfterCall, EventsMatch, PaymentsMatch, Ordered;
    if calls != [] {
      CallConserves(e, calls[0]);
      CallsConserve(AfterCall(e, calls[0]), calls[1..]);
      assert calls == [calls[0]] + calls[1..];
      forall p | p in AfterCalls(e, calls).payments ensures p in e.payments || Ordered(p, calls) {
        if p !in e.payments { OrderedLater(p, calls[0], calls[1..]); }
      }
    }
  }

  /** Whoever calls the contract, in whatever order: it holds what was deposited and sent to it less what it paid out; no
      identity is deposited or paid twice; and it pays only what the relayer ordered, to whom the relayer said. */
  lemma ContractConserves(calls: seq<Call>)
    ensures var e := AfterCalls(EMPTY_ESCROW, calls);
            && e.balance + TotalPaid(e.payments) == TotalDeposited(e.events) + TotalTransferred(calls)
            && EventsMatch(e) && PaymentsMatch(e)
            && forall p | p in e.payments :: Ordered(p, calls)
  {
    hide Ordered;
    CallsConserve(EMPTY_ESCROW, calls);
  }

  class WethBridge {
    var balance: nat
    var deposits: set<Hash>
    var releases: set<Hash>
    var events: seq<DepositEvent>
    var payments: seq<Payment>

    constructor ()
      ensures View() == EMPTY_ESCROW
    {
      balance, deposits, releases, events, payments := 0, {}, {}, [], [];
    }

    function View(): EscrowView
      reads this
    {
      EscrowView(balance, deposits, releases, events, payments)
    }

    method Deposit(id: Hash, value: nat, destination: Option<string>, block: nat) returns (r: Result<(), EscrowError>)
      modifies this
      ensures Called(View(), r) == Deposited(old(View()), id, value, destination, block)
    {
      if value == 0 {
        return Err(ZeroValue);
      }
      if id in deposits {
        return Err(DepositUsed);
      }
      balance := balance + value;
      deposits := deposits + {id};
      events := events + [DepositEvent(id, value, destination, block)];
      return Ok(());
    }

    /** A failing transfer reverts the call, with the mark it had set. */
    method Release(byRelayer: bool, id: Hash, recipient: string, amount: nat, accepts: bool)
        returns (r: Result<(), EscrowError>)
      modifies this
      ensures Called(View(), r) == Released(old(View()), byRelayer, id, recipient, amount, accepts)
    {
      if !byRelayer {
        return Err(NotRelayer);
      }
      if id in releases {
        return Err(ReleaseUsed);
      }
      if IsZeroAddress(recipient) || amount == 0 {
        return Err(InvalidRelease);
      }
      if balance < amount {
        return Err(InsufficientReserve);
      }
      var before := releases;
      releases := releases + {id};
      if !accepts {
        releases := before;
        return Err(ReleaseFailed);
      }
      balance := balance - amount;
      payments := payments + [Payment(id, recipient, amount)];
      return Ok(());
    }

    method Receive(value: nat)
      modifies this
      ensures View() == Received(old(View()), value)
    {
      balance := balance + value;
    }
  }
}
