/**
 * The banking `Account` aggregate: a NEW -> OPEN -> CLOSED state machine whose
 * decisions validate a request, build an event and fold it through an `apply`
 * evolution that updates the fields and records the event in the pending changes.
 * Transfers are a synchronous choreography between two accounts: the sender's
 * `RequestTransfer` calls the receiver's `Credit`, which either credits itself and
 * debits the sender, or refuses and makes the sender abort.
 */
module Banking {
  import opened Wrappers
  import opened EventSourcing

  datatype AccountId = AccountId(value: string)

  datatype AccountStatus = New | Open | Closed

  /** The events an account records; the first field is always the owning account. */
  datatype Event =
    | AccountOpened(accountId: AccountId, owner: string, number: string)
    | AccountDeposited(accountId: AccountId, amount: int)
    | AccountWithdrawn(accountId: AccountId, amount: int)
    | AccountClosed(accountId: AccountId)
    | TransferRequested(accountId: AccountId, receiverId: AccountId, amount: int)
    | TransferRequestRefused(accountId: AccountId, receiverId: AccountId, amount: int)
    | FundCredited(accountId: AccountId, senderId: AccountId, amount: int)
    | CreditRequestRefused(accountId: AccountId, senderId: AccountId, amount: int)
    | TransferRequestAborted(accountId: AccountId, receiverId: AccountId, amount: int)
    | FundDebited(accountId: AccountId, receiverId: AccountId, amount: int)

  /** The business fields of an account (owner and number are null until it is opened). */
  datatype AccountState = AccountState(owner: Option<string>, number: Option<string>, balance: int, status: AccountStatus)

  /** A freshly constructed account. */
  const Initial := AccountState(None, None, 0, New)

  /** Thrown by a decision that the current state forbids. */
  datatype DomainError =
    | InvalidStateTransition(status: AccountStatus)
    | InsufficientFunds(amount: int, balance: int)

  /** What one `apply` evolution does to the fields, without validation. */
  function Evolve(s: AccountState, e: Event): AccountState {
    match e
    case AccountOpened(_, owner, number) =>
      AccountState(Some(owner), Some(number), 0, Open)
    case AccountDeposited(_, amount) => s.(balance := s.balance + amount)
    case AccountWithdrawn(_, amount) => s.(balance := s.balance - amount)
    case AccountClosed(_) => s.(status := Closed)
    case FundCredited(_, _, amount) => s.(balance := s.balance + amount)
    case FundDebited(_, _, amount) => s.(balance := s.balance - amount)
    case TransferRequested(_, _, _) => s
    case TransferRequestRefused(_, _, _) => s
    case CreditRequestRefused(_, _, _) => s
    case TransferRequestAborted(_, _, _) => s
  }

  /** The state an account has after folding `history` into `s`. */
  function After(s: AccountState, history: seq<Event>): AccountState {
    Replay(Evolve, s, history)
  }

  /* ---------- decisions on one account ---------- */

  /** `open`: only a NEW account can be opened; it becomes OPEN with a zero balance. */
  function DecideOpen(s: AccountState, id: AccountId, owner: string, number: string): (r: Result<seq<Event>, DomainError>)
    ensures r.Failure? <==> s.status != New
    ensures r.Failure? ==> r.error == InvalidStateTransition(s.status)
    ensures r.Success? ==> |r.value| == 1 && r.value[0].AccountOpened? && r.value[0].accountId == id
    ensures r.Success? ==> After(s, r.value) == AccountState(Some(owner), Some(number), 0, Open)
  {
    if s.status != New then Failure(InvalidStateTransition(s.status))
    else
      ReplayOne(Evolve, s, AccountOpened(id, owner, number));
      Success([AccountOpened(id, owner, number)])
  }

  /** `deposit`: only on an OPEN account; the balance grows by the amount. */
  function DecideDeposit(s: AccountState, id: AccountId, amount: int): (r: Result<seq<Event>, DomainError>)
    ensures r.Failure? <==> s.status != Open
    ensures r.Failure? ==> r.error == InvalidStateTransition(s.status)
    ensures r.Success? ==> r.value == [AccountDeposited(id, amount)]
    ensures r.Success? ==> After(s, r.value) == s.(balance := s.balance + amount)
  {
    if s.status != Open then Failure(InvalidStateTransition(s.status))
    else
      ReplayOne(Evolve, s, AccountDeposited(id, amount));
      Success([AccountDeposited(id, amount)])
  }

  /** `withdraw`: only on an OPEN account holding at least the amount; never leaves a negative balance. */
  function DecideWithdraw(s: AccountState, id: AccountId, amount: int): (r: Result<seq<Event>, DomainError>)
    ensures r.Failure? <==> s.status != Open || amount > s.balance
    ensures s.status != Open ==> r == Failure(InvalidStateTransition(s.status))
    ensures s.status == Open && amount > s.balance ==> r == Failure(InsufficientFunds(amount, s.balance))
    ensures r.Success? ==> r.value == [AccountWithdrawn(id, amount)]
    ensures r.Success? ==> After(s, r.value) == s.(balance := s.balance - amount)
    ensures r.Success? ==> After(s, r.value).balance >= 0
  {
    if s.status != Open then Failure(InvalidStateTransition(s.status))
    else if amount > s.balance then Failure(InsufficientFunds(amount, s.balance))
    else
      ReplayOne(Evolve, s, AccountWithdrawn(id, amount));
      Success([AccountWithdrawn(id, amount)])
  }

  /** `close`: only an OPEN account can be closed; the balance is kept. */
  function DecideClose(s: AccountState, id: AccountId): (r: Result<seq<Event>, DomainError>)
    ensures r.Failure? <==> s.status != Open
    ensures r.Failure? ==> r.error == InvalidStateTransition(s.status)
    ensures r.Success? ==> r.value == [AccountClosed(id)]
    ensures r.Success? ==> After(s, r.value) == s.(status := Closed)
  {
    if s.status != Open then Failure(InvalidStateTransition(s.status))
    else
      ReplayOne(Evolve, s, AccountClosed(id));
      Success([AccountClosed(id)])
  }

  /**
   * No decision checks the sign of an amount: a deposit of -1 on an empty OPEN
   * account succeeds and leaves a negative balance.
   */
  lemma NegativeDepositOverdraws(id: AccountId, owner: string, number: string)
    ensures var s := AccountState(Some(owner), Some(number), 0, Open);
      DecideDeposit(s, id, -1).Success? && After(s, DecideDeposit(s, id, -1).value).balance == -1
  {
    var s := AccountState(Some(owner), Some(number), 0, Open);
    ReplayOne(Evolve, s, AccountDeposited(id, -1));
  }

  /* ---------- the transfer choreography ---------- */

  /** The events a transfer step appends to the sender and to the receiver. */
  datatype TransferEvents = TransferEvents(sender: seq<Event>, receiver: seq<Event>)

  /**
   * `credit` on the receiver: an OPEN receiver credits itself and debits the sender;
   * any other receiver refuses and makes the sender abort.
   */
  function CreditEvents(receiverStatus: AccountStatus, receiverId: AccountId, senderId: AccountId, amount: int): (r: TransferEvents)
    ensures |r.sender| == 1 && |r.receiver| == 1
    ensures r.receiver[0].accountId == receiverId && r.sender[0].accountId == senderId
    ensures receiverStatus == Open <==> r.receiver[0].FundCredited?
    ensures receiverStatus == Open <==> r.sender[0].FundDebited?
    ensures receiverStatus != Open <==> r.receiver[0].CreditRequestRefused?
    ensures receiverStatus != Open <==> r.sender[0].TransferRequestAborted?
    ensures r.receiver[0].senderId == senderId && r.sender[0].receiverId == receiverId
    ensures r.receiver[0].amount == amount && r.sender[0].amount == amount
  {
    if receiverStatus != Open then
      TransferEvents([TransferRequestAborted(senderId, receiverId, amount)], [CreditRequestRefused(receiverId, senderId, amount)])
    else
      TransferEvents([FundDebited(senderId, receiverId, amount)], [FundCredited(receiverId, senderId, amount)])
  }

  /**
   * `requestTransfer` between two distinct accounts: the sender must be OPEN; with
   * enough funds it records `TransferRequested` and the receiver's `credit` follows,
   * otherwise it records `TransferRequestRefused` and the receiver is not touched.
   */
  function Transfer(sender: AccountState, senderId: AccountId, receiver: AccountState, receiverId: AccountId, amount: int): (r: Result<TransferEvents, DomainError>)
    ensures r.Failure? <==> sender.status != Open
    ensures r.Failure? ==> r.error == InvalidStateTransition(sender.status)
  {
    if sender.status != Open then Failure(InvalidStateTransition(sender.status))
    else if amount <= sender.balance then
      var credit := CreditEvents(receiver.status, receiverId, senderId, amount);
      Success(TransferEvents([TransferRequested(senderId, receiverId, amount)] + credit.sender, credit.receiver))
    else
      Success(TransferEvents([TransferRequestRefused(senderId, receiverId, amount)], []))
  }

  /**
   * `requestTransfer` with the sender as its own receiver: `credit` then sees the
   * sender's own (OPEN) status, so both the credit and the debit land on one account.
   */
  function SelfTransfer(s: AccountState, id: AccountId, amount: int): (r: Result<seq<Event>, DomainError>)
    ensures r.Failure? <==> s.status != Open
    ensures r.Success? ==> After(s, r.value) == s
  {
    if s.status != Open then Failure(InvalidStateTransition(s.status))
    else if amount <= s.balance then
      var credit := CreditEvents(Open, id, id, amount);
      var events := [TransferRequested(id, id, amount)] + credit.receiver + credit.sender;
      assert events == [TransferRequested(id, id, amount), FundCredited(id, id, amount), FundDebited(id, id, amount)];
      AfterThree(s, events);
      Success(events)
    else
      ReplayOne(Evolve, s, TransferRequestRefused(id, id, amount));
      Success([TransferRequestRefused(id, id, amount)])
  }

  lemma AfterTwo(s: AccountState, events: seq<Event>)
    requires |events| == 2
    ensures After(s, events) == Evolve(Evolve(s, events[0]), events[1])
  {
    assert events == [events[0]] + [events[1]];
    ReplayAppend(Evolve, s, [events[0]], [events[1]]);
    ReplayOne(Evolve, s, events[0]);
    ReplayOne(Evolve, Evolve(s, events[0]), events[1]);
  }

  lemma AfterThree(s: AccountState, events: seq<Event>)
    requires |events| == 3
    ensures After(s, events) == Evolve(Evolve(Evolve(s, events[0]), events[1]), events[2])
  {
    assert events == events[..2] + [events[2]];
    ReplaySnoc(Evolve, s, events[..2], events[2]);
    AfterTwo(s, events[..2]);
  }

  /** A transfer between two distinct accounts never changes the sum of their balances. */
  lemma TransferConservesTotalBalance(sender: AccountState, senderId: AccountId, receiver: AccountState, receiverId: AccountId, amount: int)
    requires Transfer(sender, senderId, receiver, receiverId, amount).Success?
    ensures var t := Transfer(sender, senderId, receiver, receiverId, amount).value;
      After(sender, t.sender).balance + After(receiver, t.receiver).balance == sender.balance + receiver.balance
  {
    var t := Transfer(sender, senderId, receiver, receiverId, amount).value;
    if amount <= sender.balance {
      AfterTwo(sender, t.sender);
      ReplayOne(Evolve, receiver, t.receiver[0]);
    } else {
      ReplayOne(Evolve, sender, t.sender[0]);
    }
  }

  /** The three outcomes of a transfer from an OPEN sender, event by event and balance by balance. */
  lemma TransferOutcomes(sender: AccountState, senderId: AccountId, receiver: AccountState, receiverId: AccountId, amount: int)
    requires sender.status == Open
    ensures var t := Transfer(sender, senderId, receiver, receiverId, amount).value;
      && (amount <= sender.balance && receiver.status == Open ==>
            && t.sender == [TransferRequested(senderId, receiverId, amount), FundDebited(senderId, receiverId, amount)]
            && t.receiver == [FundCredited(receiverId, senderId, amount)]
            && After(sender, t.sender) == sender.(balance := sender.balance - amount)
            && After(receiver, t.receiver) == receiver.(balance := receiver.balance + amount))
      && (amount <= sender.balance && receiver.status != Open ==>
            && t.sender == [TransferRequested(senderId, receiverId, amount), TransferRequestAborted(senderId, receiverId, amount)]
            && t.receiver == [CreditRequestRefused(receiverId, senderId, amount)]
            && After(sender, t.sender) == sender
            && After(receiver, t.receiver) == receiver)
      && (amount > sender.balance ==>
            && t.sender == [TransferRequestRefused(senderId, receiverId, amount)]
            && t.receiver == []
            && After(sender, t.sender) == sender
            && After(receiver, t.receiver) == receiver)
  {
    var t := Transfer(sender, senderId, receiver, receiverId, amount).value;
    if amount <= sender.balance {
      AfterTwo(sender, t.sender);
      ReplayOne(Evolve, receiver, t.receiver[0]);
    } else {
      ReplayOne(Evolve, sender, t.sender[0]);
    }
  }

  /* ---------- the aggregate ---------- */

  class Account {
    const id: AccountId
    var owner: Option<string>
    var number: Option<string>
    var balance: int
    var status: AccountStatus
    /** Pending changes: every event recorded since construction, oldest first. */
    var changes: seq<Event>
    var version: int

    function State(): AccountState
      reads this
    {
      AccountState(owner, number, balance, status)
    }

    /** The aggregate invariant: the fields are exactly the replay of the recorded events. */
    ghost predicate Valid()
      reads this
    {
      version == |changes| && State() == After(Initial, changes)
    }

    constructor (id: AccountId)
      ensures this.id == id && Valid()
      ensures State() == Initial && changes == [] && version == 0
    {
      this.id := id;
      owner, number, balance, status := None, None, 0, New;
      changes, version := [], 0;
    }

    /** The aggregate root's `recordChange`: buffer the event and bump the version. */
    method RecordChange(e: Event)
      modifies this
      ensures changes == old(changes) + [e] && version == old(version) + 1
      ensures State() == old(State())
    {
      changes := changes + [e];
      version := version + 1;
    }

    /** The `apply` evolutions, one branch per event type; every one of them records. */
    method Apply(e: Event)
      requires Valid()
      modifies this
      ensures Valid()
      ensures State() == Evolve(old(State()), e)
      ensures changes == old(changes) + [e]
    {
      match e {
        case AccountOpened(_, o, n) =>
          owner := Some(o);
          number := Some(n);
          balance := 0;
          status := AccountStatus.Open;
        case AccountDeposited(_, amount) =>
          balance := balance + amount;
        case AccountWithdrawn(_, amount) =>
          balance := balance - amount;
        case AccountClosed(_) =>
          status := Closed;
        case FundCredited(_, _, amount) =>
          balance := balance + amount;
        case FundDebited(_, _, amount) =>
          balance := balance - amount;
        case TransferRequested(_, _, _) =>
        case TransferRequestRefused(_, _, _) =>
        case CreditRequestRefused(_, _, _) =>
        case TransferRequestAborted(_, _, _) =>
      }
      RecordChange(e);
      ReplaySnoc(Evolve, Initial, old(changes), e);
    }

    method Open(owner: string, number: string) returns (r: Outcome<DomainError>)
      requires Valid()
      modifies this
      ensures Valid()
      ensures r == DecideOpen(old(State()), id, owner, number).ToOutcome()
      ensures r.Fail? ==> unchanged(this)
      ensures r.Pass? ==> changes == old(changes) + DecideOpen(old(State()), id, owner, number).value
      ensures r.Pass? ==> State() == After(old(State()), DecideOpen(old(State()), id, owner, number).value)
    {
      if status != New {
        return Fail(InvalidStateTransition(status));
      }
      Apply(AccountOpened(id, owner, number));
      ReplayOne(Evolve, old(State()), AccountOpened(id, owner, number));
      r := Pass;
    }

    method Deposit(amount: int) returns (r: Outcome<DomainError>)
      requires Valid()
      modifies this
      ensures Valid()
      ensures r == DecideDeposit(old(State()), id, amount).ToOutcome()
      ensures r.Fail? ==> unchanged(this)
      ensures r.Pass? ==> changes == old(changes) + DecideDeposit(old(State()), id, amount).value
      ensures r.Pass? ==> State() == After(old(State()), DecideDeposit(old(State()), id, amount).value)
    {
      if status != AccountStatus.Open {
        return Fail(InvalidStateTransition(status));
      }
      Apply(AccountDeposited(id, amount));
      r := Pass;
    }

    method Withdraw(amount: int) returns (r: Outcome<DomainError>)
      requires Valid()
      modifies this
      ensures Valid()
      ensures r == DecideWithdraw(old(State()), id, amount).ToOutcome()
      ensures r.Fail? ==> unchanged(this)
      ensures r.Pass? ==> changes == old(changes) + DecideWithdraw(old(State()), id, amount).value
      ensures r.Pass? ==> State() == After(old(State()), DecideWithdraw(old(State()), id, amount).value)
    {
      if status != AccountStatus.Open {
        return Fail(InvalidStateTransition(status));
      }
      if amount > balance {
        return Fail(InsufficientFunds(amount, balance));
      }
      Apply(AccountWithdrawn(id, amount));
      r := Pass;
    }

    method Close() returns (r: Outcome<DomainError>)
      requires Valid()
      modifies this
      ensures Valid()
      ensures r == DecideClose(old(State()), id).ToOutcome()
      ensures r.Fail? ==> unchanged(this)
      ensures r.Pass? ==> changes == old(changes) + DecideClose(old(State()), id).value
      ensures r.Pass? ==> State() == After(old(State()), DecideClose(old(State()), id).value)
    {
      if status != AccountStatus.Open {
        return Fail(InvalidStateTransition(status));
      }
      Apply(AccountClosed(id));
      r := Pass;
    }

    /**
     * `requestTransfer`: the sender's decision, which synchronously runs the receiver's
     * `Credit` when the funds suffice. The receiver may be this very account.
     */
    method RequestTransfer(receiver: Account, amount: int) returns (r: Outcome<DomainError>)
      requires Valid() && receiver.Valid()
      modifies this, receiver
      ensures Valid() && receiver.Valid()
      ensures r.Fail? <==> old(status) != AccountStatus.Open
      ensures r.Fail? ==> r.error == InvalidStateTransition(old(status)) && unchanged(this) && unchanged(receiver)
      ensures receiver != this && r.Pass? ==>
        var t := Transfer(old(State()), id, old(receiver.State()), receiver.id, amount).value;
        && changes == old(changes) + t.sender && State() == After(old(State()), t.sender)
        && receiver.changes == old(receiver.changes) + t.receiver && receiver.State() == After(old(receiver.State()), t.receiver)
      ensures receiver == this && r.Pass? ==>
        var events := SelfTransfer(old(State()), id, amount).value;
        changes == old(changes) + events && State() == After(old(State()), events)
    {
      if status != AccountStatus.Open {
        return Fail(InvalidStateTransition(status));
      }
      ghost var before := State();
      if amount <= balance {
        var requested := TransferRequested(id, receiver.id, amount);
        Apply(requested);
        ReplayOne(Evolve, before, requested);
        receiver.Credit(this, amount);
        ghost var c := CreditEvents(if receiver == this then AccountStatus.Open else old(receiver.status), receiver.id, id, amount);
        if receiver != this {
          ReplayAppend(Evolve, before, [requested], c.sender);
        } else {
          ReplayAppend(Evolve, before, [requested], c.receiver + c.sender);
          assert [requested] + c.receiver + c.sender == [requested] + (c.receiver + c.sender);
        }
      } else {
        Apply(TransferRequestRefused(id, receiver.id, amount));
        ReplayOne(Evolve, before, TransferRequestRefused(id, receiver.id, amount));
      }
      r := Pass;
    }

    /**
     * `credit`: the receiver's decision. An OPEN receiver records `FundCredited` and
     * applies `FundDebited` directly on the sender; otherwise it records
     * `CreditRequestRefused` and calls the sender's `AbortTransferRequest`.
     */
    method Credit(sender: Account, amount: int)
      requires Valid() && sender.Valid()
      modifies this, sender
      ensures Valid() && sender.Valid()
      ensures var c := CreditEvents(old(status), id, sender.id, amount);
        if sender != this then
          && changes == old(changes) + c.receiver && State() == After(old(State()), c.receiver)
          && sender.changes == old(sender.changes) + c.sender && sender.State() == After(old(sender.State()), c.sender)
        else
          changes == old(changes) + c.receiver + c.sender && State() == After(old(State()), c.receiver + c.sender)
    {
      ghost var before, senderBefore := State(), sender.State();
      ghost var c := CreditEvents(status, id, sender.id, amount);
      if status != AccountStatus.Open {
        Apply(CreditRequestRefused(id, sender.id, amount));
        sender.AbortTransferRequest(id, amount);
      } else {
        Apply(FundCredited(id, sender.id, amount));
        sender.Apply(FundDebited(sender.id, id, amount));
      }
      ReplayOne(Evolve, before, c.receiver[0]);
      if sender != this {
        ReplayOne(Evolve, senderBefore, c.sender[0]);
      } else {
        AfterTwo(before, c.receiver + c.sender);
      }
    }

    /** `abortTransferRequest`: records the sender's compensation; the balance is not touched. */
    method AbortTransferRequest(receiverId: AccountId, amount: int)
      requires Valid()
      modifies this
      ensures Valid()
      ensures changes == old(changes) + [TransferRequestAborted(id, receiverId, amount)]
      ensures State() == old(State())
    {
      Apply(TransferRequestAborted(id, receiverId, amount));
    }

    /** `debit`: takes the amount off the balance, unguarded. */
    method Debit(receiverId: AccountId, amount: int)
      requires Valid()
      modifies this
      ensures Valid()
      ensures changes == old(changes) + [FundDebited(id, receiverId, amount)]
      ensures State() == old(State()).(balance := old(balance) - amount)
    {
      Apply(FundDebited(id, receiverId, amount));
    }
  }
}
