/**
 * The account scenarios exercised by the banking tests, run against the `Account`
 * class. Identifiers and account numbers (a random UUID in the source) are inputs.
 */
module BankingScenarios {
  import opened Wrappers
  import opened Banking

  /** open, deposit 100 twice, withdraw 200, close. */
  method ClassicLifecycle(id: AccountId, number: string)
    returns (owner: Option<string>, balance: int, status: AccountStatus, version: int, changes: seq<Event>)
    ensures owner == Some("toto") && balance == 0 && status == Closed && version == 5
    ensures changes == [AccountOpened(id, "toto", number), AccountDeposited(id, 100), AccountDeposited(id, 100),
                        AccountWithdrawn(id, 200), AccountClosed(id)]
  {
    var account := new Account(id);
    var r := account.Open("toto", number);
    r := account.Deposit(100);
    r := account.Deposit(100);
    r := account.Withdraw(200);
    r := account.Close();
    owner, balance, status, version, changes := account.owner, account.balance, account.status, account.version, account.changes;
  }

  /** open, deposit 100, then a withdrawal of 200 fails and changes nothing. */
  method InsufficientWithdrawal(id: AccountId, number: string)
    returns (outcome: Outcome<DomainError>, balance: int, version: int)
    ensures outcome == Fail(InsufficientFunds(200, 100))
    ensures balance == 100 && version == 2
  {
    var account := new Account(id);
    var r := account.Open("toto", number);
    r := account.Deposit(100);
    outcome := account.Withdraw(200);
    balance, version := account.balance, account.version;
  }

  /** No decision but `open` is possible on a NEW account, and `open` only once. */
  method InvalidDecisions(id: AccountId, number: string)
    returns (onNew: seq<Outcome<DomainError>>, reopenOpen: Outcome<DomainError>, onClosed: seq<Outcome<DomainError>>)
    ensures onNew == [Fail(InvalidStateTransition(New)), Fail(InvalidStateTransition(New)), Fail(InvalidStateTransition(New))]
    ensures reopenOpen == Fail(InvalidStateTransition(Open))
    ensures onClosed == [Fail(InvalidStateTransition(Closed)), Fail(InvalidStateTransition(Closed)),
                         Fail(InvalidStateTransition(Closed)), Fail(InvalidStateTransition(Closed))]
  {
    var account := new Account(id);
    var w := account.Withdraw(100);
    var d := account.Deposit(100);
    var c := account.Close();
    onNew := [w, d, c];
    var r := account.Open("alice", number);
    reopenOpen := account.Open("bob", number);
    r := account.Close();
    var o := account.Open("bob", number);
    w := account.Withdraw(100);
    d := account.Deposit(100);
    c := account.Close();
    onClosed := [o, w, d, c];
  }

  /** Two open accounts holding 200 and 0; the sender asks to transfer `amount`. */
  method TransferBetweenOpenAccounts(senderId: AccountId, receiverId: AccountId, amount: int)
    returns (senderBalance: int, senderChanges: seq<Event>, receiverBalance: int, receiverChanges: seq<Event>)
    ensures amount <= 200 ==> senderBalance == 200 - amount && receiverBalance == amount
    ensures amount <= 200 ==> senderChanges == [AccountOpened(senderId, "alice", "1"), AccountDeposited(senderId, 200),
      TransferRequested(senderId, receiverId, amount), FundDebited(senderId, receiverId, amount)]
    ensures amount <= 200 ==> receiverChanges == [AccountOpened(receiverId, "bob", "2"), FundCredited(receiverId, senderId, amount)]
    ensures amount > 200 ==> senderBalance == 200 && receiverBalance == 0
    ensures amount > 200 ==> senderChanges == [AccountOpened(senderId, "alice", "1"), AccountDeposited(senderId, 200),
      TransferRequestRefused(senderId, receiverId, amount)]
    ensures amount > 200 ==> receiverChanges == [AccountOpened(receiverId, "bob", "2")]
  {
    var sender := new Account(senderId);
    var r := sender.Open("alice", "1");
    r := sender.Deposit(200);
    var receiver := new Account(receiverId);
    r := receiver.Open("bob", "2");
    assert sender.State() == OpenAlice(200);
    r := sender.RequestTransfer(receiver, amount);
    TransferOutcomes(OpenAlice(200), senderId, OpenAlice(0).(owner := Some("bob"), number := Some("2")), receiverId, amount);
    senderBalance, senderChanges := sender.balance, sender.changes;
    receiverBalance, receiverChanges := receiver.balance, receiver.changes;
  }

  /** The sender of these scenarios: open, owned by alice, number "1", holding `balance`. */
  function OpenAlice(balance: int): AccountState {
    AccountState(Some("alice"), Some("1"), balance, Open)
  }

  /** The sender holds 200 and transfers 50 to a closed account: both balances stay. */
  method TransferToClosedAccount(senderId: AccountId, receiverId: AccountId)
    returns (senderBalance: int, senderChanges: seq<Event>, receiverBalance: int, receiverChanges: seq<Event>)
    ensures senderBalance == 200 && receiverBalance == 0
    ensures senderChanges == [AccountOpened(senderId, "alice", "1"), AccountDeposited(senderId, 200),
      TransferRequested(senderId, receiverId, 50), TransferRequestAborted(senderId, receiverId, 50)]
    ensures receiverChanges == [AccountOpened(receiverId, "bob", "2"), AccountClosed(receiverId),
      CreditRequestRefused(receiverId, senderId, 50)]
  {
    var sender := new Account(senderId);
    var r := sender.Open("alice", "1");
    r := sender.Deposit(200);
    var receiver := new Account(receiverId);
    r := receiver.Open("bob", "2");
    r := receiver.Close();
    assert receiver.State() == AccountState(Some("bob"), Some("2"), 0, Closed);
    assert sender.State() == OpenAlice(200);
    r := sender.RequestTransfer(receiver, 50);
    TransferOutcomes(OpenAlice(200), senderId, AccountState(Some("bob"), Some("2"), 0, Closed), receiverId, 50);
    senderBalance, senderChanges := sender.balance, sender.changes;
    receiverBalance, receiverChanges := receiver.balance, receiver.changes;
  }
}
