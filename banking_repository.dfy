/**
 * `AccountRepository`: saves an account by handing its pending changes to the event
 * store, and loads one by hydrating a fresh `Account` with the stored events. The
 * event store is a map from account id to its stored event list; storing appends
 * to that list.
 */
module BankingRepository {
  import opened EventSourcing
  import opened Banking

  class AccountRepository {
    /** The event store: the stored event list of each account. */
    var eventStore: map<AccountId, seq<Event>>

    /** The repository over a given event store. */
    constructor (eventStore: map<AccountId, seq<Event>>)
      ensures this.eventStore == eventStore
    {
      this.eventStore := eventStore;
    }

    /** The event store's `loadEvents`: an unknown id has no events. */
    function LoadEvents(id: AccountId): seq<Event>
      reads this
    {
      if id in eventStore then eventStore[id] else []
    }

    /** `save`: the account's pending changes are appended to its stored events. */
    method Save(account: Account)
      modifies this
      ensures eventStore == old(eventStore)[account.id := old(LoadEvents(account.id)) + account.changes]
      ensures forall other :: other != account.id ==> LoadEvents(other) == old(LoadEvents(other))
    {
      var events := account.changes;
      eventStore := eventStore[account.id := LoadEvents(account.id) + events];
    }

    /** `load`: hydrate a new account from the stored events; the store is only read. */
    method Load(id: AccountId) returns (account: Account)
      ensures fresh(account) && account.Valid() && account.id == id
      ensures account.changes == LoadEvents(id) && account.version == |LoadEvents(id)|
      ensures account.State() == After(Initial, LoadEvents(id))
      ensures id !in eventStore ==> account.State() == Initial && account.changes == []
    {
      var events := LoadEvents(id);
      account := Hydrate(id, events);
    }

    /**
     * `hydrate`: apply the events one at a time, in stored order, to a new account.
     * Every evolution records, so the replayed history lands in the pending changes.
     */
    static method Hydrate(id: AccountId, events: seq<Event>) returns (account: Account)
      ensures fresh(account) && account.Valid() && account.id == id
      ensures account.changes == events && account.version == |events|
      ensures account.State() == After(Initial, events)
    {
      account := new Account(id);
      for i := 0 to |events|
        invariant account.Valid() && account.id == id
        invariant account.changes == events[..i]
      {
        account.Apply(events[i]);
        assert events[..i + 1] == events[..i] + [events[i]];
      }
      assert events[..|events|] == events;
    }
  }

  /**
   * Replay determinism: loading what was saved reproduces the stored history followed
   * by the account's pending changes; for an account saved for the first time that is
   * its owner, number, balance, status, pending changes and version.
   */
  method ReloadReproducesAccount(repository: AccountRepository, account: Account) returns (reloaded: Account)
    requires account.Valid()
    modifies repository
    ensures repository.LoadEvents(account.id) == old(repository.LoadEvents(account.id)) + account.changes
    ensures fresh(reloaded) && reloaded.id == account.id
    ensures reloaded.changes == old(repository.LoadEvents(account.id)) + account.changes
    ensures reloaded.State() == After(After(Initial, old(repository.LoadEvents(account.id))), account.changes)
    ensures account.id !in old(repository.eventStore) ==>
      && reloaded.State() == account.State()
      && reloaded.changes == account.changes && reloaded.version == account.version
    ensures account.changes != [] && account.changes[0].AccountOpened? ==> reloaded.State() == account.State()
  {
    ghost var stored := repository.LoadEvents(account.id);
    repository.Save(account);
    reloaded := repository.Load(account.id);
    ReplayAppend(Evolve, Initial, stored, account.changes);
    if account.changes != [] && account.changes[0].AccountOpened? {
      OpeningHistoryForgetsStart(After(Initial, stored), account.changes);
    }
  }

  /**
   * A history that starts by opening the account replays to the same state from any
   * starting state, because `AccountOpened` sets every field.
   */
  lemma OpeningHistoryForgetsStart(s: AccountState, history: seq<Event>)
    requires history != [] && history[0].AccountOpened?
    ensures After(s, history) == After(Initial, history)
  {
  }

  /**
   * Every event a hydrated account replays is recorded again as a pending change, so
   * saving a loaded account appends its whole history a second time. Its state
   * survives the next load only when the history starts with `AccountOpened`.
   */
  lemma {:induction false} ReplayingTwiceKeepsOpenedState(history: seq<Event>)
    requires history != [] && history[0].AccountOpened?
    ensures After(Initial, history + history) == After(Initial, history)
  {
    ReplayAppend(Evolve, Initial, history, history);
    OpeningHistoryForgetsStart(After(Initial, history), history);
  }

  /** Load, save with no new decision, load again: the stored history doubles. */
  method SaveAfterLoadDuplicatesHistory(repository: AccountRepository, id: AccountId) returns (loaded: Account, reloaded: Account)
    modifies repository
    ensures repository.LoadEvents(id) == old(repository.LoadEvents(id)) + old(repository.LoadEvents(id))
    ensures loaded.changes == old(repository.LoadEvents(id))
    ensures reloaded.changes == loaded.changes + loaded.changes && reloaded.version == 2 * loaded.version
    ensures old(repository.LoadEvents(id)) != [] && old(repository.LoadEvents(id))[0].AccountOpened? ==>
      reloaded.State() == loaded.State()
  {
    loaded := repository.Load(id);
    repository.Save(loaded);
    reloaded := repository.Load(id);
    if loaded.changes != [] && loaded.changes[0].AccountOpened? {
      ReplayingTwiceKeepsOpenedState(loaded.changes);
    }
  }
}
