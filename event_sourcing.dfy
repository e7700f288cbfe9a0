/**
 * The part of the aggregate-root contract shared by every aggregate: folding an
 * ordered event history into a state, as a repository does when it hydrates an
 * aggregate from the event store.
 */
module EventSourcing {

  /** Applies `history` to `s`, oldest event first. */
  function Replay<S, E>(evolve: (S, E) -> S, s: S, history: seq<E>): S
    decreases |history|
  {
    if history == [] then s else Replay(evolve, evolve(s, history[0]), history[1..])
  }

  /** Replaying a history in two pieces is replaying it at once. */
  lemma {:induction false} ReplayAppend<S, E>(evolve: (S, E) -> S, s: S, older: seq<E>, newer: seq<E>)
    ensures Replay(evolve, s, older + newer) == Replay(evolve, Replay(evolve, s, older), newer)
    decreases |older|
  {
    if older == [] {
      assert older + newer == newer;
    } else {
      assert (older + newer)[0] == older[0];
      assert (older + newer)[1..] == older[1..] + newer;
      ReplayAppend(evolve, evolve(s, older[0]), older[1..], newer);
    }
  }

  /** Replaying one event is evolving by it. */
  lemma ReplayOne<S, E>(evolve: (S, E) -> S, s: S, e: E)
    ensures Replay(evolve, s, [e]) == evolve(s, e)
  {
    assert [e][1..] == [];
  }

  /** Recording one more event extends the replayed state by that event. */
  lemma ReplaySnoc<S, E>(evolve: (S, E) -> S, s: S, history: seq<E>, e: E)
    ensures Replay(evolve, s, history + [e]) == evolve(Replay(evolve, s, history), e)
  {
    ReplayAppend(evolve, s, history, [e]);
    ReplayOne(evolve, Replay(evolve, s, history), e);
  }
}
