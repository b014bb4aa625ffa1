/**
 The exactly-once inbox both billing webhooks use: in one transaction, register the event id
 with its payload hash, apply the event, finalize.  Whatever fails rolls all of it back.  What
 an event does is left open, so the results hold for every event type.
 */
module EventInbox {
  import opened Options

  datatype Key = Key(provider: string, id: string)

  /** `valid`: the request passed every check before the transaction, which then ends with `outcome`. */
  datatype Message<P> = Message(key: Key, hash: string, valid: bool, outcome: CommitOutcome, body: P)

  datatype Inbox<S> = Inbox(seen: map<Key, string>, state: S)

  datatype Response = Processed | Duplicate | Reused | Invalid | Failed

  /** What an event does to the tables; `None` if it matches nothing there. */
  type Apply<!S, !P> = (S, P) -> Option<S>

  /** The event of `m` takes effect: nothing refuses it and its transaction is not rolled back. */
  predicate Lands<S, P>(box: Inbox<S>, m: Message<P>, apply: Apply<S, P>) {
    m.valid && m.key !in box.seen && apply(box.state, m.body).Some? && !m.outcome.RolledBack?
  }

  function Deliver<S, P>(box: Inbox<S>, m: Message<P>, apply: Apply<S, P>): (Inbox<S>, Response) {
    if !m.valid then (box, Invalid)
    else if m.key in box.seen then (box, if box.seen[m.key] == m.hash then Duplicate else Reused)
    else
      var applied := apply(box.state, m.body);
      if applied.None? || m.outcome.RolledBack? then (box, Failed)
      else (Inbox(box.seen[m.key := m.hash], applied.value), if m.outcome.Committed? then Processed else Failed)
  }

  function DeliverAll<S, P>(box: Inbox<S>, ms: seq<Message<P>>, apply: Apply<S, P>): Inbox<S> {
    if ms == [] then box else Deliver(DeliverAll(box, ms[..|ms| - 1], apply), ms[|ms| - 1], apply).0
  }

  /** The messages of `ms` that took effect, in order. */
  function Kept<S, P>(box: Inbox<S>, ms: seq<Message<P>>, apply: Apply<S, P>): seq<Message<P>> {
    if ms == [] then []
    else
      var n := |ms| - 1;
      Kept(box, ms[..n], apply) +
      if Lands(DeliverAll(box, ms[..n], apply), ms[n], apply) then [ms[n]] else []
  }

  function Keys<P>(ms: seq<Message<P>>): set<Key> {
    if ms == [] then {} else Keys(ms[..|ms| - 1]) + {ms[|ms| - 1].key}
  }

  lemma KeysSnoc<P>(ms: seq<Message<P>>, m: Message<P>)
    ensures Keys(ms + [m]) == Keys(ms) + {m.key}
  {
    assert (ms + [m])[..|ms|] == ms;
  }

  lemma KeptSnoc<S, P>(box: Inbox<S>, ms: seq<Message<P>>, m: Message<P>, apply: Apply<S, P>)
    ensures DeliverAll(box, ms + [m], apply) == Deliver(DeliverAll(box, ms, apply), m, apply).0
    ensures Kept(box, ms + [m], apply) == Kept(box, ms, apply) +
            if Lands(DeliverAll(box, ms, apply), m, apply) then [m] else []
  {
    assert (ms + [m])[..|ms|] == ms;
  }

  lemma KeyAdded(seen: map<Key, string>, key: Key, hash: string, base: set<Key>, kept: set<Key>)
    requires seen.Keys == base + kept && kept !! base && key !in seen
    ensures seen[key := hash].Keys == base + (kept + {key}) && (kept + {key}) !! base && |kept + {key}| == |kept| + 1
  {
  }

  lemma OneMore<S, P>(last: Inbox<S>, m: Message<P>, apply: Apply<S, P>, base: set<Key>, kept: seq<Message<P>>)
    requires last.seen.Keys == base + Keys(kept) && Keys(kept) !! base && |Keys(kept)| == |kept|
    ensures
      var box := Deliver(last, m, apply).0;
      var now := kept + if Lands(last, m, apply) then [m] else [];
      box.seen.Keys == base + Keys(now) && Keys(now) !! base && |Keys(now)| == |now|
  {
    if Lands(last, m, apply) {
      KeysSnoc(kept, m);
      KeyAdded(last.seen, m.key, m.hash, base, Keys(kept));
    } else {
      assert kept + [] == kept;
    }
  }

  /** The registered ids are those of the messages that took effect, and each of these has an id of its own. */
  lemma {:induction false} SeenAreKept<S, P>(box: Inbox<S>, ms: seq<Message<P>>, apply: Apply<S, P>)
    ensures DeliverAll(box, ms, apply).seen.Keys == box.seen.Keys + Keys(Kept(box, ms, apply))
    ensures Keys(Kept(box, ms, apply)) !! box.seen.Keys
    ensures |Keys(Kept(box, ms, apply))| == |Kept(box, ms, apply)|
  {
    if ms != [] {
      var n := |ms| - 1;
      SeenAreKept(box, ms[..n], apply);
      OneMore(DeliverAll(box, ms[..n], apply), ms[n], apply, box.seen.Keys, Kept(box, ms[..n], apply));
    }
  }

  /**
   Exactly once: any sequence of deliveries, with duplicates, reused ids, failures and lost
   acknowledgements, ends in the state that the deliveries which took effect alone produce, every
   one of which takes effect again there.
   */
  lemma {:induction false} OnlyKeptMatter<S, P>(box: Inbox<S>, ms: seq<Message<P>>, apply: Apply<S, P>)
    ensures DeliverAll(box, Kept(box, ms, apply), apply) == DeliverAll(box, ms, apply)
    ensures Kept(box, Kept(box, ms, apply), apply) == Kept(box, ms, apply)
  {
    if ms != [] {
      var before, m := ms[..|ms| - 1], ms[|ms| - 1];
      OnlyKeptMatter(box, before, apply);
      var kept := Kept(box, before, apply);
      if Lands(DeliverAll(box, before, apply), m, apply) {
        assert Kept(box, ms, apply) == kept + [m];
        KeptSnoc(box, kept, m, apply);
      } else {
        assert Kept(box, ms, apply) == kept;
      }
    }
  }

  /**
   A delivery takes effect exactly if it is valid, applies without a rollback, and no delivery of
   its id took effect before: the first success of an id wins, earlier failures do not count.
   */
  lemma FirstSuccessWins<S, P>(box: Inbox<S>, ms: seq<Message<P>>, m: Message<P>, apply: Apply<S, P>)
    requires box.seen == map[]
    ensures var before := DeliverAll(box, ms, apply);
            Deliver(before, m, apply).0 != before <==>
              m.valid && !m.outcome.RolledBack? && m.key !in Keys(Kept(box, ms, apply))
                  && apply(before.state, m.body).Some?
  {
    SeenAreKept(box, ms, apply);
    LandingIsVisible(DeliverAll(box, ms, apply), m, apply);
  }

  lemma LandingIsVisible<S, P>(box: Inbox<S>, m: Message<P>, apply: Apply<S, P>)
    ensures Deliver(box, m, apply).0 != box <==> Lands(box, m, apply)
  {
    assert Lands(box, m, apply) ==> m.key in Deliver(box, m, apply).0.seen;
  }

  /**
   A refused or duplicate delivery changes nothing; one answered as processed took effect; one
   answered as failed changed the tables exactly if its commit went through unacknowledged.
   */
  lemma OnlySuccessChanges<S, P>(box: Inbox<S>, m: Message<P>, apply: Apply<S, P>)
    ensures var (after, response) := Deliver(box, m, apply);
      && (after != box ==> response == Processed || response == Failed)
      && (response == Processed ==> after != box && m.key in after.seen)
      && (response == Failed ==>
            (after != box <==> m.outcome.Unacknowledged? && apply(box.state, m.body).Some?))
  {
    LandingIsVisible(box, m, apply);
  }

  /**
   Sending a failed delivery again, now without a fault: it is processed if nothing had taken
   effect and the event applies, and a duplicate exactly if the first one had taken effect.
   */
  lemma RetryAfterFailure<S, P>(box: Inbox<S>, m: Message<P>, apply: Apply<S, P>)
    requires Deliver(box, m, apply).1 == Failed
    ensures var after := Deliver(box, m, apply).0;
      Deliver(after, m.(outcome := Committed), apply).1 ==
        if after != box then Duplicate else if apply(box.state, m.body).Some? then Processed else Failed
  {
    LandingIsVisible(box, m, apply);
  }

  /** Once an id took effect every later valid delivery of it is a duplicate, or a reuse with another payload. */
  lemma LandedIdsStay<S, P>(box: Inbox<S>, m: Message<P>, ms: seq<Message<P>>, again: Message<P>, apply: Apply<S, P>)
    requires Lands(box, m, apply) && again.key == m.key && again.valid
    ensures var later := DeliverAll(Deliver(box, m, apply).0, ms, apply);
      Deliver(later, again, apply) == (later, if again.hash == m.hash then Duplicate else Reused)
  {
    RegisteredStays(Deliver(box, m, apply).0, m.key, ms, apply);
  }

  lemma {:induction false} RegisteredStays<S, P>(box: Inbox<S>, key: Key, ms: seq<Message<P>>, apply: Apply<S, P>)
    requires key in box.seen
    ensures var later := DeliverAll(box, ms, apply); key in later.seen && later.seen[key] == box.seen[key]
  {
    if ms != [] { RegisteredStays(box, key, ms[..|ms| - 1], apply); }
  }
}
