/**
 The chat hub: conversations map to sets of bounded channels, all changed under one mutex, so
 every operation is one step.  Channels are named by numbers.  The reference for a subscriber is
 its own bounded queue, computed from the trace without looking at anyone else.
 */
module ChatHub {
  import opened Options

  const CAPACITY: nat := 8

  /** A Go channel; `closed` says that `close` was called on it. */
  datatype Channel = Channel(conversation: string, buffer: seq<string>, closed: bool)

  datatype Hub = Hub(subscribers: map<string, set<nat>>, channels: map<nat, Channel>)

  datatype Event =
    | Subscribe(id: nat, conversation: string)
    | Unsubscribe(id: nat)
    | Publish(conversation: string, message: string)
    | Receive(id: nat)

  // ---------- the hub ----------

  predicate Enabled(h: Hub, e: Event) {
    match e
    case Subscribe(id, _) => id !in h.channels
    case Unsubscribe(id) => id in h.channels && !h.channels[id].closed
    case Publish(_, _) => true
    case Receive(id) => id in h.channels && h.channels[id].buffer != []
  }

  function Members(subscribers: map<string, set<nat>>, conversation: string): set<nat> {
    if conversation in subscribers then subscribers[conversation] else {}
  }

  function Offer(c: Channel, message: string): Channel {
    if |c.buffer| < CAPACITY then c.(buffer := c.buffer + [message]) else c
  }

  function Published(h: Hub, conversation: string, message: string): map<nat, Channel> {
    map id | id in h.channels ::
      if id in Members(h.subscribers, conversation) then Offer(h.channels[id], message) else h.channels[id]
  }

  function Without(subscribers: map<string, set<nat>>, conversation: string, id: nat): map<string, set<nat>> {
    var left := Members(subscribers, conversation) - {id};
    if left == {} then subscribers - {conversation} else subscribers[conversation := left]
  }

  function Step(h: Hub, e: Event): Hub
    requires Enabled(h, e)
  {
    match e
    case Subscribe(id, conversation) =>
      Hub(h.subscribers[conversation := Members(h.subscribers, conversation) + {id}],
          h.channels[id := Channel(conversation, [], false)])
    case Unsubscribe(id) =>
      Hub(Without(h.subscribers, h.channels[id].conversation, id), h.channels[id := h.channels[id].(closed := true)])
    case Publish(conversation, message) =>
      h.(channels := Published(h, conversation, message))
    case Receive(id) =>
      h.(channels := h.channels[id := h.channels[id].(buffer := h.channels[id].buffer[1..])])
  }

  ghost predicate Inv(h: Hub) {
    && (forall k :: k in h.subscribers ==> h.subscribers[k] != {})
    && (forall k, id :: k in h.subscribers && id in h.subscribers[k] ==>
          id in h.channels && h.channels[id].conversation == k && !h.channels[id].closed)
    && (forall id :: id in h.channels ==>
          |h.channels[id].buffer| <= CAPACITY
          && (!h.channels[id].closed ==> id in Members(h.subscribers, h.channels[id].conversation)))
  }

  lemma StepKeepsInv(h: Hub, e: Event)
    requires Inv(h) && Enabled(h, e)
    ensures Inv(Step(h, e))
  {
    var x := Step(h, e);
    match e {
      case Unsubscribe(id) =>
        var k := h.channels[id].conversation;
        forall c, i | c in x.subscribers && i in x.subscribers[c]
          ensures i in x.channels && x.channels[i].conversation == c && !x.channels[i].closed
        {
          assert i in h.subscribers[c];
        }
      case _ =>
    }
  }

  // ---------- one subscriber, seen alone ----------

  datatype Item = Sent(message: string) | Taken

  /** The conversation, whether the subscription is still on, and what happened to the channel. */
  datatype View = View(conversation: string, open: bool, log: seq<Item>)

  function ViewOf(trace: seq<Event>, id: nat): Option<View> {
    if trace == [] then None
    else
      var v, e := ViewOf(trace[..|trace| - 1], id), trace[|trace| - 1];
      match e
      case Subscribe(i, conversation) => if i == id then Some(View(conversation, true, [])) else v
      case Unsubscribe(i) => if i == id && v.Some? then Some(v.value.(open := false)) else v
      case Publish(conversation, message) =>
        if v.Some? && v.value.open && v.value.conversation == conversation
            then Some(v.value.(log := v.value.log + [Sent(message)])) else v
      case Receive(i) => if i == id && v.Some? then Some(v.value.(log := v.value.log + [Taken])) else v
  }

  /** A queue of capacity eight that refuses what does not fit. */
  function Queue(log: seq<Item>): seq<string> {
    if log == [] then []
    else
      var q := Queue(log[..|log| - 1]);
      match log[|log| - 1]
      case Sent(m) => if |q| < CAPACITY then q + [m] else q
      case Taken => if q == [] then [] else q[1..]
  }

  function Got(log: seq<Item>): seq<string> {
    if log == [] then []
    else
      var g, q := Got(log[..|log| - 1]), Queue(log[..|log| - 1]);
      match log[|log| - 1]
      case Sent(_) => g
      case Taken => if q == [] then g else g + [q[0]]
  }

  function Offers(log: seq<Item>): seq<string> {
    if log == [] then []
    else Offers(log[..|log| - 1]) + match log[|log| - 1] case Sent(m) => [m] case Taken => []
  }

  /** For each message sent, whether fewer than eight were pending. */
  function Accepted(log: seq<Item>): seq<bool> {
    if log == [] then []
    else
      Accepted(log[..|log| - 1]) +
      match log[|log| - 1]
      case Sent(_) => [|Queue(log[..|log| - 1])| < CAPACITY]
      case Taken => []
  }

  function Pick(s: seq<string>, mask: seq<bool>): seq<string>
    requires |mask| == |s|
  {
    if s == [] then []
    else Pick(s[..|s| - 1], mask[..|s| - 1]) + if mask[|s| - 1] then [s[|s| - 1]] else []
  }

  ghost predicate Legal(trace: seq<Event>)
    decreases |trace|, 0
  {
    trace == [] || (Legal(trace[..|trace| - 1]) && Enabled(After(trace[..|trace| - 1]), trace[|trace| - 1]))
  }

  ghost function After(trace: seq<Event>): Hub
    requires Legal(trace)
    decreases |trace|, 1
  {
    if trace == [] then Hub(map[], map[]) else Step(After(trace[..|trace| - 1]), trace[|trace| - 1])
  }

  ghost predicate Mirrors(h: Hub, trace: seq<Event>, id: nat) {
    var v := ViewOf(trace, id);
    && (id in h.channels <==> v.Some?)
    && (v.Some? ==> h.channels[id] == Channel(v.value.conversation, Queue(v.value.log), !v.value.open))
  }

  lemma QueueAfter(log: seq<Item>, i: Item)
    ensures Queue(log + [i]) ==
      match i
      case Sent(m) => if |Queue(log)| < CAPACITY then Queue(log) + [m] else Queue(log)
      case Taken => if Queue(log) == [] then [] else Queue(log)[1..]
  {
    assert (log + [i])[..|log|] == log;
  }

  /**
   In every interleaving the hub gives each subscriber exactly its own bounded queue: it never
   sends on a closed channel, and it keeps no conversation without subscribers.
   */
  lemma {:induction false} HubIsQueuePerSubscriber(trace: seq<Event>, id: nat)
    requires Legal(trace)
    ensures Inv(After(trace)) && Mirrors(After(trace), trace, id)
  {
    if trace != [] {
      var n := |trace| - 1;
      var h, e := After(trace[..n]), trace[n];
      HubIsQueuePerSubscriber(trace[..n], id);
      StepKeepsInv(h, e);
      var v := ViewOf(trace[..n], id);
      if v.Some? {
        if e.Publish? { QueueAfter(v.value.log, Sent(e.message)); }
        if e.Receive? { QueueAfter(v.value.log, Taken); }
      }
    }
  }

  // ---------- what a subscriber gets ----------

  lemma PickAfter(s: seq<string>, mask: seq<bool>, x: string, b: bool)
    requires |mask| == |s|
    ensures Pick(s + [x], mask + [b]) == Pick(s, mask) + if b then [x] else []
  {
    assert (s + [x])[..|s|] == s && (mask + [b])[..|s|] == mask;
  }

  lemma OrderAfter(log: seq<Item>, i: Item)
    requires |Accepted(log)| == |Offers(log)| && Got(log) + Queue(log) == Pick(Offers(log), Accepted(log))
    ensures var l := log + [i];
      |Accepted(l)| == |Offers(l)| && Got(l) + Queue(l) == Pick(Offers(l), Accepted(l))
  {
    var l, q := log + [i], Queue(log);
    assert l[..|l| - 1] == log && l[|l| - 1] == i;
    match i {
      case Sent(m) =>
        PickAfter(Offers(log), Accepted(log), m, |q| < CAPACITY);
        assert Got(log) + (q + [m]) == (Got(log) + q) + [m];
      case Taken =>
        assert Offers(log) + [] == Offers(log) && Accepted(log) + [] == Accepted(log);
        assert q != [] ==> Got(log) + q == (Got(log) + [q[0]]) + q[1..];
    }
  }

  /**
   What was received, then what is pending, is what was sent minus exactly the messages that met a
   full buffer, in order.
   */
  lemma {:induction false} OrderIsKept(log: seq<Item>)
    ensures |Accepted(log)| == |Offers(log)|
    ensures Got(log) + Queue(log) == Pick(Offers(log), Accepted(log))
  {
    if log != [] {
      var n := |log| - 1;
      OrderIsKept(log[..n]);
      OrderAfter(log[..n], log[n]);
      assert log[..n] + [log[n]] == log;
    }
  }

  lemma {:induction false} PickAll(s: seq<string>, mask: seq<bool>)
    requires |mask| == |s|
    ensures |Pick(s, mask)| <= |s|
    ensures Pick(s, mask) == s <==> false !in mask
  {
    if s != [] {
      var n := |s| - 1;
      PickAll(s[..n], mask[..n]);
      assert s == s[..n] + [s[n]] && mask == mask[..n] + [mask[n]];
    }
  }

  /** The k-th entry is a message that met eight pending ones. */
  ghost predicate MetFull(log: seq<Item>, k: nat) {
    k < |log| && log[k].Sent? && |Queue(log[..k])| >= CAPACITY
  }

  lemma MetFullEarlier(log: seq<Item>, k: nat)
    requires k < |log| - 1
    ensures MetFull(log, k) <==> MetFull(log[..|log| - 1], k)
  {
    assert log[..|log| - 1][..k] == log[..k];
  }

  lemma {:induction false} RefusedWhenFull(log: seq<Item>)
    ensures false in Accepted(log) <==> exists k: nat :: MetFull(log, k)
  {
    if log != [] {
      var n := |log| - 1;
      RefusedWhenFull(log[..n]);
      forall k: nat | k < n ensures MetFull(log, k) <==> MetFull(log[..n], k) {
        MetFullEarlier(log, k);
      }
      assert MetFull(log, n) <==> log[n].Sent? && |Queue(log[..n])| >= CAPACITY;
    }
  }

  /** Nothing sent during the subscription is lost exactly when no message met eight pending ones. */
  lemma LosslessWhenNeverFull(trace: seq<Event>, id: nat)
    requires Legal(trace) && ViewOf(trace, id).Some?
    ensures var log := ViewOf(trace, id).value.log;
      && id in After(trace).channels
      && (Got(log) + After(trace).channels[id].buffer == Offers(log)
          <==> !exists k: nat :: MetFull(log, k))
  {
    var log := ViewOf(trace, id).value.log;
    HubIsQueuePerSubscriber(trace, id);
    OrderIsKept(log);
    PickAll(Offers(log), Accepted(log));
    RefusedWhenFull(log);
  }

  // ---------- the methods ----------

  lemma RemovedBefore(h: Hub, id: nat)
    requires Inv(h) && id in h.channels && h.channels[id].closed
    ensures var k := h.channels[id].conversation; k in h.subscribers ==> Without(h.subscribers, k, id) == h.subscribers
  {
    var k := h.channels[id].conversation;
    if k in h.subscribers {
      assert id !in h.subscribers[k];
      assert h.subscribers[k] - {id} == h.subscribers[k];
    }
  }

  class MessageHub {
    var subscribers: map<string, set<nat>>
    var channels: map<nat, Channel>

    ghost function State(): Hub
      reads this
    {
      Hub(subscribers, channels)
    }

    ghost predicate Valid()
      reads this
    {
      Inv(State())
    }

    constructor ()
      ensures Valid() && State() == After([])
    {
      subscribers, channels := map[], map[];
    }

    method Subscribe(id: nat, conversation: string)
      requires Valid() && id !in channels
      modifies this
      ensures Valid() && State() == Step(old(State()), Event.Subscribe(id, conversation))
    {
      StepKeepsInv(State(), Event.Subscribe(id, conversation));
      Join(conversation, id);
      channels := channels[id := Channel(conversation, [], false)];
    }

    method Join(conversation: string, id: nat)
      modifies this`subscribers
      ensures subscribers == old(subscribers)[conversation := Members(old(subscribers), conversation) + {id}]
    {
      if conversation !in subscribers {
        subscribers := subscribers[conversation := {}];
      }
      subscribers := subscribers[conversation := subscribers[conversation] + {id}];
    }

    method Remove(conversation: string, id: nat)
      modifies this`subscribers
      ensures subscribers == if conversation in old(subscribers) then Without(old(subscribers), conversation, id)
          else old(subscribers)
    {
      if conversation in subscribers {
        var left := subscribers[conversation] - {id};
        subscribers := subscribers[conversation := left];
        if left == {} {
          subscribers := subscribers - {conversation};
        }
      }
    }

    /** The closure returned by subscribe; closing a channel twice panics. */
    method Unsubscribe(id: nat) returns (panicked: bool)
      requires Valid() && id in channels
      modifies this
      ensures Valid()
      ensures panicked == old(channels)[id].closed
      ensures State() == if panicked then old(State()) else Step(old(State()), Event.Unsubscribe(id))
    {
      panicked := channels[id].closed;
      if panicked {
        RemovedBefore(State(), id);
      } else {
        StepKeepsInv(State(), Event.Unsubscribe(id));
      }
      Remove(channels[id].conversation, id);
      if !panicked {
        channels := channels[id := channels[id].(closed := true)];
      }
    }

    /** A send on an open channel that does not wait. */
    method TrySend(id: nat, message: string)
      requires id in channels && !channels[id].closed
      modifies this`channels
      ensures channels == old(channels)[id := Offer(old(channels)[id], message)]
    {
      if |channels[id].buffer| < CAPACITY {
        channels := channels[id := channels[id].(buffer := channels[id].buffer + [message])];
      }
    }

    method Publish(conversation: string, message: string)
      requires Valid()
      modifies this`channels
      ensures Valid() && State() == Step(old(State()), Event.Publish(conversation, message))
    {
      StepKeepsInv(State(), Event.Publish(conversation, message));
      var left := if conversation in subscribers then subscribers[conversation] else {};
      ghost var before := channels;
      while left != {}
        invariant left <= Members(subscribers, conversation)
        invariant channels.Keys == before.Keys
        invariant forall id :: id in channels ==>
          channels[id] == if id in Members(subscribers, conversation) - left then Offer(before[id], message)
              else before[id]
        decreases |left|
      {
        ghost var some := Member(left);
        var id :| id in left;
        TrySend(id, message);
        left := left - {id};
      }
      assert channels == Published(old(State()), conversation, message);
    }

    method Receive(id: nat) returns (message: string)
      requires Valid() && id in channels && channels[id].buffer != []
      modifies this`channels
      ensures Valid() && State() == Step(old(State()), Event.Receive(id))
      ensures message == old(channels)[id].buffer[0]
    {
      StepKeepsInv(State(), Event.Receive(id));
      message := channels[id].buffer[0];
      channels := channels[id := channels[id].(buffer := channels[id].buffer[1..])];
    }
  }
}
