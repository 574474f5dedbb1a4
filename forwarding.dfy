/**
 * The task `stream_run_events` spawns: it replays a subscription's backlog
 * into the outward channel, then forwards live broadcast items until the
 * consumer goes away or the broadcast reports that this subscriber lagged.
 * Sequential model: the live items are given in arrival order, and the
 * channel knows how many more sends its receiver will take before it is
 * dropped.
 */
module Forwarding {
  import opened Proto

  const LaggedMessage := "event stream lagged"

  /** An item of the live broadcast stream: an event, or `BroadcastStreamRecvError::Lagged(n)`. */
  datatype LiveItem = Event(event: RunEvent) | Lagged(skipped: nat)

  /** What the consumer receives: `Ok(event)` or a terminal `Err(status)`. */
  datatype Outbound = Item(event: RunEvent) | Failure(status: Status)

  /** The sending side of the `mpsc` channel to the consumer. */
  class Channel {
    /** Everything the channel has accepted for the consumer, in order. */
    var delivered: seq<Outbound>
    /** How many more sends the receiver takes before it disconnects. */
    var receiverBudget: nat

    constructor (budget: nat)
      ensures delivered == [] && receiverBudget == budget
    {
      delivered := [];
      receiverBudget := budget;
    }

    /** `tx.send(item).await`: fails once the receiver has been dropped. */
    method Send(item: Outbound) returns (ok: bool)
      modifies this
      ensures ok <==> old(receiverBudget) > 0
      ensures delivered == if ok then old(delivered) + [item] else old(delivered)
      ensures receiverBudget == if ok then old(receiverBudget) - 1 else old(receiverBudget)
    {
      ok := receiverBudget > 0;
      if ok {
        delivered := delivered + [item];
        receiverBudget := receiverBudget - 1;
      }
    }
  }

  /** The backlog, sent in order. */
  function Replay(backlog: seq<RunEvent>): (out: seq<Outbound>)
    ensures |out| == |backlog|
  {
    if backlog == [] then [] else [Item(backlog[0])] + Replay(backlog[1..])
  }

  /** The replay sends backlog event `t` as its `t`-th item. */
  lemma {:induction false} ReplayAt(backlog: seq<RunEvent>, t: nat)
    requires t < |backlog|
    ensures Replay(backlog)[t] == Item(backlog[t])
  {
    if t > 0 {
      ReplayAt(backlog[1..], t - 1);
    }
  }

  /** The live part: events until the first lag, which ends the stream with one error. */
  function LiveOutput(live: seq<LiveItem>): (out: seq<Outbound>)
    ensures |out| <= |live|
    // the output stops short of the input only by ending in the lag error
    ensures |out| < |live| ==> out != [] && out[|out| - 1] == Failure(Status.Unavailable(LaggedMessage))
  {
    if live == [] then []
    else match live[0]
      case Event(e) => [Item(e)] + LiveOutput(live[1..])
      case Lagged(_) => [Failure(Status.Unavailable(LaggedMessage))]
  }

  /** Everything the task would send to a consumer that never disconnects. */
  function Intended(backlog: seq<RunEvent>, live: seq<LiveItem>): seq<Outbound> {
    Replay(backlog) + LiveOutput(live)
  }

  /** The first `n` items of `s`, or all of it. */
  function Take<T>(s: seq<T>, n: nat): (r: seq<T>)
    ensures |r| == if n < |s| then n else |s|
  {
    if n < |s| then s[..n] else s
  }

  /** Index of the first `Lagged` item, or the length when there is none. */
  function FirstLag(live: seq<LiveItem>): (k: nat)
    ensures k <= |live|
    ensures forall t :: 0 <= t < k ==> live[t].Event?
    ensures k < |live| ==> live[k].Lagged?
  {
    if live == [] || live[0].Lagged? then 0 else 1 + FirstLag(live[1..])
  }

  /**
   * The live part is the events before the first lag, in arrival order,
   * followed by exactly one `unavailable` error if a lag occurs.
   */
  lemma {:induction false} LiveOutputShape(live: seq<LiveItem>)
    ensures var k := FirstLag(live);
      && |LiveOutput(live)| == (if k < |live| then k + 1 else k)
      && (forall t :: 0 <= t < k ==> LiveOutput(live)[t] == Item(live[t].event))
      && (k < |live| ==> LiveOutput(live)[k] == Failure(Status.Unavailable(LaggedMessage)))
  {
    if live != [] && live[0].Event? {
      LiveOutputShape(live[1..]);
      var k := FirstLag(live);
      forall t | 0 <= t < k
        ensures LiveOutput(live)[t] == Item(live[t].event)
      {
        if t > 0 {
          assert live[1..][t - 1] == live[t];
        }
      }
    }
  }

  /**
   * What a consumer that takes `budget` items receives: the backlog in order,
   * then the live events before the first lag in arrival order, then at most
   * one `unavailable("event stream lagged")`, which only a lag produces and
   * after which nothing is sent; all of it cut off where the consumer left.
   */
  lemma ForwardedOrder(backlog: seq<RunEvent>, live: seq<LiveItem>, budget: nat)
    ensures var out := Take(Intended(backlog, live), budget);
      var k := FirstLag(live);
      var full := |backlog| + k + (if k < |live| then 1 else 0);
      && |out| == (if budget < full then budget else full)
      && (forall t :: 0 <= t < |out| && t < |backlog| ==> out[t] == Item(backlog[t]))
      && (forall t :: |backlog| <= t < |out| && t < |backlog| + k ==> out[t] == Item(live[t - |backlog|].event))
      && (forall t :: 0 <= t < |out| && out[t].Failure? ==>
            t == |out| - 1 && k < |live| && out[t].status == Status.Unavailable(LaggedMessage))
      && (k < |live| && |backlog| + k < budget ==> out[|backlog| + k] == Failure(Status.Unavailable(LaggedMessage)))
  {
    LiveOutputShape(live);
    var out := Take(Intended(backlog, live), budget);
    var k := FirstLag(live);
    forall t | 0 <= t < |out|
      ensures t < |backlog| ==> out[t] == Item(backlog[t])
      ensures |backlog| <= t < |backlog| + k ==> out[t] == Item(live[t - |backlog|].event)
      ensures out[t].Failure? ==> t == |out| - 1 && k < |live| && out[t].status == Status.Unavailable(LaggedMessage)
    {
      assert out[t] == Intended(backlog, live)[t];
      if t < |backlog| {
        ReplayAt(backlog, t);
      }
    }
  }

  /** A consumer that stays longer sees an extension of what an earlier leaver saw. */
  lemma LaterDisconnectExtends(backlog: seq<RunEvent>, live: seq<LiveItem>, n: nat, m: nat)
    requires n <= m
    ensures Take(Intended(backlog, live), n) <= Take(Intended(backlog, live), m)
  {
  }

  /** Cutting a concatenation: the first part, cut, or all of it followed by the second part, cut. */
  lemma TakeConcat<T>(a: seq<T>, b: seq<T>, n: nat)
    ensures Take(a + b, n) == if n < |a| then Take(a, n) else a + Take(b, n - |a|)
  {
    if n < |a| {
      assert (a + b)[..n] == a[..n];
    } else if n - |a| < |b| {
      assert (a + b)[..n] == a + b[..n - |a|];
    }
  }

  /** A sequence of length `n + 1` is its first `n` items followed by its last. */
  lemma SplitLast<T>(s: seq<T>, n: nat)
    requires |s| == n + 1
    ensures s == s[..n] + [s[n]]
  {
  }

  /** A sequence that sends backlog events in order is the replay cut at its length. */
  lemma ReplayPrefix(backlog: seq<RunEvent>, sent: seq<Outbound>)
    requires |sent| <= |backlog|
    requires forall t :: 0 <= t < |sent| ==> sent[t] == Item(backlog[t])
    ensures Take(Replay(backlog), |sent|) == sent
  {
    forall t | 0 <= t < |sent|
      ensures Take(Replay(backlog), |sent|)[t] == sent[t]
    {
      ReplayAt(backlog, t);
    }
  }

  /**
   * A sequence that sends the first live items, all of them events, in order
   * is the live part cut at its length; it is the whole live part when the
   * items run out, and the live part less its final error when a lag is next.
   */
  lemma LiveOutputPrefix(live: seq<LiveItem>, sent: seq<Outbound>)
    requires |sent| <= |live|
    requires forall t :: 0 <= t < |sent| ==> live[t].Event? && sent[t] == Item(live[t].event)
    ensures Take(LiveOutput(live), |sent|) == sent
    ensures |sent| == |live| ==> LiveOutput(live) == sent
    ensures |sent| < |live| && live[|sent|].Lagged? ==>
      LiveOutput(live) == sent + [Failure(Status.Unavailable(LaggedMessage))]
  {
    LiveOutputShape(live);
    var out := LiveOutput(live);
    var k := FirstLag(live);
    var n := |sent|;
    assert forall t :: 0 <= t < n ==> live[t].Event?;
    assert n <= k;
    assert Take(out, n) == sent by {
      forall t | 0 <= t < n
        ensures Take(out, n)[t] == sent[t]
      {
        assert out[t] == Item(live[t].event);
      }
    }
    if n == |live| {
      assert out == Take(out, n);
    } else if live[n].Lagged? {
      assert k == n;
      assert |out| == n + 1 && out[..n] == sent;
      assert out[n] == Failure(Status.Unavailable(LaggedMessage));
      SplitLast(out, n);
    }
  }

  /** The `for` loop over the backlog; `connected` is false once a send has failed. */
  method ReplayBacklog(backlog: seq<RunEvent>, tx: Channel) returns (connected: bool)
    modifies tx
    ensures connected <==> |backlog| <= old(tx.receiverBudget)
    ensures tx.delivered == old(tx.delivered) + Take(Replay(backlog), old(tx.receiverBudget))
    ensures tx.receiverBudget == old(tx.receiverBudget) - |Take(Replay(backlog), old(tx.receiverBudget))|
  {
    ghost var budget := tx.receiverBudget;
    ghost var sent: seq<Outbound> := [];
    for i := 0 to |backlog|
      invariant tx.delivered == old(tx.delivered) + sent
      invariant |sent| == i <= budget
      invariant forall t :: 0 <= t < i ==> sent[t] == Item(backlog[t])
      invariant tx.receiverBudget == budget - i
    {
      var ok := tx.Send(Item(backlog[i]));
      if !ok {
        ReplayPrefix(backlog, sent);
        return false;
      }
      sent := sent + [Item(backlog[i])];
    }
    ReplayPrefix(backlog, sent);
    connected := true;
  }

  /** The `while let` loop over the live items. */
  method ForwardLive(live: seq<LiveItem>, tx: Channel)
    modifies tx
    ensures tx.delivered == old(tx.delivered) + Take(LiveOutput(live), old(tx.receiverBudget))
    ensures tx.receiverBudget == old(tx.receiverBudget) - |Take(LiveOutput(live), old(tx.receiverBudget))|
  {
    ghost var budget := tx.receiverBudget;
    ghost var sent: seq<Outbound> := [];
    var j := 0;
    while j < |live|
      invariant j <= |live|
      invariant tx.delivered == old(tx.delivered) + sent
      invariant |sent| == j <= budget
      invariant forall t :: 0 <= t < j ==> live[t].Event? && sent[t] == Item(live[t].event)
      invariant tx.receiverBudget == budget - j
    {
      match live[j] {
        case Event(e) =>
          var ok := tx.Send(Item(e));
          if !ok {
            LiveOutputPrefix(live, sent);
            break;
          }
          sent := sent + [Item(e)];
        case Lagged(_) =>
          LiveOutputPrefix(live, sent);
          var ok := tx.Send(Failure(Status.Unavailable(LaggedMessage)));
          if ok {
            sent := sent + [Failure(Status.Unavailable(LaggedMessage))];
          }
          break;
      }
      j := j + 1;
    }
    if j == |live| {
      LiveOutputPrefix(live, sent);
    }
  }

  /**
   * The forwarding task: replay the backlog, stopping silently when a send
   * fails; then forward live events, stopping silently when a send fails and
   * after sending one `unavailable` error on the first lag.
   */
  method ForwardEvents(backlog: seq<RunEvent>, live: seq<LiveItem>, tx: Channel)
    modifies tx
    ensures tx.delivered == old(tx.delivered) + Take(Intended(backlog, live), old(tx.receiverBudget))
    ensures tx.receiverBudget == old(tx.receiverBudget) - |Take(Intended(backlog, live), old(tx.receiverBudget))|
  {
    ghost var budget := tx.receiverBudget;
    ghost var replayed := Replay(backlog);
    assert Intended(backlog, live) == replayed + LiveOutput(live);
    TakeConcat(replayed, LiveOutput(live), budget);
    var connected := ReplayBacklog(backlog, tx);
    if !connected {
      assert Take(Intended(backlog, live), budget) == Take(replayed, budget);
      return;
    }
    assert Take(Intended(backlog, live), budget) == replayed + Take(LiveOutput(live), budget - |replayed|);
    assert tx.delivered == old(tx.delivered) + replayed;
    ForwardLive(live, tx);
  }
}
