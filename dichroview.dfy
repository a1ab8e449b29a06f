/**
 * The connection registry and fan-out of `Notifier` in dichroview.py.
 *
 * A `Notifier` holds the list of subscriber websockets of one channel
 * ("new-run" or "add-data"). A websocket is an opaque identity `C`; sending a
 * message `M` to it appends a `Delivery` to the notifier's `log`, so the
 * messages a subscriber has received are `Inbox(log, c)`.
 */
module Dichroview {
  import opened Wrappers

  /** One `send_json` that completed: `conn` was handed `message`. */
  datatype Delivery<C, M> = Delivery(conn: C, message: M)

  /** The error `list.remove` raises for an element that is not in the list. */
  datatype RegistryError = ValueError

  /**
   * What `push` raises: the exception of a send inside `_notify`, which escapes
   * the notification generator and finishes it, or `StopAsyncIteration` from
   * `asend` on a generator that has already finished.
   */
  datatype PushError<C> = SendFailed(ws: C) | StopAsyncIteration

  // ---------------------------------------------------------------------------
  // Sequences
  // ---------------------------------------------------------------------------

  /** `s` back to front: the order in which repeated `pop()` yields the list. */
  function Reversed<T>(s: seq<T>): (r: seq<T>)
    ensures |r| == |s|
  {
    if s == [] then [] else Reversed(s[1..]) + [s[0]]
  }

  lemma {:induction false} ReversedAt<T>(s: seq<T>, k: nat)
    requires k < |s|
    ensures Reversed(s)[k] == s[|s| - 1 - k]
  {
    if k < |s| - 1 {
      ReversedAt(s[1..], k);
    }
  }

  lemma {:induction false} ReversedMultiset<T>(s: seq<T>)
    ensures multiset(Reversed(s)) == multiset(s)
  {
    if s != [] {
      ReversedMultiset(s[1..]);
      assert s == [s[0]] + s[1..];
    }
  }

  /** Reversing twice gives the original order back. */
  lemma ReversedInvolutive<T>(s: seq<T>)
    ensures Reversed(Reversed(s)) == s
  {
    var r := Reversed(s);
    forall k | 0 <= k < |s|
      ensures Reversed(r)[k] == s[k]
    {
      ReversedAt(r, k);
      ReversedAt(s, |s| - 1 - k);
    }
  }

  /** `n` copies of `m`. */
  function Repeat<M>(m: M, n: nat): (r: seq<M>)
    ensures |r| == n
    ensures forall i :: 0 <= i < n ==> r[i] == m
  {
    if n == 0 then [] else [m] + Repeat(m, n - 1)
  }

  /** The deliveries of one message to the connections `cs`, in that order. */
  function Deliveries<C, M>(cs: seq<C>, m: M): (r: seq<Delivery<C, M>>)
    ensures |r| == |cs|
    ensures forall i :: 0 <= i < |cs| ==> r[i] == Delivery(cs[i], m)
  {
    if cs == [] then [] else [Delivery(cs[0], m)] + Deliveries(cs[1..], m)
  }

  /** The connections of a delivery log, in the order they were served. */
  function Recipients<C, M>(log: seq<Delivery<C, M>>): (r: seq<C>)
    ensures |r| == |log|
    ensures forall i :: 0 <= i < |log| ==> r[i] == log[i].conn
  {
    if log == [] then [] else [log[0].conn] + Recipients(log[1..])
  }

  lemma RecipientsOfDeliveries<C, M>(cs: seq<C>, m: M)
    ensures Recipients(Deliveries(cs, m)) == cs
  {
  }

  /** What connection `c` has received, in order of arrival. */
  function Inbox<C(==), M>(log: seq<Delivery<C, M>>, c: C): seq<M>
  {
    if log == [] then []
    else (if log[0].conn == c then [log[0].message] else []) + Inbox(log[1..], c)
  }

  lemma {:induction false} InboxAppend<C, M>(a: seq<Delivery<C, M>>, b: seq<Delivery<C, M>>, c: C)
    ensures Inbox(a + b, c) == Inbox(a, c) + Inbox(b, c)
  {
    if a == [] {
      assert a + b == b;
    } else {
      var ab := a + b;
      var head := if a[0].conn == c then [a[0].message] else [];
      assert ab[0] == a[0] && ab[1..] == a[1..] + b;
      assert Inbox(ab, c) == head + Inbox(a[1..] + b, c);
      InboxAppend(a[1..], b, c);
      assert Inbox(a, c) == head + Inbox(a[1..], c);
    }
  }

  lemma RepeatAppend<M>(m: M, p: nat, q: nat)
    ensures Repeat(m, p) + Repeat(m, q) == Repeat(m, p + q)
  {
  }

  /** A message sent to `cs` reaches `c` once per occurrence of `c` in `cs`. */
  lemma {:induction false} InboxOfDeliveries<C, M>(cs: seq<C>, m: M, c: C)
    ensures Inbox(Deliveries(cs, m), c) == Repeat(m, multiset(cs)[c])
  {
    if cs != [] {
      var d := Deliveries(cs, m);
      assert d[1..] == Deliveries(cs[1..], m);
      InboxOfDeliveries(cs[1..], m, c);
      assert cs == [cs[0]] + cs[1..];
      assert multiset(cs)[c] == (if cs[0] == c then 1 else 0) + multiset(cs[1..])[c];
      RepeatAppend(m, if cs[0] == c then 1 else 0, multiset(cs[1..])[c]);
    }
  }

  /** The position of the first occurrence of `x` in `s`. */
  function IndexOf<T(==)>(s: seq<T>, x: T): (i: nat)
    requires x in s
    ensures i < |s| && s[i] == x && x !in s[..i]
  {
    if s[0] == x then 0 else 1 + IndexOf(s[1..], x)
  }

  /** `s` without its first occurrence of `x`, as Python's `list.remove(x)` leaves it. */
  function RemoveFirst<T(==)>(s: seq<T>, x: T): (r: seq<T>)
    requires x in s
    ensures |r| == |s| - 1
  {
    if s[0] == x then s[1..] else [s[0]] + RemoveFirst(s[1..], x)
  }

  /** `RemoveFirst` splices out exactly the first occurrence: earlier and later entries keep their order. */
  lemma {:induction false} RemoveFirstSplices<T>(s: seq<T>, x: T)
    requires x in s
    ensures RemoveFirst(s, x) == s[..IndexOf(s, x)] + s[IndexOf(s, x) + 1..]
  {
    var i := IndexOf(s, x);
    if s[0] == x {
      assert i == 0 && s[..i] == [];
    } else {
      var t := s[1..];
      var j := IndexOf(t, x);
      assert i == j + 1;
      RemoveFirstSplices(t, x);
      assert RemoveFirst(s, x) == [s[0]] + RemoveFirst(t, x);
      assert s[..i] == [s[0]] + t[..j];
      assert s[i + 1..] == t[j + 1..];
    }
  }

  /** `RemoveFirst` drops one occurrence of `x` and keeps every other entry as often as before. */
  lemma RemoveFirstMultiset<T>(s: seq<T>, x: T)
    requires x in s
    ensures multiset(RemoveFirst(s, x)) == multiset(s) - multiset{x}
  {
    var i := IndexOf(s, x);
    RemoveFirstSplices(s, x);
    assert s == s[..i] + [x] + s[i + 1..];
  }

  // ---------------------------------------------------------------------------
  // One round of `_notify`
  // ---------------------------------------------------------------------------

  /**
   * How many entries at the end of `cs` accept a send before the first
   * (from the end) whose send raises: the entries `_notify` serves.
   */
  function LiveSuffix<C(==)>(cs: seq<C>, broken: set<C>): (t: nat)
    ensures t <= |cs|
    ensures forall i :: |cs| - t <= i < |cs| ==> cs[i] !in broken
    ensures t < |cs| ==> cs[|cs| - t - 1] in broken
  {
    if cs == [] || cs[|cs| - 1] in broken then 0
    else 1 + LiveSuffix(cs[..|cs| - 1], broken)
  }

  /** The suffix properties determine `LiveSuffix`. */
  lemma LiveSuffixUnique<C>(cs: seq<C>, broken: set<C>, k: nat)
    requires k <= |cs|
    requires forall i :: |cs| - k <= i < |cs| ==> cs[i] !in broken
    requires k < |cs| ==> cs[|cs| - k - 1] in broken
    ensures LiveSuffix(cs, broken) == k
  {
  }

  /** What one `_notify` leaves behind: the new `connections`, the sends made, and whether one raised. */
  datatype Round<C, M> = Round(remaining: seq<C>, sent: seq<Delivery<C, M>>, outcome: Outcome<C>)

  /**
   * `_notify(message)` on `connections == cs`, where a send to a connection in
   * `broken` raises: pop from the end, send, collect; on success the list is
   * rebuilt from what was served, on a failure the exception escapes with the
   * unpopped prefix left in place.
   */
  function NotifyRound<C(==), M>(cs: seq<C>, broken: set<C>, message: M): Round<C, M>
  {
    var t := LiveSuffix(cs, broken);
    if t == |cs| then
      Round(Reversed(cs), Deliveries(Reversed(cs), message), Pass)
    else
      Round(cs[..|cs| - t - 1], Deliveries(Reversed(cs[|cs| - t..]), message), Fail(cs[|cs| - t - 1]))
  }

  /** `_notify` on an empty registry sends nothing and leaves the registry empty. */
  lemma NotifyEmptyRegistry<C, M>(broken: set<C>, message: M)
    ensures NotifyRound([], broken, message) == Round([], [], Pass)
  {
  }

  /**
   * When no send fails, every registered connection receives the message once
   * per registration and no other connection receives it.
   */
  lemma NotifyDeliversOnce<C, M>(cs: seq<C>, broken: set<C>, message: M, log: seq<Delivery<C, M>>, c: C)
    requires forall x :: x in cs ==> x !in broken
    ensures NotifyRound(cs, broken, message).outcome == Pass
    ensures Inbox(log + NotifyRound(cs, broken, message).sent, c)
         == Inbox(log, c) + Repeat(message, multiset(cs)[c])
    ensures c !in cs ==> Inbox(log + NotifyRound(cs, broken, message).sent, c) == Inbox(log, c)
  {
    LiveSuffixUnique(cs, broken, |cs|);
    InboxAppend(log, Deliveries(Reversed(cs), message), c);
    InboxOfDeliveries(Reversed(cs), message, c);
    ReversedMultiset(cs);
  }

  /**
   * When no send fails, the registry keeps the same connections, each as often
   * as before, in reversed order.
   */
  lemma NotifyReversesRegistry<C, M>(cs: seq<C>, broken: set<C>, message: M)
    requires forall x :: x in cs ==> x !in broken
    ensures var r := NotifyRound(cs, broken, message);
      && multiset(r.remaining) == multiset(cs)
      && |r.remaining| == |cs|
      && forall i :: 0 <= i < |cs| ==> r.remaining[i] == cs[|cs| - 1 - i]
  {
    LiveSuffixUnique(cs, broken, |cs|);
    ReversedMultiset(cs);
    forall i | 0 <= i < |cs|
      ensures Reversed(cs)[i] == cs[|cs| - 1 - i]
    {
      ReversedAt(cs, i);
    }
  }

  /**
   * When a send fails, the exception escapes: the registry holds only the
   * entries not yet popped, and the failing connection and those already
   * served (in reverse order) make up the rest of the old list.
   */
  lemma NotifyFailureDropsServed<C, M>(cs: seq<C>, broken: set<C>, message: M)
    requires exists x :: x in cs && x in broken
    ensures var r := NotifyRound(cs, broken, message);
      && r.outcome.Fail?
      && r.outcome.error in broken
      && cs == r.remaining + [r.outcome.error] + Reversed(Recipients(r.sent))
      && forall x :: x in Recipients(r.sent) ==> x !in broken
  {
    var t := LiveSuffix(cs, broken);
    assert t < |cs| by {
      var x :| x in cs && x in broken;
      var i :| 0 <= i < |cs| && cs[i] == x;
    }
    var tail := cs[|cs| - t..];
    var r := NotifyRound(cs, broken, message);
    assert r.sent == Deliveries(Reversed(tail), message);
    RecipientsOfDeliveries(Reversed(tail), message);
    ReversedInvolutive(tail);
    forall y | y in Recipients(r.sent)
      ensures y !in broken
    {
      var k :| 0 <= k < |tail| && Reversed(tail)[k] == y;
      ReversedAt(tail, k);
      assert y == cs[|cs| - 1 - k];
    }
    assert cs == cs[..|cs| - t - 1] + [cs[|cs| - t - 1]] + tail;
  }

  /** Two pushes in a row reach each subscriber in push order when no send fails. */
  lemma SequentialPushesInOrder<C, M>(cs: seq<C>, broken: set<C>, m1: M, m2: M, log: seq<Delivery<C, M>>, c: C)
    requires forall x :: x in cs ==> x !in broken
    ensures var r1 := NotifyRound(cs, broken, m1);
      var r2 := NotifyRound(r1.remaining, broken, m2);
      && r2.outcome == Pass
      && Inbox(log + r1.sent + r2.sent, c)
         == Inbox(log, c) + Repeat(m1, multiset(cs)[c]) + Repeat(m2, multiset(cs)[c])
      && r2.remaining == cs
  {
    var r1 := NotifyRound(cs, broken, m1);
    NotifyDeliversOnce(cs, broken, m1, log, c);
    NotifyReversesRegistry(cs, broken, m1);
    assert forall x :: x in r1.remaining ==> x in multiset(cs);
    NotifyDeliversOnce(r1.remaining, broken, m2, log + r1.sent, c);
    LiveSuffixUnique(r1.remaining, broken, |r1.remaining|);
    ReversedInvolutive(cs);
  }

  // ---------------------------------------------------------------------------
  // The registry
  // ---------------------------------------------------------------------------

  class Notifier<C(==), M> {
    /** The subscriber websockets, in the order of `self.connections`. */
    var connections: seq<C>
    /** Every send that completed, in order: what the network carried. */
    var log: seq<Delivery<C, M>>
    /** The notification generator has finished: a send raised inside it. */
    var exhausted: bool

    /** The generator starts primed (the `asend(None)` at startup) and live. */
    constructor ()
      ensures connections == [] && log == [] && !exhausted
    {
      connections := [];
      log := [];
      exhausted := false;
    }

    /** `connect`: the accepted websocket is appended; existing entries keep their positions. */
    method Connect(ws: C)
      modifies this
      ensures connections == old(connections) + [ws]
      ensures log == old(log) && exhausted == old(exhausted)
    {
      connections := connections + [ws];
    }

    /** `remove`: the first occurrence is deleted; an absent websocket raises `ValueError`. */
    method Remove(ws: C) returns (r: Outcome<RegistryError>)
      modifies this
      ensures r == (if ws in old(connections) then Pass else Fail(ValueError))
      ensures connections == (if ws in old(connections) then RemoveFirst(old(connections), ws) else old(connections))
      ensures log == old(log) && exhausted == old(exhausted)
    {
      if ws !in connections {
        return Fail(ValueError);
      }
      connections := RemoveFirst(connections, ws);
      r := Pass;
    }

    /**
     * `_notify`: pop every connection, send it `message`, rebuild the list from
     * the connections served. A send to a connection in `broken` raises, which
     * `Fail(ws)` reports; the loop is then abandoned mid-way.
     */
    method Notify(message: M, broken: set<C>) returns (r: Outcome<C>)
      modifies this
      ensures var round := NotifyRound(old(connections), broken, message);
        && connections == round.remaining
        && log == old(log) + round.sent
        && r == round.outcome
      ensures exhausted == old(exhausted)
    {
      ghost var cs := connections;
      var living: seq<C> := [];
      while |connections| > 0
        invariant |connections| <= |cs|
        invariant connections == cs[..|connections|]
        invariant living == Reversed(cs[|connections|..])
        invariant forall i :: |connections| <= i < |cs| ==> cs[i] !in broken
        invariant log == old(log) + Deliveries(living, message)
        invariant exhausted == old(exhausted)
        decreases |connections|
      {
        var ws := connections[|connections| - 1];
        connections := connections[..|connections| - 1];
        if ws in broken {
          LiveSuffixUnique(cs, broken, |cs| - |connections| - 1);
          return Fail(ws);
        }
        assert cs[|connections|..][1..] == cs[|connections| + 1..];
        assert Deliveries(living + [ws], message) == Deliveries(living, message) + [Delivery(ws, message)];
        log := log + [Delivery(ws, message)];
        living := living + [ws];
      }
      LiveSuffixUnique(cs, broken, |cs|);
      connections := living;
      r := Pass;
    }

    /**
     * `push`: `asend` hands the message unchanged to the generator, which runs
     * one `_notify` to completion. A send that raises escapes the generator and
     * finishes it; from then on every `push` raises `StopAsyncIteration`
     * without sending anything or touching the list.
     */
    method Push(msg: M, broken: set<C>) returns (r: Outcome<PushError<C>>)
      modifies this
      ensures old(exhausted) ==>
        && r == Fail(StopAsyncIteration)
        && connections == old(connections)
        && log == old(log)
        && exhausted
      ensures !old(exhausted) ==>
        var round := NotifyRound(old(connections), broken, msg);
        && connections == round.remaining
        && log == old(log) + round.sent
        && r == (if round.outcome.Pass? then Pass else Fail(SendFailed(round.outcome.error)))
        && exhausted == round.outcome.Fail?
    {
      if exhausted {
        return Fail(StopAsyncIteration);
      }
      var sent := Notify(msg, broken);
      if sent.Fail? {
        exhausted := true;
        r := Fail(SendFailed(sent.error));
      } else {
        r := Pass;
      }
    }
  }
}
