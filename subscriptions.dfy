/**
 * Subscription bookkeeping: the set of active channels, whether the client
 * holds a socket, and the log of messages written to that socket.
 */
module Subscriptions {
  import opened Ascii
  import opened Protocol

  /** `active_subscriptions`, `websocket is not None`, and what has been sent so far. */
  datatype Session = Session(active: set<string>, hasSocket: bool, sent: seq<Outbound>)

  function Min(a: nat, b: nat): nat { if a <= b then a else b }

  /** `_subscribe(channel)` raises when the one send it attempts fails. */
  predicate SubscribeRaises(s: Session, channel: string, sendOk: bool) {
    channel !in s.active && s.hasSocket && !sendOk
  }

  /**
   * The session after `_subscribe(channel)`: nothing when the channel is
   * already active or there is no socket; otherwise one subscribe message is
   * sent and, if the send succeeds, the channel becomes active. A failed send
   * propagates before the channel is added.
   */
  function AfterSubscribe(s: Session, channel: string, sendOk: bool): (r: Session)
    ensures r.hasSocket == s.hasSocket
    ensures r.active <= s.active + {channel}
  {
    if channel in s.active || !s.hasSocket || !sendOk then s
    else s.(active := s.active + {channel}, sent := s.sent + [SubscribeMessage(channel)])
  }

  predicate Distinct(order: seq<string>) {
    forall i, j :: 0 <= i < j < |order| ==> order[i] != order[j]
  }

  /** `order` lists every element of `channels` exactly once (what `list(set)` yields). */
  predicate Enumerates(order: seq<string>, channels: set<string>) {
    && Distinct(order)
    && (forall c :: c in order ==> c in channels)
    && (forall c :: c in channels ==> c in order)
  }

  /**
   * The session after `_resubscribe_all`, replaying `order` (the snapshot of
   * the active set) when the first `sendsBeforeClose` sends succeed and the
   * next one fails with a closed connection, which ends the replay.
   */
  function AfterResubscribe(s: Session, order: seq<string>, sendsBeforeClose: nat): (r: Session)
    ensures r.active == s.active && r.hasSocket == s.hasSocket
    ensures |s.sent| <= |r.sent| && r.sent[..|s.sent|] == s.sent
  {
    if !s.hasSocket || s.active == {} then s
    else s.(sent := s.sent + SubscribeAll(order[..Min(sendsBeforeClose, |order|)]))
  }

  /**
   * The bookkeeping invariant: every message sent is a subscribe for an active
   * channel, and every active channel has had a subscribe sent. Nothing in the
   * client ever removes a channel, so the two sets coincide.
   */
  predicate Consistent(s: Session) {
    && (forall i :: 0 <= i < |s.sent| ==> s.sent[i].m == "subscribe" && s.sent[i].n in s.active)
    && (forall c :: c in s.active ==> SubscribeMessage(c) in s.sent)
  }

  lemma FreshSessionIsConsistent(hasSocket: bool)
    ensures Consistent(Session({}, hasSocket, []))
  {
  }

  /**
   * `_subscribe` sends at most once: nothing when the channel is active or
   * there is no socket, otherwise exactly the one subscribe for it.
   */
  lemma SubscribeSendsAtMostOnce(s: Session, channel: string, sendOk: bool)
    ensures var r := AfterSubscribe(s, channel, sendOk);
      r.sent == s.sent || r.sent == s.sent + [SubscribeMessage(channel)]
    ensures channel in s.active || !s.hasSocket ==> AfterSubscribe(s, channel, sendOk) == s
    ensures channel !in s.active && s.hasSocket && sendOk ==>
      AfterSubscribe(s, channel, sendOk).active == s.active + {channel}
      && AfterSubscribe(s, channel, sendOk).sent == s.sent + [SubscribeMessage(channel)]
  {
  }

  /** Once a subscribe has succeeded, a repeated subscribe does nothing. */
  lemma SubscribeIsIdempotent(s: Session, channel: string, sendOk: bool)
    ensures AfterSubscribe(AfterSubscribe(s, channel, true), channel, sendOk) == AfterSubscribe(s, channel, true)
  {
  }

  /**
   * Subscribing to a pair and then to any case variant of it sends one
   * message in all: the two calls name the same channel.
   */
  lemma CaseVariantSubscribeSendsOnce(s: Session, k: Kind, p: string, q: string, p': string, q': string, sendOk: bool)
    requires EqualIgnoringCase(p, p') && EqualIgnoringCase(q, q')
    ensures AfterSubscribe(AfterSubscribe(s, Channel(k, p, q), true), Channel(k, p', q'), sendOk)
         == AfterSubscribe(s, Channel(k, p, q), true)
  {
    ChannelIgnoresCase(k, p, q, p', q');
    SubscribeIsIdempotent(s, Channel(k, p, q), sendOk);
  }

  lemma SubscribePreservesConsistent(s: Session, channel: string, sendOk: bool)
    requires Consistent(s)
    ensures Consistent(AfterSubscribe(s, channel, sendOk))
  {
    var r := AfterSubscribe(s, channel, sendOk);
    if r != s {
      forall m | m in r.sent ensures m.m == "subscribe" && m.n in r.active {
        if m in s.sent { } else { assert m == SubscribeMessage(channel); }
      }
      forall c | c in r.active ensures SubscribeMessage(c) in r.sent {
        if c in s.active { assert SubscribeMessage(c) in s.sent; } else { assert r.sent[|s.sent|] == SubscribeMessage(c); }
      }
    }
  }

  /** Replaying does nothing without a socket or without active channels. */
  lemma ResubscribeWithoutWorkIsNoOp(s: Session, order: seq<string>, sendsBeforeClose: nat)
    requires !s.hasSocket || s.active == {}
    ensures AfterResubscribe(s, order, sendsBeforeClose) == s
  {
  }

  /**
   * Replay order and early stop: every new message is a subscribe for the
   * snapshot channel at the same position, and none are sent after the first
   * failed send.
   */
  lemma ResubscribeFollowsSnapshot(s: Session, order: seq<string>, sendsBeforeClose: nat)
    requires s.hasSocket && s.active != {}
    ensures var added := AfterResubscribe(s, order, sendsBeforeClose).sent[|s.sent|..];
      && |added| == Min(sendsBeforeClose, |order|)
      && forall i :: 0 <= i < |added| ==> added[i] == SubscribeMessage(order[i])
  {
    var n := Min(sendsBeforeClose, |order|);
    assert AfterResubscribe(s, order, sendsBeforeClose).sent[|s.sent|..] == SubscribeAll(order[..n]);
  }

  /** The replay after `n` successful sends, where `n` is where the loop stopped. */
  lemma ReplayedPrefix(s: Session, order: seq<string>, sendsBeforeClose: nat, n: nat)
    requires Consistent(s) && Enumerates(order, s.active)
    requires s.hasSocket && s.active != {}
    requires n <= |order| && n <= sendsBeforeClose && (n == |order| || n == sendsBeforeClose)
    ensures AfterResubscribe(s, order, sendsBeforeClose) == s.(sent := s.sent + SubscribeAll(order[..n]))
    ensures Consistent(s.(sent := s.sent + SubscribeAll(order[..n])))
  {
    ResubscribePreservesConsistent(s, order, sendsBeforeClose);
  }

  /** A duplicate-free listing of a set is as long as the set is large. */
  lemma {:induction false} EnumerationLength(order: seq<string>, channels: set<string>)
    requires Enumerates(order, channels)
    ensures |order| == |channels|
  {
    if order != [] {
      var last := order[|order| - 1];
      var init := order[..|order| - 1];
      assert last !in init by {
        forall j | 0 <= j < |init| ensures init[j] != last { assert init[j] == order[j]; }
      }
      forall c ensures c in init <==> c in channels - {last} {
        if c in channels - {last} {
          assert c in order;
          var j :| 0 <= j < |order| && order[j] == c;
          assert j < |order| - 1;
          assert init[j] == c;
        }
      }
      EnumerationLength(init, channels - {last});
    }
  }

  /** Each channel of a duplicate-free listing gets exactly one subscribe. */
  lemma {:induction false} DistinctChannelsSubscribedOnce(order: seq<string>, c: string)
    requires Distinct(order)
    ensures multiset(SubscribeAll(order))[SubscribeMessage(c)] == if c in order then 1 else 0
  {
    if order != [] {
      var tail := order[1..];
      assert Distinct(tail) by {
        forall i, j | 0 <= i < j < |tail| ensures tail[i] != tail[j] { assert tail[i] == order[i + 1] && tail[j] == order[j + 1]; }
      }
      assert order[0] !in tail by {
        forall i | 0 <= i < |tail| ensures tail[i] != order[0] { assert tail[i] == order[i + 1]; }
      }
      DistinctChannelsSubscribedOnce(tail, c);
      assert order == [order[0]] + tail;
      SubscribeAllAppend([order[0]], tail);
      assert SubscribeAll(order) == [SubscribeMessage(order[0])] + SubscribeAll(tail);
      assert multiset(SubscribeAll(order)) == multiset([SubscribeMessage(order[0])]) + multiset(SubscribeAll(tail));
    }
  }

  /**
   * A replay no send of which fails subscribes every active channel exactly
   * once and nothing else.
   */
  lemma CompleteReplaySubscribesEachChannelOnce(s: Session, order: seq<string>, sendsBeforeClose: nat, c: string)
    requires s.hasSocket && Enumerates(order, s.active)
    requires sendsBeforeClose >= |s.active|
    ensures var added := AfterResubscribe(s, order, sendsBeforeClose).sent[|s.sent|..];
      && |added| == |s.active|
      && multiset(added)[SubscribeMessage(c)] == if c in s.active then 1 else 0
  {
    EnumerationLength(order, s.active);
    if s.active != {} {
      assert order[..Min(sendsBeforeClose, |order|)] == order;
      assert AfterResubscribe(s, order, sendsBeforeClose).sent[|s.sent|..] == SubscribeAll(order);
      DistinctChannelsSubscribedOnce(order, c);
    }
  }

  lemma ResubscribePreservesConsistent(s: Session, order: seq<string>, sendsBeforeClose: nat)
    requires Consistent(s) && Enumerates(order, s.active)
    ensures Consistent(AfterResubscribe(s, order, sendsBeforeClose))
  {
    var r := AfterResubscribe(s, order, sendsBeforeClose);
    if r != s {
      var added := SubscribeAll(order[..Min(sendsBeforeClose, |order|)]);
      assert r.sent == s.sent + added;
      forall m | m in r.sent ensures m.m == "subscribe" && m.n in r.active {
        if m !in s.sent { assert m in added; }
      }
      forall c | c in r.active ensures SubscribeMessage(c) in r.sent {
        assert SubscribeMessage(c) in s.sent;
      }
    }
  }
}
