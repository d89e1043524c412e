/**
 * Channel names, cache keys and outbound messages of the Independent
 * Reserve streaming client.
 */
module Protocol {
  import opened Wrappers
  import opened Ascii

  /** The three public channel kinds the client subscribes to and caches. */
  datatype Kind = Ticker | OrderBook | RecentTrades

  /** The channel-name prefix of each kind. */
  function Name(k: Kind): string {
    match k
    case Ticker => "ticker"
    case OrderBook => "orderbook"
    case RecentTrades => "recenttrades"
  }

  /** The cache key of a currency pair: both codes lower-cased, concatenated. */
  function InstrumentKey(primary: string, secondary: string): string {
    Lower(primary) + Lower(secondary)
  }

  /** The channel `subscribe_<kind>` builds: `<kind>-<primary><secondary>`, lower-cased. */
  function Channel(k: Kind, primary: string, secondary: string): string {
    Name(k) + "-" + InstrumentKey(primary, secondary)
  }

  /**
   * The kind the router picks for a channel name by testing the prefixes
   * "ticker", "orderbook" and "recenttrades" in that order.
   */
  function KindOf(channel: string): (r: Option<Kind>)
    ensures forall k :: r == Some(k) <==> StartsWith(channel, Name(k))
  {
    PrefixesExclusive(channel);
    if StartsWith(channel, "ticker") then Some(Ticker)
    else if StartsWith(channel, "orderbook") then Some(OrderBook)
    else if StartsWith(channel, "recenttrades") then Some(RecentTrades)
    else None
  }

  /** No channel name starts with two of the kind prefixes, so their order does not matter. */
  lemma PrefixesExclusive(channel: string)
    ensures forall k, k' :: StartsWith(channel, Name(k)) && StartsWith(channel, Name(k')) ==> k == k'
  {
    forall k, k' | StartsWith(channel, Name(k)) && StartsWith(channel, Name(k'))
      ensures k == k'
    {
      assert channel[0] == Name(k)[0] == Name(k')[0];
    }
  }

  /** The outbound message `{"m": <m>, "n": <n>}`. */
  datatype Outbound = Outbound(m: string, n: string)

  function SubscribeMessage(channel: string): Outbound {
    Outbound("subscribe", channel)
  }

  /** One subscribe message per channel, in the given order. */
  function SubscribeAll(channels: seq<string>): (r: seq<Outbound>)
    ensures |r| == |channels|
    ensures forall i :: 0 <= i < |r| ==> r[i] == SubscribeMessage(channels[i])
  {
    if channels == [] then [] else [SubscribeMessage(channels[0])] + SubscribeAll(channels[1..])
  }

  /** Case variants of a currency pair give the same cache key. */
  lemma InstrumentKeyIgnoresCase(p: string, s: string, p': string, s': string)
    requires EqualIgnoringCase(p, p') && EqualIgnoringCase(s, s')
    ensures InstrumentKey(p, s) == InstrumentKey(p', s')
  {
    EqualIgnoringCaseIffLowerEqual(p, p');
    EqualIgnoringCaseIffLowerEqual(s, s');
  }

  /** Case variants of a currency pair give the same channel, for every kind. */
  lemma ChannelIgnoresCase(k: Kind, p: string, s: string, p': string, s': string)
    requires EqualIgnoringCase(p, p') && EqualIgnoringCase(s, s')
    ensures Channel(k, p, s) == Channel(k, p', s')
  {
    InstrumentKeyIgnoresCase(p, s, p', s');
  }

  /** A channel built for a kind is routed back to that kind. */
  lemma ChannelRoutesToItsKind(k: Kind, p: string, s: string)
    ensures KindOf(Channel(k, p, s)) == Some(k)
  {
    var c := Channel(k, p, s);
    assert c[..|Name(k)|] == Name(k);
  }

  /** Channels of different kinds never coincide. */
  lemma ChannelsOfDistinctKindsDiffer(k: Kind, k': Kind, p: string, s: string, p': string, s': string)
    requires k != k'
    ensures Channel(k, p, s) != Channel(k', p', s')
  {
    ChannelRoutesToItsKind(k, p, s);
    ChannelRoutesToItsKind(k', p', s');
  }

  lemma SubscribeAllAppend(a: seq<string>, b: seq<string>)
    ensures SubscribeAll(a + b) == SubscribeAll(a) + SubscribeAll(b)
  {
    assert forall i :: 0 <= i < |a + b| ==> SubscribeAll(a + b)[i] == (SubscribeAll(a) + SubscribeAll(b))[i];
  }

  /** Replaying one more channel of a listing appends one subscribe for it. */
  lemma SubscribeAllExtend(order: seq<string>, i: nat)
    requires i < |order|
    ensures SubscribeAll(order[..i + 1]) == SubscribeAll(order[..i]) + [SubscribeMessage(order[i])]
  {
    assert order[..i + 1] == order[..i] + [order[i]];
    SubscribeAllAppend(order[..i], [order[i]]);
  }
}
