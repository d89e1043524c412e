/**
 * `IndependentReserveWebSocketClient`: the client object whose fields the
 * router, the subscribe calls and the replay after a reconnect update in place.
 */
module Client {
  import opened Wrappers
  import opened Ascii
  import opened Json
  import opened Protocol
  import opened Router
  import opened Subscriptions

  class IndependentReserveClient {
    var tickers: map<string, Json>
    var orderBooks: map<string, Json>
    var recentTrades: map<string, Json>
    var activeSubscriptions: set<string>
    /** `self.websocket is not None` */
    var hasSocket: bool
    /** The messages written to the socket so far. */
    var sent: seq<Outbound>
    var running: bool

    function CacheState(): Caches
      reads this
    {
      Caches(tickers, orderBooks, recentTrades)
    }

    function SessionState(): Session
      reads this
    {
      Session(activeSubscriptions, hasSocket, sent)
    }

    /** The bookkeeping invariant every operation keeps. */
    predicate Valid()
      reads this
    {
      Consistent(SessionState())
    }

    constructor ()
      ensures Valid()
      ensures CacheState() == EmptyCaches
      ensures activeSubscriptions == {} && !hasSocket && sent == [] && !running
    {
      tickers, orderBooks, recentTrades := map[], map[], map[];
      activeSubscriptions := {};
      hasSocket := false;
      sent := [];
      running := false;
    }

    /** The connection loop's `self.websocket = websocket` once a connection is open. */
    method Attach()
      requires Valid()
      modifies this`hasSocket
      ensures Valid() && hasSocket
    {
      hasSocket := true;
    }

    /**
     * `_handle_message`: routes one decoded frame into at most one cache entry.
     * Subscriptions, the socket and the sent log are untouched.
     */
    method HandleMessage(frame: Frame)
      requires Routable(frame)
      modifies this`tickers, this`orderBooks, this`recentTrades
      ensures CacheState() == Apply(old(CacheState()), frame)
      ensures SessionState() == old(SessionState()) && running == old(running)
    {
      if frame.e == Some(Str("error")) {
        return;
      }
      if Missing(frame.n) || Missing(frame.o) {
        return;
      }
      var channel := frame.n.value.s;
      var payload := frame.o.value;
      if StartsWith(channel, "ticker") {
        var codes := CurrencyCodes(payload).value;
        tickers := tickers[Lower(codes.0) + Lower(codes.1) := payload];
      } else if StartsWith(channel, "orderbook") {
        var codes := CurrencyCodes(payload).value;
        orderBooks := orderBooks[Lower(codes.0) + Lower(codes.1) := payload];
      } else if StartsWith(channel, "recenttrades") {
        var codes := CurrencyCodes(payload).value;
        recentTrades := recentTrades[Lower(codes.0) + Lower(codes.1) := payload];
      }
    }

    /**
     * `_subscribe(channel)`: returns whether the one send it attempts raised;
     * a repeated or socketless call changes nothing.
     */
    method Subscribe(channel: string, sendOk: bool) returns (raised: bool)
      requires Valid()
      modifies this`activeSubscriptions, this`sent
      ensures Valid()
      ensures raised == SubscribeRaises(old(SessionState()), channel, sendOk)
      ensures SessionState() == AfterSubscribe(old(SessionState()), channel, sendOk)
    {
      SubscribePreservesConsistent(SessionState(), channel, sendOk);
      raised := false;
      if channel in activeSubscriptions {
        return;
      }
      if hasSocket {
        if !sendOk {
          raised := true;
          return;
        }
        sent := sent + [SubscribeMessage(channel)];
        activeSubscriptions := activeSubscriptions + {channel};
      }
    }

    method SubscribeTicker(primary: string, secondary: string, sendOk: bool) returns (raised: bool)
      requires Valid()
      modifies this`activeSubscriptions, this`sent
      ensures Valid()
      ensures raised == SubscribeRaises(old(SessionState()), Channel(Ticker, primary, secondary), sendOk)
      ensures SessionState() == AfterSubscribe(old(SessionState()), Channel(Ticker, primary, secondary), sendOk)
    {
      var channel := "ticker-" + Lower(primary) + Lower(secondary);
      assert channel == Channel(Ticker, primary, secondary);
      raised := Subscribe(channel, sendOk);
    }

    method SubscribeOrderBook(primary: string, secondary: string, sendOk: bool) returns (raised: bool)
      requires Valid()
      modifies this`activeSubscriptions, this`sent
      ensures Valid()
      ensures raised == SubscribeRaises(old(SessionState()), Channel(OrderBook, primary, secondary), sendOk)
      ensures SessionState() == AfterSubscribe(old(SessionState()), Channel(OrderBook, primary, secondary), sendOk)
    {
      var channel := "orderbook-" + Lower(primary) + Lower(secondary);
      assert channel == Channel(OrderBook, primary, secondary);
      raised := Subscribe(channel, sendOk);
    }

    method SubscribeRecentTrades(primary: string, secondary: string, sendOk: bool) returns (raised: bool)
      requires Valid()
      modifies this`activeSubscriptions, this`sent
      ensures Valid()
      ensures raised == SubscribeRaises(old(SessionState()), Channel(RecentTrades, primary, secondary), sendOk)
      ensures SessionState() == AfterSubscribe(old(SessionState()), Channel(RecentTrades, primary, secondary), sendOk)
    {
      var channel := "recenttrades-" + Lower(primary) + Lower(secondary);
      assert channel == Channel(RecentTrades, primary, secondary);
      raised := Subscribe(channel, sendOk);
    }

    /**
     * `_resubscribe_all`: replays a snapshot of the active set, in snapshot
     * order, until the send after the first `sendsBeforeClose` ones fails with
     * a closed connection. Returns the snapshot (empty when there was nothing
     * to replay); the active set is never modified.
     */
    method ResubscribeAll(sendsBeforeClose: nat) returns (snapshot: seq<string>)
      requires Valid()
      modifies this`sent
      ensures Valid()
      ensures hasSocket && activeSubscriptions != {} ==> Enumerates(snapshot, activeSubscriptions)
      ensures SessionState() == AfterResubscribe(old(SessionState()), snapshot, sendsBeforeClose)
    {
      snapshot := [];
      if !hasSocket || activeSubscriptions == {} {
        return;
      }
      snapshot := ListOf(activeSubscriptions);
      ghost var before := SessionState();
      var i := 0;
      while i < |snapshot|
        invariant i <= |snapshot| && i <= sendsBeforeClose
        invariant sent == before.sent + SubscribeAll(snapshot[..i])
      {
        if i == sendsBeforeClose {
          break;  // this send raises ConnectionClosed, which ends the replay
        }
        SubscribeAllExtend(snapshot, i);
        sent := sent + [SubscribeMessage(snapshot[i])];
        i := i + 1;
      }
      ReplayedPrefix(before, snapshot, sendsBeforeClose, i);
      assert SessionState() == before.(sent := sent);
    }

    /** `list(channels)`: the elements of a set in some order, each once. */
    static method ListOf(channels: set<string>) returns (order: seq<string>)
      ensures Enumerates(order, channels)
    {
      order := [];
      var rest := channels;
      while rest != {}
        invariant rest <= channels
        invariant Distinct(order)
        invariant forall c :: c in order ==> c in channels && c !in rest
        invariant forall c :: c in channels ==> c in order || c in rest
        decreases rest
      {
        var c :| c in rest;
        order := order + [c];
        rest := rest - {c};
      }
    }

    function GetLatestTicker(primary: string, secondary: string): (r: Option<Json>)
      reads this
      ensures r == Get(CacheState(), Ticker, primary, secondary)
    {
      var key := Lower(primary) + Lower(secondary);
      if key in tickers then Some(tickers[key]) else None
    }

    function GetLatestOrderBook(primary: string, secondary: string): (r: Option<Json>)
      reads this
      ensures r == Get(CacheState(), OrderBook, primary, secondary)
    {
      var key := Lower(primary) + Lower(secondary);
      if key in orderBooks then Some(orderBooks[key]) else None
    }

    function GetLatestRecentTrades(primary: string, secondary: string): (r: Option<Json>)
      reads this
      ensures r == Get(CacheState(), RecentTrades, primary, secondary)
    {
      var key := Lower(primary) + Lower(secondary);
      if key in recentTrades then Some(recentTrades[key]) else None
    }

    /** `stop`: clears the running flag and nothing else. */
    method Stop()
      modifies this`running
      ensures !running
    {
      running := false;
    }
  }
}
