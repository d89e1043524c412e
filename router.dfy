/**
 * The message router of the client: how one decoded inbound frame is
 * classified, and what it does to the three market-data caches.
 */
module Router {
  import opened Wrappers
  import opened Ascii
  import opened Json
  import opened Protocol

  /** An inbound frame `{"e": ..., "n": <channel>, "o": <payload>}`; each key may be absent. */
  datatype Frame = Frame(e: Option<Json>, n: Option<Json>, o: Option<Json>)

  /** What the router does with a frame. */
  datatype Route =
    | ErrorFrame                                   // `e` is "error": logged and dropped
    | Malformed                                    // channel or payload missing or falsy: dropped
    | Unrouted                                     // a channel of no known kind: dropped
    | Store(kind: Kind, key: string, payload: Json) // written into the cache of `kind`
    | Raises                                       // the router raises (see `Routable`)

  /** `not data.get(name)`: the entry is absent or falsy. */
  predicate Missing(v: Option<Json>) {
    v.None? || !Truthy(v.value)
  }

  /**
   * The router's decision, branch for branch. A truthy channel that is not a
   * string, or a known channel whose payload lacks string currency codes,
   * makes the source raise instead of returning.
   */
  function Classify(f: Frame): Route {
    if f.e == Some(Str("error")) then ErrorFrame
    else if Missing(f.n) || Missing(f.o) then Malformed
    else if !f.n.value.Str? then Raises
    else match KindOf(f.n.value.s)
      case None => Unrouted
      case Some(k) =>
        match CurrencyCodes(f.o.value)
        case None => Raises
        case Some(codes) => Store(k, InstrumentKey(codes.0, codes.1), f.o.value)
  }

  /** The frames the router handles without raising. */
  predicate Routable(f: Frame) {
    !Classify(f).Raises?
  }

  /** The three caches `tickers`, `order_books` and `recent_trades`, keyed by instrument key. */
  datatype Caches = Caches(tickers: map<string, Json>, orderBooks: map<string, Json>, recentTrades: map<string, Json>)
  {
    function Of(k: Kind): map<string, Json> {
      match k
      case Ticker => tickers
      case OrderBook => orderBooks
      case RecentTrades => recentTrades
    }

    /** Overwrites one entry of one cache. */
    function Put(k: Kind, key: string, payload: Json): (r: Caches)
      ensures r.Of(k) == Of(k)[key := payload]
      ensures forall k' :: k' != k ==> r.Of(k') == Of(k')
    {
      match k
      case Ticker => this.(tickers := tickers[key := payload])
      case OrderBook => this.(orderBooks := orderBooks[key := payload])
      case RecentTrades => this.(recentTrades := recentTrades[key := payload])
    }
  }

  const EmptyCaches := Caches(map[], map[], map[])

  /** The caches after the router has handled one frame. */
  function Apply(c: Caches, f: Frame): Caches
    requires Routable(f)
  {
    match Classify(f)
    case Store(k, key, payload) => c.Put(k, key, payload)
    case _ => c
  }

  /** `get_latest_<kind>(primary, secondary)`: the cached payload, or None on a miss. */
  function Get(c: Caches, k: Kind, primary: string, secondary: string): Option<Json> {
    var key := InstrumentKey(primary, secondary);
    if key in c.Of(k) then Some(c.Of(k)[key]) else None
  }

  /** An error frame returns normally and touches no cache. */
  lemma ErrorFrameIsDropped(c: Caches, f: Frame)
    requires f.e == Some(Str("error"))
    ensures Routable(f) && Apply(c, f) == c
  {
  }

  /** A frame whose channel or payload is absent or falsy touches no cache. */
  lemma MalformedFrameIsDropped(c: Caches, f: Frame)
    requires f.e != Some(Str("error"))
    requires Missing(f.n) || Missing(f.o)
    ensures Routable(f) && Apply(c, f) == c
  {
  }

  /** A frame on a channel that starts with none of the three prefixes touches no cache. */
  lemma UnknownChannelIsDropped(c: Caches, f: Frame, channel: string)
    requires f.e != Some(Str("error"))
    requires f.n == Some(Str(channel))
    requires forall k :: !StartsWith(channel, Name(k))
    ensures Routable(f) && Apply(c, f) == c
  {
    assert KindOf(channel).None?;
  }

  /**
   * A frame on a channel starting with the prefix of `k` stores its payload in
   * the cache of `k` under the key taken from the payload's currency codes
   * (not from the channel name), and leaves the other two caches alone.
   */
  lemma KnownChannelStores(c: Caches, f: Frame, k: Kind, channel: string, payload: Json, p: string, s: string)
    requires f.e != Some(Str("error"))
    requires f.n == Some(Str(channel)) && channel != ""
    requires StartsWith(channel, Name(k))
    requires f.o == Some(payload) && CurrencyCodes(payload) == Some((p, s))
    ensures Routable(f)
    ensures Apply(c, f).Of(k) == c.Of(k)[Lower(p) + Lower(s) := payload]
    ensures forall k' :: k' != k ==> Apply(c, f).Of(k') == c.Of(k')
  {
    CodedPayloadIsTruthy(payload);
    assert KindOf(channel) == Some(k);
  }

  /**
   * Round trip: after a frame for the pair (p, s) is stored, reading that kind
   * with any case variant of the pair returns exactly that payload.
   */
  lemma StoredFrameIsReadBack(c: Caches, f: Frame, k: Kind, channel: string, payload: Json,
                              p: string, s: string, p': string, s': string)
    requires f.e != Some(Str("error"))
    requires f.n == Some(Str(channel)) && channel != ""
    requires StartsWith(channel, Name(k))
    requires f.o == Some(payload) && CurrencyCodes(payload) == Some((p, s))
    requires EqualIgnoringCase(p, p') && EqualIgnoringCase(s, s')
    ensures Routable(f) && Get(Apply(c, f), k, p', s') == Some(payload)
  {
    KnownChannelStores(c, f, k, channel, payload, p, s);
    InstrumentKeyIgnoresCase(p, s, p', s');
  }

  /** Writing a key twice keeps only the second value. */
  lemma PutTwice(c: Caches, k: Kind, key: string, first: Json, second: Json)
    ensures c.Put(k, key, first).Put(k, key, second) == c.Put(k, key, second)
  {
    match k
    case Ticker => assert c.tickers[key := first][key := second] == c.tickers[key := second];
    case OrderBook => assert c.orderBooks[key := first][key := second] == c.orderBooks[key := second];
    case RecentTrades => assert c.recentTrades[key := first][key := second] == c.recentTrades[key := second];
  }

  /** A later frame for the same kind and key leaves no trace of the earlier one. */
  lemma LaterFrameOverwrites(c: Caches, f1: Frame, f2: Frame)
    requires Routable(f1) && Routable(f2)
    requires Classify(f1).Store? && Classify(f2).Store?
    requires Classify(f1).kind == Classify(f2).kind && Classify(f1).key == Classify(f2).key
    ensures Apply(Apply(c, f1), f2) == Apply(c, f2)
  {
    var r1, r2 := Classify(f1), Classify(f2);
    PutTwice(c, r1.kind, r1.key, r1.payload, r2.payload);
  }

  // ---- a stream of frames, as the read loop feeds them one by one ----

  predicate AllRoutable(fs: seq<Frame>) {
    forall i :: 0 <= i < |fs| ==> Routable(fs[i])
  }

  function ApplyAll(c: Caches, fs: seq<Frame>): Caches
    requires AllRoutable(fs)
  {
    if fs == [] then c else Apply(ApplyAll(c, fs[..|fs| - 1]), fs[|fs| - 1])
  }

  lemma ApplyAllSnoc(c: Caches, fs: seq<Frame>, f: Frame)
    requires AllRoutable(fs) && Routable(f)
    ensures AllRoutable(fs + [f]) && ApplyAll(c, fs + [f]) == Apply(ApplyAll(c, fs), f)
  {
    assert (fs + [f])[..|fs|] == fs;
  }

  /** The payload of the last frame in `fs` that is stored under (k, key), if any. */
  function LastStored(fs: seq<Frame>, k: Kind, key: string): Option<Json> {
    if fs == [] then None
    else
      var r := Classify(fs[|fs| - 1]);
      if r.Store? && r.kind == k && r.key == key then Some(r.payload)
      else LastStored(fs[..|fs| - 1], k, key)
  }

  /** A read after one frame sees that frame's payload if it was stored under the key read. */
  lemma ReadAfterOneFrame(c: Caches, f: Frame, k: Kind, p: string, s: string)
    requires Routable(f)
    ensures var r := Classify(f);
      Get(Apply(c, f), k, p, s) ==
        if r.Store? && r.kind == k && r.key == InstrumentKey(p, s) then Some(r.payload) else Get(c, k, p, s)
  {
  }

  /**
   * Reading after a stream of frames returns the payload of the last frame
   * stored under that kind and key; when there is none the read sees the
   * caches as they were before the stream. From empty caches, a key never
   * written reads as None.
   */
  lemma {:induction false} ReadSeesLastWrite(c: Caches, fs: seq<Frame>, k: Kind, p: string, s: string)
    requires AllRoutable(fs)
    ensures Get(ApplyAll(c, fs), k, p, s) ==
      match LastStored(fs, k, InstrumentKey(p, s))
      case Some(v) => Some(v)
      case None => Get(c, k, p, s)
  {
    if fs != [] {
      var init, last := fs[..|fs| - 1], fs[|fs| - 1];
      assert AllRoutable(init) by {
        forall i | 0 <= i < |init| ensures Routable(init[i]) { assert init[i] == fs[i]; }
      }
      ReadSeesLastWrite(c, init, k, p, s);
      ReadAfterOneFrame(ApplyAll(c, init), last, k, p, s);
    }
  }

  lemma NeverWrittenReadsNone(fs: seq<Frame>, k: Kind, p: string, s: string)
    requires AllRoutable(fs)
    requires LastStored(fs, k, InstrumentKey(p, s)).None?
    ensures Get(ApplyAll(EmptyCaches, fs), k, p, s).None?
  {
    ReadSeesLastWrite(EmptyCaches, fs, k, p, s);
  }
}

/** The frames of the client's message-handling test, replayed on the model. */
module RouterScenario {
  import opened Wrappers
  import opened Ascii
  import opened Json
  import opened Protocol
  import opened Router

  function Pair(p: string, s: string, name: string, value: Json): Json {
    Obj(map["PrimaryCurrencyCode" := Str(p), "SecondaryCurrencyCode" := Str(s), name := value])
  }

  function Level(price: real, volume: real): Json {
    Obj(map["Price" := Num(price), "Volume" := Num(volume)])
  }

  const TickerPayload := Pair("Xbt", "Usd", "LastPrice", Num(50000.0))
  const BookPayload := Pair("Eth", "Aud", "BuyOrders", Arr([Level(3000.0, 10.0)]))
  const TradesPayload := Pair("Btc", "Usd", "Trades", Arr([Level(60000.0, 0.5)]))

  const TickerFrame := Frame(None, Some(Str("ticker-xbt-usd")), Some(TickerPayload))
  const BookFrame := Frame(None, Some(Str("orderbook-eth-aud")), Some(BookPayload))
  const TradesFrame := Frame(None, Some(Str("recenttrades-btc-usd")), Some(TradesPayload))
  const ServerErrorFrame := Frame(Some(Str("error")), None, Some(Str("Invalid currency pair")))
  const TestFrames := [TickerFrame, BookFrame, TradesFrame, ServerErrorFrame]

  lemma PairFrameIsStored(channel: string, k: Kind, p: string, s: string, name: string, value: Json)
    requires StartsWith(channel, Name(k))
    requires name != "PrimaryCurrencyCode" && name != "SecondaryCurrencyCode"
    ensures Classify(Frame(None, Some(Str(channel)), Some(Pair(p, s, name, value))))
         == Store(k, InstrumentKey(p, s), Pair(p, s, name, value))
  {
    var payload := Pair(p, s, name, value);
    assert CurrencyCodes(payload) == Some((p, s));
    CodedPayloadIsTruthy(payload);
    assert KindOf(channel) == Some(k);
  }

  /**
   * After the four test frames the ticker, order book and recent trades are
   * cached under "xbtusd", "ethaud" and "btcusd", each with its whole payload,
   * and the error frame changed nothing.
   */
  const AfterTicker := EmptyCaches.Put(Ticker, "xbtusd", TickerPayload)
  const AfterBook := AfterTicker.Put(OrderBook, "ethaud", BookPayload)
  const AfterTrades := AfterBook.Put(RecentTrades, "btcusd", TradesPayload)

  lemma TestFramesAreCached()
    ensures AllRoutable(TestFrames)
    ensures ApplyAll(EmptyCaches, TestFrames) == AfterTrades
  {
    TestFramesStep();
    var s0: seq<Frame> := [];
    ApplyAllSnoc(EmptyCaches, s0, TickerFrame);
    assert s0 + [TickerFrame] == [TickerFrame];
    ApplyAllSnoc(EmptyCaches, [TickerFrame], BookFrame);
    assert [TickerFrame] + [BookFrame] == [TickerFrame, BookFrame];
    ApplyAllSnoc(EmptyCaches, [TickerFrame, BookFrame], TradesFrame);
    assert [TickerFrame, BookFrame] + [TradesFrame] == [TickerFrame, BookFrame, TradesFrame];
    ApplyAllSnoc(EmptyCaches, [TickerFrame, BookFrame, TradesFrame], ServerErrorFrame);
    assert [TickerFrame, BookFrame, TradesFrame] + [ServerErrorFrame] == TestFrames;
  }

  lemma TestFramesStep()
    ensures Routable(TickerFrame) && Apply(EmptyCaches, TickerFrame) == AfterTicker
    ensures Routable(BookFrame) && Apply(AfterTicker, BookFrame) == AfterBook
    ensures Routable(TradesFrame) && Apply(AfterBook, TradesFrame) == AfterTrades
    ensures Routable(ServerErrorFrame) && Apply(AfterTrades, ServerErrorFrame) == AfterTrades
  {
    TestFramesClassify();
  }

  lemma TestFramesClassify()
    ensures Classify(TickerFrame) == Store(Ticker, "xbtusd", TickerPayload)
    ensures Classify(BookFrame) == Store(OrderBook, "ethaud", BookPayload)
    ensures Classify(TradesFrame) == Store(RecentTrades, "btcusd", TradesPayload)
    ensures Classify(ServerErrorFrame) == ErrorFrame
  {
    TestKeys();
    assert StartsWith("ticker-xbt-usd", "ticker");
    assert StartsWith("orderbook-eth-aud", "orderbook");
    assert StartsWith("recenttrades-btc-usd", "recenttrades");
    PairFrameIsStored("ticker-xbt-usd", Ticker, "Xbt", "Usd", "LastPrice", Num(50000.0));
    PairFrameIsStored("orderbook-eth-aud", OrderBook, "Eth", "Aud", "BuyOrders", Arr([Level(3000.0, 10.0)]));
    PairFrameIsStored("recenttrades-btc-usd", RecentTrades, "Btc", "Usd", "Trades", Arr([Level(60000.0, 0.5)]));
  }

  lemma TestKeys()
    ensures InstrumentKey("Xbt", "Usd") == "xbtusd"
    ensures InstrumentKey("Eth", "Aud") == "ethaud"
    ensures InstrumentKey("Btc", "Usd") == "btcusd"
  {
    LowerOfCodes();
  }

  lemma LowerOfCodes()
    ensures Lower("Xbt") == "xbt" && Lower("Usd") == "usd"
    ensures Lower("Eth") == "eth" && Lower("Aud") == "aud"
    ensures Lower("Btc") == "btc"
  {
    assert Lower("Xbt") == "xbt";
    assert Lower("Usd") == "usd";
    assert Lower("Eth") == "eth";
    assert Lower("Aud") == "aud";
    assert Lower("Btc") == "btc";
  }
}
