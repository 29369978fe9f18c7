/** The whole exchange: two banks, one engine, the streams between them, and every interleaving of their steps. */
module Exchange {
  import opened Fixed
  import opened Matching
  import opened Ledger
  import opened Streams
  import Accounting
  import B = BankTables
  import Recovery
  import Tables

  /** One coin: its bank and what stopped it, if anything, the ticket stream to the engine, the change stream back, and
      the bank's message channel. */
  datatype Coin = Coin(bank: Bank, status: Status, down: Down, up: Up, queue: seq<BalanceChange>)

  datatype World = World(pair: seq<string>, base: Coin, quote: Coin,
                         engine: State, log: seq<Line>, channel: seq<Ticket>, refused: bool)

  datatype Act =
    | Request(msgSeq: int, req: OrderReq)   // the bank handles an order request of its stream
    | Connect(lastID: int)                  // the engine opens a ticket stream
    | Send                                  // the bank's server reads and pushes its next ticket
    | Receive                               // the engine's client puts a ticket in the channel
    | Greet                                 // the engine opens a change stream and the bank answers
    | Push                                  // the engine's client reads and pushes its next log line
    | Deliver                               // the bank's server puts a change in the message channel
    | Apply                                 // the bank handles the next change of its channel
    | Break                                 // the change stream breaks
    | Stop                                  // the bank dies: a write failed, or the process was killed
    | Reload(rows: set<int>, wasted: nat)   // a new bank loads the tables: the balance rows there are, and a ticket key
                                            // that counts the ones wasted; the streams are opened anew

  datatype Event =
    | On(side: int, act: Act)
    | TakeTicket                            // the engine takes a ticket from the channel, between matching passes
    | Cross                                 // the engine writes its next match
    | Crash                                 // the engine dies, at any line, and restarts from its tables

  function At(w: World, side: int): Coin {
    if side == ASK then w.base else w.quote
  }

  function Put(w: World, side: int, c: Coin): World {
    if side == ASK then w.(base := c) else w.(quote := c)
  }

  function CoinName(pair: seq<string>, side: int): string {
    if |pair| != 2 then [] else if side == ASK then pair[0] else pair[1]
  }

  /** What the bank's server pushes: every ticket of its log, whatever its symbol. */
  function Issued(b: Bank): seq<TicketLog> {
    AllTickets(b.log)
  }

  function Latest(s: State, side: int): int {
    if side == ASK then s.askTicket else s.bidTicket
  }

  function Reason(b: Bank): int {
    if OmeLogs in b.omeReasonIDs then b.omeReasonIDs[OmeLogs] else 0
  }

  /** The bank that takes over: balances as the columns hold them, of the owners who have a row, the next ticket number
      and sequence, the log, and no reason ID. */
  function Reloaded(b: Bank, pair: seq<string>, rows: set<int>, wasted: nat): Bank {
    Bank(map o | o in rows :: B.HeldBalance(Get(b.assets, o)), map[pair := |TicketsOf(b.log, pair)| + wasted], map[],
         LastSequence(b.log), if b.log == [] then 0 else Last(b.log).logID, b.log, [])
  }

  const SILENT := Up(false, 0, 0, [], 0)

  // ---- steps ----

  /** What an act does to its coin. An act whose time has not come changes nothing. An operation that fails stops its
      bank: it serves no one any more, and what its last operation left in memory is gone with it. */
  function React(c: Coin, pair: seq<string>, side: int, latest: int, log: seq<Line>, a: Act): Coin {
    match a
    case Request(msgSeq, req) => if c.status == Ok then Asked(c, CoinName(pair, side), msgSeq, req) else c
    case Connect(lastID) => if 0 <= lastID <= latest then c.(down := Streams.Connect(lastID)) else c
    case Send =>
      if c.status == Ok && c.down.pos < |Issued(c.bank)|
      then c.(down := Streams.Send(c.down, Issued(c.bank))) else c
    case Receive => if c.down.inFlight != [] then c.(down := c.down.(inFlight := c.down.inFlight[1..])) else c
    case Greet => if c.status == Ok then c.(up := Handshake(Reason(c.bank))) else c
    case Push => if c.up.connected && c.up.pos < |log| then c.(up := Streams.Push(side, c.up, log)) else c
    case Deliver =>
      if c.status == Ok && c.up.connected && c.up.inFlight != []
      then c.(queue := c.queue + [c.up.inFlight[0]], up := Streams.Receive(c.up)) else c
    case Apply => if c.status == Ok && c.queue != [] then Changed(c) else c
    case Break => c.(up := Broken(c.up))
    case Stop => c.(status := Err(WriteFailed))
    case Reload(rows, wasted) => Coin(Reloaded(c.bank, pair, rows, wasted), Ok, Streams.Connect(latest), SILENT, [])
  }

  function Asked(c: Coin, coin: string, msgSeq: int, req: OrderReq): Coin {
    var o := HandleOrderReq(c.bank, coin, msgSeq, req, true);
    if o.status == Ok then c.(bank := o.bank) else c.(bank := c.bank.(acks := o.bank.acks), status := o.status)
  }

  function Changed(c: Coin): Coin
    requires c.queue != []
  {
    var o := HandleBalanceChange(c.bank, c.queue[0], true);
    if o.status == Ok then c.(bank := o.bank, queue := c.queue[1..]) else c.(status := o.status)
  }

  function Perform(w: World, side: int, a: Act): World {
    var c := At(w, side);
    var w' := Put(w, side, React(c, w.pair, side, Latest(w.engine, side), w.log, a));
    if a.Receive? && c.down.inFlight != [] then w'.(channel := w.channel + [c.down.inFlight[0]]) else w'
  }

  function Write(w: World, l: Line): World {
    w.(engine := ApplyLine(w.engine, l), log := w.log + [l])
  }

  function Restored(log: seq<Line>): State {
    var t := Tables.WriteLines(Tables.EMPTY, log);
    Recovery.Recover(t, Recovery.Live(t.orders, Tables.Max(0, t.orderID)), |log|)
  }

  function Reset(c: Coin, lastID: int): Coin {
    c.(down := Streams.Connect(lastID), up := Broken(c.up))
  }

  function Step(w: World, e: Event): World {
    match e
    case On(side, act) => if side == ASK || side == BID then Perform(w, side, act) else w
    case TakeTicket =>
      if Crossed(w.engine) || w.channel == [] then w
      else (match Judge(w.engine, w.channel[0])
            case Accept => Write(w, OrderOf(w.engine, w.channel[0])).(channel := w.channel[1..])
            case Duplicate => w.(channel := w.channel[1..])
            case _ => w.(refused := true))
    case Cross => if Crossed(w.engine) then Write(w, MatchOf(w.engine)) else w
    case Crash =>
      var s := Restored(w.log);
      w.(engine := s, channel := [], base := Reset(w.base, s.askTicket), quote := Reset(w.quote, s.bidTicket))
  }

  /** How an exchange opens: the pair, and the balances its two banks have loaded. */
  datatype Opening = Opening(pair: seq<string>, base: Assets, quote: Assets)

  function Loaded(o: Opening, side: int): Assets {
    if side == ASK then o.base else o.quote
  }

  function Idle(assets: Assets): Coin {
    Coin(Opened(assets), Ok, Down(0, 0, []), SILENT, [])
  }

  function Begin(o: Opening): World {
    World(o.pair, Idle(o.base), Idle(o.quote), START, [], [], false)
  }

  function Runs(w: World, events: seq<Event>): World {
    if events == [] then w else Step(Runs(w, events[..|events| - 1]), Last(events))
  }

  // ---- runs ----

  predicate IsSide(side: int) {
    side == ASK || side == BID
  }

  /** A request that its bank would take names the pair, and a bank that loads its tables finds that no ticket key was
      wasted. */
  predicate Listed(pair: seq<string>, e: Event) {
    && (e.On? && e.act.Request? && Refusal(CoinName(pair, e.side), e.act.req) == Ok ==> e.act.req.symbol == pair)
    && (e.On? && e.act.Reload? ==> e.act.wasted == 0)
  }

  /** A bank that loads its tables finds every balance as it was. */
  ghost predicate Kept(w: World, e: Event) {
    e.On? && IsSide(e.side) && e.act.Reload? ==>
      var b := At(w, e.side).bank;
      forall o :: Get(Reloaded(b, w.pair, e.act.rows, e.act.wasted).assets, o) == Get(b.assets, o)
  }

  /** A greeting is answered in time when no change received before is still queued, and a bank restarts in time when
      none was applied before. */
  predicate InTime(w: World, e: Event) {
    e.On? && IsSide(e.side) ==>
      && (e.act.Greet? && At(w, e.side).status == Ok ==> At(w, e.side).queue == [])
      && (e.act.Reload? ==> Reason(At(w, e.side).bank) == 0)
  }

  ghost predicate Trading(o: Opening, events: seq<Event>) {
    |o.pair| == 2 && o.pair[0] != o.pair[1] && forall i :: 0 <= i < |events| ==> Listed(o.pair, events[i])
  }

  /** Every greeting and every restart of the run is in time, and no restart loses a balance. */
  ghost predicate Timely(o: Opening, events: seq<Event>) {
    events == [] ||
    (Timely(o, events[..|events| - 1]) &&
     InTime(Runs(Begin(o), events[..|events| - 1]), Last(events)) &&
     Kept(Runs(Begin(o), events[..|events| - 1]), Last(events)))
  }

  // ---- tickets arrive exactly once ----

  /** What the engine took in of an order, and what a ticket offers it. */
  datatype Intake = Intake(id: int, owner: int, feeRate: int, side: int, kind: int, price: int, quantity: int)

  function IntakeOf(l: Line): Intake
    requires l.OrderLine?
  {
    Intake(l.ticketID, l.owner, l.feeRate, l.side, l.kind, l.price, l.quantity)
  }

  /** The order lines of one side, in log order. */
  function Intakes(log: seq<Line>, side: int): seq<Intake> {
    if log == [] then []
    else
      var l := Last(log);
      Intakes(log[..|log| - 1], side) +
      (if l.OrderLine? && l.side == side then [IntakeOf(l)] else [])
  }

  /** A ticket offers itself with its numbers truncated to the engine's scale, and no fee rate is sent. */
  function Offer(t: TicketLog): Intake {
    Intake(t.id, t.owner, 0, t.side, t.kind, DecimalToInt(t.price), DecimalToInt(t.quantity))
  }

  function Offers(ts: seq<TicketLog>): seq<Intake> {
    if ts == [] then [] else Offers(ts[..|ts| - 1]) + [Offer(Last(ts))]
  }

  ghost predicate Engine(s: State, log: seq<Line>) {
    s == ApplyLines(START, log) && Legal(START, log)
  }

  ghost predicate Numbered(issued: seq<TicketLog>, side: int) {
    forall i :: 0 <= i < |issued| ==> issued[i].id == i + 1 && issued[i].side == side
  }

  /** One coin's share of the ticket flow. */
  ghost predicate CoinFlows(pair: seq<string>, c: Coin, side: int, latest: int, log: seq<Line>, channel: seq<Ticket>) {
    var issued := Issued(c.bank);
    && issued == TicketsOf(c.bank.log, pair)
    && Numbered(issued, side) && |issued| == TicketID(c.bank.ticketIDs, pair)
    && TicketsFlow(issued, c.down, side, latest, channel)
    && Intakes(log, side) == Offers(issued[..latest])
  }

  ghost predicate CoinOk(w: World, side: int) {
    CoinFlows(w.pair, At(w, side), side, Latest(w.engine, side), w.log, w.channel)
  }

  ghost predicate EngineOk(w: World) {
    && |w.pair| == 2 && w.pair[0] != w.pair[1] && !w.refused
    && Engine(w.engine, w.log)
    && (forall i :: 0 <= i < |w.log| ==> w.log[i].logID == i + 1)
    && (forall t :: t in w.channel ==> t.side == ASK || t.side == BID)
  }

  ghost predicate Flows(w: World) {
    EngineOk(w) && CoinOk(w, ASK) && CoinOk(w, BID)
  }

  /** A bank took a request: one more ticket, one more log line, and `total` frozen. */
  ghost predicate Issues(b: Bank, b': Bank, pair: seq<string>, msgSeq: int, r: OrderReq, total: real) {
    var id := TicketID(b.ticketIDs, pair) + 1;
    && r.symbol == pair && Issued(b') == Issued(b) + [TicketFor(r, id)]
    && TicketsOf(b'.log, pair) == TicketsOf(b.log, pair) + [TicketFor(r, id)]
    && b'.ticketIDs == b.ticketIDs[pair := id] && b'.omeReasonIDs == b.omeReasonIDs
    && b'.assets == Credit(b.assets, r.owner, -total, total)
    && b'.log == b.log + [BankLine(b.logID + 1, msgSeq, [TicketFor(r, id)], [OrderLeg(b'.assets, r.owner, total)])]
  }

  // What a request does to a bank that takes it: nothing but an acknowledgement, or one more ticket.
  lemma RequestTakes(b: Bank, pair: seq<string>, side: int, msgSeq: int, r: OrderReq)
    requires |pair| == 2 && pair[0] != pair[1] && IsSide(side) && Listed(pair, On(side, Request(msgSeq, r)))
    requires HandleOrderReq(b, CoinName(pair, side), msgSeq, r, true).status == Ok
    ensures var b' := HandleOrderReq(b, CoinName(pair, side), msgSeq, r, true).bank;
            b' == b.(acks := b'.acks) || (r.side == side && Issues(b, b', pair, msgSeq, r, Total(r)))
  {
    var b' := HandleOrderReq(b, CoinName(pair, side), msgSeq, r, true).bank;
    if b'.log != b.log { LogGrows(b.log, Last(b'.log), pair); }
  }

  // A coin that differs only where tickets do not look.
  lemma SameTickets(pair: seq<string>, c: Coin, c': Coin, side: int, latest: int, log: seq<Line>, channel: seq<Ticket>)
    requires CoinFlows(pair, c, side, latest, log, channel)
    requires c'.down == c.down && c'.bank.ticketIDs == c.bank.ticketIDs && Issued(c'.bank) == Issued(c.bank)
    requires TicketsOf(c'.bank.log, pair) == TicketsOf(c.bank.log, pair)
    ensures CoinFlows(pair, c', side, latest, log, channel)
  {}

  lemma IssueFlowsOn(pair: seq<string>, c: Coin, b': Bank, side: int, latest: int, log: seq<Line>,
                     channel: seq<Ticket>, msgSeq: int, r: OrderReq)
    requires CoinFlows(pair, c, side, latest, log, channel) && r.side == side && r.symbol == pair
    requires Issues(c.bank, b', pair, msgSeq, r, Total(r))
    ensures CoinFlows(pair, c.(bank := b'), side, latest, log, channel)
  {
    var issued := Issued(c.bank);
    var t := TicketFor(r, |issued| + 1);
    IssueFlows(issued, c.down, side, latest, channel, t);
    assert (issued + [t])[..latest] == issued[..latest];
  }

  lemma RequestFlows(pair: seq<string>, c: Coin, side: int, latest: int, log: seq<Line>, channel: seq<Ticket>,
                     msgSeq: int, r: OrderReq)
    requires |pair| == 2 && pair[0] != pair[1] && IsSide(side) && Listed(pair, On(side, Request(msgSeq, r)))
    requires CoinFlows(pair, c, side, latest, log, channel)
    ensures CoinFlows(pair, Asked(c, CoinName(pair, side), msgSeq, r), side, latest, log, channel)
  {
    var o := HandleOrderReq(c.bank, CoinName(pair, side), msgSeq, r, true);
    var c' := Asked(c, CoinName(pair, side), msgSeq, r);
    if o.status == Ok {
      RequestTakes(c.bank, pair, side, msgSeq, r);
      if o.bank == c.bank.(acks := o.bank.acks) {
        SameTickets(pair, c, c', side, latest, log, channel);
      } else {
        IssueFlowsOn(pair, c, o.bank, side, latest, log, channel, msgSeq, r);
      }
    } else {
      SameTickets(pair, c, c', side, latest, log, channel);
    }
  }

  // What a change does to a bank that can apply it: two legs, one log line, a new reason ID.
  lemma ChangeTakes(b: Bank, d: BalanceChange)
    requires HandleBalanceChange(b, d, true).status == Ok
    ensures var b' := HandleBalanceChange(b, d, true).bank;
            && d.owner2 > 0
            && b'.assets == Credit(Credit(b.assets, d.owner, d.freeChange, d.freezeChange),
                                   d.owner2, d.freeChange2, d.freezeChange2)
            && b'.ticketIDs == b.ticketIDs && b'.omeReasonIDs == b.omeReasonIDs[d.reasonTable := d.reasonID]
            && b'.log == b.log + [Last(b'.log)] && Last(b'.log).tickets == []
            && Last(b'.log).legs == [LegFor(b'.assets, d.owner, d.freeChange, d.freezeChange),
                                     LegFor(b'.assets, d.owner2, d.freeChange2, d.freezeChange2)]
  {}

  lemma ApplyKeepsTickets(pair: seq<string>, c: Coin, side: int, latest: int, log: seq<Line>, channel: seq<Ticket>)
    requires CoinFlows(pair, c, side, latest, log, channel) && c.queue != []
    ensures CoinFlows(pair, Changed(c), side, latest, log, channel)
  {
    var o := HandleBalanceChange(c.bank, c.queue[0], true);
    if o.status == Ok {
      ChangeTakes(c.bank, c.queue[0]);
      LogGrows(c.bank.log, Last(o.bank.log), pair);
      assert Issued(o.bank) == Issued(c.bank) && TicketsOf(o.bank.log, pair) == TicketsOf(c.bank.log, pair);
    }
    SameTickets(pair, c, Changed(c), side, latest, log, channel);
  }

  lemma TicketActFlows(pair: seq<string>, c: Coin, side: int, latest: int, log: seq<Line>, channel: seq<Ticket>, a: Act)
    requires CoinFlows(pair, c, side, latest, log, channel) && (a.Connect? || a.Send?)
    ensures CoinFlows(pair, React(c, pair, side, latest, log, a), side, latest, log, channel)
  {
    var issued := Issued(c.bank);
    if a.Connect? {
      if 0 <= a.lastID <= latest { ConnectFlows(issued, c.down, side, latest, channel, a.lastID); }
    } else if c.status == Ok && c.down.pos < |issued| {
      SendFlows(issued, c.down, side, latest, channel);
    }
  }

  // A bank that loads the number of its tickets goes on with the next one.
  lemma ReloadFlows(pair: seq<string>, c: Coin, side: int, latest: int, log: seq<Line>, channel: seq<Ticket>,
                    rows: set<int>)
    requires CoinFlows(pair, c, side, latest, log, channel)
    ensures CoinFlows(pair, React(c, pair, side, latest, log, Reload(rows, 0)), side, latest, log, channel)
  {
    ConnectFlows(Issued(c.bank), c.down, side, latest, channel, latest);
  }

  lemma BankActFlows(pair: seq<string>, c: Coin, side: int, latest: int, log: seq<Line>, channel: seq<Ticket>, a: Act)
    requires |pair| == 2 && pair[0] != pair[1] && (side == ASK || side == BID) && !a.Receive?
    requires CoinFlows(pair, c, side, latest, log, channel) && Listed(pair, On(side, a))
    ensures CoinFlows(pair, React(c, pair, side, latest, log, a), side, latest, log, channel)
  {
    if a.Request? {
      RequestFlows(pair, c, side, latest, log, channel, a.msgSeq, a.req);
    } else if a.Apply? {
      if c.queue != [] { ApplyKeepsTickets(pair, c, side, latest, log, channel); }
    } else if a.Connect? || a.Send? {
      TicketActFlows(pair, c, side, latest, log, channel, a);
    } else if a.Reload? {
      ReloadFlows(pair, c, side, latest, log, channel, a.rows);
    } else {
      SameTickets(pair, c, React(c, pair, side, latest, log, a), side, latest, log, channel);
    }
  }

  // An act keeps the flow of its own coin.
  lemma OwnActFlows(w: World, side: int, a: Act)
    requires EngineOk(w) && CoinOk(w, side) && IsSide(side) && Listed(w.pair, On(side, a))
    ensures CoinOk(Perform(w, side, a), side)
  {
    var c, latest := At(w, side), Latest(w.engine, side);
    if !a.Receive? {
      BankActFlows(w.pair, c, side, latest, w.log, w.channel, a);
    } else if c.down.inFlight != [] {
      TicketReceiveFlows(Issued(c.bank), c.down, side, latest, w.channel);
    }
  }

  // A received ticket is of its stream's side, so the other coin does not notice it.
  lemma OtherActFlows(w: World, side: int, a: Act, other: int)
    requires CoinOk(w, side) && CoinOk(w, other) && IsSide(side) && IsSide(other) && side != other
    ensures CoinOk(Perform(w, side, a), other)
  {
    var c, d := At(w, side), At(w, other);
    if a.Receive? && c.down.inFlight != [] {
      assert c.down.inFlight[0] in Of(w.channel, side) + c.down.inFlight;
      OthersFlow(Issued(d.bank), d.down, other, Latest(w.engine, other), w.channel, c.down.inFlight[0]);
    }
  }

  lemma ActKeepsEngine(w: World, side: int, a: Act)
    requires EngineOk(w) && CoinOk(w, side) && IsSide(side)
    ensures EngineOk(Perform(w, side, a))
  {
    var c := At(w, side);
    if a.Receive? && c.down.inFlight != [] {
      assert c.down.inFlight[0] in Of(w.channel, side) + c.down.inFlight;
    }
  }

  // ---- flow through the engine ----

  lemma IntakesGrow(log: seq<Line>, l: Line, side: int)
    ensures Intakes(log + [l], side) == Intakes(log, side) +
            (if l.OrderLine? && l.side == side then [IntakeOf(l)] else [])
  {
    assert (log + [l])[..|log|] == log;
  }

  lemma EngineWrites(s: State, log: seq<Line>, l: Line)
    requires Engine(s, log) && LegalLine(s, l) && forall i :: 0 <= i < |log| ==> log[i].logID == i + 1
    ensures Engine(ApplyLine(s, l), log + [l])
    ensures forall i :: 0 <= i < |log + [l]| ==> (log + [l])[i].logID == i + 1
  {
    assert (log + [l])[..|log|] == log;
    Accounting.LogIDsAreConsecutive(log + [l]);
  }

  // A line that is not an order of this coin's side leaves the coin's flow as it was.
  lemma OtherLineFlows(pair: seq<string>, c: Coin, side: int, latest: int, log: seq<Line>, channel: seq<Ticket>,
                       l: Line)
    requires CoinFlows(pair, c, side, latest, log, channel) && (l.OrderLine? ==> l.side != side)
    ensures CoinFlows(pair, c, side, latest, log + [l], channel)
  {
    IntakesGrow(log, l, side);
  }

  // The order of the ticket at the head of the channel is the next ticket of its bank.
  lemma AcceptFlows(pair: seq<string>, c: Coin, side: int, latest: int, log: seq<Line>, channel: seq<Ticket>, l: Line)
    requires CoinFlows(pair, c, side, latest, log, channel) && (side == ASK || side == BID)
    requires channel != [] && channel[0].side == side && channel[0].id == latest + 1
    requires exists s :: l == OrderOf(s, channel[0])
    ensures CoinFlows(pair, c, side, latest + 1, log + [l], channel[1..])
  {
    var issued := Issued(c.bank);
    ConsumeFlows(issued, c.down, side, latest, channel);
    IntakesGrow(log, l, side);
    var now := issued[..latest + 1];
    assert now[..|now| - 1] == issued[..latest] && Last(now) == issued[latest];
  }

  function Took(s: State, l: Line, side: int): int {
    Latest(s, side) + (if l.OrderLine? && l.side == side then 1 else 0)
  }

  lemma LegalLineTakes(s: State, l: Line, side: int)
    requires LegalLine(s, l) && IsSide(side)
    ensures Latest(ApplyLine(s, l), side) == Took(s, l, side)
    ensures l.OrderLine? ==> IsSide(l.side)
  {}

  lemma OrderIsLegal(s: State, t: Ticket)
    requires !Crossed(s) && Judge(s, t) == Accept
    ensures LegalLine(s, OrderOf(s, t)) && OrderOf(s, t).side == t.side && t.id == Latest(s, t.side) + 1
  {}

  /** The head of the channel is a duplicate or the next ticket, never beyond. */
  lemma HeadIsDue(w: World)
    requires EngineOk(w) && w.channel != [] && CoinOk(w, w.channel[0].side)
    ensures IsSide(w.channel[0].side) && w.channel[0].id <= Latest(w.engine, w.channel[0].side) + 1
    ensures Judge(w.engine, w.channel[0]) == Accept || Judge(w.engine, w.channel[0]) == Duplicate
  {
    var t := w.channel[0];
    assert t in w.channel;
    ConsumeFlows(Issued(At(w, t.side).bank), At(w, t.side).down, t.side, Latest(w.engine, t.side), w.channel);
  }

  // The state of the engine and its log after a ticket is accepted or dropped.
  function EngineAfter(s: State, t: Ticket): State {
    if Judge(s, t) == Accept then ApplyLine(s, OrderOf(s, t)) else s
  }

  function LogAfter(s: State, log: seq<Line>, t: Ticket): seq<Line> {
    if Judge(s, t) == Accept then log + [OrderOf(s, t)] else log
  }

  // A ticket's own coin: one more ticket taken, or a duplicate dropped.
  lemma OwnTicketFlows(pair: seq<string>, c: Coin, side: int, s: State, log: seq<Line>, channel: seq<Ticket>)
    requires IsSide(side) && !Crossed(s) && channel != [] && channel[0].side == side
    requires CoinFlows(pair, c, side, Latest(s, side), log, channel)
    requires Judge(s, channel[0]) == Accept || Judge(s, channel[0]) == Duplicate
    ensures CoinFlows(pair, c, side, Latest(EngineAfter(s, channel[0]), side), LogAfter(s, log, channel[0]),
                      channel[1..])
  {
    var t := channel[0];
    if Judge(s, t) == Accept {
      OrderIsLegal(s, t);
      LegalLineTakes(s, OrderOf(s, t), side);
      AcceptFlows(pair, c, side, Latest(s, side), log, channel, OrderOf(s, t));
    } else {
      ConsumeFlows(Issued(c.bank), c.down, side, Latest(s, side), channel);
    }
  }

  // The other coin does not notice.
  lemma OthersTicketFlows(pair: seq<string>, c: Coin, side: int, s: State, log: seq<Line>, channel: seq<Ticket>)
    requires IsSide(side) && !Crossed(s) && channel != [] && channel[0].side != side
    requires CoinFlows(pair, c, side, Latest(s, side), log, channel)
    requires Judge(s, channel[0]) == Accept || Judge(s, channel[0]) == Duplicate
    ensures CoinFlows(pair, c, side, Latest(EngineAfter(s, channel[0]), side), LogAfter(s, log, channel[0]),
                      channel[1..])
  {
    var t, rest := channel[0], channel[1..];
    assert channel == [t] + rest;
    OthersFlow(Issued(c.bank), c.down, side, Latest(s, side), rest, t);
    if Judge(s, t) == Accept {
      OrderIsLegal(s, t);
      LegalLineTakes(s, OrderOf(s, t), side);
      OtherLineFlows(pair, c, side, Latest(s, side), log, rest, OrderOf(s, t));
    }
  }

  lemma TakingATicket(w: World)
    requires !Crossed(w.engine) && w.channel != []
    requires Judge(w.engine, w.channel[0]) == Accept || Judge(w.engine, w.channel[0]) == Duplicate
    ensures Step(w, TakeTicket) == w.(engine := EngineAfter(w.engine, w.channel[0]),
                                      log := LogAfter(w.engine, w.log, w.channel[0]), channel := w.channel[1..])
  {}

  lemma TakeKeepsCoin(w: World, side: int)
    requires !Crossed(w.engine) && w.channel != [] && IsSide(side) && CoinOk(w, side)
    requires Judge(w.engine, w.channel[0]) == Accept || Judge(w.engine, w.channel[0]) == Duplicate
    ensures CoinOk(Step(w, TakeTicket), side)
  {
    TakingATicket(w);
    if w.channel[0].side == side {
      OwnTicketFlows(w.pair, At(w, side), side, w.engine, w.log, w.channel);
    } else {
      OthersTicketFlows(w.pair, At(w, side), side, w.engine, w.log, w.channel);
    }
  }

  lemma TakeKeepsEngine(w: World)
    requires EngineOk(w) && !Crossed(w.engine) && w.channel != []
    requires Judge(w.engine, w.channel[0]) == Accept || Judge(w.engine, w.channel[0]) == Duplicate
    ensures EngineOk(Step(w, TakeTicket))
  {
    var t := w.channel[0];
    TakingATicket(w);
    assert forall u :: u in w.channel[1..] ==> u in w.channel;
    if Judge(w.engine, t) == Accept {
      OrderIsLegal(w.engine, t);
      EngineWrites(w.engine, w.log, OrderOf(w.engine, t));
    }
  }

  lemma CrossKeepsCoin(w: World, side: int)
    requires Crossed(w.engine) && CoinOk(w, side) && IsSide(side)
    ensures CoinOk(Step(w, Cross), side)
  {
    LegalLineTakes(w.engine, MatchOf(w.engine), side);
    OtherLineFlows(w.pair, At(w, side), side, Latest(w.engine, side), w.log, w.channel, MatchOf(w.engine));
  }

  lemma CrossKeepsEngine(w: World)
    requires Crossed(w.engine) && EngineOk(w)
    ensures EngineOk(Step(w, Cross))
  {
    EngineWrites(w.engine, w.log, MatchOf(w.engine));
  }

  lemma RestoredIsTheEngine(s: State, log: seq<Line>)
    requires Engine(s, log)
    ensures Restored(log) == s
  {
    var t := Tables.WriteLines(Tables.EMPTY, log);
    Recovery.LegalLogsAgree(log);
    LegalKeepsInv(START, log);
    Recovery.LiveIsQuery(t.orders, Tables.Max(0, t.orderID));
    Recovery.RecoveryIsExact(log, Recovery.Live(t.orders, Tables.Max(0, t.orderID)));
  }

  lemma CrashKeepsCoin(w: World, side: int)
    requires EngineOk(w) && CoinOk(w, side) && IsSide(side)
    ensures CoinOk(Step(w, Crash), side)
  {
    RestoredIsTheEngine(w.engine, w.log);
    var c, latest := At(w, side), Latest(w.engine, side);
    ConnectFlows(Issued(c.bank), c.down, side, latest, w.channel, latest);
  }

  lemma CrashKeepsEngine(w: World)
    requires EngineOk(w)
    ensures Step(w, Crash).engine == w.engine && EngineOk(Step(w, Crash))
  {
    RestoredIsTheEngine(w.engine, w.log);
  }

  /** A crash of the engine loses the channel and everything under way on its four streams, and nothing else: the
      engine comes back as it was, asks both banks for the tickets it does not have, and no change stream stands. */
  lemma CrashLeaves(w: World, side: int)
    requires EngineOk(w) && IsSide(side)
    ensures var w' := Step(w, Crash);
            && w'.engine == w.engine && w'.log == w.log && w'.channel == []
            && var c, c' := At(w, side), At(w', side);
               && c'.bank == c.bank && c'.status == c.status && c'.queue == c.queue
               && c'.down.lastID == Latest(w.engine, side) && c'.down.pos == 0 && c'.down.inFlight == []
               && !c'.up.connected && c'.up.inFlight == [] && c'.up.received == c.up.received
  {
    RestoredIsTheEngine(w.engine, w.log);
  }

  /** A stream that breaks stands no more and loses what is under way; a bank that stops does nothing until it is
      restarted; and a new ticket stream starts from the ID asked for. */
  lemma EndsAndBeginnings(w: World, side: int, lastID: int)
    requires IsSide(side) && 0 <= lastID <= Latest(w.engine, side)
    ensures var c, broken := At(w, side), At(Step(w, On(side, Break)), side);
            !broken.up.connected && broken.up.inFlight == [] && broken.bank == c.bank && broken.queue == c.queue
    ensures At(Step(w, On(side, Stop)), side).status != Ok
    ensures var down := At(Step(w, On(side, Connect(lastID))), side).down;
            down.lastID == lastID && down.pos == 0 && down.inFlight == []
    ensures forall a: Act :: At(w, side).status != Ok && !a.Reload? ==>
              var c, c' := At(w, side), At(Step(w, On(side, a)), side);
              c'.bank == c.bank && c'.queue == c.queue && c'.status != Ok
  {}

  /** A bank that is restarted serves again, with an empty message channel and new streams; one that gets a request it
      refuses stops. */
  lemma StopsAndRestarts(w: World, side: int, rows: set<int>, wasted: nat, msgSeq: int, r: OrderReq)
    requires IsSide(side)
    ensures var c := At(Step(w, On(side, Reload(rows, wasted))), side);
            && c.status == Ok && c.queue == [] && !c.up.connected && c.up.inFlight == []
            && c.down.lastID == Latest(w.engine, side) && c.down.pos == 0 && c.down.inFlight == []
            && c.bank.log == At(w, side).bank.log
    ensures var c, c' := At(w, side), At(Step(w, On(side, Request(msgSeq, r))), side);
            c.status == Ok && msgSeq > c.bank.latestMsgSeq ==> (c'.status == Ok <==> Own(CoinName(w.pair, side), r))
  {}

  lemma StepKeepsEngine(w: World, e: Event)
    requires Flows(w)
    ensures EngineOk(Step(w, e))
  {
    match e {
      case On(side, act) => if IsSide(side) { ActKeepsEngine(w, side, act); }
      case TakeTicket =>
        if !Crossed(w.engine) && w.channel != [] {
          assert w.channel[0] in w.channel;
          HeadIsDue(w);
          TakeKeepsEngine(w);
        }
      case Cross => if Crossed(w.engine) { CrossKeepsEngine(w); }
      case Crash => CrashKeepsEngine(w);
    }
  }

  lemma StepKeepsCoin(w: World, e: Event, side: int)
    requires Flows(w) && Listed(w.pair, e) && IsSide(side)
    ensures CoinOk(Step(w, e), side)
  {
    match e {
      case On(s, act) =>
        if s == side { OwnActFlows(w, s, act); } else if IsSide(s) { OtherActFlows(w, s, act, side); }
      case TakeTicket =>
        if !Crossed(w.engine) && w.channel != [] {
          assert w.channel[0] in w.channel;
          HeadIsDue(w);
          TakeKeepsCoin(w, side);
        }
      case Cross => if Crossed(w.engine) { CrossKeepsCoin(w, side); }
      case Crash => CrashKeepsCoin(w, side);
    }
  }

  lemma StepKeepsFlow(w: World, e: Event)
    requires Flows(w) && Listed(w.pair, e)
    ensures Flows(Step(w, e))
  {
    StepKeepsEngine(w, e);
    StepKeepsCoin(w, e, ASK);
    StepKeepsCoin(w, e, BID);
  }

  lemma PairIsFixed(w: World, e: Event)
    ensures Step(w, e).pair == w.pair
  {}

  lemma BeginFlows(o: Opening)
    requires |o.pair| == 2 && o.pair[0] != o.pair[1]
    ensures Flows(Begin(o))
  {
    assert Of([], ASK) + [] == [] && Of([], BID) + [] == [];
  }

  /** In every run, whatever the banks began with, however streams break, and banks stop and restart. */
  lemma {:induction false} FlowHolds(o: Opening, events: seq<Event>)
    requires Trading(o, events)
    ensures Flows(Runs(Begin(o), events)) && Runs(Begin(o), events).pair == o.pair
  {
    if events == [] {
      BeginFlows(o);
    } else {
      FlowHolds(o, events[..|events| - 1]);
      StepKeepsFlow(Runs(Begin(o), events[..|events| - 1]), Last(events));
      PairIsFixed(Runs(Begin(o), events[..|events| - 1]), Last(events));
    }
  }

  /** Tickets are consumed exactly once and in order, over every interleaving, reconnection, crash and restart: the
      orders of a side are its bank's tickets 1, 2, ..., latest, and no ticket is ever refused. */
  lemma TicketsAreConsumedOnce(o: Opening, events: seq<Event>, side: int)
    requires Trading(o, events) && IsSide(side)
    ensures var w := Runs(Begin(o), events);
            var issued, latest := Issued(At(w, side).bank), Latest(w.engine, side);
            && !w.refused && 0 <= latest <= |issued|
            && (forall i :: 0 <= i < |issued| ==> issued[i].id == i + 1)
            && Intakes(w.log, side) == Offers(issued[..latest])
  {
    FlowHolds(o, events);
  }

  // ---- changes arrive exactly once ----

  lemma ApplyTakes(side: int, log: seq<Line>, c: Coin)
    requires ChangesFlow(side, log, Reason(c.bank), c.queue, c.up) && c.queue != []
    requires forall i :: 0 <= i < |log| ==> log[i].logID == i + 1
    requires HandleBalanceChange(c.bank, c.queue[0], true).status == Ok
    ensures Reason(HandleBalanceChange(c.bank, c.queue[0], true).bank) == c.queue[0].reasonID
  {
    DueHead(side, log, Reason(c.bank), c.up.received);
  }

  ghost predicate ChangesOk(w: World, side: int) {
    ChangesFlow(side, w.log, Reason(At(w, side).bank), At(w, side).queue, At(w, side).up)
  }

  lemma StreamActFlows(pair: seq<string>, c: Coin, side: int, latest: int, log: seq<Line>, a: Act)
    requires ChangesFlow(side, log, Reason(c.bank), c.queue, c.up) && (a.Greet? || a.Push? || a.Deliver?)
    requires forall i :: 0 <= i < |log| ==> log[i].logID == i + 1
    requires a.Greet? && c.status == Ok ==> c.queue == []
    ensures var c' := React(c, pair, side, latest, log, a); ChangesFlow(side, log, Reason(c'.bank), c'.queue, c'.up)
  {
    var reason := Reason(c.bank);
    match a {
      case Greet => if c.status == Ok { HandshakeFlows(side, log, reason); }
      case Push => if c.up.connected && c.up.pos < |log| { PushFlows(side, log, reason, c.queue, c.up); }
      case Deliver =>
        if c.status == Ok && c.up.connected && c.up.inFlight != [] {
          ChangeReceiveFlows(side, log, reason, c.queue, c.up);
        }
    }
  }

  lemma AskedKeepsReason(c: Coin, pair: seq<string>, side: int, msgSeq: int, r: OrderReq)
    ensures Reason(Asked(c, CoinName(pair, side), msgSeq, r).bank) == Reason(c.bank)
    ensures var c' := Asked(c, CoinName(pair, side), msgSeq, r); c'.queue == c.queue && c'.up == c.up
  {}

  lemma ActKeepsChanges(pair: seq<string>, c: Coin, side: int, latest: int, log: seq<Line>, a: Act)
    requires ChangesFlow(side, log, Reason(c.bank), c.queue, c.up)
    requires forall i :: 0 <= i < |log| ==> log[i].logID == i + 1
    requires a.Greet? && c.status == Ok ==> c.queue == []
    ensures var c' := React(c, pair, side, latest, log, a); ChangesFlow(side, log, Reason(c'.bank), c'.queue, c'.up)
  {
    if a.Greet? || a.Push? || a.Deliver? {
      StreamActFlows(pair, c, side, latest, log, a);
    } else if a.Request? {
      AskedKeepsReason(c, pair, side, a.msgSeq, a.req);
    } else if a.Reload? {
      assert log[0..0] == [];
    } else if a.Apply? && c.queue != [] && HandleBalanceChange(c.bank, c.queue[0], true).status == Ok {
      ApplyTakes(side, log, c);
      ApplyFlows(side, log, Reason(c.bank), c.queue, c.up);
    }
  }

  // What a step does to a log and to a coin that it does not act on.
  lemma LogGrowsByOne(w: World, e: Event)
    ensures Step(w, e).log == w.log || (!e.On? && |Step(w, e).log| == |w.log| + 1
                                        && Step(w, e).log == w.log + [Last(Step(w, e).log)])
  {}

  lemma OthersRest(w: World, e: Event, side: int)
    requires IsSide(side) && !(e.On? && e.side == side)
    ensures var c, c' := At(w, side), At(Step(w, e), side);
            && c'.bank == c.bank && c'.status == c.status && c'.queue == c.queue
            && (c'.up == c.up || c'.up == Broken(c.up))
  {}

  lemma StepKeepsChanges(w: World, e: Event, side: int)
    requires EngineOk(w) && ChangesOk(w, side) && IsSide(side) && InTime(w, e)
    ensures ChangesOk(Step(w, e), side)
  {
    var c := At(w, side);
    if e.On? && e.side == side {
      ActKeepsChanges(w.pair, c, side, Latest(w.engine, side), w.log, e.act);
    } else {
      OthersRest(w, e, side);
      LogGrowsByOne(w, e);
      if Step(w, e).log != w.log {
        LogGrowthFlows(side, w.log, Reason(c.bank), c.queue, c.up, Last(Step(w, e).log));
      }
    }
  }

  /** In every timely run the changes on their way to a bank, queued and in flight, are those due after its reason ID,
      in order, each once. */
  lemma {:induction false} ChangesHold(o: Opening, events: seq<Event>, side: int)
    requires Trading(o, events) && Timely(o, events) && IsSide(side)
    ensures ChangesOk(Runs(Begin(o), events), side)
  {
    if events != [] {
      var before := events[..|events| - 1];
      ChangesHold(o, before, side);
      FlowHolds(o, before);
      StepKeepsChanges(Runs(Begin(o), before), Last(events), side);
    }
  }
}
