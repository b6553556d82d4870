/** The client side of the execution management system (EMS): the order book
    that records the last command sent per order id, the bounded memory
    channel that carries commands to the relay task, the one-shot readiness
    flag, the relay that drains the channel in FIFO order, and the
    per-process `get_orders` singleton (piker/exchange/_client.py). */
module OrderClient {
  import opened Results

  /** Capacity of the memory channel opened by `get_orders`. */
  const ChannelCapacity: nat := 100

  /** The instrument an order is for: its key and the brokers that may route it. */
  datatype Symbol = Symbol(key: string, brokers: seq<string>)

  /** A command message as put on the channel. `Order` is the dict built by
      `send` (its `action` is whatever the caller passed); `CancelMsg` is the
      reduced dict built by `cancel`, whose action is always 'cancel'. */
  datatype Cmd =
    | Order(action: string, price: real, size: real, symbol: string,
            brokers: seq<string>, oid: string, execMode: string)
    | CancelMsg(oid: string, symbol: string)

  /** The exceptions the book's operations can raise: `trio.WouldBlock` from
      `send_nowait` on a full channel, `KeyError` from the registry lookup. */
  datatype Failure = WouldBlock | KeyError(key: string)

  /** Value view of an order book: the registry `_sent_orders`, the commands
      buffered in the channel (oldest first) and the readiness flag. */
  datatype Book = Book(sent: map<string, Cmd>, queue: seq<Cmd>, ready: bool)

  /** The channel never holds more than its capacity. */
  predicate Bounded(b: Book) {
    |b.queue| <= ChannelCapacity
  }

  /** A call on the book, for reasoning about sequences of calls. */
  datatype Op =
    | SendOp(uuid: string, sym: Symbol, price: real, size: real, action: string, execMode: string)
    | CancelOp(uuid: string)

  /** The book after one call, and how the call ended: `Ok(c)` when it returned
      normally after enqueueing `c`, `Err(f)` when it raised `f`. */
  datatype Step = Step(book: Book, out: Result<Cmd, Failure>)

  /** The command `send` builds from its arguments. */
  function OrderOf(op: Op): Cmd
    requires op.SendOp?
  {
    Order(op.action, op.price, op.size, op.sym.key, op.sym.brokers, op.uuid, op.execMode)
  }

  /** `send_nowait` on the channel: appends at the back, or raises when full. */
  function Enqueue(b: Book, c: Cmd): Step
  {
    if |b.queue| < ChannelCapacity then Step(b.(queue := b.queue + [c]), Ok(c))
    else Step(b, Err(WouldBlock))
  }

  /** One call of `send` or `cancel` on a book. The registry write of `send`
      comes before the enqueue, so it survives a full channel. */
  function Apply(b: Book, op: Op): (r: Step)
    ensures r.book.ready == b.ready
    ensures b.sent.Keys <= r.book.sent.Keys
    ensures Bounded(b) ==> Bounded(r.book)
    ensures r.out.Ok? ==> r.book.queue == b.queue + [r.out.value]
    ensures r.out.Err? ==> r.book.queue == b.queue
    ensures op.SendOp? ==>
      && r.book.sent == b.sent[op.uuid := OrderOf(op)]
      && (r.out.Ok? <==> |b.queue| < ChannelCapacity)
      && (r.out.Ok? ==> r.out.value == OrderOf(op))
      && (r.out.Err? ==> r.out.error == WouldBlock)
    ensures op.CancelOp? ==> r.book.sent == b.sent
    ensures op.CancelOp? && op.uuid !in b.sent ==> r.out == Err(KeyError(op.uuid))
    ensures op.CancelOp? && op.uuid in b.sent ==>
      && (r.out.Ok? <==> |b.queue| < ChannelCapacity)
      && (r.out.Ok? ==> r.out.value == CancelMsg(op.uuid, b.sent[op.uuid].symbol))
      && (r.out.Err? ==> r.out.error == WouldBlock)
  {
    match op
    case SendOp(uuid, _, _, _, _, _) =>
      Enqueue(b.(sent := b.sent[uuid := OrderOf(op)]), OrderOf(op))
    case CancelOp(uuid) =>
      if uuid !in b.sent then Step(b, Err(KeyError(uuid)))
      else Enqueue(b, CancelMsg(uuid, b.sent[uuid].symbol))
  }

  /** The book after a sequence of calls, each made on the result of the one
      before; a call that raised leaves the state it left behind. */
  function Run(b: Book, ops: seq<Op>): Book
    decreases |ops|
  {
    if ops == [] then b
    else Apply(Run(b, ops[..|ops| - 1]), ops[|ops| - 1]).book
  }

  /** The commands the calls of `ops` enqueued, in call order, read off the
      calls' outcomes rather than off the channel. */
  function Accepted(b: Book, ops: seq<Op>): seq<Cmd>
    decreases |ops|
  {
    if ops == [] then []
    else
      var s := Apply(Run(b, ops[..|ops| - 1]), ops[|ops| - 1]);
      Accepted(b, ops[..|ops| - 1]) + (if s.out.Ok? then [s.out.value] else [])
  }

  /** The command built by the last `send` for `uuid` in `ops`, if any. */
  function LastOrder(ops: seq<Op>, uuid: string): Option<Cmd>
    decreases |ops|
  {
    if ops == [] then None
    else
      var op := ops[|ops| - 1];
      if op.SendOp? && op.uuid == uuid then Some(OrderOf(op))
      else LastOrder(ops[..|ops| - 1], uuid)
  }

  /** FIFO: after any sequence of calls the channel holds what it held before
      followed by every accepted command, in the order the calls were made. */
  lemma {:induction false} RunIsFifo(b: Book, ops: seq<Op>)
    ensures Run(b, ops).queue == b.queue + Accepted(b, ops)
    decreases |ops|
  {
    if ops != [] {
      var init := ops[..|ops| - 1];
      RunIsFifo(b, init);
      var s := Apply(Run(b, init), ops[|ops| - 1]);
      if s.out.Ok? {
        calc {
          Run(b, ops).queue;
          Run(b, init).queue + [s.out.value];
          (b.queue + Accepted(b, init)) + [s.out.value];
          b.queue + (Accepted(b, init) + [s.out.value]);
        }
      }
    }
  }

  /** The registry holds, for every id, the command of the LAST `send` for it,
      whether or not that send's enqueue succeeded; ids never sent keep their
      old entry (cancel neither adds nor removes). */
  lemma {:induction false} RegistryHoldsLastSend(b: Book, ops: seq<Op>, uuid: string)
    ensures LastOrder(ops, uuid).Some? ==>
      uuid in Run(b, ops).sent && Run(b, ops).sent[uuid] == LastOrder(ops, uuid).value
    ensures LastOrder(ops, uuid).None? ==>
      && (uuid in Run(b, ops).sent <==> uuid in b.sent)
      && (uuid in b.sent ==> Run(b, ops).sent[uuid] == b.sent[uuid])
    decreases |ops|
  {
    if ops != [] {
      RegistryHoldsLastSend(b, ops[..|ops| - 1], uuid);
    }
  }

  /** Every call keeps the channel within capacity, and no call clears the
      readiness flag or removes a registry entry. */
  lemma {:induction false} RunPreservesInvariants(b: Book, ops: seq<Op>)
    ensures Bounded(b) ==> Bounded(Run(b, ops))
    ensures Run(b, ops).ready == b.ready
    ensures b.sent.Keys <= Run(b, ops).sent.Keys
    decreases |ops|
  {
    if ops != [] {
      RunPreservesInvariants(b, ops[..|ops| - 1]);
    }
  }

  /** What the relay reports: the readiness flag being set, then each command
      it yields. */
  datatype RelayEvent = ReadySet | Yielded(cmd: Cmd)

  function Yields(cmds: seq<Cmd>): (r: seq<RelayEvent>)
  {
    seq(|cmds|, i requires 0 <= i < |cmds| => Yielded(cmds[i]))
  }

  /** `OrderBook`: the registry, the channel shared by `_to_ems` and
      `_from_order_book` (its buffered contents, oldest first) and
      `_ready_to_receive`. */
  class OrderBook {
    var sentOrders: map<string, Cmd>
    var toEms: seq<Cmd>
    var ready: bool

    function Model(): Book
      reads this
    {
      Book(sentOrders, toEms, ready)
    }

    ghost predicate Valid()
      reads this
    {
      Bounded(Model())
    }

    /** `OrderBook(*trio.open_memory_channel(100))`: an empty registry, an
        empty channel and an unset flag. */
    constructor ()
      ensures Valid()
      ensures Model() == Book(map[], [], false)
    {
      sentOrders := map[];
      toEms := [];
      ready := false;
    }

    /** `_to_ems.send_nowait(c)`. */
    method SendNowait(c: Cmd) returns (r: Outcome<Failure>)
      requires Valid()
      modifies this`toEms
      ensures Valid()
      ensures r.Pass? <==> |old(toEms)| < ChannelCapacity
      ensures r.Fail? ==> r.error == WouldBlock
      ensures toEms == if r.Pass? then old(toEms) + [c] else old(toEms)
      ensures var s := Enqueue(old(Model()), c);
        Model() == s.book && (r.Pass? <==> s.out.Ok?)
    {
      if |toEms| < ChannelCapacity {
        toEms := toEms + [c];
        r := Pass;
      } else {
        r := Fail(WouldBlock);
      }
    }

    /** `send`: build the order, store it under `uuid`, then enqueue it. */
    method Send(uuid: string, symbol: Symbol, price: real, size: real, action: string, execMode: string)
      returns (r: Result<Cmd, Failure>)
      requires Valid()
      modifies this
      ensures Valid() && ready == old(ready)
      ensures var cmd := OrderOf(SendOp(uuid, symbol, price, size, action, execMode));
        && sentOrders == old(sentOrders)[uuid := cmd]
        && (r.Ok? <==> |old(toEms)| < ChannelCapacity)
        && (r.Ok? ==> r.value == cmd && toEms == old(toEms) + [cmd])
        && (r.Err? ==> r.error == WouldBlock && toEms == old(toEms))
      ensures Step(Model(), r) == Apply(old(Model()), SendOp(uuid, symbol, price, size, action, execMode))
    {
      var cmd := OrderOf(SendOp(uuid, symbol, price, size, action, execMode));
      sentOrders := sentOrders[uuid := cmd];
      var sent := SendNowait(cmd);
      if sent.Fail? {
        return Err(sent.error);
      }
      r := Ok(cmd);
    }

    /** `cancel`: look the order up (raising on an unknown id) and enqueue the
        reduced cancel message; the registry is left as it was. */
    method Cancel(uuid: string) returns (r: Outcome<Failure>)
      requires Valid()
      modifies this
      ensures Valid() && ready == old(ready) && sentOrders == old(sentOrders)
      ensures uuid !in old(sentOrders) ==> r == Fail(KeyError(uuid)) && toEms == old(toEms)
      ensures uuid in old(sentOrders) ==>
        var msg := CancelMsg(uuid, old(sentOrders)[uuid].symbol);
        && (r.Pass? <==> |old(toEms)| < ChannelCapacity)
        && (r.Pass? ==> toEms == old(toEms) + [msg])
        && (r.Fail? ==> r.error == WouldBlock && toEms == old(toEms))
      ensures Model() == Apply(old(Model()), CancelOp(uuid)).book
    {
      if uuid !in sentOrders {
        return Fail(KeyError(uuid));
      }
      var cmd := sentOrders[uuid];
      var msg := CancelMsg(uuid, cmd.symbol);
      r := SendNowait(msg);
    }

    /** The body of `send_order_cmds` for this book: set the readiness flag,
        then receive and yield every buffered command, oldest first. */
    method Relay() returns (trace: seq<RelayEvent>)
      requires Valid()
      modifies this
      ensures Valid() && ready && toEms == [] && sentOrders == old(sentOrders)
      ensures |trace| == |old(toEms)| + 1 && trace[0] == ReadySet
      ensures forall i :: 0 <= i < |old(toEms)| ==> trace[i + 1] == Yielded(old(toEms)[i])
      ensures trace == [ReadySet] + Yields(old(toEms))
    {
      ready := true;
      trace := [ReadySet];
      ghost var pending := toEms;
      ghost var done := 0;
      while toEms != []
        invariant Valid() && ready && sentOrders == old(sentOrders)
        invariant 0 <= done <= |pending| && toEms == pending[done..]
        invariant |trace| == done + 1 && trace[0] == ReadySet
        invariant forall i :: 0 <= i < done ==> trace[i + 1] == Yielded(pending[i])
        decreases |toEms|
      {
        var cmd := toEms[0];
        toEms := toEms[1..];
        trace := trace + [Yielded(cmd)];
        done := done + 1;
      }
      assert trace == [ReadySet] + Yields(pending);
    }
  }

  /** A caller's sequence of `send`/`cancel` calls on a book, each made on the
      state the previous one left, whether it returned or raised. */
  method Submit(book: OrderBook, ops: seq<Op>)
    requires book.Valid()
    modifies book
    ensures book.Valid()
    ensures book.Model() == Run(old(book.Model()), ops)
  {
    var i := 0;
    while i < |ops|
      invariant 0 <= i <= |ops|
      invariant book.Valid()
      invariant book.Model() == Run(old(book.Model()), ops[..i])
    {
      assert ops[..i + 1][..i] == ops[..i];
      match ops[i] {
        case SendOp(uuid, sym, price, size, action, execMode) =>
          var _ := book.Send(uuid, sym, price, size, action, execMode);
        case CancelOp(uuid) =>
          var _ := book.Cancel(uuid);
      }
      i := i + 1;
    }
    assert ops[..|ops|] == ops;
  }

  /** End to end: the relay yields, after setting the flag, exactly the
      commands the calls enqueued, in the order the calls were made. */
  method SubmitThenRelay(book: OrderBook, ops: seq<Op>) returns (trace: seq<RelayEvent>)
    requires book.Valid()
    modifies book
    ensures book.Valid() && book.ready && book.toEms == []
    ensures book.sentOrders == Run(old(book.Model()), ops).sent
    ensures trace == [ReadySet] + Yields(old(book.toEms) + Accepted(old(book.Model()), ops))
  {
    Submit(book, ops);
    RunIsFifo(old(book.Model()), ops);
    trace := book.Relay();
  }

  /** The process-wide state of the client actor: the `_orders` global. */
  class ClientActor {
    var orders: OrderBook?

    ghost predicate Valid()
      reads this, orders
    {
      orders != null ==> orders.Valid()
    }

    constructor ()
      ensures Valid() && orders == null
    {
      orders := null;
    }

    /** `get_orders`: create the book on first use; afterwards always return
        the same instance, untouched. */
    method GetOrders() returns (book: OrderBook)
      requires Valid()
      modifies this
      ensures Valid() && orders == book
      ensures old(orders) != null ==> book == old(orders) && book.Model() == old(orders.Model())
      ensures old(orders) == null ==> fresh(book) && book.Model() == Book(map[], [], false)
    {
      if orders == null {
        orders := new OrderBook();
      }
      book := orders;
    }

    /** `send_order_cmds`: fetch the singleton book and relay it. */
    method SendOrderCmds() returns (trace: seq<RelayEvent>)
      requires Valid()
      modifies this, orders
      ensures Valid() && orders != null
      ensures old(orders) != null ==> orders == old(orders)
      ensures orders.ready && orders.toEms == []
      ensures |trace| >= 1 && trace[0] == ReadySet
      ensures old(orders) != null ==>
        trace == [ReadySet] + Yields(old(orders.toEms)) && orders.sentOrders == old(orders.sentOrders)
      ensures old(orders) == null ==> trace == [ReadySet] && orders.sentOrders == map[]
    {
      var book := GetOrders();
      trace := book.Relay();

    }
  }

  /** A buy sent and then cancelled: the registry keeps the buy, and the relay
      forwards the buy before the cancel. */
  method SendCancelScenario()
  {
    var book := new OrderBook();
    var sym := Symbol("AAPL", ["ib"]);
    var sent := book.Send("abc-1", sym, 150.25, 100.0, "buy", "dark");
    var buy := Order("buy", 150.25, 100.0, "AAPL", ["ib"], "abc-1", "dark");
    assert sent == Ok(buy);
    var cancelled := book.Cancel("abc-1");
    assert cancelled == Pass;
    assert book.sentOrders["abc-1"] == buy;
    var cancel := CancelMsg("abc-1", "AAPL");
    ghost var pending := book.toEms;
    assert pending == [buy, cancel] && pending[0] == buy && pending[1] == cancel;
    var trace := book.Relay();
    assert trace[1] == Yielded(buy) && trace[2] == Yielded(cancel);
    assert trace == [ReadySet, Yielded(buy), Yielded(cancel)];
    var again := book.Cancel("unknown");
    assert again == Fail(KeyError("unknown"));
  }
}
