/**
 * The order dialogue of src/tasks/order.py: an `OrderManager` that keeps the
 * chat memory and the order snapshot and, once per user message, extracts,
 * monitors (possibly submitting the order), re-extracts and composes a reply.
 * The extraction and response chains are functions of the chat memory that
 * may raise.
 */
module OrderTask {
  import opened Wrappers
  import opened Exceptions
  import opened OrderModel
  import opened Chat
  import opened Sers

  /** The structured-output extraction chain: transcript to snapshot. */
  type Extractor = seq<Message> -> Fallible<Order>

  /** The response chain: transcript to reply text. */
  type Composer = seq<Message> -> Fallible<string>

  /** What one run of `_monitor_system` decides. */
  datatype Monitored = Monitored(advisory: Advisory, inserted: bool, data: Order)

  /** The snapshot may be submitted: complete, confirmed and accepted by the inventory check. */
  predicate Submittable(d: Order, books: Inventory) {
    IsComplete(d) && d.confirmed && CheckOrderValidity(books, d.bookId.value, d.quantity.value).Pass?
  }

  /**
   * `_monitor_system` on snapshot `d` with chat memory `memory`, inventory
   * `books` and `fault` the database engine's answer to the INSERT. It
   * yields the single advisory, whether a row was inserted, and the snapshot
   * left by the re-extraction that follows a successful insert.
   */
  function Monitor(d: Order, memory: seq<Message>, books: Inventory, fault: Option<Exception>, extract: Extractor): (m: Monitored)
    ensures MissingFields(d) != [] ==> m == Monitored(Missing(MissingFields(d)), false, d)
    ensures IsComplete(d) && !d.confirmed ==> m == Monitored(Review, false, d)
    ensures m.inserted <==> Submittable(d, books) && fault.None?
    ensures m.advisory == Success <==> m.inserted && extract(memory).Ok?
    ensures m.advisory.SystemError? <==> IsComplete(d) && d.confirmed && m.advisory != Success
    ensures IsComplete(d) && d.confirmed && !Submittable(d, books) ==>
              m.advisory == SystemError(CheckOrderValidity(books, d.bookId.value, d.quantity.value).exc)
    ensures Submittable(d, books) && fault.Some? ==> m.advisory == SystemError(fault.value)
    ensures m.inserted && extract(memory).Raised? ==> m.advisory == SystemError(extract(memory).exc)
    ensures m.data == if m.advisory == Success then extract(memory).value else d
  {
    var missing := MissingFields(d);
    if missing != [] then Monitored(Missing(missing), false, d)
    else if !d.confirmed then Monitored(Review, false, d)
    else
      var check := CheckOrderValidity(books, d.bookId.value, d.quantity.value);
      if check.Fail? then Monitored(SystemError(check.exc), false, d)
      else if fault.Some? then Monitored(SystemError(fault.value), false, d)
      else match extract(memory)
        case Raised(e) => Monitored(SystemError(e), true, d)
        case Ok(next) => Monitored(Success, true, next)
  }

  /**
   * Without a complete, confirmed snapshot the advisory does not depend on the
   * database at all: neither the check nor the insert is reached.
   */
  lemma UngatedIgnoresDatabase(d: Order, memory: seq<Message>, books1: Inventory, books2: Inventory,
                               fault1: Option<Exception>, fault2: Option<Exception>, extract: Extractor)
    requires !IsComplete(d) || !d.confirmed
    ensures Monitor(d, memory, books1, fault1, extract) == Monitor(d, memory, books2, fault2, extract)
    ensures !Monitor(d, memory, books1, fault1, extract).inserted
  {
  }

  /**
   * The re-extraction inside the `try` runs after the INSERT has committed, so
   * when it raises the order is stored and yet the advisory reports an error.
   */
  lemma CommittedButReportedAsError(d: Order, memory: seq<Message>, books: Inventory, extract: Extractor)
    requires Submittable(d, books) && extract(memory).Raised?
    ensures var m := Monitor(d, memory, books, None, extract);
      m.inserted && m.advisory == SystemError(extract(memory).exc) && m.data == d
  {
  }

  /** The manager's state after one `process_order`, and its return (or what it raised). */
  datatype TurnState = TurnState(memory: seq<Message>, data: Order, orders: seq<OrderRow>, reply: Fallible<string>)

  /** One `process_order(request)` from chat memory `memory`, snapshot `data` and table `orders`. */
  function Turn(memory: seq<Message>, data: Order, books: Inventory, orders: seq<OrderRow>, request: string,
                fault: Option<Exception>, extract: Extractor, respond: Composer): (t: TurnState)
    // the memory is only appended to, starting with the user message
    ensures memory <= t.memory && |memory| < |t.memory| <= |memory| + 3
    ensures t.memory[|memory|] == Human(request)
    // at most one advisory, and it is a system message
    ensures |t.memory| > |memory| + 1 ==> t.memory[|memory| + 1].System?
    // once the first extraction returns, Monitor's advisory on its snapshot is appended, and the
    // snapshot becomes the re-extraction over that memory whenever it returns, even if the composer raises
    ensures extract(memory + [Human(request)]).Ok? ==>
              && |t.memory| >= |memory| + 2
              && t.memory[|memory| + 1] ==
                   System(Monitor(extract(memory + [Human(request)]).value, memory + [Human(request)], books, fault, extract).advisory)
              && (extract(t.memory[..|memory| + 2]).Ok? ==> t.data == extract(t.memory[..|memory| + 2]).value)
    // a raising re-extraction propagates with the memory up to the advisory and the monitored snapshot
    ensures extract(memory + [Human(request)]).Ok? && extract(t.memory[..|memory| + 2]).Raised? ==>
              && |t.memory| == |memory| + 2
              && t.reply == Raised(extract(t.memory[..|memory| + 2]).exc)
              && t.data == Monitor(extract(memory + [Human(request)]).value, memory + [Human(request)], books, fault, extract).data
    // a raising composer propagates its exception, with no AI message appended
    ensures extract(memory + [Human(request)]).Ok? && extract(t.memory[..|memory| + 2]).Ok? &&
            respond(t.memory[..|memory| + 2]).Raised? ==>
              |t.memory| == |memory| + 2 && t.reply == Raised(respond(t.memory[..|memory| + 2]).exc)
    ensures extract(memory + [Human(request)]).Ok? && extract(t.memory[..|memory| + 2]).Ok? &&
            respond(t.memory[..|memory| + 2]).Ok? ==>
              t.reply == Ok(respond(t.memory[..|memory| + 2]).value)
    // a reply is returned exactly when the turn ran to the end; it is the last message
    ensures t.reply.Ok? <==> |t.memory| == |memory| + 3
    ensures t.reply.Ok? ==> t.memory[|memory| + 2] == AI(t.reply.value)
    ensures t.reply.Ok? ==> extract(t.memory[..|memory| + 2]) == Ok(t.data)
    // a raising first extraction leaves the snapshot and the table as they were
    ensures extract(memory + [Human(request)]).Raised? ==>
              t == TurnState(memory + [Human(request)], data, orders, Raised(extract(memory + [Human(request)]).exc))
    // the table gains at most one row, and only for a submittable extracted snapshot
    ensures orders <= t.orders && |t.orders| <= |orders| + 1
    ensures |t.orders| == |orders| + 1 <==>
              extract(memory + [Human(request)]).Ok? && fault.None? &&
              Submittable(extract(memory + [Human(request)]).value, books)
    ensures |t.orders| == |orders| + 1 ==> t.orders[|orders|] == RowOf(extract(memory + [Human(request)]).value)
    // within a turn the inner re-extraction sees the first one's transcript, so success means stored
    ensures |t.memory| > |memory| + 1 ==> (t.memory[|memory| + 1] == System(Success) <==> |t.orders| == |orders| + 1)
  {
    var afterUser := memory + [Human(request)];
    match extract(afterUser)
    case Raised(e) => TurnState(afterUser, data, orders, Raised(e))
    case Ok(extracted) =>
      var m := Monitor(extracted, afterUser, books, fault, extract);
      var orders' := if m.inserted then orders + [RowOf(extracted)] else orders;
      var afterAdvice := afterUser + [System(m.advisory)];
      assert afterAdvice[..|memory| + 2] == afterAdvice;
      match extract(afterAdvice)
      case Raised(e) => TurnState(afterAdvice, m.data, orders', Raised(e))
      case Ok(reextracted) =>
        match respond(afterAdvice)
        case Raised(e) => TurnState(afterAdvice, reextracted, orders', Raised(e))
        case Ok(text) =>
          assert (afterAdvice + [AI(text)])[..|memory| + 2] == afterAdvice;
          TurnState(afterAdvice + [AI(text)], reextracted, orders', Ok(text))
  }

  /** A turn whose snapshot is incomplete or unconfirmed stores nothing, whatever the database would say. */
  lemma UngatedTurnStoresNothing(memory: seq<Message>, data: Order, books: Inventory, orders: seq<OrderRow>,
                                 request: string, fault: Option<Exception>, extract: Extractor, respond: Composer)
    requires extract(memory + [Human(request)]).Ok?
    requires var d := extract(memory + [Human(request)]).value; !IsComplete(d) || !d.confirmed
    ensures Turn(memory, data, books, orders, request, fault, extract, respond).orders == orders
  {
  }

  class OrderManager {
    const extract: Extractor
    const respond: Composer
    const db: Database
    var chatMemory: seq<Message>
    var data: Order

    /** `OrderManager()`: an empty chat memory and the initial snapshot. */
    constructor (extract: Extractor, respond: Composer, db: Database)
      ensures this.extract == extract && this.respond == respond && this.db == db
      ensures chatMemory == []
      ensures data == InitializeData()
      ensures MissingFields(data) == DataKeys && !data.confirmed
    {
      this.extract := extract;
      this.respond := respond;
      this.db := db;
      chatMemory := [];
      data := InitializeData();
    }

    /** `_update_data`: replace the snapshot by the extraction of the whole memory, unless it raises. */
    method UpdateData() returns (r: Outcome)
      modifies this`data
      ensures extract(chatMemory).Ok? ==> r == Pass && data == extract(chatMemory).value
      ensures extract(chatMemory).Raised? ==> r == Fail(extract(chatMemory).exc) && data == old(data)
    {
      var result := extract(chatMemory);
      match result
      case Raised(e) => r := Fail(e);
      case Ok(d) =>
        data := d;
        r := Pass;
    }

    /** `_monitor_system`: exactly one advisory; at most one INSERT; exceptions become advisories. */
    method MonitorSystem(fault: Option<Exception>) returns (sysMessages: seq<Message>)
      modifies this`data, db`orders
      ensures var m := Monitor(old(data), chatMemory, db.books, fault, extract);
        && sysMessages == [System(m.advisory)]
        && data == m.data
        && db.orders == old(db.orders) + (if m.inserted then [RowOf(old(data))] else [])
      ensures db.books == old(db.books)
    {
      sysMessages := [];
      var missing := MissingFields(data);
      if |missing| != 0 {
        sysMessages := sysMessages + [System(Missing(missing))];
      } else if data.confirmed {
        var check := CheckOrderValidity(db.books, data.bookId.value, data.quantity.value);
        if check.Fail? {
          sysMessages := sysMessages + [System(SystemError(check.exc))];
        } else {
          var inserted := db.InsertOrderToDb(data, fault);
          if inserted.Fail? {
            sysMessages := sysMessages + [System(SystemError(inserted.exc))];
          } else {
            var updated := UpdateData();
            if updated.Fail? {
              sysMessages := sysMessages + [System(SystemError(updated.exc))];
            } else {
              sysMessages := sysMessages + [System(Success)];
            }
          }
        }
      } else {
        sysMessages := sysMessages + [System(Review)];
      }
    }

    /**
     * `process_order`: append the request, extract, monitor, append the
     * advisory, re-extract, compose and append the reply. An exception of a
     * chain propagates to the caller as `Raised`.
     */
    method ProcessOrder(request: string, fault: Option<Exception>) returns (r: Fallible<string>)
      modifies this`chatMemory, this`data, db`orders
      ensures var t := Turn(old(chatMemory), old(data), old(db.books), old(db.orders), request, fault, extract, respond);
        chatMemory == t.memory && data == t.data && db.orders == t.orders && r == t.reply
      ensures db.books == old(db.books)
    {
      chatMemory := chatMemory + [Human(request)];
      var first := UpdateData();
      if first.Fail? {
        return Raised(first.exc);
      }
      var sysMessages := MonitorSystem(fault);
      chatMemory := chatMemory + sysMessages;
      var second := UpdateData();
      if second.Fail? {
        return Raised(second.exc);
      }
      var response := respond(chatMemory);
      match response
      case Raised(e) => r := Raised(e);
      case Ok(aiContent) =>
        chatMemory := chatMemory + [AI(aiContent)];
        r := Ok(aiContent);
    }
  }

  /** `handle_order`: one turn of the process-wide manager. */
  method HandleOrder(manager: OrderManager, request: string, fault: Option<Exception>) returns (r: Fallible<string>)
    modifies manager`chatMemory, manager`data, manager.db`orders
    ensures var t := Turn(old(manager.chatMemory), old(manager.data), old(manager.db.books), old(manager.db.orders),
                          request, fault, manager.extract, manager.respond);
      manager.chatMemory == t.memory && manager.data == t.data && manager.db.orders == t.orders && r == t.reply
    ensures manager.db.books == old(manager.db.books)
  {
    r := manager.ProcessOrder(request, fault);
  }
}
