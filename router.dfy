/**
 * `handle_user_request` of src/router.py: classify the request once and run
 * exactly one handler, returning its result unchanged. The classifier and
 * the lookup, recommendation and chat handlers are external functions that
 * may raise; the order handler is the process-wide order manager.
 */
module Router {
  import opened Wrappers
  import opened Exceptions
  import opened OrderTask
  import opened Fallback

  datatype Handler = LookupHandler | RecommendHandler | OrderHandler | FallbackHandler

  /** The handlers outside the core, as functions. */
  datatype Services = Services(
    classify: string -> Fallible<string>,
    lookup: string -> Fallible<string>,
    recommend: string -> Fallible<string>,
    chat: ChatModel)

  /** The `if`/`elif` chain on the task label: three exact labels, everything else to the fallback. */
  function Route(task: string): (h: Handler)
    ensures h == LookupHandler <==> task == "lookup"
    ensures h == RecommendHandler <==> task == "recommend"
    ensures h == OrderHandler <==> task == "order"
    ensures h == FallbackHandler <==> task !in {"lookup", "recommend", "order"}
  {
    if task == "lookup" then LookupHandler
    else if task == "recommend" then RecommendHandler
    else if task == "order" then OrderHandler
    else FallbackHandler
  }

  /**
   * `handle_user_request(request, history)`. An exception of the classifier or
   * of the handler propagates as `Raised`. Only the order handler touches the
   * order manager, and it gets the request alone, not the history.
   */
  method HandleUserRequest(request: string, history: seq<ChatEntry>, services: Services,
                           manager: OrderManager, fault: Option<Exception>) returns (r: Fallible<string>)
    modifies manager`chatMemory, manager`data, manager.db`orders
    ensures services.classify(request).Raised? ==>
              r == Raised(services.classify(request).exc) &&
              unchanged(manager) && manager.db.orders == old(manager.db.orders)
    ensures services.classify(request).Ok? ==>
              var handler := Route(services.classify(request).value);
              && (handler == LookupHandler ==> r == services.lookup(request))
              && (handler == RecommendHandler ==> r == services.recommend(request))
              && (handler == FallbackHandler ==> r == services.chat(request, Converted(history)))
              && (handler != OrderHandler ==> unchanged(manager) && manager.db.orders == old(manager.db.orders))
              && (handler == OrderHandler ==>
                    var t := Turn(old(manager.chatMemory), old(manager.data), old(manager.db.books),
                                  old(manager.db.orders), request, fault, manager.extract, manager.respond);
                    manager.chatMemory == t.memory && manager.data == t.data &&
                    manager.db.orders == t.orders && r == t.reply)
  {
    var task := services.classify(request);
    if task.Raised? {
      return Raised(task.exc);
    }
    var handler := Route(task.value);
    match handler
    case LookupHandler => r := services.lookup(request);
    case RecommendHandler => r := services.recommend(request);
    case OrderHandler => r := HandleOrder(manager, request, fault);
    case FallbackHandler => r := HandleFallback(request, history, services.chat);
  }
}
