/**
 * Chat messages as the core keeps them: the human, system and AI messages
 * of the conversation framework. A system message carries one advisory of
 * the order manager instead of its formatted text.
 */
module Chat {
  import opened Exceptions
  import opened OrderModel

  /** What `_monitor_system` tells the extractor and the composer. */
  datatype Advisory =
    | Missing(fields: seq<Key>)    // "Missing required fields: ...", src/tasks/order.py:117-120
    | Success                      // order submitted, src/tasks/order.py:127-129
    | SystemError(cause: Exception) // "System error: ...", src/tasks/order.py:131-133
    | Review                       // ask to review before confirming, src/tasks/order.py:135-137

  datatype Message =
    | Human(content: string)
    | AI(content: string)
    | System(advisory: Advisory)
}
