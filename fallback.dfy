/**
 * The general-chat handler of src/tasks/fallback.py: the UI's history of
 * role-tagged entries is turned into chat messages (user entries become
 * human messages, assistant entries AI messages, anything else is dropped)
 * and passed with the request to the chat model.
 */
module Fallback {
  import opened Exceptions
  import opened Chat

  /** One entry of the UI history: a role and a text. */
  datatype ChatEntry = ChatEntry(role: string, content: string)

  /** The general chat model: request and converted history to a reply. */
  type ChatModel = (string, seq<Message>) -> Fallible<string>

  predicate IsKept(e: ChatEntry) {
    e.role == "user" || e.role == "assistant"
  }

  /** The message a kept entry becomes. */
  function ToMessage(e: ChatEntry): (m: Message)
    requires IsKept(e)
    ensures m.Human? <==> e.role == "user"
    ensures m.AI? <==> e.role == "assistant"
    ensures !m.System? && m.content == e.content
  {
    if e.role == "user" then Human(e.content) else AI(e.content)
  }

  /** What one entry contributes to the converted history. */
  function Contribution(e: ChatEntry): seq<Message> {
    if IsKept(e) then [ToMessage(e)] else []
  }

  /** The converted history, defined entry by entry from the front of the list. */
  function Converted(entries: seq<ChatEntry>): seq<Message>
    decreases |entries|
  {
    if entries == [] then []
    else Converted(entries[..|entries| - 1]) + Contribution(entries[|entries| - 1])
  }

  /** Where the image of entry `i` sits in the converted history. */
  function Position(entries: seq<ChatEntry>, i: nat): nat
    requires i <= |entries|
  {
    |Converted(entries[..i])|
  }

  /** Conversion distributes over concatenation. */
  lemma {:induction false} ConvertedAppend(a: seq<ChatEntry>, b: seq<ChatEntry>)
    ensures Converted(a + b) == Converted(a) + Converted(b)
    decreases |b|
  {
    if b == [] {
      assert a + b == a;
    } else {
      var b' := b[..|b| - 1];
      assert (a + b)[..|a + b| - 1] == a + b';
      ConvertedAppend(a, b');
    }
  }

  /** Converting a prefix one entry longer adds that entry's contribution. */
  lemma PrefixStep(entries: seq<ChatEntry>, i: nat)
    requires i < |entries|
    ensures Converted(entries[..i + 1]) == Converted(entries[..i]) + Contribution(entries[i])
  {
    assert entries[..i + 1][..i] == entries[..i];
  }

  /** Never longer than the input; as long exactly when every role is `user` or `assistant`. */
  lemma {:induction false} ConvertedLength(entries: seq<ChatEntry>)
    ensures |Converted(entries)| <= |entries|
    ensures |Converted(entries)| == |entries| <==> forall i :: 0 <= i < |entries| ==> IsKept(entries[i])
    decreases |entries|
  {
    if entries != [] {
      var init := entries[..|entries| - 1];
      ConvertedLength(init);
      if forall i :: 0 <= i < |entries| ==> IsKept(entries[i]) {
        assert forall i :: 0 <= i < |init| ==> IsKept(init[i]) by {
          forall i | 0 <= i < |init| ensures IsKept(init[i]) { assert init[i] == entries[i]; }
        }
      } else {
        var j :| 0 <= j < |entries| && !IsKept(entries[j]);
        if j < |init| {
          assert init[j] == entries[j];
        }
      }
    }
  }

  /** A dropped entry contributes nothing; a kept one contributes exactly its message. */
  lemma EntryImage(entries: seq<ChatEntry>, i: nat)
    requires i < |entries|
    ensures !IsKept(entries[i]) ==> Position(entries, i + 1) == Position(entries, i)
    ensures IsKept(entries[i]) ==>
              Position(entries, i) < |Converted(entries)| && Converted(entries)[Position(entries, i)] == ToMessage(entries[i])
  {
    PrefixStep(entries, i);
    ConvertedAppend(entries[..i + 1], entries[i + 1..]);
    assert entries[..i + 1] + entries[i + 1..] == entries;
  }

  /** Relative order is kept: an earlier kept entry's message comes before a later entry's. */
  lemma {:induction false} OrderPreserved(entries: seq<ChatEntry>, i: nat, j: nat)
    requires i < j <= |entries|
    ensures Position(entries, i) <= Position(entries, j)
    ensures IsKept(entries[i]) ==> Position(entries, i) < Position(entries, j)
    decreases j - i
  {
    PrefixStep(entries, i);
    if i + 1 < j {
      OrderPreserved(entries, i + 1, j);
    }
  }

  /** Every converted message is the message of some kept entry. */
  lemma {:induction false} ConvertedComesFromKept(entries: seq<ChatEntry>, m: Message)
    requires m in Converted(entries)
    ensures exists i :: 0 <= i < |entries| && IsKept(entries[i]) && ToMessage(entries[i]) == m
    decreases |entries|
  {
    var init := entries[..|entries| - 1];
    var last := entries[|entries| - 1];
    if m in Converted(init) {
      ConvertedComesFromKept(init, m);
      var i :| 0 <= i < |init| && IsKept(init[i]) && ToMessage(init[i]) == m;
      assert entries[i] == init[i];
    } else {
      assert IsKept(last) && ToMessage(last) == m;
    }
  }

  /** `convert_history`: one pass over the entries, appending each kept one's message. */
  method ConvertHistory(messages: seq<ChatEntry>) returns (converted: seq<Message>)
    ensures converted == Converted(messages)
  {
    converted := [];
    for i := 0 to |messages|
      invariant converted == Converted(messages[..i])
    {
      var m := messages[i];
      PrefixStep(messages, i);
      if m.role == "user" {
        converted := converted + [Human(m.content)];
      } else if m.role == "assistant" {
        converted := converted + [AI(m.content)];
      }
    }
    assert messages[..|messages|] == messages;
  }

  /** `handle_fallback`: the chat model's answer to the request with the converted history. */
  method HandleFallback(request: string, history: seq<ChatEntry>, chat: ChatModel) returns (r: Fallible<string>)
    ensures r == chat(request, Converted(history))
  {
    var convertedHistory := ConvertHistory(history);
    r := chat(request, convertedHistory);
  }
}
