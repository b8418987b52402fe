/** The message window applied before every model turn (pkg/rtagent/loop_context_budget.go). */
module MessageWindow {
  import opened Types
  import Text

  predicate IsUser(m: Message) {
    Text.Trim(m.role) == "user"
  }

  /** Index of the first user message at or after i, or the length of the conversation when there is none. */
  function FirstUserFrom(messages: seq<Message>, i: nat): (f: nat)
    requires i <= |messages|
    ensures i <= f <= |messages|
    decreases |messages| - i
  {
    if i == |messages| || IsUser(messages[i]) then i else FirstUserFrom(messages, i + 1)
  }

  lemma {:induction false} FirstUserFromIs(messages: seq<Message>, i: nat)
    requires i <= |messages|
    ensures FirstUserFrom(messages, i) < |messages| ==> IsUser(messages[FirstUserFrom(messages, i)])
    ensures forall j :: i <= j < FirstUserFrom(messages, i) ==> !IsUser(messages[j])
    decreases |messages| - i
  {
    if i < |messages| && !IsUser(messages[i]) {
      FirstUserFromIs(messages, i + 1);
    }
  }

  function FirstUser(messages: seq<Message>): nat {
    FirstUserFrom(messages, 0)
  }

  /** The last n messages, or all of them when there are fewer. */
  function Last(messages: seq<Message>, n: nat): seq<Message> {
    if |messages| <= n then messages else messages[|messages| - n..]
  }

  /** What a model turn may see of a conversation: the first user message, when it has fallen
      out of the last max messages, followed by the most recent messages. */
  function Window(messages: seq<Message>, max: int): seq<Message> {
    if max <= 0 || |messages| <= max then
      messages
    else if FirstUser(messages) < |messages| - max then
      [messages[FirstUser(messages)]] + Last(messages, if max == 1 then 1 else max - 1)
    else
      Last(messages, max)
  }

  /** The search loop of trimMessagesToWindow. */
  method FindFirstUser(messages: seq<Message>) returns (firstUserIdx: int)
    ensures firstUserIdx == if FirstUser(messages) < |messages| then FirstUser(messages) else -1
  {
    for i := 0 to |messages|
      invariant FirstUser(messages) == FirstUserFrom(messages, i)
    {
      if IsUser(messages[i]) {
        return i;
      }
    }
    return -1;
  }

  /** trimMessagesToWindow: the search and the guarded tail copy. */
  method TrimMessagesToWindow(messages: seq<Message>, max: int) returns (result: seq<Message>)
    ensures result == Window(messages, max)
  {
    if max <= 0 || |messages| <= max {
      return messages;
    }
    var firstUserIdx := FindFirstUser(messages);
    var tailCount := max;
    result := [];
    if firstUserIdx >= 0 && firstUserIdx < |messages| - tailCount {
      result := [messages[firstUserIdx]];
      tailCount := max - 1;
      if tailCount < 1 {
        tailCount := 1;
      }
    }
    var start := |messages| - tailCount;
    if start < 0 {
      start := 0;
    }
    if firstUserIdx >= 0 && start <= firstUserIdx && |result| > 0 {
      start := firstUserIdx + 1;
    }
    result := result + messages[start..];
  }

  lemma FirstUserIs(messages: seq<Message>, i: nat)
    requires i <= |messages|
    requires i < |messages| ==> IsUser(messages[i])
    requires forall j :: 0 <= j < i ==> !IsUser(messages[j])
    ensures FirstUser(messages) == i
  {
    FirstUserFromIs(messages, 0);
  }

  /** The window keeps the first user message and respects its limit from two messages on;
      with a limit of one it holds two messages exactly when that message lies outside the tail. */
  lemma WindowBounds(messages: seq<Message>, max: int)
    requires max >= 1
    ensures FirstUser(messages) < |messages| ==> messages[FirstUser(messages)] in Window(messages, max)
    ensures max >= 2 ==> |Window(messages, max)| <= max
    ensures max == 1 ==> (|Window(messages, max)| <= 1 <==> FirstUser(messages) >= |messages| - 1)
    ensures |messages| >= max ==> |Window(messages, max)| >= max
  {
    var f := FirstUser(messages);
    if |messages| > max && |messages| - max <= f < |messages| {
      assert messages[f] == Last(messages, max)[f - (|messages| - max)];
    }
  }

  /** A window of two or more messages is one message, the first user message if that has fallen out of the
      tail, and then the most recent ones; a conversation that fits is kept whole. */
  lemma WindowIsRecent(messages: seq<Message>, max: int)
    ensures max <= 0 || |messages| <= max ==> Window(messages, max) == messages
    ensures 2 <= max < |messages| ==>
      var w, n, f := Window(messages, max), |messages|, FirstUser(messages);
      && |w| == max && w[1..] == messages[n - (max - 1)..] && w[0] == messages[if f < n - max then f else n - max]
    ensures messages != [] ==>
      var w := Window(messages, max);
      w != [] && w[|w| - 1] == messages[|messages| - 1]
  {
  }

  /** The first user message is the first whose role reads user. */
  lemma FirstUserMeans(messages: seq<Message>)
    ensures FirstUser(messages) <= |messages|
    ensures FirstUser(messages) < |messages| ==> Text.Trim(messages[FirstUser(messages)].role) == "user"
    ensures forall j :: 0 <= j < FirstUser(messages) ==> Text.Trim(messages[j].role) != "user"
  {
    FirstUserFromIs(messages, 0);
    assert forall j :: 0 <= j < FirstUser(messages) ==> !IsUser(messages[j]);
  }

  lemma FirstUserOfAppend(a: seq<Message>, b: seq<Message>)
    ensures FirstUser(a + b) == if FirstUser(a) < |a| then FirstUser(a) else |a| + FirstUser(b)
  {
    var f := if FirstUser(a) < |a| then FirstUser(a) else |a| + FirstUser(b);
    FirstUserFromIs(a, 0);
    FirstUserFromIs(b, 0);
    assert f < |a + b| ==> IsUser((a + b)[f]);
    FirstUserIs(a + b, f);
  }

  /** Trimming as the conversation grows gives the same window as trimming the whole transcript once. */
  lemma IncrementalTrim(history: seq<Message>, added: seq<Message>, max: int)
    ensures Window(Window(history, max) + added, max) == Window(history + added, max)
  {
    if max > 0 && |history| > max {
      if FirstUser(history) < |history| - max {
        TrimAnchored(history, added, max);
      } else {
        TrimTail(history, added, max);
      }
    }
  }

  lemma LastOfAppend(a: seq<Message>, b: seq<Message>, n: nat)
    requires n <= |a| + |b|
    ensures Last(a + b, n) == if n <= |b| then Last(b, n) else Last(a, n - |b|) + b
  {
  }

  /** Appending to a suffix or to the whole leaves the same most recent n messages. */
  lemma LastAfterCut(a: seq<Message>, m: nat, b: seq<Message>, n: nat)
    requires m <= |a| && n <= m + |b|
    ensures Last(Last(a, m) + b, n) == Last(a + b, n)
  {
  }

  lemma TrimAnchored(history: seq<Message>, added: seq<Message>, max: int)
    requires 0 < max < |history| && FirstUser(history) < |history| - max
    ensures Window(Window(history, max) + added, max) == Window(history + added, max)
  {
    var f, t, kept := FirstUser(history), if max == 1 then 1 else max - 1, Window(history, max);
    FirstUserFromIs(history, 0);
    FirstUserIs(kept, 0);
    if added == [] {
      assert kept + added == kept && history + added == history;
    } else {
      FirstUserOfAppend(history, added);
      FirstUserOfAppend(kept, added);
      assert kept + added == [history[f]] + (Last(history, t) + added);
      LastOfAppend([history[f]], Last(history, t) + added, t);
      LastAfterCut(history, t, added, t);
    }
  }

  lemma FirstUserOfTail(history: seq<Message>, n: nat)
    requires n < |history| && FirstUser(history) >= |history| - n
    ensures FirstUser(Last(history, n)) == FirstUser(history) - (|history| - n)
  {
    var cut, tail := |history| - n, Last(history, n);
    FirstUserFromIs(history, 0);
    assert forall j :: 0 <= j < n ==> tail[j] == history[cut + j];
    FirstUserIs(tail, FirstUser(history) - cut);
  }

  /** The first user message of a conversation whose older part was cut off before it. */
  lemma FirstUserAfterCut(history: seq<Message>, added: seq<Message>, n: nat)
    requires n < |history| && FirstUser(history) >= |history| - n
    ensures FirstUser(history + added) - FirstUser(Last(history, n) + added) == |history| - n
  {
    FirstUserOfTail(history, n);
    FirstUserOfAppend(history, added);
    FirstUserOfAppend(Last(history, n), added);
  }

  lemma AfterCutAt(history: seq<Message>, added: seq<Message>, n: nat, i: nat)
    requires n < |history| && |history| - n <= i < |history + added|
    ensures (Last(history, n) + added)[i - (|history| - n)] == (history + added)[i]
  {
  }

  lemma TrimTail(history: seq<Message>, added: seq<Message>, max: int)
    requires 0 < max < |history| && FirstUser(history) >= |history| - max
    ensures Window(Window(history, max) + added, max) == Window(history + added, max)
  {
    var kept, rest := Last(history, max), if max == 1 then 1 else max - 1;
    var a, b := kept + added, history + added;
    FirstUserAfterCut(history, added, max);
    assert Window(history, max) == kept && |b| - |a| == |history| - max;
    if FirstUser(b) < |b| - max {
      AfterCutAt(history, added, max, FirstUser(b));
      LastAfterCut(history, max, added, rest);
    } else {
      LastAfterCut(history, max, added, max);
      WindowIsTail(a, max);
      WindowIsTail(b, max);
    }
  }

  lemma WindowIsTail(messages: seq<Message>, max: int)
    requires 0 < max && FirstUser(messages) >= |messages| - max
    ensures Window(messages, max) == Last(messages, max)
  {
  }

  /** Whatever is appended later, a conversation and its window keep the same window. */
  lemma SyncedAppend(messages: seq<Message>, transcript: seq<Message>, added: seq<Message>, max: int)
    requires Window(messages, max) == Window(transcript, max)
    ensures Window(messages + added, max) == Window(transcript + added, max)
  {
    IncrementalTrim(messages, added, max);
    IncrementalTrim(transcript, added, max);
  }
}
