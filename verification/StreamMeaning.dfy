/** What decoding a stream means in the terms of its calls, texts and metadata
    (pkg/rtagent/openai_provider_decode.go). */
module StreamMeaning {
  import opened Wrappers
  import opened ToolStream
  import Text

  /****** Calls, texts and metadata ******/

  /** A call decodes: it has a name, and its arguments are blank or parse. */
  predicate DecodesTo(call: WireCall, out: Call, parse: Parser) {
    && out.id == call.id && out.name == Text.Trim(call.name) && out.name != ""
    && (if Text.Blank(call.arguments) then out.arguments == Empty
        else parse(call.arguments).Some? && out.arguments == Parsed(parse(call.arguments).value))
  }

  /** It does not, and why. */
  predicate FailsWith(call: WireCall, error: Error, parse: Parser) {
    if Text.Blank(call.name) then error == MissingName
    else !Text.Blank(call.arguments) && parse(call.arguments).None? && error == BadArguments(Text.Trim(call.name))
  }

  /** Calls decode together exactly when each of them does, one by one and in order. */
  lemma {:induction false} DecodesExactly(calls: seq<WireCall>, outs: seq<Call>, parse: Parser)
    ensures DecodeCalls(calls, parse) == Ok(outs) <==>
      |outs| == |calls| && forall k :: 0 <= k < |calls| ==> DecodesTo(calls[k], outs[k], parse)
  {
    if calls != [] {
      var n := |calls| - 1;
      assert calls == calls[..n] + [calls[n]];
      if outs != [] {
        var m := |outs| - 1;
        DecodesExactly(calls[..n], outs[..m], parse);
        assert outs == outs[..m] + [outs[m]];
      }
      if DecodeCalls(calls[..n], parse).Ok? {
        DecodesExactly(calls[..n], DecodeCalls(calls[..n], parse).value, parse);
      }
    }
  }

  /** Otherwise the first call that fails gives the error. */
  lemma FailsExactly(calls: seq<WireCall>, error: Error, parse: Parser)
    ensures DecodeCalls(calls, parse) == Err(error) <==> exists k :: FirstFailure(calls, k, error, parse)
  {
    if DecodeCalls(calls, parse) == Err(error) {
      FailsSomewhere(calls, error, parse);
    }
    if k :| FirstFailure(calls, k, error, parse) {
      FailureStands(calls, k, error, parse);
    }
  }

  lemma {:induction false} FailsSomewhere(calls: seq<WireCall>, error: Error, parse: Parser)
    requires DecodeCalls(calls, parse) == Err(error)
    ensures exists k :: FirstFailure(calls, k, error, parse)
  {
    var n := |calls| - 1;
    assert calls == calls[..n] + [calls[n]];
    if DecodeCalls(calls[..n], parse).Ok? {
      OkDecodes(calls[..n], DecodeCalls(calls[..n], parse).value, parse);
      FailsAtLast(calls[..n], calls[n], error, parse);
    } else {
      FailsSomewhere(calls[..n], error, parse);
      FailsEarlier(calls[..n], calls[n], error, parse);
    }
  }

  lemma OkDecodes(calls: seq<WireCall>, outs: seq<Call>, parse: Parser)
    requires DecodeCalls(calls, parse) == Ok(outs)
    ensures forall j :: 0 <= j < |calls| ==> Decodes(calls[j], parse)
  {
    DecodesExactly(calls, outs, parse);
    assert forall j :: 0 <= j < |calls| ==> DecodesTo(calls[j], outs[j], parse);
  }

  lemma FailsAtLast(calls: seq<WireCall>, last: WireCall, error: Error, parse: Parser)
    requires forall j :: 0 <= j < |calls| ==> Decodes(calls[j], parse)
    requires FailsWith(last, error, parse)
    ensures exists k :: FirstFailure(calls + [last], k, error, parse)
  {
    assert FirstFailure(calls + [last], |calls|, error, parse);
  }

  lemma FailsEarlier(calls: seq<WireCall>, last: WireCall, error: Error, parse: Parser)
    requires exists k :: FirstFailure(calls, k, error, parse)
    ensures exists k :: FirstFailure(calls + [last], k, error, parse)
  {
    var k :| FirstFailure(calls, k, error, parse);
    assert FirstFailure(calls + [last], k, error, parse);
  }

  predicate FirstFailure(calls: seq<WireCall>, k: int, error: Error, parse: Parser) {
    && 0 <= k < |calls| && FailsWith(calls[k], error, parse)
    && forall j :: 0 <= j < k ==> Decodes(calls[j], parse)
  }

  predicate Decodes(call: WireCall, parse: Parser) {
    !Text.Blank(call.name) && (Text.Blank(call.arguments) || parse(call.arguments).Some?)
  }

  lemma {:induction false} AllDecode(calls: seq<WireCall>, parse: Parser)
    requires forall j :: 0 <= j < |calls| ==> Decodes(calls[j], parse)
    ensures DecodeCalls(calls, parse).Ok?
  {
    if calls != [] {
      AllDecode(calls[..|calls| - 1], parse);
    }
  }

  lemma FailureStands(calls: seq<WireCall>, k: nat, error: Error, parse: Parser)
    requires FirstFailure(calls, k, error, parse)
    ensures DecodeCalls(calls, parse) == Err(error)
  {
    AllDecode(calls[..k], parse);
    assert calls[..k + 1][..k] == calls[..k];
    FirstErrorStays(calls, k + 1, parse);
  }

  /** Texts joined by a separator. */
  function Join(texts: seq<string>, separator: string): string {
    if texts == [] then "" else if |texts| == 1 then texts[0] else texts[0] + separator + Join(texts[1..], separator)
  }

  /** The texts among the parts of a content. */
  function Texts(parts: seq<Option<string>>): seq<string> {
    if parts == [] then [] else (if parts[0].Some? then [parts[0].value] else []) + Texts(parts[1..])
  }

  lemma TextsCons(first: Option<string>, rest: seq<Option<string>>)
    ensures Texts([first] + rest) == (if first.Some? then [first.value] else []) + Texts(rest)
  {
    assert ([first] + rest)[1..] == rest;
  }

  lemma {:induction false} TextsAppend(parts: seq<Option<string>>, last: Option<string>)
    ensures Texts(parts + [last]) == if last.Some? then Texts(parts) + [last.value] else Texts(parts)
  {
    if parts == [] {
      assert parts + [last] == [last] && [last][1..] == [];
    } else {
      assert parts + [last] == [parts[0]] + (parts[1..] + [last]) && parts == [parts[0]] + parts[1..];
      TextsCons(parts[0], parts[1..] + [last]);
      TextsCons(parts[0], parts[1..]);
      TextsAppend(parts[1..], last);
    }
  }

  lemma {:induction false} NoTexts(parts: seq<Option<string>>)
    ensures Texts(parts) == [] <==> forall k :: 0 <= k < |parts| ==> parts[k].None?
  {
    if parts != [] {
      NoTexts(parts[1..]);
      assert forall k :: 0 < k < |parts| ==> parts[k] == parts[1..][k - 1];
    }
  }

  lemma {:induction false} JoinAppend(texts: seq<string>, last: string, separator: string)
    ensures Join(texts + [last], separator) == if texts == [] then last else Join(texts, separator) + separator + last
  {
    if |texts| <= 1 {
      assert texts == [] ==> texts + [last] == [last];
      assert |texts| == 1 ==> (texts + [last])[1..] == [last];
    } else {
      assert (texts + [last])[1..] == texts[1..] + [last];
      JoinAppend(texts[1..], last, separator);
      assert texts[0] + separator + (Join(texts[1..], separator) + separator + last)
        == texts[0] + separator + Join(texts[1..], separator) + separator + last;
    }
  }

  /** The text of a content: a plain text as it is, the texts among its parts on lines of their own, trimmed. */
  lemma ContentMeans(content: Content)
    ensures content.Plain? ==> ContentText(content) == content.text
    ensures content.Parts? ==> ContentText(content) == Text.Trim(Join(Texts(content.parts), "\n"))
    ensures content.Opaque? ==> ContentText(content) == ""
  {
    if content.Parts? {
      PartsJoin(content.parts);
    }
  }

  lemma {:induction false} PartsJoin(parts: seq<Option<string>>)
    ensures JoinParts(parts) == Join(Texts(parts), "\n")
  {
    if parts != [] {
      var init, last := parts[..|parts| - 1], parts[|parts| - 1];
      assert parts == init + [last];
      PartsJoin(init);
      TextsAppend(init, last);
      NoTexts(init);
      assert (forall p <- init :: p.None?) <==> forall k :: 0 <= k < |init| ==> init[k].None?;
      if last.Some? {
        JoinAppend(Texts(init), last.value, "\n");
      }
    }
  }

  lemma OneChoiceMore(a: seq<Choice>, b: seq<Choice>, last: Choice, more: seq<Choice>)
    requires StreamText(a + b) == StreamText(a) + StreamText(b)
    requires more == b + [last]
    ensures StreamText(a + more) == StreamText(a) + StreamText(more)
  {
    assert a + more == a + b + [last];
    OneMoreChoice(a + b, last);
    OneMoreChoice(b, last);
    TextAssociates(StreamText(a), StreamText(b), ContentText(last.content));
  }

  lemma NoChoiceMore(a: seq<Choice>)
    ensures StreamText(a + []) == StreamText(a) + StreamText([])
  {
    assert a + [] == a;
  }

  /** The text of a stream is that of its choices, one after the other. */
  lemma {:induction false} StreamTextMeans(a: seq<Choice>, b: seq<Choice>)
    ensures StreamText(a + b) == StreamText(a) + StreamText(b)
    decreases |b|
  {
    if b == [] {
      NoChoiceMore(a);
    } else {
      var n := |b| - 1;
      var init, last := b[..n], b[n];
      StreamTextMeans(a, init);
      OneChoiceMore(a, init, last, b);
    }
  }

  lemma TextAssociates(a: string, b: string, c: string)
    ensures a + b + c == a + (b + c)
  {
  }

  lemma OneChoice(choice: Choice)
    ensures StreamText([choice]) == ContentText(choice.content)
  {
    assert [] + [choice] == [choice];
    OneMoreChoice([], choice);
  }

  /** The value is the last one that is set. */
  ghost predicate LastOf(values: seq<string>, value: string) {
    || (value == "" && forall k :: 0 <= k < |values| ==> values[k] == "")
    || exists k :: 0 <= k < |values| && values[k] == value != "" && forall j :: k < j < |values| ==> values[j] == ""
  }

  lemma LastOfAppend(values: seq<string>, next: string, value: string)
    requires LastOf(values, value)
    ensures LastOf(values + [next], Text.Override(value, next))
  {
    var all, n := values + [next], |values|;
    if next != "" {
      assert all[n] == next;
    } else if k :| 0 <= k < n && values[k] == value != "" && forall j :: k < j < n ==> values[j] == "" {
      assert all[k] == value;
    }
  }

  /** Id, model and stop reason of a streamed response are the last ones that its chunks and choices set. */
  lemma {:induction false} MetadataIsLast(chunks: seq<Chunk>)
    ensures LastOf(seq(|chunks|, i requires 0 <= i < |chunks| => chunks[i].id), LastId(chunks))
    ensures LastOf(seq(|chunks|, i requires 0 <= i < |chunks| => chunks[i].model), LastModel(chunks))
  {
    if chunks != [] {
      var n := |chunks| - 1;
      MetadataIsLast(chunks[..n]);
      var ids, models := seq(n, i requires 0 <= i < n => chunks[i].id), seq(n, i requires 0 <= i < n => chunks[i].model);
      assert ids == seq(|chunks[..n]|, i requires 0 <= i < |chunks[..n]| => chunks[..n][i].id);
      assert models == seq(|chunks[..n]|, i requires 0 <= i < |chunks[..n]| => chunks[..n][i].model);
      LastOfAppend(ids, chunks[n].id, LastId(chunks[..n]));
      LastOfAppend(models, chunks[n].model, LastModel(chunks[..n]));
      assert seq(|chunks|, i requires 0 <= i < |chunks| => chunks[i].id) == ids + [chunks[n].id];
      assert seq(|chunks|, i requires 0 <= i < |chunks| => chunks[i].model) == models + [chunks[n].model];
    }
  }

  lemma {:induction false} StopReasonIsLast(choices: seq<Choice>)
    ensures LastOf(seq(|choices|, i requires 0 <= i < |choices| => choices[i].finishReason), StopReason(choices))
  {
    if choices != [] {
      var n := |choices| - 1;
      StopReasonIsLast(choices[..n]);
      var reasons := seq(n, i requires 0 <= i < n => choices[i].finishReason);
      assert reasons == seq(|choices[..n]|, i requires 0 <= i < |choices[..n]| => choices[..n][i].finishReason);
      LastOfAppend(reasons, choices[n].finishReason, StopReason(choices[..n]));
      assert seq(|choices|, i requires 0 <= i < |choices| => choices[i].finishReason) == reasons + [choices[n].finishReason];
    }
  }
}
