/** Decoding of chat completions, whole and streamed (pkg/rtagent/openai_provider_decode.go). */
module ToolStream {
  import opened Wrappers
  import Text
  import Sorting

  /** A tool call on the wire, or one delta of it. */
  datatype WireCall = WireCall(index: int, id: string, kind: string, name: string, arguments: string)

  /** Message content: a string, a list of parts of which some carry text, or something else. */
  datatype Content = Plain(text: string) | Parts(parts: seq<Option<string>>) | Opaque

  datatype Choice = Choice(content: Content, toolCalls: seq<WireCall>, finishReason: string)

  /** Numbers and names of the response; usage is kept as reported. */
  datatype Chunk = Chunk(id: string, model: string, usage: Option<string>, choices: seq<Choice>)

  datatype Call = Call(id: string, name: string, arguments: Arguments)

  /** Decoded arguments; an absent text decodes to the empty object. */
  datatype Arguments = Empty | Parsed(value: string)

  datatype Response = Response(
    output: string, toolCalls: seq<Call>, id: string, model: string, usage: Option<string>, stopReason: string)

  datatype Error = NoChoices | MissingName | BadArguments(name: string)

  /** The JSON decoder of argument texts. */
  type Parser = string -> Option<string>

  /****** Whole responses ******/

  function JoinParts(parts: seq<Option<string>>): string {
    if parts == [] then "" else
      var init := parts[..|parts| - 1];
      var last := parts[|parts| - 1];
      if last.None? then JoinParts(init)
      else if forall p <- init :: p.None? then last.value
      else JoinParts(init) + "\n" + last.value
  }

  function ContentText(content: Content): string {
    match content
    case Plain(text) => text
    case Parts(parts) => Text.Trim(JoinParts(parts))
    case Opaque => ""
  }

  function DecodeCall(call: WireCall, parse: Parser): Result<Call, Error> {
    var name := Text.Trim(call.name);
    if name == "" then Err(MissingName)
    else if Text.Blank(call.arguments) then Ok(Call(call.id, name, Empty))
    else match parse(call.arguments)
      case None => Err(BadArguments(name))
      case Some(value) => Ok(Call(call.id, name, Parsed(value)))
  }

  /** All calls in order, or the first error. */
  function DecodeCalls(calls: seq<WireCall>, parse: Parser): Result<seq<Call>, Error> {
    if calls == [] then Ok([]) else
      var rest := DecodeCalls(calls[..|calls| - 1], parse);
      if rest.Err? then rest
      else match DecodeCall(calls[|calls| - 1], parse)
        case Err(e) => Err(e)
        case Ok(call) => Ok(rest.value + [call])
  }

  method DecodeToolCalls(calls: seq<WireCall>, parse: Parser) returns (result: Result<seq<Call>, Error>)
    ensures result == DecodeCalls(calls, parse)
  {
    var out: seq<Call> := [];
    for i := 0 to |calls|
      invariant DecodeCalls(calls[..i], parse) == Ok(out)
    {
      var call := calls[i];
      assert calls[..i + 1][..i] == calls[..i];
      var name := Text.Trim(call.name);
      if name == "" {
        FirstErrorStays(calls, i + 1, parse);
        return Err(MissingName);
      }
      var arguments := Empty;
      if !Text.Blank(call.arguments) {
        match parse(call.arguments) {
          case None =>
            FirstErrorStays(calls, i + 1, parse);
            return Err(BadArguments(name));
          case Some(value) =>
            arguments := Parsed(value);
        }
      }
      out := out + [Call(call.id, name, arguments)];
    }
    assert calls[..|calls|] == calls;
    return Ok(out);
  }

  lemma {:induction false} FirstErrorStays(calls: seq<WireCall>, i: nat, parse: Parser)
    requires i <= |calls| && DecodeCalls(calls[..i], parse).Err?
    ensures DecodeCalls(calls, parse) == DecodeCalls(calls[..i], parse)
  {
    if i == |calls| {
      assert calls[..i] == calls;
    } else {
      assert calls[..|calls| - 1][..i] == calls[..i];
      FirstErrorStays(calls[..|calls| - 1], i, parse);
    }
  }

  /** Decoding of a whole response: the first choice counts. */
  function Decode(response: Chunk, parse: Parser): Result<Response, Error> {
    if response.choices == [] then Err(NoChoices) else
      var choice := response.choices[0];
      match DecodeCalls(choice.toolCalls, parse)
      case Err(e) => Err(e)
      case Ok(calls) => Ok(Response(ContentText(choice.content), calls, response.id, response.model, response.usage, choice.finishReason))
  }

  /****** What a stream means ******/

  function Choices(chunks: seq<Chunk>): seq<Choice> {
    if chunks == [] then [] else Choices(chunks[..|chunks| - 1]) + chunks[|chunks| - 1].choices
  }

  /** The text of all choices, in order of arrival. */
  function StreamText(choices: seq<Choice>): string {
    if choices == [] then "" else StreamText(choices[..|choices| - 1]) + ContentText(choices[|choices| - 1].content)
  }

  /** The tool-call deltas of all choices, in order of arrival. */
  function Deltas(choices: seq<Choice>): seq<WireCall> {
    if choices == [] then [] else Deltas(choices[..|choices| - 1]) + choices[|choices| - 1].toolCalls
  }

  /** The deltas of one index. */
  function ForIndex(deltas: seq<WireCall>, index: int): seq<WireCall> {
    if deltas == [] then [] else
      var before, last := ForIndex(deltas[..|deltas| - 1], index), deltas[|deltas| - 1];
      if last.index == index then before + [last] else before
  }

  function FirstCall(index: int): WireCall {
    WireCall(index, "", "function", "", "")
  }

  function Extended(call: WireCall, delta: WireCall): WireCall {
    WireCall(call.index, Text.Override(call.id, delta.id), Text.Override(call.kind, delta.kind),
             call.name + delta.name, call.arguments + delta.arguments)
  }

  /** Assembly of the deltas of one call: the last non-empty id and type, names and arguments concatenated. */
  function Assemble(deltas: seq<WireCall>, index: int): WireCall {
    if deltas == [] then FirstCall(index) else Extended(Assemble(deltas[..|deltas| - 1], index), deltas[|deltas| - 1])
  }

  /** Assembly of all calls at once, as the deltas arrive. */
  function AssembleMap(deltas: seq<WireCall>): map<int, WireCall> {
    if deltas == [] then map[] else
      var before, delta := AssembleMap(deltas[..|deltas| - 1]), deltas[|deltas| - 1];
      before[delta.index := Extended(if delta.index in before then before[delta.index] else FirstCall(delta.index), delta)]
  }

  predicate Lower(a: int, b: int) {
    a < b
  }

  function AddIndex(indexes: seq<int>, index: int): seq<int> {
    if index in indexes then indexes else Sorting.Insert(Lower, index, indexes)
  }

  /** The indexes that occur, ascending. */
  function Indexes(deltas: seq<WireCall>): seq<int> {
    if deltas == [] then [] else AddIndex(Indexes(deltas[..|deltas| - 1]), deltas[|deltas| - 1].index)
  }

  /** The calls of a stream, sorted by index. */
  function Assembled(deltas: seq<WireCall>): (r: seq<WireCall>)
    ensures |r| == |Indexes(deltas)|
  {
    var indexes := Indexes(deltas);
    seq(|indexes|, i requires 0 <= i < |indexes| => Assemble(ForIndex(deltas, indexes[i]), indexes[i]))
  }

  function LastId(chunks: seq<Chunk>): string {
    if chunks == [] then "" else Text.Override(LastId(chunks[..|chunks| - 1]), chunks[|chunks| - 1].id)
  }

  function LastModel(chunks: seq<Chunk>): string {
    if chunks == [] then "" else Text.Override(LastModel(chunks[..|chunks| - 1]), chunks[|chunks| - 1].model)
  }

  function LastUsage(chunks: seq<Chunk>): Option<string> {
    if chunks == [] then None
    else if chunks[|chunks| - 1].usage.Some? then chunks[|chunks| - 1].usage
    else LastUsage(chunks[..|chunks| - 1])
  }

  function StopReason(choices: seq<Choice>): string {
    if choices == [] then "" else Text.Override(StopReason(choices[..|choices| - 1]), choices[|choices| - 1].finishReason)
  }

  /** What decoding a stream yields. */
  function DecodeStream(chunks: seq<Chunk>, parse: Parser): Result<Response, Error> {
    var choices := Choices(chunks);
    match DecodeCalls(Assembled(Deltas(choices)), parse)
    case Err(e) => Err(e)
    case Ok(calls) => Ok(Response(StreamText(choices), calls, LastId(chunks), LastModel(chunks), LastUsage(chunks), StopReason(choices)))
  }

  lemma OneMoreChoice(choices: seq<Choice>, choice: Choice)
    ensures StreamText(choices + [choice]) == StreamText(choices) + ContentText(choice.content)
    ensures StopReason(choices + [choice]) == Text.Override(StopReason(choices), choice.finishReason)
    ensures Deltas(choices + [choice]) == Deltas(choices) + choice.toolCalls
  {
  }

  lemma OneMoreDelta(deltas: seq<WireCall>, delta: WireCall)
    ensures
      var before := AssembleMap(deltas);
      AssembleMap(deltas + [delta]) ==
        before[delta.index := Extended(if delta.index in before then before[delta.index] else FirstCall(delta.index), delta)]
  {
  }

  lemma OneMoreChunk(chunks: seq<Chunk>, c: nat)
    requires c < |chunks|
    ensures
      var before, after, chunk := chunks[..c], chunks[..c + 1], chunks[c];
      && LastId(after) == Text.Override(LastId(before), chunk.id) && LastModel(after) == Text.Override(LastModel(before), chunk.model)
      && LastUsage(after) == (if chunk.usage.Some? then chunk.usage else LastUsage(before))
      && Choices(after) == Choices(before) + chunk.choices
  {
    assert chunks[..c + 1][..c] == chunks[..c];
  }

  lemma OneFurther<T>(before: seq<T>, added: seq<T>, k: nat)
    requires k < |added|
    ensures before + added[..k + 1] == before + added[..k] + [added[k]]
  {
  }

  /****** The streaming decoder ******/

  class Accumulator {
    var content: string
    var toolCalls: map<int, WireCall>
    var stopReason: string
    ghost var choices: seq<Choice>
    ghost var deltas: seq<WireCall>

    ghost predicate Valid()
      reads this
    {
      && content == StreamText(choices)
      && stopReason == StopReason(choices)
      && deltas == Deltas(choices)
      && toolCalls == AssembleMap(deltas)
    }

    constructor ()
      ensures Valid() && choices == []
    {
      content, toolCalls, stopReason := "", map[], "";
      choices, deltas := [], [];
    }

    method AddDelta(delta: WireCall)
      requires toolCalls == AssembleMap(deltas)
      modifies this`toolCalls, this`deltas
      ensures deltas == old(deltas) + [delta]
      ensures toolCalls == AssembleMap(deltas)
    {
      var index := delta.index;
      var current := if index in toolCalls then toolCalls[index] else FirstCall(index);
      current := Extend(current, delta);
      toolCalls := toolCalls[index := current];
      OneMoreDelta(deltas, delta);
      deltas := deltas + [delta];
    }

    /** Fields that a delta leaves empty stay as they are. */
    static method Extend(call: WireCall, delta: WireCall) returns (current: WireCall)
      ensures current == Extended(call, delta)
    {
      current := call;
      if delta.id != "" {
        current := current.(id := delta.id);
      }
      if delta.kind != "" {
        current := current.(kind := delta.kind);
      }
      assert call.name + "" == call.name && call.arguments + "" == call.arguments;
      if delta.name != "" {
        current := current.(name := current.name + delta.name);
      }
      if delta.arguments != "" {
        current := current.(arguments := current.arguments + delta.arguments);
      }
    }

    method AddDeltas(added: seq<WireCall>)
      requires toolCalls == AssembleMap(deltas)
      modifies this`toolCalls, this`deltas
      ensures deltas == old(deltas) + added
      ensures toolCalls == AssembleMap(deltas)
    {
      for i := 0 to |added|
        invariant deltas == old(deltas) + added[..i] && toolCalls == AssembleMap(deltas)
      {
        OneFurther(old(deltas), added, i);
        AddDelta(added[i]);
      }
      assert added[..|added|] == added;
    }

    method AddChoice(choice: Choice)
      requires Valid()
      modifies this
      ensures Valid() && choices == old(choices) + [choice]
    {
      OneMoreChoice(choices, choice);
      if choice.finishReason != "" {
        stopReason := choice.finishReason;
      }
      var text := ContentText(choice.content);
      assert content + "" == content;
      if text != "" {
        content := content + text;
      }
      AddDeltas(choice.toolCalls);
      choices := choices + [choice];
    }

    method AddChoices(added: seq<Choice>)
      requires Valid()
      modifies this
      ensures Valid() && choices == old(choices) + added
    {
      ghost var before := choices;
      for k := 0 to |added|
        invariant Valid()
        invariant choices == before + added[..k]
      {
        OneFurther(before, added, k);
        AddChoice(added[k]);
      }
      assert added[..|added|] == added;
    }
  }

  method DecodeChatCompletionStream(chunks: seq<Chunk>, parse: Parser) returns (result: Result<Response, Error>)
    ensures result == DecodeStream(chunks, parse)
  {
    var acc := new Accumulator();
    var id, model, usage := "", "", None;
    for c := 0 to |chunks|
      invariant fresh(acc) && acc.Valid() && acc.choices == Choices(chunks[..c])
      invariant id == LastId(chunks[..c]) && model == LastModel(chunks[..c]) && usage == LastUsage(chunks[..c])
    {
      var chunk := chunks[c];
      OneMoreChunk(chunks, c);
      if chunk.id != "" {
        id := chunk.id;
      }
      if chunk.model != "" {
        model := chunk.model;
      }
      if chunk.usage.Some? {
        usage := chunk.usage;
      }
      acc.AddChoices(chunk.choices);
    }
    assert chunks[..|chunks|] == chunks;
    var ordered := Ordered(acc.toolCalls, acc.deltas);
    var decoded := DecodeToolCalls(ordered, parse);
    if decoded.Err? {
      return Err(decoded.error);
    }
    return Ok(Response(acc.content, decoded.value, id, model, usage, acc.stopReason));
  }

  /** The keys of the map in the arbitrary order of its iteration. */
  method Keys(toolCalls: map<int, WireCall>) returns (indexes: seq<int>)
    ensures forall i :: i in indexes <==> i in toolCalls
    ensures forall k :: 0 <= k < |indexes| ==> indexes[k] in toolCalls
    ensures forall a, b :: 0 <= a < b < |indexes| ==> indexes[a] != indexes[b]
  {
    indexes := [];
    var todo: set<int> := toolCalls.Keys;
    while |todo| > 0
      invariant todo <= toolCalls.Keys
      invariant forall i :: i in indexes <==> i in toolCalls && i !in todo
      invariant forall k :: 0 <= k < |indexes| ==> indexes[k] in toolCalls
      invariant forall a, b :: 0 <= a < b < |indexes| ==> indexes[a] != indexes[b]
      decreases |todo|
    {
      var index := Sorting.Pick(todo);
      todo := todo - {index};
      indexes := indexes + [index];
    }
  }

  /** Collects the calls of the map in ascending order of index. */
  method Ordered(toolCalls: map<int, WireCall>, ghost deltas: seq<WireCall>) returns (ordered: seq<WireCall>)
    requires toolCalls == AssembleMap(deltas)
    ensures ordered == Assembled(deltas)
  {
    var indexes := Keys(toolCalls);
    SortIsIndexes(indexes, deltas);
    indexes := Sorting.Sort(Lower, indexes);
    forall k | 0 <= k < |indexes|
      ensures indexes[k] in toolCalls && toolCalls[indexes[k]] == Assembled(deltas)[k]
    {
      AssembledAt(deltas, k);
    }
    ordered := Select(toolCalls, indexes);
  }

  lemma AssembledAt(deltas: seq<WireCall>, k: nat)
    requires k < |Indexes(deltas)|
    ensures Indexes(deltas)[k] in AssembleMap(deltas)
    ensures AssembleMap(deltas)[Indexes(deltas)[k]] == Assembled(deltas)[k]
  {
    var i := Indexes(deltas)[k];
    assert i in Indexes(deltas);
    IndexesMembers(deltas);
    AssembleMapAt(deltas, i);
  }

  method Select(toolCalls: map<int, WireCall>, indexes: seq<int>) returns (ordered: seq<WireCall>)
    requires forall k :: 0 <= k < |indexes| ==> indexes[k] in toolCalls
    ensures |ordered| == |indexes|
    ensures forall k :: 0 <= k < |indexes| ==> ordered[k] == toolCalls[indexes[k]]
  {
    ordered := [];
    for k := 0 to |indexes|
      invariant |ordered| == k
      invariant forall j :: 0 <= j < k ==> ordered[j] == toolCalls[indexes[j]]
    {
      ordered := ordered + [toolCalls[indexes[k]]];
    }
  }

  lemma ForIndexAppend(deltas: seq<WireCall>, delta: WireCall, index: int)
    ensures ForIndex(deltas + [delta], index) ==
      if delta.index == index then ForIndex(deltas, index) + [delta] else ForIndex(deltas, index)
  {
  }

  lemma AssembleAppend(deltas: seq<WireCall>, delta: WireCall, index: int)
    ensures Assemble(deltas + [delta], index) == Extended(Assemble(deltas, index), delta)
  {
  }

  /** The map holds exactly the assembled call of every index that occurred. */
  lemma {:induction false} AssembleMapAt(deltas: seq<WireCall>, i: int)
    ensures i in AssembleMap(deltas) <==> ForIndex(deltas, i) != []
    ensures i in AssembleMap(deltas) ==> AssembleMap(deltas)[i] == Assemble(ForIndex(deltas, i), i)
  {
    if deltas != [] {
      var n := |deltas| - 1;
      AssembleMapAt(deltas[..n], i);
      assert deltas == deltas[..n] + [deltas[n]];
      ForIndexAppend(deltas[..n], deltas[n], i);
      AssembleAppend(ForIndex(deltas[..n], i), deltas[n], i);
    }
  }

  lemma ExtendedTwice(call: WireCall, whole: WireCall, first: WireCall, second: WireCall)
    requires Splits(whole, first, second)
    ensures Extended(Extended(call, first), second) == Extended(call, whole)
  {
  }

  lemma LowerIsStrictOrder()
    ensures Sorting.StrictOrder(Lower)
  {
  }

  lemma {:induction false} IndexesMembers(deltas: seq<WireCall>)
    ensures forall i :: i in Indexes(deltas) <==> ForIndex(deltas, i) != []
  {
    if deltas != [] {
      var n := |deltas| - 1;
      IndexesMembers(deltas[..n]);
      var before := Indexes(deltas[..n]);
      forall i
        ensures i in Indexes(deltas) <==> i in before || i == deltas[n].index
      {
        assert i in multiset(Indexes(deltas)) <==> i in Indexes(deltas);
      }
    }
  }

  lemma {:induction false} IndexesAscending(deltas: seq<WireCall>)
    ensures Sorting.StrictlySorted(Lower, Indexes(deltas))
  {
    if deltas != [] {
      IndexesAscending(deltas[..|deltas| - 1]);
      InsertAscending(Indexes(deltas[..|deltas| - 1]), deltas[|deltas| - 1].index);
    }
  }

  lemma InsertAscending(indexes: seq<int>, index: int)
    requires Sorting.StrictlySorted(Lower, indexes)
    ensures Sorting.StrictlySorted(Lower, AddIndex(indexes, index))
  {
    if index !in indexes {
      LowerIsStrictOrder();
      Sorting.InsertSorted(Lower, index, indexes);
      StrictFromSorted(Sorting.Insert(Lower, index, indexes), indexes + [index]);
    }
  }

  /** A sorted permutation of distinct indexes is strictly sorted. */
  lemma StrictFromSorted(sorted: seq<int>, distinct: seq<int>)
    requires Sorting.Sorted(Lower, sorted) && multiset(sorted) == multiset(distinct)
    requires forall a, b :: 0 <= a < b < |distinct| ==> distinct[a] != distinct[b]
    ensures Sorting.StrictlySorted(Lower, sorted)
  {
    forall i, j | 0 <= i < j < |sorted|
      ensures Lower(sorted[i], sorted[j])
    {
      if sorted[i] == sorted[j] {
        var x := sorted[i];
        assert sorted == sorted[..i] + [x] + sorted[i + 1..j] + [x] + sorted[j + 1..];
        assert multiset(sorted)[x] >= 2;
        DistinctCount(distinct, x);
      }
    }
  }

  lemma {:induction false} DistinctCount(s: seq<int>, x: int)
    requires forall a, b :: 0 <= a < b < |s| ==> s[a] != s[b]
    ensures multiset(s)[x] <= 1
  {
    if s != [] {
      assert s == [s[0]] + s[1..];
      DistinctCount(s[1..], x);
      assert x == s[0] ==> x !in s[1..];
    }
  }

  lemma SortIsIndexes(indexes: seq<int>, deltas: seq<WireCall>)
    requires forall i :: i in indexes <==> i in AssembleMap(deltas)
    requires forall a, b :: 0 <= a < b < |indexes| ==> indexes[a] != indexes[b]
    ensures Sorting.Sort(Lower, indexes) == Indexes(deltas)
  {
    var sorted := Sorting.Sort(Lower, indexes);
    LowerIsStrictOrder();
    Sorting.SortSorted(Lower, indexes);
    StrictFromSorted(sorted, indexes);
    IndexesAscending(deltas);
    IndexesMembers(deltas);
    forall i
      ensures i in sorted <==> i in Indexes(deltas)
    {
      AssembleMapAt(deltas, i);
      assert i in multiset(sorted) <==> i in multiset(indexes);
    }
    Sorting.StrictlySortedUnique(Lower, sorted, Indexes(deltas));
  }

  /****** Independence of splits and interleavings ******/

  /** Index by index, two lists of deltas make up the same call. */
  ghost predicate SameCalls(a: seq<WireCall>, b: seq<WireCall>) {
    forall i :: (ForIndex(a, i) != [] <==> ForIndex(b, i) != []) && Assemble(ForIndex(a, i), i) == Assemble(ForIndex(b, i), i)
  }

  /** Two lists of deltas that agree on every assembled call are the same calls. */
  lemma SameAssembly(a: seq<WireCall>, b: seq<WireCall>)
    requires SameCalls(a, b)
    ensures Assembled(a) == Assembled(b)
  {
    LowerIsStrictOrder();
    IndexesAscending(a);
    IndexesAscending(b);
    IndexesMembers(a);
    IndexesMembers(b);
    forall i
      ensures i in Indexes(a) <==> i in Indexes(b)
    {
      assert ForIndex(a, i) != [] <==> ForIndex(b, i) != [];
    }
    Sorting.StrictlySortedUnique(Lower, Indexes(a), Indexes(b));
  }

  /** However two streams cut and interleave their chunks: when they carry the same text, make up the same
      calls index by index, and end in the same metadata, they decode to the same response. */
  lemma InterleavingIndependent(a: seq<Chunk>, b: seq<Chunk>, parse: Parser)
    requires StreamText(Choices(a)) == StreamText(Choices(b))
    requires SameCalls(Deltas(Choices(a)), Deltas(Choices(b)))
    requires StopReason(Choices(a)) == StopReason(Choices(b))
    requires LastId(a) == LastId(b) && LastModel(a) == LastModel(b) && LastUsage(a) == LastUsage(b)
    ensures DecodeStream(a, parse) == DecodeStream(b, parse)
  {
    SameAssembly(Deltas(Choices(a)), Deltas(Choices(b)));
  }

  lemma SameDeltasSameCalls(a: seq<WireCall>, b: seq<WireCall>)
    requires forall i :: ForIndex(a, i) == ForIndex(b, i)
    ensures SameCalls(a, b)
  {
  }

  /** In particular when they carry the same deltas in the same order, index by index. */
  lemma SameDeltasDecodeAlike(a: seq<Chunk>, b: seq<Chunk>, parse: Parser)
    requires StreamText(Choices(a)) == StreamText(Choices(b))
    requires forall i :: ForIndex(Deltas(Choices(a)), i) == ForIndex(Deltas(Choices(b)), i)
    requires StopReason(Choices(a)) == StopReason(Choices(b))
    requires LastId(a) == LastId(b) && LastModel(a) == LastModel(b) && LastUsage(a) == LastUsage(b)
    ensures DecodeStream(a, parse) == DecodeStream(b, parse)
  {
    SameDeltasSameCalls(Deltas(Choices(a)), Deltas(Choices(b)));
    InterleavingIndependent(a, b, parse);
  }

  /** Two fragments that make up a delta. */
  predicate Splits(whole: WireCall, first: WireCall, second: WireCall) {
    && first.index == second.index == whole.index
    && whole.id == Text.Override(first.id, second.id)
    && whole.kind == Text.Override(first.kind, second.kind)
    && whole.name == first.name + second.name
    && whole.arguments == first.arguments + second.arguments
  }

  /** Sending a delta in two fragments assembles the same calls. */
  lemma SplitIndependent(before: seq<WireCall>, whole: WireCall, first: WireCall, second: WireCall, after: seq<WireCall>)
    requires Splits(whole, first, second)
    ensures Assembled(before + [whole] + after) == Assembled(before + [first, second] + after)
  {
    var a, b := before + [whole] + after, before + [first, second] + after;
    forall i
      ensures (ForIndex(a, i) != [] <==> ForIndex(b, i) != []) && Assemble(ForIndex(a, i), i) == Assemble(ForIndex(b, i), i)
    {
      SplitAssembles(before, whole, first, second, after, i);
    }
    SameAssembly(a, b);
  }

  lemma {:induction false} SplitAssembles(before: seq<WireCall>, whole: WireCall, first: WireCall, second: WireCall, after: seq<WireCall>, i: int)
    requires Splits(whole, first, second)
    ensures ForIndex(before + [whole] + after, i) != [] <==> ForIndex(before + [first, second] + after, i) != []
    ensures Assemble(ForIndex(before + [whole] + after, i), i) == Assemble(ForIndex(before + [first, second] + after, i), i)
    decreases |after|
  {
    if after == [] {
      var d := ForIndex(before, i);
      assert before + [whole] + after == before + [whole];
      assert before + [first, second] + after == (before + [first]) + [second];
      ForIndexAppend(before, whole, i);
      ForIndexAppend(before, first, i);
      ForIndexAppend(before + [first], second, i);
      AssembleAppend(d, whole, i);
      AssembleAppend(d, first, i);
      AssembleAppend(d + [first], second, i);
      ExtendedTwice(Assemble(d, i), whole, first, second);
    } else {
      var init, last := after[..|after| - 1], after[|after| - 1];
      SplitAssembles(before, whole, first, second, init, i);
      var a, b := before + [whole] + init, before + [first, second] + init;
      assert before + [whole] + after == a + [last];
      assert before + [first, second] + after == b + [last];
      ForIndexAppend(a, last, i);
      ForIndexAppend(b, last, i);
      AssembleAppend(ForIndex(a, i), last, i);
      AssembleAppend(ForIndex(b, i), last, i);
    }
  }

  /** Calls in order of their indexes, each of an index that the deltas use, and all of those. */
  lemma IndexesOfCalls(deltas: seq<WireCall>, calls: seq<WireCall>, indexes: seq<int>)
    requires |indexes| == |calls| && forall k :: 0 <= k < |calls| ==> indexes[k] == calls[k].index
    requires forall a, b :: 0 <= a < b < |calls| ==> calls[a].index < calls[b].index
    requires forall i :: ForIndex(deltas, i) != [] <==> exists c <- calls :: c.index == i
    ensures indexes == Indexes(deltas)
  {
    IndexesAscending(deltas);
    IndexesMembers(deltas);
    LowerIsStrictOrder();
    forall i
      ensures i in indexes <==> i in Indexes(deltas)
    {
      if exists c <- calls :: c.index == i {
        var k :| 0 <= k < |calls| && calls[k].index == i;
        assert indexes[k] == i;
      }
    }
    Sorting.StrictlySortedUnique(Lower, indexes, Indexes(deltas));
  }

  /****** Fragments ******/

  function Concat(deltas: seq<WireCall>, field: WireCall -> string): string {
    if deltas == [] then "" else field(deltas[0]) + Concat(deltas[1..], field)
  }

  /** The value is that of the last delta that sets the field, or the default when none does. */
  ghost predicate LastSet(deltas: seq<WireCall>, field: WireCall -> string, default: string, value: string) {
    || (value == default && forall k :: 0 <= k < |deltas| ==> field(deltas[k]) == "")
    || exists k :: 0 <= k < |deltas| && field(deltas[k]) == value != "" && forall j :: k < j < |deltas| ==> field(deltas[j]) == ""
  }

  /** The deltas are fragments of the call: names and arguments put together give its own, and the last
      id and type that are set are its own. */
  ghost predicate FragmentsOf(deltas: seq<WireCall>, call: WireCall) {
    && Concat(deltas, (d: WireCall) => d.name) == call.name
    && Concat(deltas, (d: WireCall) => d.arguments) == call.arguments
    && LastSet(deltas, (d: WireCall) => d.id, "", call.id)
    && LastSet(deltas, (d: WireCall) => d.kind, "function", call.kind)
  }

  lemma {:induction false} ConcatAppend(deltas: seq<WireCall>, delta: WireCall, field: WireCall -> string)
    ensures Concat(deltas + [delta], field) == Concat(deltas, field) + field(delta)
  {
    if deltas == [] {
      assert deltas + [delta] == [delta];
    } else {
      assert (deltas + [delta])[1..] == deltas[1..] + [delta];
      ConcatAppend(deltas[1..], delta, field);
    }
  }

  lemma LastSetAppend(deltas: seq<WireCall>, delta: WireCall, field: WireCall -> string, default: string, value: string)
    requires LastSet(deltas, field, default, value)
    ensures LastSet(deltas + [delta], field, default, Text.Override(value, field(delta)))
  {
    var all, n := deltas + [delta], |deltas|;
    if field(delta) != "" {
      assert field(all[n]) == field(delta);
    } else if k :| 0 <= k < n && field(deltas[k]) == value != "" && forall j :: k < j < n ==> field(deltas[j]) == "" {
      assert field(all[k]) == value;
    }
  }

  lemma LastSetUnique(deltas: seq<WireCall>, field: WireCall -> string, default: string, a: string, b: string)
    requires LastSet(deltas, field, default, a) && LastSet(deltas, field, default, b)
    ensures a == b
  {
  }

  /** What is assembled is what the deltas are fragments of. */
  lemma {:induction false} AssembledFragments(deltas: seq<WireCall>, index: int)
    ensures FragmentsOf(deltas, Assemble(deltas, index)) && Assemble(deltas, index).index == index
  {
    if deltas != [] {
      var init, last := deltas[..|deltas| - 1], deltas[|deltas| - 1];
      assert deltas == init + [last];
      AssembledFragments(init, index);
      var call := Assemble(init, index);
      ConcatAppend(init, last, (d: WireCall) => d.name);
      ConcatAppend(init, last, (d: WireCall) => d.arguments);
      LastSetAppend(init, last, (d: WireCall) => d.id, "", call.id);
      LastSetAppend(init, last, (d: WireCall) => d.kind, "function", call.kind);
    }
  }

  lemma FragmentsAssemble(deltas: seq<WireCall>, call: WireCall)
    ensures FragmentsOf(deltas, call) <==> Assemble(deltas, call.index) == call
  {
    AssembledFragments(deltas, call.index);
    var assembled := Assemble(deltas, call.index);
    if FragmentsOf(deltas, call) {
      LastSetUnique(deltas, (d: WireCall) => d.id, "", assembled.id, call.id);
      LastSetUnique(deltas, (d: WireCall) => d.kind, "function", assembled.kind, call.kind);
    }
  }

  /** The deltas are fragments of the calls, interleaved in any way: every index is that of a call, and
      the deltas of a call's index are fragments of that call. */
  ghost predicate Streams(deltas: seq<WireCall>, calls: seq<WireCall>) {
    && (forall i :: ForIndex(deltas, i) != [] <==> exists c <- calls :: c.index == i)
    && (forall c <- calls :: FragmentsOf(ForIndex(deltas, c.index), c))
  }

  ghost predicate Ascending(calls: seq<WireCall>) {
    forall a, b :: 0 <= a < b < |calls| ==> calls[a].index < calls[b].index
  }

  lemma StreamsAssembled(deltas: seq<WireCall>, calls: seq<WireCall>)
    requires Ascending(calls) && Streams(deltas, calls)
    ensures Assembled(deltas) == calls
  {
    var indexes := seq(|calls|, k requires 0 <= k < |calls| => calls[k].index);
    IndexesOfCalls(deltas, calls, indexes);
    forall k | 0 <= k < |calls|
      ensures Assembled(deltas)[k] == calls[k]
    {
      assert calls[k] in calls && indexes[k] == calls[k].index;
      FragmentsAssemble(ForIndex(deltas, calls[k].index), calls[k]);
    }
  }

  lemma AssembledStreams(deltas: seq<WireCall>)
    ensures Ascending(Assembled(deltas)) && Streams(deltas, Assembled(deltas))
  {
    var indexes, calls := Indexes(deltas), Assembled(deltas);
    IndexesAscending(deltas);
    IndexesMembers(deltas);
    forall k | 0 <= k < |calls|
      ensures calls[k].index == indexes[k] && FragmentsOf(ForIndex(deltas, indexes[k]), calls[k])
    {
      AssembledFragments(ForIndex(deltas, indexes[k]), indexes[k]);
    }
    forall i
      ensures ForIndex(deltas, i) != [] <==> exists c <- calls :: c.index == i
    {
      if i in indexes {
        var k :| 0 <= k < |indexes| && indexes[k] == i;
        assert calls[k] in calls && calls[k].index == i;
      }
    }
  }

  /** A stream assembles to given calls, in order of their indexes, exactly when it is their fragments. */
  lemma AssembledExactly(deltas: seq<WireCall>, calls: seq<WireCall>)
    ensures Assembled(deltas) == calls <==> Ascending(calls) && Streams(deltas, calls)
  {
    AssembledStreams(deltas);
    if Ascending(calls) && Streams(deltas, calls) {
      StreamsAssembled(deltas, calls);
    }
  }

  /** In whatever fragments calls are streamed, the response is that of the same calls sent whole. */
  lemma StreamRoundTrip(chunks: seq<Chunk>, whole: Chunk, parse: Parser)
    requires |whole.choices| == 1
    requires Ascending(whole.choices[0].toolCalls) && Streams(Deltas(Choices(chunks)), whole.choices[0].toolCalls)
    requires StreamText(Choices(chunks)) == ContentText(whole.choices[0].content)
    requires StopReason(Choices(chunks)) == whole.choices[0].finishReason
    requires LastId(chunks) == whole.id && LastModel(chunks) == whole.model && LastUsage(chunks) == whole.usage
    ensures DecodeStream(chunks, parse) == Decode(whole, parse)
  {
    AssembledExactly(Deltas(Choices(chunks)), whole.choices[0].toolCalls);
  }
}
