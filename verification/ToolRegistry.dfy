/** Composition of tool providers and routing of tool names (pkg/rtagent/tool_registry.go). */
module ToolRegistry {
  import opened Types
  import opened Wrappers
  import Text

  /** A provider is known by its position; its listing is what ToolSpecs answers, or an error. */
  type Listing = Option<seq<ToolSpec>>

  datatype RegistryTool = RegistryTool(provider: nat, originalName: string, exposedName: string, spec: ToolSpec)

  datatype Error =
    | ListingFailed(provider: nat)
    | DuplicateAfterRouting(name: string)
    | NameRequired
    | Ambiguous(candidates: seq<string>)
    | NotRegistered

  /** The call a provider receives. */
  datatype Route = Route(provider: nat, name: string, exposedName: string)

  /****** Namespaces ******/

  predicate IsNameChar(c: char) {
    'a' <= c <= 'z' || 'A' <= c <= 'Z' || '0' <= c <= '9' || c == '_' || c == '-'
  }

  predicate IsSeparator(c: char) {
    c == '_' || c == '-'
  }

  function TrimSeparators(s: string): (r: string)
    ensures (forall c <- s :: IsNameChar(c)) ==> forall c <- r :: IsNameChar(c)
  {
    if s == "" then s
    else if IsSeparator(s[0]) then TrimSeparators(s[1..])
    else if IsSeparator(s[|s| - 1]) then TrimSeparators(s[..|s| - 1])
    else s
  }

  function Sanitize(s: string): (r: string)
    ensures forall c <- r :: IsNameChar(c)
  {
    if s == "" then "" else [if IsNameChar(s[0]) then s[0] else '_'] + Sanitize(s[1..])
  }

  function DefaultNamespace(provider: nat): (r: string)
    ensures r != ""
  {
    "provider_" + Text.Itoa(provider + 1)
  }

  function Namespace(spec: ToolSpec, provider: nat): (r: string)
    ensures r != ""
  {
    var raw := Text.FirstNonEmpty([spec.namespace, spec.providerName, DefaultNamespace(provider)]);
    var cleaned := TrimSeparators(Sanitize(Text.Trim(raw)));
    if cleaned == "" then DefaultNamespace(provider) else cleaned
  }

  /****** What the listing of a registry is ******/

  /** The named tools of one provider, under their trimmed names. */
  function Declared(specs: seq<ToolSpec>, provider: nat): seq<RegistryTool> {
    if specs == [] then [] else
      var last := specs[|specs| - 1];
      var name := Text.Trim(last.name);
      Declared(specs[..|specs| - 1], provider)
        + if name == "" then [] else [RegistryTool(provider, name, name, last.(name := name))]
  }

  /** All declared tools, provider by provider. */
  function Collected(listings: seq<Listing>): seq<RegistryTool>
    requires forall l <- listings :: l.Some?
  {
    if listings == [] then [] else
      var n := |listings| - 1;
      Collected(listings[..n]) + Declared(listings[n].value, n)
  }

  function NameCount(tools: seq<RegistryTool>, name: string): nat {
    if tools == [] then 0 else
      NameCount(tools[..|tools| - 1], name) + if tools[|tools| - 1].originalName == name then 1 else 0
  }

  /** How many tools share both original name and namespace. */
  function NamespaceCount(tools: seq<RegistryTool>, name: string, base: string): nat {
    if tools == [] then 0 else
      var last := tools[|tools| - 1];
      NamespaceCount(tools[..|tools| - 1], name, base)
        + if last.originalName == name && Namespace(last.spec, last.provider) == base then 1 else 0
  }

  /** The namespace that tells the i-th tool from the others of its name. */
  function RoutedNamespace(tools: seq<RegistryTool>, i: nat): (r: string)
    requires i < |tools|
    ensures r != ""
  {
    var base := Namespace(tools[i].spec, tools[i].provider);
    var count := NamespaceCount(tools[..i + 1], tools[i].originalName, base);
    if count > 1 then base + "_" + Text.Itoa(count) else base
  }

  /** A name declared once is kept; a shared name is qualified. */
  function ExposedName(tools: seq<RegistryTool>, i: nat): string
    requires i < |tools|
  {
    if NameCount(tools, tools[i].originalName) > 1 then
      RoutedNamespace(tools, i) + "__" + tools[i].originalName
    else
      tools[i].originalName
  }

  function Routed(tools: seq<RegistryTool>, i: nat): RegistryTool
    requires i < |tools|
  {
    var tool := tools[i];
    if NameCount(tools, tool.originalName) > 1 then
      tool.(exposedName := ExposedName(tools, i),
            spec := tool.spec.(name := ExposedName(tools, i),
                               namespace := if Text.Blank(tool.spec.namespace) then RoutedNamespace(tools, i) else tool.spec.namespace))
    else tool
  }

  ghost predicate Distinct(names: seq<string>) {
    forall i, j :: 0 <= i < j < |names| ==> names[i] != names[j]
  }

  ghost function Elements(names: seq<string>): set<string> {
    set n | n in names
  }

  ghost function ExposedNames(tools: seq<RegistryTool>): (r: seq<string>)
    ensures |r| == |tools|
  {
    seq(|tools|, i requires 0 <= i < |tools| => ExposedName(tools, i))
  }

  ghost function AllRouted(tools: seq<RegistryTool>): (r: seq<RegistryTool>)
    ensures |r| == |tools|
  {
    seq(|tools|, i requires 0 <= i < |tools| => Routed(tools, i))
  }

  /** The answer of registryTools to a given set of listings. */
  ghost predicate Answers(listings: seq<Listing>, result: Result<seq<RegistryTool>, Error>) {
    if exists l <- listings :: l.None? then
      result.Err? && result.error.ListingFailed?
    else
      var tools := Collected(listings);
      if Distinct(ExposedNames(tools)) then
        result == Ok(AllRouted(tools))
      else
        result.Err? && result.error.DuplicateAfterRouting?
  }

  /****** The registry ******/

  lemma NameCountAppend(tools: seq<RegistryTool>, tool: RegistryTool)
    ensures forall n :: NameCount(tools + [tool], n) == NameCount(tools, n) + if tool.originalName == n then 1 else 0
  {
  }

  method Declare(specs: seq<ToolSpec>, provider: nat, before: seq<RegistryTool>, counts: map<string, nat>)
    returns (tools: seq<RegistryTool>, nameCounts: map<string, nat>)
    requires forall n :: Lookup(counts, n) == NameCount(before, n)
    ensures tools == before + Declared(specs, provider)
    ensures forall n :: Lookup(nameCounts, n) == NameCount(tools, n)
  {
    tools, nameCounts := before, counts;
    for i := 0 to |specs|
      invariant tools == before + Declared(specs[..i], provider)
      invariant forall n :: Lookup(nameCounts, n) == NameCount(tools, n)
    {
      var name := Text.Trim(specs[i].name);
      assert specs[..i + 1][..i] == specs[..i];
      if name != "" {
        var tool := RegistryTool(provider, name, name, specs[i].(name := name));
        NameCountAppend(tools, tool);
        tools := tools + [tool];
        nameCounts := nameCounts[name := Lookup(nameCounts, name) + 1];
      }
    }
    assert specs[..|specs|] == specs;
  }

  method RegistryTools(listings: seq<Listing>) returns (result: Result<seq<RegistryTool>, Error>)
    ensures Answers(listings, result)
  {
    var tools: seq<RegistryTool> := [];
    var nameCounts: map<string, nat> := map[];
    for index := 0 to |listings|
      invariant forall l <- listings[..index] :: l.Some?
      invariant tools == Collected(listings[..index])
      invariant forall n :: Lookup(nameCounts, n) == NameCount(tools, n)
    {
      if listings[index].None? {
        return Err(ListingFailed(index));
      }
      assert listings[..index + 1][..index] == listings[..index];
      tools, nameCounts := Declare(listings[index].value, index, tools, nameCounts);
    }
    assert listings[..|listings|] == listings;
    forall t | t in tools
      ensures t.exposedName == t.originalName
    {
      CollectedFrom(listings, t);
    }
    result := RouteNames(tools, nameCounts);
  }

  /** Qualifies shared names in place, refusing a listing in which two exposed names still agree. */
  method RouteNames(declared: seq<RegistryTool>, nameCounts: map<string, nat>) returns (result: Result<seq<RegistryTool>, Error>)
    requires forall n :: Lookup(nameCounts, n) == NameCount(declared, n)
    requires forall t <- declared :: t.exposedName == t.originalName
    ensures if Distinct(ExposedNames(declared)) then
        result == Ok(AllRouted(declared))
      else
        result.Err? && result.error.DuplicateAfterRouting?
  {
    var tools := declared;
    var namespaceSeen: map<(string, string), nat> := map[];
    var exposedSeen: set<string> := {};
    ghost var names, routed := ExposedNames(declared), AllRouted(declared);
    for i := 0 to |declared|
      invariant tools == routed[..i] + declared[i..]
      invariant Distinct(names[..i]) && exposedSeen == Elements(names[..i])
      invariant CountsNamespaces(namespaceSeen, declared, i)
    {
      var tool, taken;
      tool, namespaceSeen := QualifyName(declared, i, nameCounts, namespaceSeen);
      taken, exposedSeen := Register(names, i, exposedSeen, tool.exposedName);
      if taken {
        return Err(DuplicateAfterRouting(tool.exposedName));
      }
      Splice(routed, declared, i);
      tools := tools[i := tool];
    }
    assert names[..|declared|] == names && routed[..|declared|] == routed && tools == routed;
    return Ok(tools);
  }

  lemma Splice(done: seq<RegistryTool>, todo: seq<RegistryTool>, i: nat)
    requires |done| == |todo| && i < |todo|
    ensures (done[..i] + todo[i..])[i := done[i]] == done[..i + 1] + todo[i + 1..]
  {
  }

  method Register(ghost names: seq<string>, ghost i: nat, exposedSeen: set<string>, exposed: string)
    returns (taken: bool, seen: set<string>)
    requires i < |names| && exposed == names[i]
    requires Distinct(names[..i]) && exposedSeen == Elements(names[..i])
    ensures taken ==> !Distinct(names)
    ensures !taken ==> Distinct(names[..i + 1]) && seen == Elements(names[..i + 1])
  {
    assert names[..i + 1] == names[..i] + [exposed];
    taken := exposed in exposedSeen;
    seen := exposedSeen + {exposed};
  }

  /** The map of namespaces seen so far, for the names that are shared. */
  ghost predicate CountsNamespaces(seen: map<(string, string), nat>, declared: seq<RegistryTool>, i: nat)
    requires i <= |declared|
  {
    forall n, b :: NameCount(declared, n) > 1 ==> Lookup(seen, (n, b)) == NamespaceCount(declared[..i], n, b)
  }

  method QualifyName(declared: seq<RegistryTool>, i: nat, nameCounts: map<string, nat>, seen: map<(string, string), nat>)
    returns (tool: RegistryTool, namespaceSeen: map<(string, string), nat>)
    requires i < |declared| && declared[i].exposedName == declared[i].originalName
    requires forall n :: Lookup(nameCounts, n) == NameCount(declared, n)
    requires CountsNamespaces(seen, declared, i)
    ensures tool == AllRouted(declared)[i] && tool.exposedName == ExposedNames(declared)[i]
    ensures CountsNamespaces(namespaceSeen, declared, i + 1)
  {
    tool, namespaceSeen := declared[i], seen;
    assert declared[..i + 1][..i] == declared[..i];
    if Lookup(nameCounts, tool.originalName) > 1 {
      var base := Namespace(tool.spec, tool.provider);
      var key := (tool.originalName, base);
      namespaceSeen := namespaceSeen[key := Lookup(namespaceSeen, key) + 1];
      var count := namespaceSeen[key];
      assert count == NamespaceCount(declared[..i + 1], tool.originalName, base);
      var namespace := base;
      if count > 1 {
        namespace := base + "_" + Text.Itoa(count);
      }
      tool := tool.(exposedName := namespace + "__" + tool.originalName);
      tool := tool.(spec := tool.spec.(name := tool.exposedName));
      if Text.Blank(tool.spec.namespace) {
        tool := tool.(spec := tool.spec.(namespace := namespace));
      }
    }
  }

  function RouteOf(tool: RegistryTool): Route {
    Route(tool.provider, tool.originalName, tool.exposedName)
  }

  /** How a trimmed call name is resolved among listed tools. */
  ghost predicate Resolves(tools: seq<RegistryTool>, name: string, result: Result<Route, Error>) {
    if exists t: RegistryTool :: t in tools && t.exposedName == name then
      result.Ok? && exists t: RegistryTool :: t in tools && t.exposedName == name && result.value == RouteOf(t)
    else
      && result.Err?
      && (result.error.Ambiguous? <==> exists t: RegistryTool :: t in tools && t.originalName == name)
      && (result.error.NotRegistered? <==> !result.error.Ambiguous?)
  }

  ghost predicate Executes(listings: seq<Listing>, listed: Result<seq<RegistryTool>, Error>, name: string, result: Result<Route, Error>) {
    && Answers(listings, listed)
    && if listed.Ok? then Resolves(listed.value, name, result) else result == Err(listed.error)
  }

  /** Executes a tool by name: the exposed name wins, a bare shared name is refused. The result is
      where the call goes, under which name. */
  method ExecuteTool(listings: seq<Listing>, callName: string) returns (result: Result<Route, Error>)
    ensures Text.Blank(callName) ==> result == Err(NameRequired)
    ensures !Text.Blank(callName) ==> exists listed :: Executes(listings, listed, Text.Trim(callName), result)
  {
    var name := Text.Trim(callName);
    if name == "" {
      return Err(NameRequired);
    }
    var listed := RegistryTools(listings);
    if listed.Err? {
      assert Executes(listings, listed, name, Err(listed.error));
      return Err(listed.error);
    }
    var tools := listed.value;
    result := Find(tools, name);
    assert Executes(listings, listed, name, result);
  }

  method Find(tools: seq<RegistryTool>, name: string) returns (result: Result<Route, Error>)
    ensures Resolves(tools, name, result)
  {
    var ambiguous: seq<string> := [];
    for i := 0 to |tools|
      invariant forall k :: 0 <= k < i ==> tools[k].exposedName != name
      invariant ambiguous != [] <==> exists k :: 0 <= k < i && tools[k].originalName == name
    {
      if tools[i].exposedName == name {
        assert tools[i] in tools;
        return Ok(RouteOf(tools[i]));
      }
      if tools[i].originalName == name && tools[i].exposedName != name {
        ambiguous := ambiguous + [tools[i].exposedName];
      }
    }
    return Err(if ambiguous != [] then Ambiguous(ambiguous) else NotRegistered);
  }

  /****** Routing ******/

  lemma {:induction false} DeclaredBy(specs: seq<ToolSpec>, provider: nat)
    ensures forall t <- Declared(specs, provider) ::
      && t.provider == provider && t.spec.name == t.originalName == t.exposedName
      && Text.Trimmed(t.originalName) && t.originalName != ""
      && exists s: ToolSpec :: s in specs && Text.Trim(s.name) == t.originalName
  {
    if specs != [] {
      var n := |specs| - 1;
      DeclaredBy(specs[..n], provider);
      Text.TrimIs(specs[n].name);
      assert specs == specs[..n] + [specs[n]];
    }
  }

  lemma {:induction false} CollectedFrom(listings: seq<Listing>, t: RegistryTool)
    requires (forall l <- listings :: l.Some?) && t in Collected(listings)
    ensures t.provider < |listings|
    ensures t.spec.name == t.originalName == t.exposedName && Text.Trimmed(t.originalName) && t.originalName != ""
    ensures exists s: ToolSpec :: s in listings[t.provider].value && Text.Trim(s.name) == t.originalName
  {
    var n := |listings| - 1;
    if t in Declared(listings[n].value, n) {
      DeclaredBy(listings[n].value, n);
    } else {
      CollectedFrom(listings[..n], t);
    }
  }

  lemma NamespaceTrimmed(tools: seq<RegistryTool>, i: nat)
    requires i < |tools| && tools[i].originalName != "" && Text.Trimmed(tools[i].originalName)
    ensures Text.Trimmed(ExposedName(tools, i)) && ExposedName(tools, i) != ""
  {
    var namespace, name := RoutedNamespace(tools, i), tools[i].originalName;
    NamespaceHead(tools[i].spec, tools[i].provider);
    var qualified := namespace + "__" + name;
    assert qualified[|qualified| - 1] == name[|name| - 1] && qualified[0] == namespace[0];
  }

  lemma NamespaceHead(spec: ToolSpec, provider: nat)
    ensures IsNameChar(Namespace(spec, provider)[0])
  {
  }

  /** A listed tool is known by a trimmed name. */
  lemma ListedName(listings: seq<Listing>, tools: seq<RegistryTool>, i: nat)
    requires Answers(listings, Ok(tools)) && i < |tools|
    ensures tools[i].spec.name == tools[i].exposedName == ExposedName(Collected(listings), i)
    ensures Text.Trimmed(tools[i].exposedName)
    ensures tools[i].originalName == Collected(listings)[i].originalName && tools[i].provider == Collected(listings)[i].provider
  {
    var collected := Collected(listings);
    assert tools == AllRouted(collected) && collected[i] in collected;
    CollectedFrom(listings, collected[i]);
    NamespaceTrimmed(collected, i);
  }

  lemma ListedNamesDiffer(listings: seq<Listing>, tools: seq<RegistryTool>, i: nat, j: nat)
    requires Answers(listings, Ok(tools)) && i < j < |tools|
    ensures tools[i].exposedName != tools[j].exposedName
  {
    ListedName(listings, tools, i);
    ListedName(listings, tools, j);
    assert ExposedNames(Collected(listings))[i] != ExposedNames(Collected(listings))[j];
  }

  lemma ResolvesListed(tools: seq<RegistryTool>, i: nat, result: Result<Route, Error>)
    requires i < |tools| && Resolves(tools, tools[i].exposedName, result)
    requires forall j :: 0 <= j < |tools| && j != i ==> tools[j].exposedName != tools[i].exposedName
    ensures result == Ok(RouteOf(tools[i]))
  {
    assert tools[i] in tools;
  }

  /** Whenever the registry lists its tools, their names are pairwise distinct, a name declared once
      is kept, and executing a listed name reaches exactly the provider that declared the tool,
      under the name it was declared with. */
  lemma RoutingRoundTrip(listings: seq<Listing>, tools: seq<RegistryTool>, i: nat, result: Result<Route, Error>)
    requires Answers(listings, Ok(tools)) && i < |tools|
    requires Resolves(tools, Text.Trim(tools[i].spec.name), result)
    ensures forall j :: 0 <= j < |tools| && j != i ==> tools[j].spec.name != tools[i].spec.name
    ensures NameCount(Collected(listings), tools[i].originalName) == 1 ==> tools[i].spec.name == tools[i].originalName
    ensures result == Ok(Route(tools[i].provider, tools[i].originalName, tools[i].spec.name))
    ensures tools[i].provider < |listings|
    ensures exists s: ToolSpec :: s in listings[tools[i].provider].value && Text.Trim(s.name) == tools[i].originalName
  {
    ListedAmong(listings, tools, i);
    ResolvesListed(tools, i, result);
    ListedBy(listings, tools, i);
  }

  /** A listed name is not that of another tool, and is the original one if that was declared once. */
  lemma ListedAmong(listings: seq<Listing>, tools: seq<RegistryTool>, i: nat)
    requires Answers(listings, Ok(tools)) && i < |tools|
    ensures tools[i].spec.name == tools[i].exposedName == Text.Trim(tools[i].exposedName)
    ensures forall j :: 0 <= j < |tools| && j != i ==> tools[j].exposedName == tools[j].spec.name != tools[i].exposedName
    ensures NameCount(Collected(listings), tools[i].originalName) == 1 ==> tools[i].spec.name == tools[i].originalName
  {
    ListedName(listings, tools, i);
    forall j | 0 <= j < |tools| && j != i
      ensures tools[j].exposedName == tools[j].spec.name && tools[j].exposedName != tools[i].exposedName
    {
      ListedName(listings, tools, j);
      if i < j {
        ListedNamesDiffer(listings, tools, i, j);
      } else {
        ListedNamesDiffer(listings, tools, j, i);
      }
    }
  }

  /** A listed tool was declared by its provider under its original name. */
  lemma ListedBy(listings: seq<Listing>, tools: seq<RegistryTool>, i: nat)
    requires Answers(listings, Ok(tools)) && i < |tools|
    ensures tools[i].provider < |listings|
    ensures exists s: ToolSpec :: s in listings[tools[i].provider].value && Text.Trim(s.name) == tools[i].originalName
  {
    ListedName(listings, tools, i);
    assert Collected(listings)[i] in Collected(listings);
    CollectedFrom(listings, Collected(listings)[i]);
  }

  /****** What a namespace is ******/

  /** A name that needs no cleaning. */
  predicate Clean(s: string) {
    s != "" && (forall c <- s :: IsNameChar(c)) && !IsSeparator(s[0]) && !IsSeparator(s[|s| - 1])
  }

  lemma {:induction false} SanitizeKeeps(s: string)
    requires forall c <- s :: IsNameChar(c)
    ensures Sanitize(s) == s
  {
    if s != "" {
      assert s[0] in s && forall c <- s[1..] :: c in s;
      SanitizeKeeps(s[1..]);
      assert s == [s[0]] + s[1..];
    }
  }

  /** Cleaning replaces what is not allowed, one by one, by underscores. */
  lemma {:induction false} SanitizeAt(s: string)
    ensures |Sanitize(s)| == |s|
    ensures forall k :: 0 <= k < |s| ==> Sanitize(s)[k] == if IsNameChar(s[k]) then s[k] else '_'
  {
    if s != "" {
      SanitizeAt(s[1..]);
    }
  }

  lemma {:induction false} TrimSeparatorsMeans(s: string)
    ensures TrimSeparators(s) != "" ==> !IsSeparator(TrimSeparators(s)[0]) && !IsSeparator(TrimSeparators(s)[|TrimSeparators(s)| - 1])
    ensures s != "" && !IsSeparator(s[0]) && !IsSeparator(s[|s| - 1]) ==> TrimSeparators(s) == s
  {
    if s != "" && IsSeparator(s[0]) {
      TrimSeparatorsMeans(s[1..]);
    } else if s != "" && IsSeparator(s[|s| - 1]) {
      TrimSeparatorsMeans(s[..|s| - 1]);
    }
  }

  /** The namespace of a tool: its own if it names one, else its provider's name, else the number of the
      provider, counted from one; clean names are taken as they are. */
  lemma NamespaceMeans(spec: ToolSpec, provider: nat)
    ensures !Text.Blank(spec.namespace) && Clean(Text.Trim(spec.namespace)) ==> Namespace(spec, provider) == Text.Trim(spec.namespace)
    ensures Text.Blank(spec.namespace) && !Text.Blank(spec.providerName) && Clean(Text.Trim(spec.providerName)) ==>
      Namespace(spec, provider) == Text.Trim(spec.providerName)
    ensures Text.Blank(spec.namespace) && Text.Blank(spec.providerName) && Clean(DefaultNamespace(provider)) ==>
      Namespace(spec, provider) == "provider_" + Text.Itoa(provider + 1)
  {
    var raw := Text.FirstNonEmpty([spec.namespace, spec.providerName, DefaultNamespace(provider)]);
    FirstIs(spec.namespace, spec.providerName, DefaultNamespace(provider));
    Text.TrimIs(spec.namespace);
    Text.TrimIs(spec.providerName);
    Text.TrimIs(DefaultNamespace(provider));
    Text.TrimIs(raw);
    if Clean(raw) {
      SanitizeKeeps(raw);
      TrimSeparatorsMeans(raw);
    }
    if Clean(DefaultNamespace(provider)) {
      CleanIsTrimmed(DefaultNamespace(provider));
    }
  }

  lemma FirstIs(a: string, b: string, c: string)
    ensures Text.FirstNonEmpty([a, b, c]) ==
      if !Text.Blank(a) then Text.Trim(a) else if !Text.Blank(b) then Text.Trim(b) else Text.Trim(c)
  {
    var all, rest, last := [a, b, c], [b, c], [c];
    assert all[1..] == rest && rest[1..] == last && last[1..] == [];
    assert Text.FirstNonEmpty(last) == if !Text.Blank(c) then Text.Trim(c) else "";
    assert Text.FirstNonEmpty(rest) == if !Text.Blank(b) then Text.Trim(b) else Text.FirstNonEmpty(last);
    assert Text.FirstNonEmpty(all) == if !Text.Blank(a) then Text.Trim(a) else Text.FirstNonEmpty(rest);
  }

  lemma CleanIsTrimmed(s: string)
    requires Clean(s)
    ensures Text.Trim(s) == s
  {
    assert s[0] in s && s[|s| - 1] in s;
  }

  /** A shared name is qualified by the namespace of its tool; the second and later tools of one namespace by
      the namespace with their number. */
  lemma SharedNameQualified(tools: seq<RegistryTool>, i: nat)
    requires i < |tools| && NameCount(tools, tools[i].originalName) > 1
    ensures
      var base, name := Namespace(tools[i].spec, tools[i].provider), tools[i].originalName;
      var count := NamespaceCount(tools[..i + 1], name, base);
      && Routed(tools, i).exposedName == (if count > 1 then base + "_" + Text.Itoa(count) else base) + "__" + name
      && Routed(tools, i).spec.name == Routed(tools, i).exposedName && Routed(tools, i).originalName == name
      && Routed(tools, i).provider == tools[i].provider
  {
  }

  /** The number of a tool counts the tools of its name and namespace up to it. */
  lemma {:induction false} NamespaceCountMeans(tools: seq<RegistryTool>, name: string, base: string, n: nat)
    requires n < |tools|
    ensures NamespaceCount(tools[..n + 1], name, base) == NamespaceCount(tools[..n], name, base)
      + if tools[n].originalName == name && Namespace(tools[n].spec, tools[n].provider) == base then 1 else 0
    ensures NamespaceCount(tools[..0], name, base) == 0
  {
    assert tools[..n + 1][..n] == tools[..n];
  }
}
