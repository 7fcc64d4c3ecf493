/** Catalog execution definitions: validation, storage form, the active-mode guard and the fingerprint text. */
module Catalog {
  import opened Basics
  import opened JsonText

  datatype Invocation = Invocation(
    arguments: seq<string>, workingDirectory: string, outputDirectory: string, requiredOutputs: seq<string>)

  type Modes = map<string, Invocation>

  datatype ReleaseDefinition = ReleaseDefinition(
    modelId: string, displayName: string, imageDigest: string, modes: Modes)

  function Get<K(==), V>(m: map<K, V>, k: K): Option<V> { if k in m then Some(m[k]) else None }

  // ---- Path and key syntax ----

  predicate IsAlphanumeric(c: char) { 'a' <= c <= 'z' || '0' <= c <= '9' }

  /** The expression `[a-z0-9](?:[a-z0-9-]{0,61}[a-z0-9])?` matched in full. */
  predicate IsKey(s: string) {
    && 1 <= |s| <= 63
    && (forall i :: 0 <= i < |s| ==> IsAlphanumeric(s[i]) || s[i] == '-')
    && IsAlphanumeric(s[0]) && IsAlphanumeric(s[|s| - 1])
  }

  function Split(s: string): (parts: seq<string>)
    ensures parts != []
  {
    if s == "" then [""]
    else
      var tail := Split(s[1..]);
      if s[0] == '/' then [""] + tail else [[s[0]] + tail[0]] + tail[1..]
  }

  /** The names of a POSIX path: empty and `.` components vanish. */
  function Names(parts: seq<string>): seq<string> {
    if parts == [] then []
    else (if parts[0] == "" || parts[0] == "." then [] else [parts[0]]) + Names(parts[1..])
  }

  function Join(names: seq<string>): string {
    if names == [] then "" else if |names| == 1 then names[0] else names[0] + "/" + Join(names[1..])
  }

  predicate IsAbsolute(path: string) { path != "" && path[0] == '/' }

  predicate IsContainerDirectory(path: string) {
    && '\0' !in path
    && IsAbsolute(path)
    && ".." !in Names(Split(path))
  }

  predicate IsOutputPath(path: string) {
    && path != ""
    && !IsAbsolute(path)
    && !(|path| >= 2 && path[1] == ':')   // a Windows drive; other drive forms start with a slash or backslash
    && path != "."
    && ".." !in Names(Split(path))
    && Join(Names(Split(path))) == path
    && (forall i :: 0 <= i < |path| ==> path[i] !in "\\*?[]" && path[i] as int >= 32)
  }

  // ---- Reading and storing a definition; None stands for ModelError ----

  function Strings(items: seq<Json>): Option<seq<string>> {
    if forall i :: 0 <= i < |items| ==> items[i].JString?
    then Some(seq(|items|, i requires 0 <= i < |items| && items[i].JString? => items[i].text))
    else None
  }

  function Quoted(texts: seq<string>): Json {
    JArray(seq(|texts|, i requires 0 <= i < |texts| => JString(texts[i])))
  }

  ghost function OutputsFromList(value: Json): Option<seq<string>> {
    if !value.JArray? then None
    else match Strings(value.items)
      case None => None
      case Some(paths) => OutputsFromPaths(paths)
  }

  ghost function OutputsFromPaths(paths: seq<string>): Option<seq<string>> {
    if (forall p :: p in paths ==> IsOutputPath(p)) && |set p | p in paths| == |paths|
    then Some(Sorted(set p | p in paths)) else None
  }

  predicate IsArgument(s: string) { s != "" && '\0' !in s }

  function ArgumentsFromList(value: Json): Option<seq<string>> {
    if !value.JArray? || value.items == [] then None
    else match Strings(value.items)
      case None => None
      case Some(texts) => if forall s :: s in texts ==> IsArgument(s) then Some(texts) else None
  }

  function DirectoryFrom(value: Json): Option<string> {
    if value.JString? && IsContainerDirectory(value.text) then Some(value.text) else None
  }

  const ARGUMENTS := "arguments"
  const WORKING := "working_directory"
  const OUTPUT := "output_directory"
  const REQUIRED := "required_outputs"

  ghost function InvocationFromDict(value: Json): Option<Invocation> {
    if value.JObject? then InvocationFromFields(value.fields, ARGUMENTS, WORKING, OUTPUT, REQUIRED) else None
  }

  /** The reader with its field names as arguments: `a`, `w`, `o` must be present, `r` may be, nothing else. */
  ghost function InvocationFromFields(
      f: map<string, Json>, a: string, w: string, o: string, r: string): Option<Invocation>
  {
    if !({a, w, o} <= f.Keys) || f.Keys - {a, w, o} - {r} != {} then None
    else InvocationFromParts(f[a], f[w], f[o], if r in f then f[r] else JArray([]))
  }

  ghost function InvocationFromParts(arguments: Json, working: Json, output: Json, required: Json): Option<Invocation> {
    var a, w, o, r := ArgumentsFromList(arguments), DirectoryFrom(working), DirectoryFrom(output), OutputsFromList(required);
    if a.Some? && w.Some? && o.Some? && r.Some? then Some(Invocation(a.value, w.value, o.value, r.value)) else None
  }

  ghost predicate ValidInvocation(inv: Invocation) {
    && ArgumentsFromList(Quoted(inv.arguments)) == Some(inv.arguments)
    && DirectoryFrom(JString(inv.workingDirectory)).Some?
    && DirectoryFrom(JString(inv.outputDirectory)).Some?
    && OutputsFromPaths(inv.requiredOutputs) == Some(inv.requiredOutputs)
  }

  function ComputationDict(inv: Invocation): Json {
    JObject(ComputationFields(inv, ARGUMENTS, WORKING, OUTPUT))
  }

  function ComputationFields(inv: Invocation, a: string, w: string, o: string): map<string, Json> {
    map[a := Quoted(inv.arguments), w := JString(inv.workingDirectory), o := JString(inv.outputDirectory)]
  }

  function InvocationToDict(inv: Invocation): Json {
    JObject(InvocationFields(inv, ARGUMENTS, WORKING, OUTPUT, REQUIRED))
  }

  function InvocationFields(inv: Invocation, a: string, w: string, o: string, r: string): map<string, Json> {
    if inv.requiredOutputs == [] then ComputationFields(inv, a, w, o)
    else ComputationFields(inv, a, w, o)[r := Quoted(inv.requiredOutputs)]
  }

  ghost function DefinitionFromDict(value: Json): Option<Modes> {
    if !value.JObject? || value.fields.Keys != {"modes"} then None
    else
      var modes := value.fields["modes"];
      if modes.JObject? && modes.fields.Keys != {} then ModesFromFields(modes.fields) else None
  }

  ghost function ModesFromFields(fields: map<string, Json>): Option<Modes> {
    if forall k :: k in fields ==> IsKey(k) then ReadAll(fields, InvocationFromDict) else None
  }

  ghost function ReadAll<A, B>(fields: map<string, A>, read: A -> Option<B>): Option<map<string, B>> {
    if forall k :: k in fields ==> read(fields[k]).Some? then Some(map k | k in fields :: read(fields[k]).value) else None
  }

  function WriteAll<A, B>(values: map<string, B>, write: B -> A): map<string, A> { map k | k in values :: write(values[k]) }

  function DefinitionToDict(modes: Modes): Json { JObject(map["modes" := JObject(WriteAll(modes, InvocationToDict))]) }

  // ---- What the readers accept, in their own terms ----

  lemma {:induction false} NamesKeep(parts: seq<string>)
    ensures forall s :: s in Names(parts) <==> s in parts && s != "" && s != "."
  {
    if parts != [] {
      NamesKeep(parts[1..]);
      assert parts == [parts[0]] + parts[1..];
    }
  }

  lemma {:induction false} JoinSplit(s: string)
    ensures Join(Split(s)) == s
  {
    if s != "" {
      var tail := Split(s[1..]);
      JoinSplit(s[1..]);
      if s[0] == '/' {
        assert ([""] + tail)[1..] == tail;
        assert Join([""] + tail) == "" + "/" + Join(tail);
      } else {
        var head := [s[0]] + tail[0];
        assert ([head] + tail[1..])[1..] == tail[1..];
        if |tail| > 1 { assert Join([head] + tail[1..]) == head + "/" + Join(tail[1..]); }
      }
    }
  }

  predicate AllNames(parts: seq<string>) { forall i :: 0 <= i < |parts| ==> parts[i] != "" && parts[i] != "." }

  /** Dropping a component shortens the path. */
  lemma {:induction false} DroppingShortens(parts: seq<string>)
    requires parts != []
    ensures AllNames(parts) ==> Names(parts) == parts
    ensures !AllNames(parts) ==> |Join(Names(parts))| < |Join(parts)| || parts == [""]
    ensures |Join(Names(parts))| <= |Join(parts)| && (Names(parts) == [] ==> Join(Names(parts)) == "")
  {
    if |parts| > 1 {
      var rest := parts[1..];
      DroppingShortens(rest);
      assert parts == [parts[0]] + rest;
      assert AllNames(parts) <==> AllNames(rest) && parts[0] != "" && parts[0] != ".";
      assert Join(parts) == parts[0] + "/" + Join(rest);
      var names := Names(rest);
      if parts[0] != "" && parts[0] != "." {
        assert ([parts[0]] + names)[1..] == names;
        assert Names(parts) == [parts[0]] + names;
      } else {
        assert Names(parts) == names;
      }
    }
  }

  lemma AbsoluteStartsEmpty(path: string)
    ensures path == "" || IsAbsolute(path) <==> Split(path)[0] == ""
  {
  }

  /** A required output is a relative path whose components are all proper names, with no drive, wildcard or control character. */
  lemma OutputPathExactly(path: string)
    ensures IsOutputPath(path) <==>
            && (forall name :: name in Split(path) ==> name != "" && name != "." && name != "..")
            && !(|path| >= 2 && path[1] == ':')
            && (forall i :: 0 <= i < |path| ==> path[i] !in "\\*?[]" && path[i] as int >= 32)
  {
    NamesKeep(Split(path));
    NormalExactly(path);
  }

  lemma NormalExactly(path: string)
    ensures path != "" && !IsAbsolute(path) && path != "." && Join(Names(Split(path))) == path <==> AllNames(Split(path))
    ensures AllNames(Split(path)) <==> forall name :: name in Split(path) ==> name != "" && name != "."
  {
    if AllNames(Split(path)) { NormalPath(path); } else { ImproperPath(path); }
    AllNamesMembers(Split(path));
  }

  lemma AllNamesMembers(parts: seq<string>)
    ensures AllNames(parts) <==> forall name :: name in parts ==> name != "" && name != "."
  {
    if forall name :: name in parts ==> name != "" && name != "." {
      forall i | 0 <= i < |parts| ensures parts[i] != "" && parts[i] != "." { assert parts[i] in parts; }
    }
  }

  lemma NormalPath(path: string)
    requires AllNames(Split(path))
    ensures path != "" && !IsAbsolute(path) && path != "." && Join(Names(Split(path))) == path
  {
    JoinSplit(path);
    DroppingShortens(Split(path));
    AbsoluteStartsEmpty(path);
    DotIsItself();
  }

  lemma DotIsItself()
    ensures Split("") == [""] && Split(".") == ["."]
  {
    var rest := "."[1..];
    assert rest == "" && Split(rest) == [""];
    assert ['.'] + "" == ".";
  }

  lemma ImproperPath(path: string)
    requires !AllNames(Split(path))
    ensures path == "" || Join(Names(Split(path))) != path
  {
    JoinSplit(path);
    DroppingShortens(Split(path));
  }

  /** A container directory is absolute and climbs nowhere. */
  lemma ContainerDirectoryExactly(path: string)
    ensures IsContainerDirectory(path) <==> path != "" && path[0] == '/' && '\0' !in path && ".." !in Split(path)
  {
    NamesKeep(Split(path));
  }

  predicate NoRepeats(s: seq<string>) { forall i, j :: 0 <= i < j < |s| ==> s[i] != s[j] }

  lemma NoRepeatsNext(less: seq<string>, p: string)
    ensures NoRepeats(less + [p]) <==> NoRepeats(less) && p !in less
  {
    var s := less + [p];
    if NoRepeats(s) {
      forall i, j | 0 <= i < j < |less| ensures less[i] != less[j] { assert s[i] != s[j]; }
      forall i | 0 <= i < |less| ensures less[i] != p { assert s[i] != s[|less|]; }
    }
  }

  lemma CountNext(less: seq<string>, p: string)
    ensures |set q | q in less + [p]| == |set q | q in less| + if p in less then 0 else 1
  {
    assert (set q | q in less + [p]) == (set q | q in less) + {p};
  }

  lemma {:induction false} DistinctCount(s: seq<string>)
    ensures |set p | p in s| <= |s|
    ensures |set p | p in s| == |s| <==> NoRepeats(s)
  {
    if s != [] {
      var n := |s| - 1;
      DistinctCount(s[..n]);
      CountNext(s[..n], s[n]);
      NoRepeatsNext(s[..n], s[n]);
      assert s == s[..n] + [s[n]];
    }
  }

  /** Required outputs are accepted exactly if each is such a path and none is given twice. */
  lemma OutputsAcceptedExactly(paths: seq<string>)
    ensures OutputsFromPaths(paths).Some? <==>
            (forall i :: 0 <= i < |paths| ==> IsOutputPath(paths[i])) && forall i, j :: 0 <= i < j < |paths| ==> paths[i] != paths[j]
  {
    DistinctCount(paths);
    assert (forall p :: p in paths ==> IsOutputPath(p)) <==> forall i :: 0 <= i < |paths| ==> IsOutputPath(paths[i]);
  }

  /** The mode parameter selects the entry of that name, whatever else is given, and nothing is selected otherwise. */
  lemma ResolveSelects(modes: Modes, parameters: map<string, Json>, mode: string)
    requires "mode" in parameters
    ensures parameters["mode"] == JString(mode) ==> Resolve(modes, parameters) == if mode in modes then Some(modes[mode]) else None
    ensures !parameters["mode"].JString? ==> Resolve(modes, parameters) == None
  {
  }

  lemma QuotedStrings(texts: seq<string>)
    ensures Strings(Quoted(texts).items) == Some(texts)
  {
    assert Strings(Quoted(texts).items).value == texts;
  }

  lemma StringsQuoted(items: seq<Json>)
    requires Strings(items).Some?
    ensures Quoted(Strings(items).value) == JArray(items)
  {
    assert Quoted(Strings(items).value).items == items;
  }

  lemma IncreasingDistinct(s: seq<string>)
    requires Increasing(s)
    ensures |set p | p in s| == |s|
  {
    if s != [] {
      HeadIsNew(s, s[0]);
      IncreasingDistinct(s[1..]);
      assert (set p | p in s) == {s[0]} + (set p | p in s[1..]);
    }
  }

  /** Required outputs come out sorted and duplicate-free, and reading them again changes nothing. */
  lemma OutputsSettle(paths: seq<string>)
    requires OutputsFromPaths(paths).Some?
    ensures var outputs := OutputsFromPaths(paths).value;
            && Increasing(outputs)
            && (forall p :: p in outputs <==> p in paths)
            && OutputsFromPaths(outputs) == Some(outputs)
  {
    var outputs := OutputsFromPaths(paths).value;
    SortedLists(set p | p in paths);
    IncreasingDistinct(outputs);
    assert (set p | p in outputs) == (set p | p in paths);
  }

  /** An invocation is valid exactly if every argument is a nonempty text, both directories are proper and its outputs are settled. */
  lemma ValidExactly(inv: Invocation)
    ensures ValidInvocation(inv) <==>
            && inv.arguments != [] && (forall s :: s in inv.arguments ==> s != "" && '\0' !in s)
            && IsContainerDirectory(inv.workingDirectory) && IsContainerDirectory(inv.outputDirectory)
            && Increasing(inv.requiredOutputs) && forall p :: p in inv.requiredOutputs ==> IsOutputPath(p)
  {
    QuotedStrings(inv.arguments);
    SettledExactly(inv.requiredOutputs);
  }

  lemma SettledExactly(outputs: seq<string>)
    ensures OutputsFromPaths(outputs) == Some(outputs) <==> Increasing(outputs) && forall p :: p in outputs ==> IsOutputPath(p)
  {
    if Increasing(outputs) {
      IncreasingDistinct(outputs);
      SortedLists(set p | p in outputs);
      IncreasingUnique(outputs, Sorted(set p | p in outputs));
    }
    if OutputsFromPaths(outputs) == Some(outputs) { OutputsSettle(outputs); }
  }

  lemma AcceptedInvocationIsValid(value: Json)
    requires InvocationFromDict(value).Some?
    ensures ValidInvocation(InvocationFromDict(value).value)
  {
    var f := value.fields;
    StringsQuoted(f[ARGUMENTS].items);
    var required := if REQUIRED in f then f[REQUIRED] else JArray([]);
    OutputsSettle(Strings(required.items).value);
  }

  lemma TextsIn(items: seq<Json>, p: string)
    requires Strings(items).Some?
    ensures p in Strings(items).value <==> JString(p) in items
  {
    var paths := Strings(items).value;
    if p in paths {
      var i :| 0 <= i < |paths| && paths[i] == p;
      assert items[i] == JString(p);
    }
    if JString(p) in items {
      var i :| 0 <= i < |items| && items[i] == JString(p);
      assert paths[i] == p;
    }
  }

  /** An accepted invocation says what the document says; only the order of its outputs is its own. */
  lemma AcceptedInvocationSays(f: map<string, Json>, a: string, w: string, o: string, r: string)
    requires InvocationFromFields(f, a, w, o, r).Some?
    ensures var inv := InvocationFromFields(f, a, w, o, r).value;
            && {a, w, o} <= f.Keys && f.Keys - {a, w, o} - {r} == {}
            && f[a] == Quoted(inv.arguments) && f[w] == JString(inv.workingDirectory) && f[o] == JString(inv.outputDirectory)
            && (r !in f ==> inv.requiredOutputs == [])
            && (r in f ==> f[r].JArray? && forall p :: p in inv.requiredOutputs <==> JString(p) in f[r].items)
  {
    StringsQuoted(f[a].items);
    var required := if r in f then f[r] else JArray([]);
    var paths := Strings(required.items).value;
    OutputsSettle(paths);
    forall p ensures p in paths <==> JString(p) in required.items { TextsIn(required.items, p); }
    if r !in f { assert forall p :: p !in InvocationFromFields(f, a, w, o, r).value.requiredOutputs; }
  }

  lemma PartsRoundTrip(inv: Invocation)
    requires ValidInvocation(inv)
    ensures InvocationFromParts(Quoted(inv.arguments), JString(inv.workingDirectory), JString(inv.outputDirectory),
                                Quoted(inv.requiredOutputs)) == Some(inv)
  {
    QuotedStrings(inv.requiredOutputs);
  }

  lemma FieldsRoundTrip(inv: Invocation, a: string, w: string, o: string, r: string)
    requires ValidInvocation(inv) && a != w && a != o && a != r && w != o && w != r && o != r
    ensures InvocationFromFields(InvocationFields(inv, a, w, o, r), a, w, o, r) == Some(inv)
  {
    var required := Quoted(inv.requiredOutputs);
    assert inv.requiredOutputs == [] ==> required == JArray([]);
    FieldsLookup(Quoted(inv.arguments), JString(inv.workingDirectory), JString(inv.outputDirectory), required, a, w, o, r);
    PartsRoundTrip(inv);
  }

  lemma FieldsLookup(p: Json, q: Json, s: Json, t: Json, a: string, w: string, o: string, r: string)
    requires a != w && a != o && a != r && w != o && w != r && o != r
    ensures var f := map[a := p, w := q, o := s];
            && {a, w, o} <= f.Keys && f.Keys - {a, w, o} - {r} == {} && f[a] == p && f[w] == q && f[o] == s && r !in f
            && var g := f[r := t];
            {a, w, o} <= g.Keys && g.Keys - {a, w, o} - {r} == {} && g[a] == p && g[w] == q && g[o] == s && g[r] == t
  {
  }

  lemma InvocationRoundTrip(inv: Invocation)
    requires ValidInvocation(inv)
    ensures InvocationFromDict(InvocationToDict(inv)) == Some(inv)
  {
    assert ARGUMENTS[0] == 'a' && WORKING[0] == 'w' && OUTPUT[0] == 'o' && REQUIRED[0] == 'r';
    FieldsRoundTrip(inv, ARGUMENTS, WORKING, OUTPUT, REQUIRED);
  }

  lemma ReadAllRoundTrip<A, B>(fields: map<string, A>, read: A -> Option<B>, write: B -> A)
    requires ReadAll(fields, read).Some?
    requires forall k :: k in fields ==> read(write(read(fields[k]).value)) == read(fields[k])
    ensures ReadAll(WriteAll(ReadAll(fields, read).value, write), read) == ReadAll(fields, read)
    ensures WriteAll(ReadAll(fields, read).value, write).Keys == fields.Keys
  {
    var values := ReadAll(fields, read).value;
    var again := WriteAll(values, write);
    assert ReadAll(again, read).value == values;
  }

  /** Reading back what registration stores gives the definition that was accepted. */
  lemma DefinitionRoundTrip(value: Json)
    requires DefinitionFromDict(value).Some?
    ensures DefinitionFromDict(DefinitionToDict(DefinitionFromDict(value).value)) == DefinitionFromDict(value)
  {
    var given := value.fields["modes"].fields;
    forall k | k in given
      ensures InvocationFromDict(InvocationToDict(InvocationFromDict(given[k]).value)) == InvocationFromDict(given[k])
    {
      AcceptedInvocationIsValid(given[k]);
      InvocationRoundTrip(InvocationFromDict(given[k]).value);
    }
    ReadAllRoundTrip(given, InvocationFromDict, InvocationToDict);
    var again := WriteAll(DefinitionFromDict(value).value, InvocationToDict);
    assert ModesFromFields(again) == ModesFromFields(given);
    DefinitionOfFields(again);
  }

  lemma DefinitionOfFields(fields: map<string, Json>)
    requires fields.Keys != {}
    ensures DefinitionFromDict(JObject(map["modes" := JObject(fields)])) == ModesFromFields(fields)
  {
  }

  // ---- Output order does not matter ----

  lemma SameElements(a: seq<string>, b: seq<string>)
    requires multiset(a) == multiset(b)
    ensures (set p | p in a) == (set p | p in b) && |a| == |b|
    ensures forall p :: p in a <==> p in b
  {
    forall p ensures p in a <==> p in b {
      assert p in a <==> p in multiset(a);
      assert p in b <==> p in multiset(b);
    }
    assert |multiset(a)| == |a| && |multiset(b)| == |b|;
  }

  /** Two configurations that differ only in the order of one mode's required outputs. */
  ghost predicate OutputsReordered(a: Json, b: Json) {
    && a.JObject? && b.JObject? && a.fields.Keys == b.fields.Keys
    && (forall k :: k in a.fields && k != REQUIRED ==> a.fields[k] == b.fields[k])
    && (REQUIRED in a.fields ==>
          exists p, q :: a.fields[REQUIRED] == Quoted(p) && b.fields[REQUIRED] == Quoted(q)
                         && multiset(p) == multiset(q))
  }

  lemma ReorderedOutputsEqual(p: seq<string>, q: seq<string>)
    requires multiset(p) == multiset(q)
    ensures OutputsFromList(Quoted(p)) == OutputsFromList(Quoted(q))
  {
    QuotedStrings(p);
    QuotedStrings(q);
    SameElements(p, q);
    assert OutputsFromPaths(p) == OutputsFromPaths(q);
  }

  lemma ReorderedInvocationEqual(a: Json, b: Json)
    requires OutputsReordered(a, b)
    ensures InvocationFromDict(a) == InvocationFromDict(b)
  {
    if REQUIRED in a.fields {
      var p, q :| a.fields[REQUIRED] == Quoted(p) && b.fields[REQUIRED] == Quoted(q)
                  && multiset(p) == multiset(q);
      ReorderedOutputsEqual(p, q);
    }
  }

  /** `ensure_active_modes_unchanged` raises nothing. */
  predicate ActiveModesUnchanged(current: Modes, proposed: Modes, active: set<string>) {
    forall mode :: mode in active ==> Get(current, mode) == Get(proposed, mode)
  }

  /** Re-registering with reordered required outputs is accepted and never trips the guard. */
  lemma ReorderingNeverBlocks(a: Json, b: Json, active: set<string>)
    requires DefinitionFromDict(a).Some?
    requires b.JObject? && b.fields.Keys == {"modes"} && b.fields["modes"].JObject?
    requires b.fields["modes"].fields.Keys == a.fields["modes"].fields.Keys
    requires forall k :: k in a.fields["modes"].fields ==>
               OutputsReordered(a.fields["modes"].fields[k], b.fields["modes"].fields[k])
    ensures DefinitionFromDict(b) == DefinitionFromDict(a)
    ensures ActiveModesUnchanged(DefinitionFromDict(a).value, DefinitionFromDict(b).value, active)
  {
    var f, g := a.fields["modes"].fields, b.fields["modes"].fields;
    forall k | k in f ensures InvocationFromDict(f[k]) == InvocationFromDict(g[k]) {
      ReorderedInvocationEqual(f[k], g[k]);
    }
    ReadAllEqual(f, g, InvocationFromDict);
  }

  lemma ReadAllEqual<A, B>(f: map<string, A>, g: map<string, A>, read: A -> Option<B>)
    requires f.Keys == g.Keys && forall k :: k in f ==> read(f[k]) == read(g[k])
    ensures ReadAll(f, read) == ReadAll(g, read)
  {
    if ReadAll(f, read).Some? {
      assert ReadAll(f, read).value == ReadAll(g, read).value;
    }
  }

  // ---- The text under the fingerprint ----

  /** The selected invocation; None when the mode is not text or not supported. */
  function Resolve(modes: Modes, parameters: map<string, Json>): Option<Invocation> {
    if "mode" in parameters && parameters["mode"].JString? then Get(modes, parameters["mode"].text) else None
  }

  function Payload(release: ReleaseDefinition, inv: Invocation, parameters: map<string, Json>): Json {
    JObject(map["model_id" := JString(release.modelId),
                "image_digest" := JString(release.imageDigest),
                "execution_definition" := ComputationDict(inv),
                "parameters" := JObject(parameters)])
  }

  ghost function CanonicalText(release: ReleaseDefinition, parameters: map<string, Json>): Option<string> {
    match Resolve(release.modes, parameters)
    case None => None
    case Some(inv) => Some(Text(Payload(release, inv, parameters)))
  }

  lemma QuotedInjective(a: seq<string>, b: seq<string>)
    requires Quoted(a) == Quoted(b)
    ensures a == b
  {
    QuotedStrings(a);
    QuotedStrings(b);
  }

  /** Exactly the model, image, selected arguments, directories and parameters decide the text. */
  lemma CanonicalTextInjective(
      a: ReleaseDefinition, p: map<string, Json>, b: ReleaseDefinition, q: map<string, Json>)
    requires Resolve(a.modes, p).Some? && Resolve(b.modes, q).Some?
    ensures CanonicalText(a, p) == CanonicalText(b, q) <==>
            var x, y := Resolve(a.modes, p).value, Resolve(b.modes, q).value;
            && a.modelId == b.modelId && a.imageDigest == b.imageDigest && p == q
            && x.arguments == y.arguments
            && x.workingDirectory == y.workingDirectory && x.outputDirectory == y.outputDirectory
  {
    var x, y := Resolve(a.modes, p).value, Resolve(b.modes, q).value;
    var s, t := Payload(a, x, p), Payload(b, y, q);
    TextInjective(s, t);
    if s == t {
      assert s.fields["model_id"] == t.fields["model_id"];
      assert s.fields["image_digest"] == t.fields["image_digest"];
      assert s.fields["parameters"] == t.fields["parameters"];
      var d, e := s.fields["execution_definition"], t.fields["execution_definition"];
      assert d == e;
      assert d.fields[WORKING] == e.fields[WORKING];
      assert d.fields[OUTPUT] == e.fields[OUTPUT];
      assert d.fields[ARGUMENTS] == e.fields[ARGUMENTS];
      QuotedInjective(x.arguments, y.arguments);
    }
  }
}
