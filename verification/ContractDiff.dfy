/** The contract checker: what it reports, and what an empty report guarantees a caller. */
module ContractDiff {
  import opened Wrappers

  // A schema here is the fragment the checker looks at (type names, enum, maximum, required, properties,
  // default) with JSON Schema's meaning.

  /** A JSON value; a number is the number it denotes, whole or not. */
  datatype Value =
    | Null
    | Bool(b: bool)
    | Num(x: real)
    | Str(s: string)
    | Arr(items: seq<Value>)
    | Obj(members: map<string, Value>)

  datatype Property = Property(name: string, schema: Schema)

  datatype Schema = Schema(
    types: Option<seq<string>>,
    choices: Option<seq<Value>>,            // enum
    maximum: Option<real>,
    required: seq<string>,
    properties: seq<Property>,             // absent and empty are alike
    standard: Option<Value>)                // default

  /** No keyword at all. */
  const ANY := Schema(None, None, None, [], [], None)

  predicate DistinctNames(ps: seq<Property>) {
    forall i, j | 0 <= i < j < |ps| :: ps[i].name != ps[j].name
  }

  function Lookup(ps: seq<Property>, name: string): (r: Option<Schema>)
    ensures r.Some? <==> exists i :: 0 <= i < |ps| && ps[i].name == name
    ensures r.Some? ==> exists i :: 0 <= i < |ps| && ps[i] == Property(name, r.value)
    ensures DistinctNames(ps) ==> forall i | 0 <= i < |ps| && ps[i].name == name :: r == Some(ps[i].schema)
  {
    if ps == [] then None
    else if ps[0].name == name then Some(ps[0].schema)
    else Lookup(ps[1..], name)
  }

  predicate Declares(s: Schema, name: string) {
    Lookup(s.properties, name).Some?
  }

  // ---- what a schema accepts ------------------------------------------------------------

  predicate Whole(x: real) {
    x == x.Floor as real
  }

  predicate HasType(v: Value, name: string) {
    match v
    case Null => name == "null"
    case Bool(_) => name == "boolean"
    case Num(x) => name == "number" || (name == "integer" && Whole(x))
    case Str(_) => name == "string"
    case Arr(_) => name == "array"
    case Obj(_) => name == "object"
  }

  predicate OfSomeType(v: Value, names: seq<string>) {
    exists i :: 0 <= i < |names| && HasType(v, names[i])
  }

  /** The keywords that look at the value itself. */
  predicate ValueOk(s: Schema, v: Value) {
    && (s.types.Some? ==> OfSomeType(v, s.types.value))
    && (s.choices.Some? ==> v in s.choices.value)
    && (s.maximum.Some? && v.Num? ==> v.x <= s.maximum.value)
  }

  predicate Valid(s: Schema, v: Value)
    decreases s
  {
    && ValueOk(s, v)
    && (v.Obj? ==>
          && (forall i | 0 <= i < |s.required| :: s.required[i] in v.members)
          && (forall i | 0 <= i < |s.properties| && s.properties[i].name in v.members ::
                Valid(s.properties[i].schema, v.members[s.properties[i].name])))
  }

  // ---- findings ---------------------------------------------------------------------------

  /** A deprecation entry, its dates as Unix times (None when they do not parse). */
  datatype Deprecation = Deprecation(path: string, since: Option<int>, sunset: Option<int>)

  const LEAD_SECONDS := 60 * 86_400

  predicate LeadTimeValid(d: Deprecation) {
    d.since.Some? && d.sunset.Some? && d.sunset.value - d.since.value >= LEAD_SECONDS
  }

  predicate SunsetPassed(d: Deprecation, today: int) {
    d.sunset.Some? && today >= d.sunset.value
  }

  datatype Reason =
    | BecameRequired
    | TypeChanged
    | MaximumLower
    | MaximumLowerOn(field: string)
    | EnumNarrowed
    | EnumAdded
    | DefaultOrderChanged
    | NoLongerAlwaysPresent

  datatype Violation =
    | Removed(path: string)
    | RemovedBeforeSunset(path: string, sunset: Option<int>)
    | Narrowed(path: string, reason: Reason)
    | OpaqueRoot(path: string, removed: seq<string>)

  /** The first entry for `path` announced early enough. */
  function Announced(path: string, deps: seq<Deprecation>): (r: Option<Deprecation>)
    ensures r.Some? <==> exists i :: 0 <= i < |deps| && deps[i].path == path && LeadTimeValid(deps[i])
  {
    if deps == [] then None
    else if deps[0].path == path && LeadTimeValid(deps[0]) then Some(deps[0])
    else Announced(path, deps[1..])
  }

  function RemovedFindings(path: string, deps: seq<Deprecation>, today: int): seq<Violation> {
    match Announced(path, deps)
    case None => [Removed(path)]
    case Some(d) => if SunsetPassed(d, today) then [] else [RemovedBeforeSunset(path, d.sunset)]
  }

  function NarrowedFindings(path: string, reason: Reason, deps: seq<Deprecation>): seq<Violation> {
    if Announced(path, deps).Some? then [] else [Narrowed(path, reason)]
  }

  method CheckRemoved(path: string, deps: seq<Deprecation>, today: int, violations: seq<Violation>)
    returns (grown: seq<Violation>)
    ensures grown == violations + RemovedFindings(path, deps, today)
  {
    var i := 0;
    while i < |deps| && !(deps[i].path == path && LeadTimeValid(deps[i]))
      invariant 0 <= i <= |deps| && Announced(path, deps[i..]) == Announced(path, deps)
    {
      assert deps[i..][1..] == deps[i + 1..];
      i := i + 1;
    }
    if i == |deps| {
      grown := violations + [Removed(path)];
    } else if !SunsetPassed(deps[i], today) {
      grown := violations + [RemovedBeforeSunset(path, deps[i].sunset)];
    } else {
      grown := violations;
    }
  }

  method CheckNarrowed(path: string, reason: Reason, deps: seq<Deprecation>, violations: seq<Violation>)
    returns (grown: seq<Violation>)
    ensures grown == violations + NarrowedFindings(path, reason, deps)
  {
    var excused := exists i :: 0 <= i < |deps| && deps[i].path == path && LeadTimeValid(deps[i]);
    grown := if excused then violations else violations + [Narrowed(path, reason)];
  }

  /** Every name of the old list is in the new one. */
  predicate TypeAcceptsAll(before: seq<string>, after: seq<string>) {
    forall i | 0 <= i < |before| :: before[i] in after
  }

  predicate BoundNarrowed(o: Schema, n: Schema) {
    n.maximum.Some? && (o.maximum.None? || n.maximum.value < o.maximum.value)
  }

  function NestedNarrowed(o: Schema, ps: seq<Property>): Option<Reason> {
    if ps == [] then None
    else
      var before := Lookup(o.properties, ps[0].name);
      if BoundNarrowed(if before.Some? then before.value else ANY, ps[0].schema) then Some(MaximumLowerOn(ps[0].name))
      else NestedNarrowed(o, ps[1..])
  }

  function MaximumNarrowed(o: Schema, n: Schema): Option<Reason> {
    if BoundNarrowed(o, n) then Some(MaximumLower) else NestedNarrowed(o, n.properties)
  }

  function NarrowingReason(o: Schema, n: Schema, wasRequired: bool, isRequired: bool): Option<Reason> {
    if !wasRequired && isRequired then Some(BecameRequired)
    else if o.types.Some? && n.types.Some? && !TypeAcceptsAll(o.types.value, n.types.value) then Some(TypeChanged)
    else if MaximumNarrowed(o, n).Some? then MaximumNarrowed(o, n)
    else if n.choices.Some? && o.choices.None? then Some(EnumAdded)
    else if n.choices.Some? && !(forall i | 0 <= i < |o.choices.value| :: o.choices.value[i] in n.choices.value)
    then Some(EnumNarrowed)
    else None
  }

  predicate OrderDefaultChanged(field: string, o: Schema, n: Schema) {
    field == "order" && o.standard.Some? && n.standard.Some? && o.standard != n.standard
  }

  /** What the checker finds on one declared argument. */
  function FieldReason(p: Property, o: Schema, n: Schema, now: Schema): Option<Reason> {
    match NarrowingReason(p.schema, now, p.name in o.required, p.name in n.required)
    case Some(reason) => Some(reason)
    case None => if OrderDefaultChanged(p.name, p.schema, now) then Some(DefaultOrderChanged) else None
  }

  function FieldFindings(tool: string, p: Property, o: Schema, n: Schema, deps: seq<Deprecation>, today: int)
    : seq<Violation>
  {
    var path := tool + "." + p.name;
    match Lookup(n.properties, p.name)
    case None => RemovedFindings(path, deps, today)
    case Some(now) =>
      match FieldReason(p, o, n, now)
      case None => []
      case Some(reason) => NarrowedFindings(path, reason, deps)
  }

  function ArgumentFindings(tool: string, ps: seq<Property>, o: Schema, n: Schema, deps: seq<Deprecation>, today: int)
    : seq<Violation>
  {
    if ps == [] then []
    else FieldFindings(tool, ps[0], o, n, deps, today) + ArgumentFindings(tool, ps[1..], o, n, deps, today)
  }

  method DiffField(tool: string, p: Property, o: Schema, n: Schema, deps: seq<Deprecation>, today: int,
                   violations: seq<Violation>)
    returns (grown: seq<Violation>)
    ensures grown == violations + FieldFindings(tool, p, o, n, deps, today)
  {
    grown := violations;
    var path := tool + "." + p.name;
    match Lookup(n.properties, p.name) {
      case None =>
        grown := CheckRemoved(path, deps, today, grown);
      case Some(now) =>
        var reason := FieldReason(p, o, n, now);
        if reason.Some? {
          grown := CheckNarrowed(path, reason.value, deps, grown);
        }
    }
  }

  method DiffProperties(tool: string, o: Schema, n: Schema, deps: seq<Deprecation>, today: int,
                        violations: seq<Violation>)
    returns (grown: seq<Violation>)
    ensures grown == violations + ArgumentFindings(tool, o.properties, o, n, deps, today)
  {
    grown := violations;
    var ps := o.properties;
    for i := 0 to |ps|
      invariant grown + ArgumentFindings(tool, ps[i..], o, n, deps, today)
        == violations + ArgumentFindings(tool, ps, o, n, deps, today)
    {
      assert ps[i..][1..] == ps[i + 1..];
      Associates(grown, FieldFindings(tool, ps[i], o, n, deps, today),
                 ArgumentFindings(tool, ps[i + 1..], o, n, deps, today));
      grown := DiffField(tool, ps[i], o, n, deps, today, grown);
    }
  }

  // ---- results -----------------------------------------------------------------------------

  datatype Branch = Branch(required: Option<seq<string>>, fields: seq<string>)

  datatype Output = Output(required: Option<seq<string>>, properties: seq<Property>, branches: seq<Branch>)

  /** The keys every live result carries. */
  function LiveRequired(s: Output): seq<string> {
    if s.required.Some? then s.required.value
    else if s.branches != [] && s.branches[0].required.Some? then s.branches[0].required.value
    else []
  }

  predicate InBranch(s: Output, field: string) {
    exists i :: 0 <= i < |s.branches| && field in s.branches[i].fields
  }

  const FORWARDING_ROOTS: seq<string> := ["host.tool.call", "host.tool.test"]

  function OutputReason(p: Property, o: Output, n: Output, now: Schema): Option<Reason> {
    if p.schema.types.Some? && now.types.Some? && !TypeAcceptsAll(p.schema.types.value, now.types.value)
    then Some(TypeChanged)
    else if p.name in LiveRequired(o) && p.name !in LiveRequired(n) then Some(NoLongerAlwaysPresent)
    else None
  }

  function OutputFindings(tool: string, p: Property, o: Output, n: Output, opaqueRoot: bool, deps: seq<Deprecation>,
                          today: int)
    : seq<Violation>
  {
    var path := tool + ".output." + p.name;
    match Lookup(n.properties, p.name)
    case None => if InBranch(n, p.name) || opaqueRoot then [] else RemovedFindings(path, deps, today)
    case Some(now) =>
      match OutputReason(p, o, n, now)
      case None => []
      case Some(reason) => NarrowedFindings(path, reason, deps)
  }

  function AllOutputFindings(tool: string, ps: seq<Property>, o: Output, n: Output, opaqueRoot: bool,
                             deps: seq<Deprecation>, today: int): seq<Violation>
  {
    if ps == [] then [] else
      OutputFindings(tool, ps[0], o, n, opaqueRoot, deps, today)
      + AllOutputFindings(tool, ps[1..], o, n, opaqueRoot, deps, today)
  }

  function Dropped(p: Property, n: Output, opaqueRoot: bool): seq<string> {
    if opaqueRoot && Lookup(n.properties, p.name).None? && !InBranch(n, p.name) then [p.name] else []
  }

  /** The typed keys an opaque root no longer declares. */
  function AllDropped(ps: seq<Property>, n: Output, opaqueRoot: bool): seq<string> {
    if ps == [] then [] else Dropped(ps[0], n, opaqueRoot) + AllDropped(ps[1..], n, opaqueRoot)
  }

  function ResultFindings(tool: string, o: Output, n: Output, deps: seq<Deprecation>, today: int): seq<Violation> {
    var opaqueRoot := tool in FORWARDING_ROOTS;
    var gone := AllDropped(o.properties, n, opaqueRoot);
    var found := AllOutputFindings(tool, o.properties, o, n, opaqueRoot, deps, today);
    if gone == [] then found else found + [OpaqueRoot(tool + ".output", gone)]
  }

  method DiffOutputField(tool: string, p: Property, o: Output, n: Output, opaqueRoot: bool, deps: seq<Deprecation>,
                         today: int, violations: seq<Violation>, gone: seq<string>)
    returns (grown: seq<Violation>, more: seq<string>)
    ensures grown == violations + OutputFindings(tool, p, o, n, opaqueRoot, deps, today)
    ensures more == gone + Dropped(p, n, opaqueRoot)
  {
    grown, more := violations, gone;
    var path := tool + ".output." + p.name;
    match Lookup(n.properties, p.name) {
      case None =>
        if InBranch(n, p.name) {
        } else if opaqueRoot {
          more := more + [p.name];
        } else {
          grown := CheckRemoved(path, deps, today, grown);
        }
      case Some(now) =>
        if p.schema.types.Some? && now.types.Some? && p.schema.types != now.types
          && !TypeAcceptsAll(p.schema.types.value, now.types.value)
        {
          grown := CheckNarrowed(path, TypeChanged, deps, grown);
        } else if p.name in LiveRequired(o) && p.name !in LiveRequired(n) {
          grown := CheckNarrowed(path, NoLongerAlwaysPresent, deps, grown);
        }
    }
  }

  method DiffOutputProperties(tool: string, o: Output, n: Output, deps: seq<Deprecation>, today: int,
                              violations: seq<Violation>)
    returns (grown: seq<Violation>)
    ensures grown == violations + ResultFindings(tool, o, n, deps, today)
  {
    grown := violations;
    var ps, opaqueRoot := o.properties, tool in FORWARDING_ROOTS;
    var gone := [];
    for i := 0 to |ps|
      invariant grown + AllOutputFindings(tool, ps[i..], o, n, opaqueRoot, deps, today)
        == violations + AllOutputFindings(tool, ps, o, n, opaqueRoot, deps, today)
      invariant gone + AllDropped(ps[i..], n, opaqueRoot) == AllDropped(ps, n, opaqueRoot)
    {
      assert ps[i..][1..] == ps[i + 1..];
      Associates(grown, OutputFindings(tool, ps[i], o, n, opaqueRoot, deps, today),
                 AllOutputFindings(tool, ps[i + 1..], o, n, opaqueRoot, deps, today));
      Associates(gone, Dropped(ps[i], n, opaqueRoot), AllDropped(ps[i + 1..], n, opaqueRoot));
      grown, gone := DiffOutputField(tool, ps[i], o, n, opaqueRoot, deps, today, grown, gone);
    }
    assert ps[|ps|..] == [];
    assert gone + [] == gone && grown + [] == grown;
    Associates(violations, AllOutputFindings(tool, ps, o, n, opaqueRoot, deps, today),
               [OpaqueRoot(tool + ".output", gone)]);
    if gone != [] {
      grown := grown + [OpaqueRoot(tool + ".output", gone)];
    }
  }

  // ---- whole contracts ----------------------------------------------------------------------

  datatype Tool = Tool(name: string, input: Schema, output: Option<Output>)

  const NO_OUTPUT := Output(None, [], [])

  function OutputOf(t: Tool): Output {
    if t.output.Some? then t.output.value else NO_OUTPUT
  }

  function ToolNamed(contract: seq<Tool>, name: string): (r: Option<Tool>)
    ensures r.Some? <==> exists i :: 0 <= i < |contract| && contract[i].name == name
    ensures r.Some? ==> r.value in contract && r.value.name == name
  {
    if contract == [] then None
    else if contract[0].name == name then Some(contract[0])
    else ToolNamed(contract[1..], name)
  }

  function ToolFindings(t: Tool, live: seq<Tool>, deps: seq<Deprecation>, today: int): seq<Violation> {
    match ToolNamed(live, t.name)
    case None => RemovedFindings(t.name, deps, today)
    case Some(now) =>
      var found := ArgumentFindings(t.name, t.input.properties, t.input, now.input, deps, today);
      if t.output.None? then found
      else found + ResultFindings(t.name, t.output.value, OutputOf(now), deps, today)
  }

  /** Everything the checker reports. */
  function Findings(committed: seq<Tool>, live: seq<Tool>, deps: seq<Deprecation>, today: int): seq<Violation> {
    if committed == [] then []
    else ToolFindings(committed[0], live, deps, today) + Findings(committed[1..], live, deps, today)
  }

  method DiffTool(t: Tool, live: seq<Tool>, deps: seq<Deprecation>, today: int, violations: seq<Violation>)
    returns (grown: seq<Violation>)
    ensures grown == violations + ToolFindings(t, live, deps, today)
  {
    match ToolNamed(live, t.name) {
      case None =>
        grown := CheckRemoved(t.name, deps, today, violations);
      case Some(now) =>
        grown := DiffProperties(t.name, t.input, now.input, deps, today, violations);
        if t.output.Some? {
          Associates(violations, ArgumentFindings(t.name, t.input.properties, t.input, now.input, deps, today),
                     ResultFindings(t.name, t.output.value, OutputOf(now), deps, today));
          grown := DiffOutputProperties(t.name, t.output.value, OutputOf(now), deps, today, grown);
        }
    }
  }

  method Diff(committed: seq<Tool>, live: seq<Tool>, deps: seq<Deprecation>, today: int)
    returns (violations: seq<Violation>)
    ensures violations == Findings(committed, live, deps, today)
  {
    violations := [];
    assert committed[0..] == committed;
    for i := 0 to |committed|
      invariant violations + Findings(committed[i..], live, deps, today) == Findings(committed, live, deps, today)
    {
      assert committed[i..][0] == committed[i] && committed[i..][1..] == committed[i + 1..];
      Associates(violations, ToolFindings(committed[i], live, deps, today),
                 Findings(committed[i + 1..], live, deps, today));
      violations := DiffTool(committed[i], live, deps, today, violations);
    }
    assert committed[|committed|..] == [];
  }

  // ---- what an empty report means for one tool's arguments -------------------------------------

  /** Nothing to report on the arguments, deprecations aside. */
  predicate Clear(o: Schema, n: Schema) {
    forall i | 0 <= i < |o.properties| ::
      var now := Lookup(n.properties, o.properties[i].name);
      now.Some? && FieldReason(o.properties[i], o, n, now.value).None?
  }

  lemma {:induction false} ArgumentsClear(tool: string, ps: seq<Property>, o: Schema, n: Schema, today: int)
    ensures ArgumentFindings(tool, ps, o, n, [], today) == [] <==>
      forall i | 0 <= i < |ps| ::
        var now := Lookup(n.properties, ps[i].name);
        now.Some? && FieldReason(ps[i], o, n, now.value).None?
  {
    if ps != [] {
      ArgumentsClear(tool, ps[1..], o, n, today);
      assert forall i | 1 <= i < |ps| :: ps[i] == ps[1..][i - 1];
      assert ArgumentFindings(tool, ps, o, n, [], today) == [] <==>
        FieldFindings(tool, ps[0], o, n, [], today) == [] && ArgumentFindings(tool, ps[1..], o, n, [], today) == [];
    }
  }

  /** A schema of named arguments, as every tool publishes one. */
  predicate ArgumentSchema(s: Schema) {
    (s.types.Some? ==> "object" in s.types.value) && s.choices.None? && DistinctNames(s.properties)
  }

  /** A call that passes declared arguments only. */
  predicate DeclaredOnly(s: Schema, v: Value) {
    v.Obj? && forall k <- v.members :: Declares(s, k)
  }

  ghost predicate Kept(o: Schema, n: Schema) {
    forall v :: Valid(o, v) ==> Valid(n, v)
  }

  ghost predicate CallsKept(o: Schema, n: Schema) {
    forall v :: DeclaredOnly(o, v) && Valid(o, v) ==> Valid(n, v)
  }

  predicate NoNewDemand(o: Schema, n: Schema) {
    forall i | 0 <= i < |n.required| :: Declares(o, n.required[i])
  }

  ghost predicate FieldsKept(o: Schema, n: Schema)
    requires Clear(o, n)
  {
    forall i | 0 <= i < |o.properties| :: Kept(o.properties[i].schema, Lookup(n.properties, o.properties[i].name).value)
  }

  lemma StillRequired(o: Schema, n: Schema, name: string)
    requires Clear(o, n) && Declares(o, name) && name in n.required
    ensures name in o.required
  {
    var i :| 0 <= i < |o.properties| && o.properties[i].name == name;
    assert FieldReason(o.properties[i], o, n, Lookup(n.properties, name).value).None?;
  }

  lemma CallStaysValid(o: Schema, n: Schema, v: Value)
    requires ArgumentSchema(o) && ArgumentSchema(n) && Clear(o, n)
    requires NoNewDemand(o, n) && FieldsKept(o, n)
    requires DeclaredOnly(o, v) && Valid(o, v)
    ensures Valid(n, v)
  {
    assert ValueOk(n, v) by {
      assert n.types.Some? ==> exists i :: 0 <= i < |n.types.value| && n.types.value[i] == "object";
    }
    forall i | 0 <= i < |n.required| ensures n.required[i] in v.members {
      StillRequired(o, n, n.required[i]);
    }
    forall i | 0 <= i < |n.properties| && n.properties[i].name in v.members
      ensures Valid(n.properties[i].schema, v.members[n.properties[i].name])
    {
      var name := n.properties[i].name;
      assert Declares(o, name);
      var j :| 0 <= j < |o.properties| && o.properties[j].name == name;
      assert Lookup(n.properties, name) == Some(n.properties[i].schema);
      assert Valid(o.properties[j].schema, v.members[name]);
      assert Kept(o.properties[j].schema, n.properties[i].schema);
    }
  }

  /** A newly required argument that was never declared is refused to every old caller. */
  lemma NewDemandBreaksAll(o: Schema, n: Schema, v: Value)
    requires !NoNewDemand(o, n) && DeclaredOnly(o, v)
    ensures !Valid(n, v)
  {
  }

  /** A valid call with one of its arguments replaced by another valid value. */
  lemma Replaced(o: Schema, w: Value, i: nat, x: Value)
    requires ArgumentSchema(o) && DeclaredOnly(o, w) && Valid(o, w)
    requires i < |o.properties| && Valid(o.properties[i].schema, x)
    ensures var v := Obj(w.members[o.properties[i].name := x]); DeclaredOnly(o, v) && Valid(o, v)
  {
    var v := Obj(w.members[o.properties[i].name := x]);
    assert ValueOk(o, v) by {
      assert ValueOk(o, w);
      if o.types.Some? {
        var j :| 0 <= j < |o.types.value| && o.types.value[j] == "object";
        assert HasType(v, o.types.value[j]);
      }
    }
  }

  lemma FieldMustBeKept(o: Schema, n: Schema, w: Value, i: nat, x: Value)
    requires ArgumentSchema(o) && ArgumentSchema(n) && Clear(o, n) && CallsKept(o, n)
    requires DeclaredOnly(o, w) && Valid(o, w)
    requires i < |o.properties| && Valid(o.properties[i].schema, x)
    ensures Valid(Lookup(n.properties, o.properties[i].name).value, x)
  {
    var name := o.properties[i].name;
    var v := Obj(w.members[name := x]);
    Replaced(o, w, i, x);
    assert Valid(n, v);
    var j :| 0 <= j < |n.properties| && n.properties[j] == Property(name, Lookup(n.properties, name).value);
    assert n.properties[j].name in v.members;
  }

  /** With nothing reported, every old call stays valid exactly when no new argument is
      demanded and each declared argument keeps its values (`w` is any old call). */
  lemma CallsKeptIff(o: Schema, n: Schema, w: Value)
    requires ArgumentSchema(o) && ArgumentSchema(n) && Clear(o, n)
    requires DeclaredOnly(o, w) && Valid(o, w)
    ensures CallsKept(o, n) <==> NoNewDemand(o, n) && FieldsKept(o, n)
  {
    if NoNewDemand(o, n) && FieldsKept(o, n) {
      forall v | DeclaredOnly(o, v) && Valid(o, v) ensures Valid(n, v) {
        CallStaysValid(o, n, v);
      }
    }
    if CallsKept(o, n) {
      if !NoNewDemand(o, n) {
        NewDemandBreaksAll(o, n, w);
        assert false;
      }
      forall i | 0 <= i < |o.properties|
        ensures Kept(o.properties[i].schema, Lookup(n.properties, o.properties[i].name).value)
      {
        forall x | Valid(o.properties[i].schema, x)
          ensures Valid(Lookup(n.properties, o.properties[i].name).value, x)
        {
          FieldMustBeKept(o, n, w, i, x);
        }
      }
    }
  }

  // ---- one argument -------------------------------------------------------------------------------

  predicate Flat(s: Schema) {
    s.required == [] && s.properties == []
  }

  predicate AllKinds(names: seq<string>) {
    && "null" in names && "boolean" in names && "number" in names && "string" in names
    && "array" in names && "object" in names
  }

  /** A type put where there was none does no harm only if it names the types of
      everything accepted before. */
  predicate Covers(o: Schema, n: Schema) {
    n.types.Some? && o.types.None? ==>
      if o.choices.Some? then
        forall i | 0 <= i < |o.choices.value| ::
          ValueOk(o, o.choices.value[i]) ==> OfSomeType(o.choices.value[i], n.types.value)
      else AllKinds(n.types.value)
  }

  lemma AllKindsHoldsAll(names: seq<string>, v: Value)
    requires AllKinds(names)
    ensures OfSomeType(v, names)
  {
    var name := match v
      case Null => "null"
      case Bool(_) => "boolean"
      case Num(_) => "number"
      case Str(_) => "string"
      case Arr(_) => "array"
      case Obj(_) => "object";
    assert name in names && HasType(v, name);
    var i :| 0 <= i < |names| && names[i] == name;
  }

  lemma ValueStaysOk(o: Schema, n: Schema, was: bool, now: bool, v: Value)
    requires NarrowingReason(o, n, was, now).None? && Covers(o, n) && ValueOk(o, v)
    ensures ValueOk(n, v)
  {
    assert !BoundNarrowed(o, n);
    if n.choices.Some? {
      var i :| 0 <= i < |o.choices.value| && o.choices.value[i] == v;
    }
    if n.types.Some? {
      if o.types.Some? {
        var i :| 0 <= i < |o.types.value| && HasType(v, o.types.value[i]);
        var j :| 0 <= j < |n.types.value| && n.types.value[j] == o.types.value[i];
      } else if o.choices.Some? {
        var i :| 0 <= i < |o.choices.value| && o.choices.value[i] == v;
        assert OfSomeType(o.choices.value[i], n.types.value);
      } else {
        AllKindsHoldsAll(n.types.value, v);
      }
    }
  }

  /** A value of every type that a schema without types and enum accepts. */
  lemma Samples(o: Schema, v: Value)
    requires Flat(o) && o.types.None? && o.choices.None?
    requires v.Num? && o.maximum.Some? ==> v.x <= o.maximum.value
    ensures Valid(o, v)
  {
  }

  /** A number that is not whole, under a bound. */
  function HalfBelow(bound: real): (x: real)
    ensures x <= bound < x + 2.0 && !Whole(x)
  {
    bound.Floor as real - 0.5
  }

  lemma KeptMeansCovers(o: Schema, n: Schema)
    requires Flat(o) && Kept(o, n)
    ensures Covers(o, n)
  {
    if n.types.Some? && o.types.None? {
      if o.choices.Some? {
        forall i | 0 <= i < |o.choices.value| && ValueOk(o, o.choices.value[i])
          ensures OfSomeType(o.choices.value[i], n.types.value)
        {
          assert Valid(o, o.choices.value[i]);
        }
      } else {
        var number := Num(HalfBelow(if o.maximum.Some? then o.maximum.value else 0.0));
        var samples := [Null, Bool(true), number, Str(""), Arr([]), Obj(map[])];
        forall i | 0 <= i < |samples| ensures OfSomeType(samples[i], n.types.value) {
          Samples(o, samples[i]);
        }
        assert samples[0] == Null && samples[1] == Bool(true) && samples[2] == number;
        assert samples[3] == Str("") && samples[4] == Arr([]) && samples[5] == Obj(map[]);
      }
    }
  }

  /** A flat argument with no reason against it keeps its values if and only if a type put
      where there was none covers them. */
  lemma FlatKeptIff(o: Schema, n: Schema, was: bool, now: bool)
    requires Flat(o) && Flat(n) && NarrowingReason(o, n, was, now).None?
    ensures Kept(o, n) <==> Covers(o, n)
  {
    if Covers(o, n) {
      forall v | Valid(o, v) ensures Valid(n, v) {
        ValueStaysOk(o, n, was, now, v);
      }
    }
    if Kept(o, n) {
      KeptMeansCovers(o, n);
    }
  }

  /** An argument that is itself an object changes below in its fields' maximum at most. */
  predicate NestedKept(o: Schema, n: Schema) {
    && (forall i | 0 <= i < |n.required| :: n.required[i] in o.required)
    && (forall i | 0 <= i < |n.properties| ::
          var before := Lookup(o.properties, n.properties[i].name);
          before.Some? && SameButMaximum(before.value, n.properties[i].schema))
  }

  predicate SameButMaximum(o: Schema, n: Schema) {
    o.(maximum := None, standard := None) == n.(maximum := None, standard := None)
  }

  lemma {:induction false} NestedNotNarrowed(o: Schema, ps: seq<Property>, i: nat)
    requires NestedNarrowed(o, ps).None? && i < |ps| && Lookup(o.properties, ps[i].name).Some?
    ensures !BoundNarrowed(Lookup(o.properties, ps[i].name).value, ps[i].schema)
  {
    if i > 0 {
      NestedNotNarrowed(o, ps[1..], i - 1);
    }
  }

  lemma NestedStaysValid(o: Schema, n: Schema, v: Value)
    requires SameButMaximum(o, n) && !BoundNarrowed(o, n) && Valid(o, v)
    ensures Valid(n, v)
  {
    assert o.types == n.types && o.choices == n.choices && o.required == n.required && o.properties == n.properties;
    assert ValueOk(n, v);
  }

  lemma NestedKeeps(o: Schema, n: Schema, was: bool, now: bool, v: Value)
    requires NarrowingReason(o, n, was, now).None? && Covers(o, n) && NestedKept(o, n) && Valid(o, v)
    ensures Valid(n, v)
  {
    ValueStaysOk(o, n, was, now, v);
    if v.Obj? {
      forall i | 0 <= i < |n.properties| && n.properties[i].name in v.members
        ensures Valid(n.properties[i].schema, v.members[n.properties[i].name])
      {
        var name := n.properties[i].name;
        var before := Lookup(o.properties, name).value;
        var j :| 0 <= j < |o.properties| && o.properties[j] == Property(name, before);
        assert o.properties[j].name in v.members && Valid(o.properties[j].schema, v.members[name]);
        NestedNotNarrowed(o, n.properties, i);
        NestedStaysValid(before, n.properties[i].schema, v.members[name]);
      }
    }
  }

  /** What was asked of a member before: of an undeclared one, nothing. */
  function Before(o: Schema, name: string): Schema {
    var before := Lookup(o.properties, name);
    if before.Some? then before.value else ANY
  }

  ghost predicate MembersKept(o: Schema, n: Schema) {
    && (forall i | 0 <= i < |n.required| :: n.required[i] in o.required)
    && (forall i | 0 <= i < |n.properties| :: Kept(Before(o, n.properties[i].name), n.properties[i].schema))
  }

  lemma ObjectValue(o: Schema, w: Value, v: Value)
    requires ValueOk(o, w) && w.Obj? && v.Obj? && o.choices.None?
    ensures ValueOk(o, v)
  {
    if o.types.Some? {
      var i :| 0 <= i < |o.types.value| && HasType(w, o.types.value[i]);
      assert HasType(v, o.types.value[i]);
    }
  }

  lemma MembersMustBeKept(o: Schema, n: Schema, w: Value)
    requires Kept(o, n) && o.choices.None? && DistinctNames(o.properties) && w.Obj? && Valid(o, w)
    ensures MembersKept(o, n)
  {
    forall i | 0 <= i < |n.required| ensures n.required[i] in o.required {
      if n.required[i] !in o.required {
        var v := Obj(w.members - {n.required[i]});
        ObjectValue(o, w, v);
        assert Valid(o, v);
        assert false;
      }
    }
    forall i | 0 <= i < |n.properties| ensures Kept(Before(o, n.properties[i].name), n.properties[i].schema) {
      var name := n.properties[i].name;
      forall x | Valid(Before(o, name), x) ensures Valid(n.properties[i].schema, x) {
        var v := Obj(w.members[name := x]);
        ObjectValue(o, w, v);
        assert Valid(o, v) by {
          forall j | 0 <= j < |o.properties| && o.properties[j].name in v.members
            ensures Valid(o.properties[j].schema, v.members[o.properties[j].name])
          {
            if o.properties[j].name == name {
              assert Lookup(o.properties, name) == Some(o.properties[j].schema);
            } else {
              assert o.properties[j].name in w.members;
            }
          }
        }
        assert Valid(n, v) && n.properties[i].name in v.members;
      }
    }
  }

  // ---- whole contracts, nothing excused -----------------------------------------------------------

  /** Nothing beyond what the checker looks at narrows the argument. */
  predicate FieldSafe(o: Schema, n: Schema) {
    Covers(o, n) && ((Flat(o) && Flat(n)) || NestedKept(o, n))
  }

  predicate ToolSafe(o: Schema, n: Schema) {
    && ArgumentSchema(o) && ArgumentSchema(n) && NoNewDemand(o, n)
    && forall i | 0 <= i < |o.properties| ::
         var now := Lookup(n.properties, o.properties[i].name);
         now.Some? ==> FieldSafe(o.properties[i].schema, now.value)
  }

  lemma NothingFirst(committed: seq<Tool>, live: seq<Tool>, today: int)
    requires committed != [] && Findings(committed, live, [], today) == []
    ensures ToolFindings(committed[0], live, [], today) == [] && Findings(committed[1..], live, [], today) == []
  {
    var a, b := ToolFindings(committed[0], live, [], today), Findings(committed[1..], live, [], today);
    assert Findings(committed, live, [], today) == a + b;
    assert |a + b| == |a| + |b|;
  }

  lemma {:induction false} ToolsClear(committed: seq<Tool>, live: seq<Tool>, today: int, i: nat)
    requires Findings(committed, live, [], today) == [] && i < |committed|
    ensures ToolFindings(committed[i], live, [], today) == []
  {
    NothingFirst(committed, live, today);
    if i > 0 {
      assert committed[1..][i - 1] == committed[i];
      ToolsClear(committed[1..], live, today, i - 1);
    }
  }

  /** An empty report finds every tool, and nothing on its arguments. */
  lemma ToolReportedClear(committed: seq<Tool>, live: seq<Tool>, today: int, i: nat)
    requires Findings(committed, live, [], today) == [] && i < |committed|
    ensures var now := ToolNamed(live, committed[i].name); now.Some? && Clear(committed[i].input, now.value.input)
  {
    var t := committed[i];
    ToolsClear(committed, live, today, i);
    assert RemovedFindings(t.name, [], today) == [Removed(t.name)];
    var now := ToolNamed(live, t.name).value;
    assert ArgumentFindings(t.name, t.input.properties, t.input, now.input, [], today) == [];
    ArgumentsClear(t.name, t.input.properties, t.input, now.input, today);
  }

  lemma SafeFieldsKept(o: Schema, n: Schema)
    requires Clear(o, n) && ToolSafe(o, n)
    ensures FieldsKept(o, n)
  {
    forall i | 0 <= i < |o.properties|
      ensures Kept(o.properties[i].schema, Lookup(n.properties, o.properties[i].name).value)
    {
      var p := o.properties[i];
      var now := Lookup(n.properties, p.name).value;
      var was, required := p.name in o.required, p.name in n.required;
      assert FieldReason(p, o, n, now).None?;
      forall v | Valid(p.schema, v) ensures Valid(now, v) {
        if Flat(p.schema) && Flat(now) {
          ValueStaysOk(p.schema, now, was, required, v);
        } else {
          NestedKeeps(p.schema, now, was, required, v);
        }
      }
    }
  }

  /** An empty report keeps every caller of every tool working, where the changes stay
      within what the checker looks at. */
  lemma CallersUnbroken(committed: seq<Tool>, live: seq<Tool>, today: int, i: nat, v: Value)
    requires Findings(committed, live, [], today) == [] && i < |committed|
    requires var now := ToolNamed(live, committed[i].name); now.Some? ==> ToolSafe(committed[i].input, now.value.input)
    requires DeclaredOnly(committed[i].input, v) && Valid(committed[i].input, v)
    ensures var now := ToolNamed(live, committed[i].name); now.Some? && Valid(now.value.input, v)
  {
    var t := committed[i];
    ToolReportedClear(committed, live, today, i);
    var now := ToolNamed(live, t.name).value;
    SafeFieldsKept(t.input, now.input);
    CallStaysValid(t.input, now.input, v);
  }

  lemma {:induction false} OutputsClear(tool: string, ps: seq<Property>, o: Output, n: Output, opaqueRoot: bool,
        today: int, i: nat)
    requires AllOutputFindings(tool, ps, o, n, opaqueRoot, [], today) == [] && AllDropped(ps, n, opaqueRoot) == []
    requires i < |ps|
    ensures OutputFindings(tool, ps[i], o, n, opaqueRoot, [], today) == [] && Dropped(ps[i], n, opaqueRoot) == []
  {
    if i > 0 {
      OutputsClear(tool, ps[1..], o, n, opaqueRoot, today, i - 1);
    }
  }

  /** An empty report keeps the promises about results: what every live result carried,
      every live result still carries, unless it moved into a variant; and a type named
      before is still among the types named. */
  lemma ResultsKeepPromises(tool: string, o: Output, n: Output, today: int, v: map<string, Value>, i: nat)
    requires ResultFindings(tool, o, n, [], today) == [] && i < |o.properties|
    requires forall k :: k in LiveRequired(n) ==> k in v
    ensures o.properties[i].name in LiveRequired(o) ==> o.properties[i].name in v || InBranch(n, o.properties[i].name)
    ensures var now := Lookup(n.properties, o.properties[i].name);
      && (now.None? ==> InBranch(n, o.properties[i].name))
      && (now.Some? && now.value.types.Some? && o.properties[i].schema.types.Some? ==>
            TypeAcceptsAll(o.properties[i].schema.types.value, now.value.types.value))
  {
    var opaqueRoot := tool in FORWARDING_ROOTS;
    OutputsClear(tool, o.properties, o, n, opaqueRoot, today, i);
    assert RemovedFindings(tool + ".output." + o.properties[i].name, [], today) != [];
  }

  // ---- what is reported, and when --------------------------------------------------------------------

  /** The entry announces a change to `path` at least sixty days ahead. */
  predicate Announces(d: Deprecation, path: string) {
    d.path == path && d.since.Some? && d.sunset.Some? && d.sunset.value >= d.since.value + 5_184_000
  }

  /** Entry `i` is the first to announce it. */
  predicate AnnouncedAt(deps: seq<Deprecation>, path: string, i: nat) {
    i < |deps| && Announces(deps[i], path) && forall j | 0 <= j < i :: !Announces(deps[j], path)
  }

  predicate Unannounced(deps: seq<Deprecation>, path: string) {
    forall i | 0 <= i < |deps| :: !Announces(deps[i], path)
  }

  /** What a removal of `path` is reported as: a removal when nothing announced it, a removal
      before the sunset of the first entry that did when that is still to come. */
  ghost predicate RemovalIs(path: string, deps: seq<Deprecation>, today: int, v: Violation) {
    || (v == Removed(path) && Unannounced(deps, path))
    || exists i: nat :: AnnouncedAt(deps, path, i) && today < deps[i].sunset.value
         && v == RemovedBeforeSunset(path, deps[i].sunset)
  }

  lemma {:induction false} FirstAnnouncement(path: string, deps: seq<Deprecation>) returns (i: nat)
    ensures match Announced(path, deps)
      case None => Unannounced(deps, path)
      case Some(d) => AnnouncedAt(deps, path, i) && deps[i] == d
  {
    i := 0;
    if deps != [] && !Announces(deps[0], path) {
      i := FirstAnnouncement(path, deps[1..]);
      assert forall j | 0 < j < |deps| :: deps[j] == deps[1..][j - 1];
      i := i + 1;
    }
  }

  /** A removal goes unreported if and only if some entry announced it and the first such one's
      sunset has come; otherwise it is the one finding there is. */
  lemma RemovalReported(path: string, deps: seq<Deprecation>, today: int)
    ensures RemovedFindings(path, deps, today) == [] <==>
      exists i: nat :: AnnouncedAt(deps, path, i) && deps[i].sunset.value <= today
    ensures forall v :: v in RemovedFindings(path, deps, today) <==> RemovalIs(path, deps, today, v)
    ensures |RemovedFindings(path, deps, today)| <= 1
  {
    var i := FirstAnnouncement(path, deps);
    if Announced(path, deps).Some? {
      forall k: nat | AnnouncedAt(deps, path, k) ensures k == i {
      }
    }
  }

  /** A narrowing goes unreported if and only if some entry announced it. */
  lemma NarrowingReported(path: string, reason: Reason, deps: seq<Deprecation>)
    ensures NarrowedFindings(path, reason, deps) == if Unannounced(deps, path) then [Narrowed(path, reason)] else []
  {
    var i := FirstAnnouncement(path, deps);
  }

  /** A maximum where there was none, or a lower one. */
  predicate Lowered(before: Option<Schema>, now: Schema) {
    && now.maximum.Some?
    && (before.Some? && before.value.maximum.Some? ==> now.maximum.value < before.value.maximum.value)
  }

  predicate NameLost(before: Option<seq<string>>, after: Option<seq<string>>) {
    before.Some? && after.Some? && exists name :: name in before.value && name !in after.value
  }

  /** The change from `p` to `now` is of that kind. */
  ghost predicate Changed(p: Property, o: Schema, n: Schema, now: Schema, reason: Reason) {
    match reason
    case BecameRequired => p.name in n.required && p.name !in o.required
    case TypeChanged => NameLost(p.schema.types, now.types)
    case MaximumLower => Lowered(Some(p.schema), now)
    case MaximumLowerOn(field) => exists i: nat :: LoweredAt(p.schema, now, i) && now.properties[i].name == field
    case EnumAdded => p.schema.choices.None? && now.choices.Some?
    case EnumNarrowed =>
      p.schema.choices.Some? && now.choices.Some? && exists c :: c in p.schema.choices.value && c !in now.choices.value
    case DefaultOrderChanged =>
      p.name == "order" && p.schema.standard.Some? && now.standard.Some? && now.standard != p.schema.standard
    case NoLongerAlwaysPresent => false
  }

  /** Member `i` is the first whose maximum is new or lower. */
  predicate LoweredAt(o: Schema, n: Schema, i: nat) {
    && i < |n.properties| && Lowered(Lookup(o.properties, n.properties[i].name), n.properties[i].schema)
    && forall j | 0 <= j < i :: !Lowered(Lookup(o.properties, n.properties[j].name), n.properties[j].schema)
  }

  function ReasonRank(reason: Reason): nat {
    match reason
    case BecameRequired => 0
    case TypeChanged => 1
    case MaximumLower => 2
    case MaximumLowerOn(_) => 3
    case EnumAdded => 4
    case EnumNarrowed => 4
    case DefaultOrderChanged => 5
    case NoLongerAlwaysPresent => 6
  }

  lemma {:induction false} FirstLowered(o: Schema, n: Schema, i: nat)
    requires i <= |n.properties|
    requires forall j | 0 <= j < i :: !Lowered(Lookup(o.properties, n.properties[j].name), n.properties[j].schema)
    ensures match NestedNarrowed(o, n.properties[i..])
      case None => forall k :: !LoweredAt(o, n, k)
      case Some(reason) => exists k: nat :: LoweredAt(o, n, k) && reason == MaximumLowerOn(n.properties[k].name)
    decreases |n.properties| - i
  {
    if i < |n.properties| {
      assert n.properties[i..][0] == n.properties[i] && n.properties[i..][1..] == n.properties[i + 1..];
      if Lowered(Lookup(o.properties, n.properties[i].name), n.properties[i].schema) {
        assert LoweredAt(o, n, i);
      } else {
        FirstLowered(o, n, i + 1);
      }
    }
  }

  lemma ChangeFound(p: Property, o: Schema, n: Schema, now: Schema)
    ensures match FieldReason(p, o, n, now)
      case None => forall r :: !Changed(p, o, n, now, r)
      case Some(reason) =>
        && Changed(p, o, n, now, reason)
        && forall r :: Changed(p, o, n, now, r) ==> ReasonRank(reason) <= ReasonRank(r)
  {
    FirstLowered(p.schema, now, 0);
    assert now.properties[0..] == now.properties;
    if p.schema.types.Some? && now.types.Some? {
      TypesLost(p.schema.types.value, now.types.value);
    }
  }

  lemma TypesLost(before: seq<string>, after: seq<string>)
    ensures TypeAcceptsAll(before, after) <==> !NameLost(Some(before), Some(after))
  {
  }

  /** An argument is reported for the first of the changes it has gone through, in the order
      required, type, maximum, a member's maximum, enum, default; and only for a change. */
  lemma ChangeIff(p: Property, o: Schema, n: Schema, now: Schema, reason: Reason)
    ensures FieldReason(p, o, n, now) == Some(reason) <==>
      && Changed(p, o, n, now, reason)
      && forall r :: Changed(p, o, n, now, r) ==> ReasonRank(reason) <= ReasonRank(r)
  {
    ChangeFound(p, o, n, now);
    if reason.MaximumLowerOn? && Changed(p, o, n, now, reason) {
      forall i: nat, k: nat | LoweredAt(p.schema, now, i) && LoweredAt(p.schema, now, k) ensures i == k {
      }
    }
  }

  /** A key is promised of every live result if the results' own list of required keys has it, or,
      where there is none, the first variant's; it has moved if some variant declares it. */
  lemma PromisedIff(s: Output, name: string)
    ensures name in LiveRequired(s) <==>
      || (s.required.Some? && name in s.required.value)
      || (s.required.None? && |s.branches| > 0 && s.branches[0].required.Some? && name in s.branches[0].required.value)
    ensures InBranch(s, name) <==> exists b :: b in s.branches && name in b.fields
  {
    if InBranch(s, name) {
      var i :| 0 <= i < |s.branches| && name in s.branches[i].fields;
      assert s.branches[i] in s.branches;
    }
  }

  /** An argument is narrowed for that reason, first of all. */
  ghost predicate NarrowedFor(p: Property, o: Schema, n: Schema, now: Schema, reason: Reason) {
    && Changed(p, o, n, now, reason)
    && forall r :: Changed(p, o, n, now, r) ==> ReasonRank(reason) <= ReasonRank(r)
  }

  /** `v` is what is to be reported on a declared argument. */
  ghost predicate ArgumentReported(tool: string, p: Property, o: Schema, n: Schema, deps: seq<Deprecation>, today: int,
                                   v: Violation)
  {
    var path, now := tool + "." + p.name, Lookup(n.properties, p.name);
    if now.None? then RemovalIs(path, deps, today, v)
    else v.Narrowed? && v.path == path && Unannounced(deps, path) && NarrowedFor(p, o, n, now.value, v.reason)
  }

  /** `v` is what is to be reported on a key of the results, but for opaque roots. */
  ghost predicate ResultReported(tool: string, p: Property, o: Output, n: Output, deps: seq<Deprecation>, today: int,
                                 v: Violation)
  {
    var path, now := tool + ".output." + p.name, Lookup(n.properties, p.name);
    if now.None? then !InBranch(n, p.name) && tool !in FORWARDING_ROOTS && RemovalIs(path, deps, today, v)
    else
      && Unannounced(deps, path)
      && if NameLost(p.schema.types, now.value.types) then v == Narrowed(path, TypeChanged)
         else
           p.name in LiveRequired(o) && p.name !in LiveRequired(n) && v == Narrowed(path, NoLongerAlwaysPresent)
  }

  ghost predicate ToolReported(t: Tool, live: seq<Tool>, deps: seq<Deprecation>, today: int, v: Violation) {
    match ToolNamed(live, t.name)
    case None => RemovalIs(t.name, deps, today, v)
    case Some(now) =>
      || (exists j :: 0 <= j < |t.input.properties| &&
            ArgumentReported(t.name, t.input.properties[j], t.input, now.input, deps, today, v))
      || (t.output.Some? &&
          exists j :: 0 <= j < |t.output.value.properties| &&
            ResultReported(t.name, t.output.value.properties[j], t.output.value, OutputOf(now), deps, today, v))
  }

  lemma FieldReported(tool: string, p: Property, o: Schema, n: Schema, deps: seq<Deprecation>, today: int, v: Violation)
    ensures v in FieldFindings(tool, p, o, n, deps, today) <==> ArgumentReported(tool, p, o, n, deps, today, v)
  {
    var path, now := tool + "." + p.name, Lookup(n.properties, p.name);
    RemovalReported(path, deps, today);
    if now.Some? {
      var reason := FieldReason(p, o, n, now.value);
      if reason.Some? {
        NarrowingReported(path, reason.value, deps);
      }
      if v.Narrowed? {
        ChangeIff(p, o, n, now.value, v.reason);
      }
    }
  }

  lemma {:induction false} ArgumentsReported(tool: string, ps: seq<Property>, o: Schema, n: Schema,
        deps: seq<Deprecation>, today: int, v: Violation)
    ensures v in ArgumentFindings(tool, ps, o, n, deps, today) <==>
      exists j :: 0 <= j < |ps| && ArgumentReported(tool, ps[j], o, n, deps, today, v)
  {
    if ps != [] {
      FieldReported(tool, ps[0], o, n, deps, today, v);
      ArgumentsReported(tool, ps[1..], o, n, deps, today, v);
      assert forall j | 0 < j < |ps| :: ps[j] == ps[1..][j - 1];
    }
  }

  lemma ResultKeyReported(tool: string, p: Property, o: Output, n: Output, deps: seq<Deprecation>, today: int,
                          v: Violation)
    ensures v in OutputFindings(tool, p, o, n, tool in FORWARDING_ROOTS, deps, today) <==>
      ResultReported(tool, p, o, n, deps, today, v)
  {
    var path, now := tool + ".output." + p.name, Lookup(n.properties, p.name);
    RemovalReported(path, deps, today);
    NarrowingReported(path, TypeChanged, deps);
    NarrowingReported(path, NoLongerAlwaysPresent, deps);
    if now.Some? && p.schema.types.Some? && now.value.types.Some? {
      TypesLost(p.schema.types.value, now.value.types.value);
    }
  }

  lemma {:induction false} ResultsReported(tool: string, ps: seq<Property>, o: Output, n: Output,
        deps: seq<Deprecation>, today: int, v: Violation)
    ensures v in AllOutputFindings(tool, ps, o, n, tool in FORWARDING_ROOTS, deps, today) <==>
      exists j :: 0 <= j < |ps| && ResultReported(tool, ps[j], o, n, deps, today, v)
  {
    if ps != [] {
      ResultKeyReported(tool, ps[0], o, n, deps, today, v);
      ResultsReported(tool, ps[1..], o, n, deps, today, v);
      assert forall j | 0 < j < |ps| :: ps[j] == ps[1..][j - 1];
    }
  }

  lemma OneToolReported(t: Tool, live: seq<Tool>, deps: seq<Deprecation>, today: int, v: Violation)
    requires !v.OpaqueRoot?
    ensures v in ToolFindings(t, live, deps, today) <==> ToolReported(t, live, deps, today, v)
  {
    match ToolNamed(live, t.name)
    case None => RemovalReported(t.name, deps, today);
    case Some(now) =>
      ArgumentsReported(t.name, t.input.properties, t.input, now.input, deps, today, v);
      if t.output.Some? {
        ResultsReported(t.name, t.output.value.properties, t.output.value, OutputOf(now), deps, today, v);
      }
  }

  /** The report, whatever the ledger and the date, holds exactly what is to be reported on some
      tool: its own removal, or what has become of one of its arguments or of a key of its results. */
  lemma {:induction false} ReportedIff(committed: seq<Tool>, live: seq<Tool>, deps: seq<Deprecation>, today: int,
        v: Violation)
    requires !v.OpaqueRoot?
    ensures v in Findings(committed, live, deps, today) <==>
      exists i :: 0 <= i < |committed| && ToolReported(committed[i], live, deps, today, v)
  {
    if committed != [] {
      OneToolReported(committed[0], live, deps, today, v);
      ReportedIff(committed[1..], live, deps, today, v);
      assert forall i | 0 < i < |committed| :: committed[i] == committed[1..][i - 1];
    }
  }

  /** A declared argument missing from the live tool is in the report if and only if it is not the
      case that an entry announced its removal and the first such one's sunset has come. */
  lemma MissingArgumentReported(committed: seq<Tool>, live: seq<Tool>, deps: seq<Deprecation>, today: int, i: nat,
                                j: nat)
    requires i < |committed| && j < |committed[i].input.properties|
    requires
      var now := ToolNamed(live, committed[i].name);
      now.Some? && Lookup(now.value.input.properties, committed[i].input.properties[j].name).None?
    ensures
      var path := committed[i].name + "." + committed[i].input.properties[j].name;
      (exists v :: v in Findings(committed, live, deps, today) && RemovalIs(path, deps, today, v)) <==>
        !exists k: nat :: AnnouncedAt(deps, path, k) && deps[k].sunset.value <= today
  {
    var t := committed[i];
    var path := t.name + "." + t.input.properties[j].name;
    RemovalReported(path, deps, today);
    var found := RemovedFindings(path, deps, today);
    if found != [] {
      var v := found[0];
      var now := ToolNamed(live, t.name).value.input;
      assert ArgumentReported(t.name, t.input.properties[j], t.input, now, deps, today, v);
      assert ToolReported(t, live, deps, today, v);
      ReportedIff(committed, live, deps, today, v);
    }
  }

  /** The key is typed no longer, in the results of a tool whose root is opaque. */
  predicate Untyped(tool: string, n: Output, name: string) {
    tool in FORWARDING_ROOTS && Lookup(n.properties, name).None? && !InBranch(n, name)
  }

  lemma {:induction false} DroppedNames(tool: string, ps: seq<Property>, n: Output, name: string)
    ensures name in AllDropped(ps, n, tool in FORWARDING_ROOTS) <==>
      exists j :: 0 <= j < |ps| && ps[j].name == name && Untyped(tool, n, name)
  {
    if ps != [] {
      DroppedNames(tool, ps[1..], n, name);
      assert forall j | 0 < j < |ps| :: ps[j] == ps[1..][j - 1];
    }
  }

  /** One finding names the keys an opaque root no longer types, and there is none without any. */
  lemma OpaqueReported(tool: string, o: Output, n: Output, deps: seq<Deprecation>, today: int)
    ensures
      var found := ResultFindings(tool, o, n, deps, today);
      && ((exists v :: v in found && v.OpaqueRoot?) <==>
            exists j :: 0 <= j < |o.properties| && Untyped(tool, n, o.properties[j].name))
      && forall v | v in found && v.OpaqueRoot? ::
           && v.path == tool + ".output"
           && forall name :: name in v.removed <==>
                exists j :: 0 <= j < |o.properties| && o.properties[j].name == name && Untyped(tool, n, name)
  {
    var gone := AllDropped(o.properties, n, tool in FORWARDING_ROOTS);
    forall name
      ensures name in gone <==>
        exists j :: 0 <= j < |o.properties| && o.properties[j].name == name && Untyped(tool, n, name)
    {
      DroppedNames(tool, o.properties, n, name);
    }
    forall v: Violation | v.OpaqueRoot?
      ensures v !in AllOutputFindings(tool, o.properties, o, n, tool in FORWARDING_ROOTS, deps, today)
    {
      ResultsReported(tool, o.properties, o, n, deps, today, v);
    }
    var found := ResultFindings(tool, o, n, deps, today);
    if gone != [] {
      assert found[|found| - 1] == OpaqueRoot(tool + ".output", gone) && gone[0] in gone;
    }
    if j :| 0 <= j < |o.properties| && Untyped(tool, n, o.properties[j].name) {
      assert o.properties[j].name in gone;
    }
  }

  // ---- deprecations and time -----------------------------------------------------------------------

  predicate StillOpen(v: Violation, today: int) {
    v.RemovedBeforeSunset? ==> v.sunset.None? || today < v.sunset.value
  }

  function Open(vs: seq<Violation>, today: int): seq<Violation> {
    if vs == [] then [] else (if StillOpen(vs[0], today) then [vs[0]] else []) + Open(vs[1..], today)
  }

  lemma {:induction false} OpenOf(a: seq<Violation>, b: seq<Violation>, today: int)
    ensures Open(a + b, today) == Open(a, today) + Open(b, today)
  {
    if a == [] {
      assert a + b == b;
    } else {
      assert (a + b)[0] == a[0] && (a + b)[1..] == a[1..] + b;
      OpenOf(a[1..], b, today);
      Associates(if StillOpen(a[0], today) then [a[0]] else [], Open(a[1..], today), Open(b, today));
    }
  }

  lemma RemovedLater(path: string, deps: seq<Deprecation>, today: int, later: int)
    requires today <= later
    ensures RemovedFindings(path, deps, later) == Open(RemovedFindings(path, deps, today), later)
  {
    var r := RemovedFindings(path, deps, today);
    assert |r| <= 1;
    assert r != [] ==> r[1..] == [];
  }

  lemma NarrowedLater(path: string, reason: Reason, deps: seq<Deprecation>, later: int)
    ensures NarrowedFindings(path, reason, deps) == Open(NarrowedFindings(path, reason, deps), later)
  {
    var r := NarrowedFindings(path, reason, deps);
    assert r != [] ==> r[1..] == [];
  }

  lemma {:induction false} ArgumentsLater(tool: string, ps: seq<Property>, o: Schema, n: Schema, deps: seq<Deprecation>,
                                          today: int, later: int)
    requires today <= later
    ensures ArgumentFindings(tool, ps, o, n, deps, later) == Open(ArgumentFindings(tool, ps, o, n, deps, today), later)
  {
    if ps != [] {
      var now := Lookup(n.properties, ps[0].name);
      var path := tool + "." + ps[0].name;
      if now.None? {
        RemovedLater(path, deps, today, later);
      } else if FieldReason(ps[0], o, n, now.value).Some? {
        NarrowedLater(path, FieldReason(ps[0], o, n, now.value).value, deps, later);
      }
      ArgumentsLater(tool, ps[1..], o, n, deps, today, later);
      OpenOf(FieldFindings(tool, ps[0], o, n, deps, today), ArgumentFindings(tool, ps[1..], o, n, deps, today), later);
    }
  }

  lemma {:induction false} OutputsLater(tool: string, ps: seq<Property>, o: Output, n: Output, opaqueRoot: bool,
                                        deps: seq<Deprecation>, today: int, later: int)
    requires today <= later
    ensures AllOutputFindings(tool, ps, o, n, opaqueRoot, deps, later)
      == Open(AllOutputFindings(tool, ps, o, n, opaqueRoot, deps, today), later)
  {
    if ps != [] {
      var now := Lookup(n.properties, ps[0].name);
      var path := tool + ".output." + ps[0].name;
      if now.None? {
        RemovedLater(path, deps, today, later);
      } else if OutputReason(ps[0], o, n, now.value).Some? {
        NarrowedLater(path, OutputReason(ps[0], o, n, now.value).value, deps, later);
      }
      OutputsLater(tool, ps[1..], o, n, opaqueRoot, deps, today, later);
      OpenOf(OutputFindings(tool, ps[0], o, n, opaqueRoot, deps, today),
             AllOutputFindings(tool, ps[1..], o, n, opaqueRoot, deps, today), later);
    }
  }

  lemma ResultsLater(tool: string, o: Output, n: Output, deps: seq<Deprecation>, today: int, later: int)
    requires today <= later
    ensures ResultFindings(tool, o, n, deps, later) == Open(ResultFindings(tool, o, n, deps, today), later)
  {
    var opaqueRoot := tool in FORWARDING_ROOTS;
    var gone := AllDropped(o.properties, n, opaqueRoot);
    OutputsLater(tool, o.properties, o, n, opaqueRoot, deps, today, later);
    if gone != [] {
      var last := [OpaqueRoot(tool + ".output", gone)];
      OpenOf(AllOutputFindings(tool, o.properties, o, n, opaqueRoot, deps, today), last, later);
      assert last[1..] == [];
    }
  }

  /** The clock only closes findings: a later report is the earlier one without the
      removals whose sunset has come. */
  lemma {:induction false} LaterFindings(committed: seq<Tool>, live: seq<Tool>, deps: seq<Deprecation>, today: int,
        later: int)
    requires today <= later
    ensures Findings(committed, live, deps, later) == Open(Findings(committed, live, deps, today), later)
  {
    if committed != [] {
      ToolLater(committed[0], live, deps, today, later);
      LaterFindings(committed[1..], live, deps, today, later);
      OpenOf(ToolFindings(committed[0], live, deps, today), Findings(committed[1..], live, deps, today), later);
    }
  }

  lemma ToolLater(t: Tool, live: seq<Tool>, deps: seq<Deprecation>, today: int, later: int)
    requires today <= later
    ensures ToolFindings(t, live, deps, later) == Open(ToolFindings(t, live, deps, today), later)
  {
    var named := ToolNamed(live, t.name);
    if named.None? {
      RemovedLater(t.name, deps, today, later);
    } else {
      var now := named.value;
      ArgumentsLater(t.name, t.input.properties, t.input, now.input, deps, today, later);
      if t.output.Some? {
        ResultsLater(t.name, t.output.value, OutputOf(now), deps, today, later);
        OpenOf(ArgumentFindings(t.name, t.input.properties, t.input, now.input, deps, today),
               ResultFindings(t.name, t.output.value, OutputOf(now), deps, today), later);
      }
    }
  }

  // ---- growth is not reported ----------------------------------------------------------------------

  lemma {:induction false} SelfNested(s: Schema, ps: seq<Property>)
    requires forall i | 0 <= i < |ps| :: Lookup(s.properties, ps[i].name) == Some(ps[i].schema)
    ensures NestedNarrowed(s, ps).None?
  {
    if ps != [] {
      SelfNested(s, ps[1..]);
    }
  }

  lemma SelfReason(s: Schema, required: bool)
    requires DistinctNames(s.properties)
    ensures NarrowingReason(s, s, required, required).None?
  {
    SelfNested(s, s.properties);
  }

  /** Every property of `ps` is in `n` as it was. */
  predicate StillThere(ps: seq<Property>, n: seq<Property>) {
    forall i | 0 <= i < |ps| :: Lookup(n, ps[i].name) == Some(ps[i].schema) && DistinctNames(ps[i].schema.properties)
  }

  lemma {:induction false} ArgumentsGrown(tool: string, ps: seq<Property>, o: Schema, n: Schema,
        deps: seq<Deprecation>, today: int)
    requires n.required == o.required && StillThere(ps, n.properties)
    ensures ArgumentFindings(tool, ps, o, n, deps, today) == []
  {
    if ps != [] {
      SelfReason(ps[0].schema, ps[0].name in o.required);
      ArgumentsGrown(tool, ps[1..], o, n, deps, today);
    }
  }

  lemma {:induction false} OutputsKept(tool: string, ps: seq<Property>, o: Output, opaqueRoot: bool,
                                       deps: seq<Deprecation>, today: int)
    requires StillThere(ps, o.properties)
    ensures AllOutputFindings(tool, ps, o, o, opaqueRoot, deps, today) == [] && AllDropped(ps, o, opaqueRoot) == []
  {
    if ps != [] {
      OutputsKept(tool, ps[1..], o, opaqueRoot, deps, today);
    }
  }

  /** A tool that has gained optional arguments, if anything. */
  predicate Grown(t: Tool, now: Tool) {
    && now.input.required == t.input.required && StillThere(t.input.properties, now.input.properties)
    && (t.output.Some? ==> now.output == t.output && StillThere(t.output.value.properties, t.output.value.properties))
  }

  /** A contract that only gained tools and optional arguments, or did not change at all,
      is reported clean, whatever the ledger and the date. */
  lemma {:induction false} GrowthReportsNothing(committed: seq<Tool>, live: seq<Tool>, deps: seq<Deprecation>,
        today: int)
    requires forall i | 0 <= i < |committed| ::
      var now := ToolNamed(live, committed[i].name);
      now.Some? && Grown(committed[i], now.value)
    ensures Findings(committed, live, deps, today) == []
  {
    if committed != [] {
      var t := committed[0];
      var now := ToolNamed(live, t.name).value;
      ArgumentsGrown(t.name, t.input.properties, t.input, now.input, deps, today);
      if t.output.Some? {
        OutputsKept(t.name, t.output.value.properties, t.output.value, t.name in FORWARDING_ROOTS, deps, today);
      }
      GrowthReportsNothing(committed[1..], live, deps, today);
    }
  }

  // ---- where an empty report does not keep callers --------------------------------------------------

  function OneArgument(name: string, s: Schema, required: seq<string>): Schema {
    Schema(Some(["object"]), None, None, required, [Property(name, s)], None)
  }

  /** A type put on an argument that had none goes unreported and refuses old calls. */
  lemma TypeAddedUnseen()
    ensures
      var o, n := OneArgument("q", ANY, []), OneArgument("q", ANY.(types := Some(["string"])), []);
      Clear(o, n) && !CallsKept(o, n)
  {
    var o, n := OneArgument("q", ANY, []), OneArgument("q", ANY.(types := Some(["string"])), []);
    var v := Obj(map["q" := Num(1.0)]);
    assert DeclaredOnly(o, v) && Valid(ANY, Num(1.0));
    assert OfSomeType(v, ["object"]) by {
      assert HasType(v, ["object"][0]);
    }
    assert Valid(o, v);
    assert !OfSomeType(Num(1.0), ["string"]);
    assert n.properties[0].name in v.members;
    assert !Valid(n, v);
  }

  /** So does a member newly required inside an argument. */
  lemma NestedDemandUnseen()
    ensures
      var budget := ANY.(properties := [Property("usd", ANY)]);
      var o, n := OneArgument("b", budget, []), OneArgument("b", budget.(required := ["usd"]), []);
      Clear(o, n) && !CallsKept(o, n)
  {
    var budget := ANY.(properties := [Property("usd", ANY)]);
    var o, n := OneArgument("b", budget, []), OneArgument("b", budget.(required := ["usd"]), []);
    var v := Obj(map["b" := Obj(map[])]);
    assert DeclaredOnly(o, v) && Valid(budget, Obj(map[]));
    assert OfSomeType(v, ["object"]) by {
      assert HasType(v, ["object"][0]);
    }
    assert Valid(o, v);
    var now := budget.(required := ["usd"]);
    assert now.required[0] !in Obj(map[]).members;
    assert !Valid(now, Obj(map[]));
    assert now.properties[1..] == [] && NestedNarrowed(budget, now.properties).None?;
    assert NarrowingReason(budget, now, false, false).None?;
    assert n.properties[0].name in v.members;
    assert !Valid(n, v);
  }

  /** Dropping a type and naming another are each unreported; together they would be. */
  lemma TwoStepsUnseen()
    ensures
      var o := OneArgument("q", ANY.(types := Some(["integer"])), []);
      var m := OneArgument("q", ANY, []);
      var n := OneArgument("q", ANY.(types := Some(["string"])), []);
      Clear(o, m) && Clear(m, n) && !Clear(o, n)
  {
    var o := OneArgument("q", ANY.(types := Some(["integer"])), []);
    var n := OneArgument("q", ANY.(types := Some(["string"])), []);
    assert !TypeAcceptsAll(["integer"], ["string"]) by {
      assert ["integer"][0] !in ["string"];
    }
    assert FieldReason(o.properties[0], o, n, n.properties[0].schema) == Some(TypeChanged);
  }
}
