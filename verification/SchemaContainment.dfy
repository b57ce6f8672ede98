/** When one schema accepts everything another does, decided from the two schemas alone, at every depth. */
module SchemaContainment {
  import opened Wrappers
  import opened ContractDiff

  // From the decision follows exactly when an empty contract report keeps every caller.

  // ---- kinds of value --------------------------------------------------------------------

  /** The kinds of value a type name can tell apart. */
  datatype Kind = KNull | KBool | KInt | KFrac | KStr | KArr | KObj

  function KindOf(v: Value): Kind {
    match v
    case Null => KNull
    case Bool(_) => KBool
    case Num(x) => if Whole(x) then KInt else KFrac
    case Str(_) => KStr
    case Arr(_) => KArr
    case Obj(_) => KObj
  }

  predicate NamesKind(name: string, k: Kind) {
    match k
    case KNull => name == "null"
    case KBool => name == "boolean"
    case KInt => name == "integer" || name == "number"
    case KFrac => name == "number"
    case KStr => name == "string"
    case KArr => name == "array"
    case KObj => name == "object"
  }

  /** The schema's type names, if it has any, admit values of the kind. */
  predicate Takes(s: Schema, k: Kind) {
    s.types.Some? ==> exists i :: 0 <= i < |s.types.value| && NamesKind(s.types.value[i], k)
  }

  lemma FractionsAreNumbers(s: Schema)
    requires Takes(s, KFrac)
    ensures Takes(s, KInt)
  {
    if s.types.Some? {
      var i :| 0 <= i < |s.types.value| && NamesKind(s.types.value[i], KFrac);
      assert NamesKind(s.types.value[i], KInt);
    }
  }

  lemma TakesIff(s: Schema, v: Value)
    ensures Takes(s, KindOf(v)) <==> (s.types.Some? ==> OfSomeType(v, s.types.value))
  {
    if s.types.Some? {
      assert forall i | 0 <= i < |s.types.value| ::
        NamesKind(s.types.value[i], KindOf(v)) <==> HasType(v, s.types.value[i]);
    }
  }

  lemma ValueOkIff(s: Schema, v: Value)
    ensures ValueOk(s, v) <==>
      && Takes(s, KindOf(v)) && (s.choices.Some? ==> v in s.choices.value)
      && (s.maximum.Some? && v.Num? ==> v.x <= s.maximum.value)
  {
    TakesIff(s, v);
  }

  // ---- which schemas accept anything ---------------------------------------------------------

  /** No object of the schema declares a name twice, as in any JSON object. */
  predicate WellNamed(s: Schema) {
    DistinctNames(s.properties) && forall i | 0 <= i < |s.properties| :: WellNamed(s.properties[i].schema)
  }

  predicate Satisfiable(s: Schema)
    decreases s, 1
  {
    if s.choices.Some? then exists i :: 0 <= i < |s.choices.value| && Valid(s, s.choices.value[i])
    else
      || Takes(s, KNull) || Takes(s, KBool) || Takes(s, KInt) || Takes(s, KFrac) || Takes(s, KStr) || Takes(s, KArr)
      || TakesObject(s)
  }

  /** Objects are admitted, and every member demanded can be given. */
  predicate TakesObject(s: Schema)
    decreases s, 0
  {
    Takes(s, KObj) && forall i | 0 <= i < |s.properties| ::
      s.properties[i].name in s.required ==> Satisfiable(s.properties[i].schema)
  }

  ghost predicate Inhabited(s: Schema) {
    exists v :: Valid(s, v)
  }

  ghost function Sample(s: Schema): (v: Value)
    requires Inhabited(s)
    ensures Valid(s, v)
  {
    var v :| Valid(s, v);
    v
  }

  /** A value of each kind but objects. */
  function Plain(s: Schema, k: Kind): Value {
    match k
    case KNull => Null
    case KBool => Bool(true)
    case KInt => Num(if s.maximum.Some? then s.maximum.value.Floor as real else 0.0)
    case KFrac => Num(HalfBelow(if s.maximum.Some? then s.maximum.value else 0.0))
    case KStr => Str("")
    case _ => Arr([])
  }

  lemma PlainValid(s: Schema, k: Kind)
    requires s.choices.None? && Takes(s, k) && k != KObj
    ensures Valid(s, Plain(s, k)) && KindOf(Plain(s, k)) == k
  {
    ValueOkIff(s, Plain(s, k));
  }

  /** An object with just the members demanded. */
  ghost function Least(s: Schema): Value
    requires forall i | 0 <= i < |s.properties| && s.properties[i].name in s.required ::
      Inhabited(s.properties[i].schema)
  {
    Obj(map k | k in s.required ::
      var p := Lookup(s.properties, k);
      if p.Some? && Inhabited(p.value) then Sample(p.value) else Null)
  }

  lemma LeastValid(s: Schema)
    requires s.choices.None? && Takes(s, KObj) && DistinctNames(s.properties)
    requires forall i | 0 <= i < |s.properties| && s.properties[i].name in s.required ::
      Inhabited(s.properties[i].schema)
    ensures Valid(s, Least(s))
  {
    var v := Least(s);
    ValueOkIff(s, v);
    forall i | 0 <= i < |s.properties| && s.properties[i].name in v.members
      ensures Valid(s.properties[i].schema, v.members[s.properties[i].name])
    {
      assert Lookup(s.properties, s.properties[i].name) == Some(s.properties[i].schema);
    }
  }

  lemma {:induction false} SatisfiableIff(s: Schema)
    requires WellNamed(s)
    ensures Satisfiable(s) <==> Inhabited(s)
    ensures s.choices.None? ==> (TakesObject(s) <==> exists v: Value :: v.Obj? && Valid(s, v))
    decreases s
  {
    forall i | 0 <= i < |s.properties|
      ensures Satisfiable(s.properties[i].schema) <==> Inhabited(s.properties[i].schema)
    {
      SatisfiableIff(s.properties[i].schema);
    }
    if s.choices.None? {
      if TakesObject(s) {
        LeastValid(s);
      }
      if v: Value :| v.Obj? && Valid(s, v) {
        ObjectTaken(s, v);
      }
    }
    SatisfiableHere(s);
  }

  lemma ObjectTaken(s: Schema, v: Value)
    requires v.Obj? && Valid(s, v)
    requires forall i | 0 <= i < |s.properties| ::
      Satisfiable(s.properties[i].schema) <==> Inhabited(s.properties[i].schema)
    ensures TakesObject(s)
  {
    ValueOkIff(s, v);
    forall i | 0 <= i < |s.properties| && s.properties[i].name in s.required
      ensures Satisfiable(s.properties[i].schema)
    {
      var j :| 0 <= j < |s.required| && s.required[j] == s.properties[i].name;
      assert Valid(s.properties[i].schema, v.members[s.properties[i].name]);
    }
  }

  lemma SatisfiableHere(s: Schema)
    requires s.choices.None? ==> (TakesObject(s) <==> exists v: Value :: v.Obj? && Valid(s, v))
    ensures Satisfiable(s) <==> Inhabited(s)
  {
    if s.choices.None? && Satisfiable(s) && !TakesObject(s) {
      var k: Kind :| k != KObj && Takes(s, k);
      PlainValid(s, k);
    }
    if Inhabited(s) {
      var v := Sample(s);
      ValueOkIff(s, v);
      if s.choices.Some? {
        var i :| 0 <= i < |s.choices.value| && s.choices.value[i] == v;
      } else {
        assert v.Obj? ==> TakesObject(s);
      }
    }
  }

  // ---- containment, decided ------------------------------------------------------------------------

  /** No number accepted before is above the new maximum; where only whole numbers were, the
      old maximum counts for the last whole number under it. */
  predicate MaximumKept(o: Schema, n: Schema) {
    n.maximum.Some? ==>
      o.maximum.Some? && (if Takes(o, KFrac) then o.maximum.value else o.maximum.value.Floor as real) <= n.maximum.value
  }

  /** A new enum is harmless only where the kinds accepted before are finite and listed. */
  predicate EnumKept(o: Schema, choices: seq<Value>) {
    && !Takes(o, KInt) && !Takes(o, KFrac) && !Takes(o, KStr) && !Takes(o, KArr) && !TakesObject(o)
    && (Takes(o, KNull) ==> Null in choices)
    && (Takes(o, KBool) ==> Bool(true) in choices && Bool(false) in choices)
  }

  predicate KindsKept(o: Schema, n: Schema) {
    && (Takes(o, KNull) ==> Takes(n, KNull)) && (Takes(o, KBool) ==> Takes(n, KBool))
    && (Takes(o, KInt) ==> Takes(n, KInt)) && (Takes(o, KFrac) ==> Takes(n, KFrac))
    && (Takes(o, KStr) ==> Takes(n, KStr)) && (Takes(o, KArr) ==> Takes(n, KArr)) && (TakesObject(o) ==> Takes(n, KObj))
  }

  /** Nothing `o` accepts is refused by `n`, read off the two schemas: an enum is checked value
      by value; otherwise the kinds are covered, the maximum is no lower, and where objects are
      accepted no member is newly demanded and every member is contained in turn. */
  predicate Contained(o: Schema, n: Schema)
    decreases n
  {
    if o.choices.Some? then
      forall i | 0 <= i < |o.choices.value| && Valid(o, o.choices.value[i]) :: Valid(n, o.choices.value[i])
    else
      && KindsKept(o, n)
      && (Takes(o, KInt) ==> MaximumKept(o, n))
      && (n.choices.Some? ==> EnumKept(o, n.choices.value))
      && (TakesObject(o) ==>
            && (forall i | 0 <= i < |n.required| :: n.required[i] in o.required)
            && (forall i | 0 <= i < |n.properties| ::
                  Contained(Before(o, n.properties[i].name), n.properties[i].schema)))
  }

  lemma BeforeWellNamed(o: Schema, name: string)
    requires WellNamed(o)
    ensures WellNamed(Before(o, name))
  {
    var p := Lookup(o.properties, name);
    if p.Some? {
      var i :| 0 <= i < |o.properties| && o.properties[i] == Property(name, p.value);
    }
  }

  lemma BelowMaximum(o: Schema, n: Schema, x: real)
    requires Takes(o, KindOf(Num(x))) && (o.maximum.Some? ==> x <= o.maximum.value)
    requires Takes(o, KInt) ==> MaximumKept(o, n)
    ensures n.maximum.Some? ==> x <= n.maximum.value
  {
    if Takes(o, KFrac) {
      FractionsAreNumbers(o);
    } else {
      assert Whole(x);
      if o.maximum.Some? {
        FloorBetween(x, o.maximum.value);
      }
    }
  }

  lemma FloorBetween(x: real, bound: real)
    requires Whole(x) && x <= bound
    ensures x <= bound.Floor as real
  {
  }

  lemma EnumStillLists(o: Schema, choices: seq<Value>, v: Value)
    requires EnumKept(o, choices) && Takes(o, KindOf(v)) && (v.Obj? ==> TakesObject(o))
    ensures v in choices
  {
  }

  lemma OwnValueKept(o: Schema, n: Schema, v: Value)
    requires o.choices.None? && ValueOk(o, v) && (v.Obj? ==> TakesObject(o))
    requires KindsKept(o, n) && (Takes(o, KInt) ==> MaximumKept(o, n))
    requires n.choices.Some? ==> EnumKept(o, n.choices.value)
    ensures ValueOk(n, v)
  {
    ValueOkIff(o, v);
    if v.Num? {
      BelowMaximum(o, n, v.x);
    }
    if n.choices.Some? {
      EnumStillLists(o, n.choices.value, v);
    }
    assert Takes(n, KindOf(v));
    ValueOkIff(n, v);
  }

  /** A value `o` accepts, member by member. */
  lemma MemberBefore(o: Schema, v: Value, name: string)
    requires v.Obj? && Valid(o, v) && name in v.members
    ensures Valid(Before(o, name), v.members[name])
  {
    var p := Lookup(o.properties, name);
    if p.Some? {
      var j :| 0 <= j < |o.properties| && o.properties[j] == Property(name, p.value);
      assert o.properties[j].name in v.members;
    }
  }

  lemma ContainedKeeps(o: Schema, n: Schema, v: Value)
    requires WellNamed(o) && Contained(o, n) && Valid(o, v)
    requires TakesObject(o) && o.choices.None? ==> MembersKept(o, n)
    ensures Valid(n, v)
  {
    if o.choices.Some? {
      var i :| 0 <= i < |o.choices.value| && o.choices.value[i] == v;
    } else {
      SatisfiableIff(o);
      OwnValueKept(o, n, v);
      if v.Obj? {
        forall i | 0 <= i < |n.properties| && n.properties[i].name in v.members
          ensures Valid(n.properties[i].schema, v.members[n.properties[i].name])
        {
          MemberBefore(o, v, n.properties[i].name);
        }
      }
    }
  }

  // ---- what containment cannot do without --------------------------------------------------------------

  /** A name longer than any of these. */
  function NewName(ps: seq<Property>): (name: string)
    ensures forall i | 0 <= i < |ps| :: |ps[i].name| < |name|
  {
    if ps == [] then "x"
    else
      var rest := NewName(ps[1..]);
      assert forall i | 0 < i < |ps| :: ps[i] == ps[1..][i - 1];
      if |rest| > |ps[0].name| then rest else ps[0].name + "x"
  }

  /** A size that values of every infinite kind exceed; an object's is that of its member `key`. */
  function Measure(v: Value, key: string): nat {
    match v
    case Num(x) => if x < 0.0 then (-x).Floor else 0
    case Str(s) => |s|
    case Arr(items) => |items|
    case Obj(members) =>
      if key in members && members[key].Num? && members[key].x >= 0.0 then members[key].x.Floor else 0
    case _ => 0
  }

  function Bound(vs: seq<Value>, key: string): (m: nat)
    ensures forall i | 0 <= i < |vs| :: Measure(vs[i], key) <= m
  {
    if vs == [] then 0
    else
      var rest, here := Bound(vs[1..], key), Measure(vs[0], key);
      assert forall i | 0 < i < |vs| :: vs[i] == vs[1..][i - 1];
      if here > rest then here else rest
  }

  /** A value of an infinite kind that is in no list of that bound. */
  function Beyond(s: Schema, k: Kind, m: nat): Value {
    var low := if s.maximum.Some? && s.maximum.value < -1.0 - m as real then s.maximum.value else -1.0 - m as real;
    match k
    case KInt => Num(low.Floor as real)
    case KFrac => Num(HalfBelow(low))
    case KStr => Str(seq(m + 1, i => 'x'))
    case _ => Arr(seq(m + 1, i => Null))
  }

  lemma BeyondValid(s: Schema, k: Kind, m: nat, key: string)
    requires s.choices.None? && Takes(s, k) && (k == KInt || k == KFrac || k == KStr || k == KArr)
    ensures Valid(s, Beyond(s, k, m)) && Measure(Beyond(s, k, m), key) > m
  {
    ValueOkIff(s, Beyond(s, k, m));
  }

  lemma ObjectBeyond(s: Schema, w: Value, m: nat) returns (v: Value)
    requires s.choices.None? && w.Obj? && Valid(s, w)
    ensures Valid(s, v) && v.Obj? && Measure(v, NewName(s.properties)) > m
  {
    var key := NewName(s.properties);
    v := Obj(w.members[key := Num((m + 1) as real)]);
    ObjectValue(s, w, v);
    forall i | 0 <= i < |s.properties| && s.properties[i].name in v.members
      ensures Valid(s.properties[i].schema, v.members[s.properties[i].name])
    {
      assert s.properties[i].name != key;
    }
  }

  lemma NotListed(v: Value, vs: seq<Value>, key: string)
    requires Measure(v, key) > Bound(vs, key)
    ensures v !in vs
  {
  }

  lemma EnumMustBeKept(o: Schema, n: Schema)
    requires WellNamed(o) && o.choices.None? && n.choices.Some? && Kept(o, n)
    ensures EnumKept(o, n.choices.value)
  {
    var choices, key := n.choices.value, NewName(o.properties);
    var m := Bound(choices, key);
    if k: Kind :| (k == KInt || k == KFrac || k == KStr || k == KArr) && Takes(o, k) {
      BeyondValid(o, k, m, key);
      NotListed(Beyond(o, k, m), choices, key);
      ValueOkIff(n, Beyond(o, k, m));
      assert false;
    }
    if TakesObject(o) {
      SatisfiableIff(o);
      var w: Value :| w.Obj? && Valid(o, w);
      var v := ObjectBeyond(o, w, m);
      NotListed(v, choices, key);
      ValueOkIff(n, v);
      assert false;
    }
    if Takes(o, KNull) {
      PlainValid(o, KNull);
    }
    if Takes(o, KBool) {
      PlainValid(o, KBool);
      ValueOkIff(o, Bool(false));
      assert Valid(o, Bool(false));
    }
  }

  lemma KindMustBeKept(o: Schema, n: Schema, k: Kind)
    requires o.choices.None? && Kept(o, n) && Takes(o, k) && k != KObj
    ensures Takes(n, k)
  {
    PlainValid(o, k);
    ValueOkIff(n, Plain(o, k));
  }

  lemma MaximumMustBeKept(o: Schema, n: Schema)
    requires o.choices.None? && Kept(o, n) && Takes(o, KInt)
    ensures MaximumKept(o, n)
  {
    if n.maximum.Some? {
      var top := if o.maximum.Some? then o.maximum.value else (n.maximum.value.Floor + 1) as real;
      var v := Num(if Takes(o, KFrac) then top else top.Floor as real);
      ValueOkIff(o, v);
      assert Valid(o, v);
      assert Valid(n, v);
    }
  }

  lemma KindsMustBeKept(o: Schema, n: Schema)
    requires WellNamed(o) && o.choices.None? && Kept(o, n)
    ensures KindsKept(o, n)
  {
    forall k: Kind | k != KObj && Takes(o, k) ensures Takes(n, k) {
      KindMustBeKept(o, n, k);
    }
    if TakesObject(o) {
      SatisfiableIff(o);
      var w: Value :| w.Obj? && Valid(o, w);
      assert Valid(n, w);
      ValueOkIff(n, w);
    }
  }

  /** The decision is exact, at every depth and whatever the checker said of the two schemas. */
  lemma {:induction false} ContainedIff(o: Schema, n: Schema)
    requires WellNamed(o)
    ensures Contained(o, n) <==> Kept(o, n)
    decreases n
  {
    forall i | 0 <= i < |n.properties|
      ensures var b := Before(o, n.properties[i].name);
        Contained(b, n.properties[i].schema) <==> Kept(b, n.properties[i].schema)
    {
      BeforeWellNamed(o, n.properties[i].name);
      ContainedIff(Before(o, n.properties[i].name), n.properties[i].schema);
    }
    if Contained(o, n) {
      forall v | Valid(o, v) ensures Valid(n, v) {
        ContainedKeeps(o, n, v);
      }
    }
    if Kept(o, n) && o.choices.None? {
      KeptOwn(o, n);
      if TakesObject(o) {
        SatisfiableIff(o);
        var w: Value :| w.Obj? && Valid(o, w);
        MembersMustBeKept(o, n, w);
      }
    }
  }

  lemma KeptOwn(o: Schema, n: Schema)
    requires WellNamed(o) && o.choices.None? && Kept(o, n)
    ensures KindsKept(o, n) && (Takes(o, KInt) ==> MaximumKept(o, n))
    ensures n.choices.Some? ==> EnumKept(o, n.choices.value)
  {
    KindsMustBeKept(o, n);
    if Takes(o, KInt) {
      MaximumMustBeKept(o, n);
    }
    if n.choices.Some? {
      EnumMustBeKept(o, n);
    }
  }

  // ---- whole tools and contracts -------------------------------------------------------------------------

  /** Some call passing declared arguments only is valid. */
  predicate HasCall(o: Schema) {
    forall i | 0 <= i < |o.required| ::
      var p := Lookup(o.properties, o.required[i]);
      p.Some? && Satisfiable(p.value)
  }

  lemma HasCallIff(o: Schema)
    requires ArgumentSchema(o) && WellNamed(o)
    ensures HasCall(o) <==> exists w :: DeclaredOnly(o, w) && Valid(o, w)
  {
    forall i | 0 <= i < |o.properties|
      ensures Satisfiable(o.properties[i].schema) <==> Inhabited(o.properties[i].schema)
    {
      SatisfiableIff(o.properties[i].schema);
    }
    if HasCall(o) {
      forall i | 0 <= i < |o.properties| && o.properties[i].name in o.required
        ensures Inhabited(o.properties[i].schema)
      {
        var j :| 0 <= j < |o.required| && o.required[j] == o.properties[i].name;
      }
      RootTakesObject(o);
      LeastValid(o);
      assert DeclaredOnly(o, Least(o));
    }
    if w :| DeclaredOnly(o, w) && Valid(o, w) {
      forall i | 0 <= i < |o.required|
        ensures var p := Lookup(o.properties, o.required[i]); p.Some? && Satisfiable(p.value)
      {
        var p := Lookup(o.properties, o.required[i]);
        assert Declares(o, o.required[i]);
        MemberBefore(o, w, o.required[i]);
        var j :| 0 <= j < |o.properties| && o.properties[j] == Property(o.required[i], p.value);
      }
    }
  }

  lemma RootTakesObject(o: Schema)
    requires ArgumentSchema(o)
    ensures Takes(o, KObj)
  {
    if o.types.Some? {
      var i :| 0 <= i < |o.types.value| && o.types.value[i] == "object";
    }
  }

  /** No old call of the tool is refused, read off its two schemas: there is none, or no new
      argument is demanded and every declared one is contained in what it has become. */
  predicate ToolContained(o: Schema, n: Schema) {
    HasCall(o) ==>
      && NoNewDemand(o, n)
      && forall i | 0 <= i < |o.properties| ::
           var now := Lookup(n.properties, o.properties[i].name);
           now.Some? && Contained(o.properties[i].schema, now.value)
  }

  lemma FieldsContained(o: Schema, n: Schema)
    requires WellNamed(o) && Clear(o, n)
    ensures FieldsKept(o, n) <==> forall i | 0 <= i < |o.properties| ::
      Contained(o.properties[i].schema, Lookup(n.properties, o.properties[i].name).value)
  {
    forall i | 0 <= i < |o.properties|
      ensures var now := Lookup(n.properties, o.properties[i].name).value;
        Contained(o.properties[i].schema, now) <==> Kept(o.properties[i].schema, now)
    {
      ContainedIff(o.properties[i].schema, Lookup(n.properties, o.properties[i].name).value);
    }
  }

  /** With nothing reported on a tool's arguments, every old call stays valid if and only if
      its two schemas say so. */
  lemma ToolKeptIff(o: Schema, n: Schema)
    requires ArgumentSchema(o) && ArgumentSchema(n) && WellNamed(o) && Clear(o, n)
    ensures CallsKept(o, n) <==> ToolContained(o, n)
  {
    HasCallIff(o);
    FieldsContained(o, n);
    if w :| DeclaredOnly(o, w) && Valid(o, w) {
      CallsKeptIff(o, n, w);
    }
  }

  ghost predicate CallersKept(committed: seq<Tool>, live: seq<Tool>) {
    forall i | 0 <= i < |committed| ::
      var now := ToolNamed(live, committed[i].name);
      now.Some? && CallsKept(committed[i].input, now.value.input)
  }

  predicate ContractContained(committed: seq<Tool>, live: seq<Tool>) {
    forall i | 0 <= i < |committed| ::
      var now := ToolNamed(live, committed[i].name);
      now.Some? && ToolContained(committed[i].input, now.value.input)
  }

  predicate Published(tools: seq<Tool>) {
    forall i | 0 <= i < |tools| :: ArgumentSchema(tools[i].input) && WellNamed(tools[i].input)
  }

  /** After an empty report on a whole contract with nothing excused, every old caller of every
      tool is kept if and only if the schemas, read side by side, say so. */
  lemma CallersKeptIff(committed: seq<Tool>, live: seq<Tool>, today: int)
    requires Findings(committed, live, [], today) == [] && Published(committed) && Published(live)
    ensures CallersKept(committed, live) <==> ContractContained(committed, live)
  {
    forall i | 0 <= i < |committed|
      ensures var now := ToolNamed(live, committed[i].name);
        && now.Some?
        && (CallsKept(committed[i].input, now.value.input) <==> ToolContained(committed[i].input, now.value.input))
    {
      ToolReportedClear(committed, live, today, i);
      var now := ToolNamed(live, committed[i].name).value;
      var j :| 0 <= j < |live| && live[j] == now;
      ToolKeptIff(committed[i].input, now.input);
    }
  }

  // ---- a break inside an argument ----------------------------------------------------------------------------

  predicate TypeName(name: string) {
    exists k: Kind :: NamesKind(name, k)
  }

  lemma TypesContained(was: string, now: string)
    requires TypeName(was)
    ensures Contained(ANY.(types := Some([was])), ANY.(types := Some([now]))) <==>
      was == now || (was == "integer" && now == "number")
  {
    var o, n := ANY.(types := Some([was])), ANY.(types := Some([now]));
    forall k: Kind ensures Takes(o, k) == NamesKind(was, k) && Takes(n, k) == NamesKind(now, k) {
      assert o.types.value[0] == was && n.types.value[0] == now;
    }
    assert Contained(o, n) <==> KindsKept(o, n);
  }

  /** Whatever type a member of an argument goes to goes unreported, and it refuses old calls
      unless it is the same, or "number" for "integer". */
  lemma NestedTypeUnseen(member: string, was: string, now: string)
    requires TypeName(was)
    ensures
      var before := ANY.(properties := [Property(member, ANY.(types := Some([was])))]);
      var after := ANY.(properties := [Property(member, ANY.(types := Some([now])))]);
      var o, n := OneArgument("b", before, []), OneArgument("b", after, []);
      Clear(o, n) && (CallsKept(o, n) <==> was == now || (was == "integer" && now == "number"))
  {
    var earlier, later := ANY.(types := Some([was])), ANY.(types := Some([now]));
    var before, after := ANY.(properties := [Property(member, earlier)]), ANY.(properties := [Property(member, later)]);
    var o, n := OneArgument("b", before, []), OneArgument("b", after, []);
    TypesContained(was, now);
    assert Before(before, after.properties[0].name) == earlier;
    assert Contained(before, after) <==> Contained(earlier, later);
    assert after.properties[1..] == [] && NestedNarrowed(before, after.properties).None?;
    assert NarrowingReason(before, after, false, false).None?;
    assert Clear(o, n);
    assert o.types.value[0] == "object" && n.types.value[0] == "object";
    assert Lookup(n.properties, o.properties[0].name) == Some(after);
    ToolKeptIff(o, n);
    assert ToolContained(o, n) <==> Contained(before, after);
  }
}
