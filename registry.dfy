/** The type registry: full type descriptors, the four built-in types, lookup
    by name (`createTypeInstance`, `enrichTypeInstance`) and the mutable list of
    registered types with `register` and `unregister`. */
module TypeRegistry {

  import opened Wrappers
  import opened Values
  import opened Functions
  import JsStrings

  /** The `column` field of a type: a number, or a string (only `"auto"` is accepted). */
  datatype Column = Index(n: int) | Label(s: string)

  /** A full type: every field present. `name` is the `type` property; it is
      absent only for a type registered on a base without a name of its own. */
  datatype FullType = FullType(
    name: Option<string>,
    column: Column,
    range: int,
    prepare: Stage,
    parse: Stage,
    apply: Stage,
    aggregate: Stage)

  /** A partial type as a caller writes it: each field present or missing. */
  datatype Descriptor = Descriptor(
    name: Option<string>,
    column: Option<Column>,
    range: Option<int>,
    prepare: Option<Stage>,
    parse: Option<Stage>,
    apply: Option<Stage>,
    aggregate: Option<Stage>)

  /** `defaultType`: what a type registered without a base gets for the fields it leaves out. */
  const DefaultType := FullType(Some(""), Label("auto"), 1, Text("none"), Text("auto"), Text("none"), Text("none"))

  function Pick<T>(field: Option<T>, default: T): T {
    if field.Some? then field.value else default
  }

  /** `_.defaults(_.clone(d), from)`: every field of the result is the one of `d`
      when `d` has it and the one of `from` otherwise. */
  function Defaults(d: Descriptor, from: FullType): FullType {
    FullType(
      if d.name.Some? then d.name else from.name,
      Pick(d.column, from.column),
      Pick(d.range, from.range),
      Pick(d.prepare, from.prepare),
      Pick(d.parse, from.parse),
      Pick(d.apply, from.apply),
      Pick(d.aggregate, from.aggregate))
  }

  /** The descriptor that leaves every field out. */
  const Blank := Descriptor(None, None, None, None, None, None, None)

  /** The descriptor that spells out every field of `t`. */
  function Describe(t: FullType): Descriptor {
    Descriptor(t.name, Some(t.column), Some(t.range), Some(t.prepare), Some(t.parse), Some(t.apply), Some(t.aggregate))
  }

  /** Field by field, `over` where it has the field and `under` otherwise. */
  function Merge(over: Descriptor, under: Descriptor): Descriptor {
    Descriptor(
      if over.name.Some? then over.name else under.name,
      if over.column.Some? then over.column else under.column,
      if over.range.Some? then over.range else under.range,
      if over.prepare.Some? then over.prepare else under.prepare,
      if over.parse.Some? then over.parse else under.parse,
      if over.apply.Some? then over.apply else under.apply,
      if over.aggregate.Some? then over.aggregate else under.aggregate)
  }

  /** A descriptor that leaves everything out takes every field from its base... */
  lemma DefaultsOfBlank(from: FullType)
    ensures Defaults(Blank, from) == from
  {
  }

  /** ...and one that spells everything out ignores its base: explicit fields always win. */
  lemma DefaultsOfComplete(t: FullType, from: FullType)
    requires t.name.Some?
    ensures Defaults(Describe(t), from) == t
  {
  }

  /** Completing in two steps, first from `inner` then from `outer`, is completing
      once from the merged descriptor: a chain of bases behaves as one descriptor. */
  lemma DefaultsCompose(outer: Descriptor, inner: Descriptor, from: FullType)
    ensures Defaults(outer, Defaults(inner, from)) == Defaults(Merge(outer, inner), from)
  {
  }

  // ----- The four built-in types -----

  /** The `parse` of the Integer type: `parseInt(item)`. */
  function IntegerParse(args: seq<Value>): Result<Value> {
    match FirstArg(args)
    case Str(s) =>
      Ok(match JsStrings.ParseInt(s) case Some(n) => Int(n) case None => NaN)
    case _ => Err(Unmodelled("parseInt of a value that is not a string"))
  }

  /** The `parse` of the Float type: `parseFloat(item)`, its number left uninterpreted. */
  function FloatParse(args: seq<Value>): Result<Value> {
    match FirstArg(args)
    case Str(s) => Ok(Float(s))
    case _ => Err(Unmodelled("parseFloat of a value that is not a string"))
  }

  /** The `parse` of the String type: the item itself. */
  function StringParse(args: seq<Value>): Result<Value> {
    Ok(FirstArg(args))
  }

  /** `parseDate`: the cell split on `-` must have at least two parts; the parts
      are what the `Date` constructor receives and join back to the cell. */
  function ParseDate(input: string): (r: Result<Value>)
    ensures r.Err? <==> '-' !in input
    ensures r.Err? ==> r.error == Thrown("Invalid date format. Expected: yyyy-mm-dd")
    ensures r.Ok? ==> r.value.Date? && |r.value.parts| >= 2 && JsStrings.Join(r.value.parts, '-') == input
  {
    var parts := JsStrings.Split(input, '-');
    if |parts| < 2 then Err(Thrown("Invalid date format. Expected: yyyy-mm-dd"))
    else Ok(Date(parts))
  }

  /** The `parse` of the Date type: `parseDate(item)`. */
  function DateParse(args: seq<Value>): Result<Value> {
    match FirstArg(args)
    case Str(s) => ParseDate(s)
    case _ => Err(Unmodelled("split of a value that is not a string"))
  }

  const BuiltinNames: seq<string> := ["Integer", "Float", "String", "Date"]

  /** The descriptor a built-in type is registered with: a name and a parse function. */
  function BuiltinDescriptor(name: string, parse: seq<Value> -> Result<Value>): Descriptor {
    Descriptor(Some(name), None, None, None, Some(Fn(parse)), None, None)
  }

  /** The registry as the module leaves it at load time. */
  function Seed(): seq<FullType> {
    [ Defaults(BuiltinDescriptor("Integer", IntegerParse), DefaultType),
      Defaults(BuiltinDescriptor("Float", FloatParse), DefaultType),
      Defaults(BuiltinDescriptor("String", StringParse), DefaultType),
      Defaults(BuiltinDescriptor("Date", DateParse), DefaultType) ]
  }

  // ----- Lookup -----

  /** The first position at or after `from` of a type with that name, -1 when there is none. */
  function FindFrom(types: seq<FullType>, name: Option<string>, from: nat): (k: int)
    requires from <= |types|
    ensures -1 <= k < |types|
    ensures k == -1 <==> forall i :: from <= i < |types| ==> types[i].name != name
    ensures k >= 0 ==> from <= k && types[k].name == name && forall i :: from <= i < k ==> types[i].name != name
    decreases |types| - from
  {
    if from == |types| then -1
    else if types[from].name == name then from
    else FindFrom(types, name, from + 1)
  }

  /** `_.findIndex(types, t => t.type === name)`: the first position of a type with
      that name, -1 when there is none. */
  function FirstIndex(types: seq<FullType>, name: Option<string>): (k: int)
    ensures -1 <= k < |types|
    ensures k == -1 <==> forall i :: 0 <= i < |types| ==> types[i].name != name
    ensures k >= 0 ==> types[k].name == name && forall i :: 0 <= i < k ==> types[i].name != name
  {
    FindFrom(types, name, 0)
  }

  /** `createTypeInstance`: a copy of the first registered type with that name. */
  function CreateTypeInstance(types: seq<FullType>, name: string): (r: Result<FullType>)
    ensures r.Err? <==> forall i :: 0 <= i < |types| ==> types[i].name != Some(name)
    ensures r.Err? ==> r.error == Thrown("Unknown type " + name)
    ensures r.Ok? ==> exists k :: 0 <= k < |types| && types[k] == r.value && r.value.name == Some(name)
                        && forall i :: 0 <= i < k ==> types[i].name != Some(name)
  {
    var k := FirstIndex(types, Some(name));
    if k < 0 then Err(Thrown("Unknown type " + name)) else Ok(types[k])
  }

  /** `enrichTypeInstance`: the descriptor completed from the first registered type
      named as the descriptor says. The source builds its message from the
      descriptor object itself, which JavaScript renders as `[object Object]`. */
  function EnrichTypeInstance(types: seq<FullType>, d: Descriptor): (r: Result<FullType>)
    ensures r.Err? <==> forall i :: 0 <= i < |types| ==> types[i].name != d.name
    ensures r.Err? ==> r.error == Thrown("Unknown type [object Object]")
    ensures r.Ok? ==> exists k :: 0 <= k < |types| && r.value == Defaults(d, types[k])
                        && types[k].name == d.name && forall i :: 0 <= i < k ==> types[i].name != d.name
  {
    var k := FirstIndex(types, d.name);
    if k < 0 then Err(Thrown("Unknown type [object Object]")) else Ok(Defaults(d, types[k]))
  }

  /** A schema entry: a bare type name, or a partial type naming its registered type. */
  datatype SchemaEntry = TypeName(name: string) | Partial(d: Descriptor)

  /** The type name a schema entry asks for. */
  function EntryName(e: SchemaEntry): Option<string> {
    match e
    case TypeName(name) => Some(name)
    case Partial(d) => d.name
  }

  /** `getFullTypeInstance`: the first registered type named as the entry asks, taken
      as it is for a bare name and completing the descriptor otherwise; "Unknown type"
      exactly when no registered type has that name. */
  function GetFullTypeInstance(types: seq<FullType>, e: SchemaEntry): (r: Result<FullType>)
    ensures r.Err? <==> forall i :: 0 <= i < |types| ==> types[i].name != EntryName(e)
    ensures r.Err? ==> r.error == Thrown("Unknown type " + if e.TypeName? then e.name else "[object Object]")
    ensures r.Ok? ==> exists k :: 0 <= k < |types| && types[k].name == EntryName(e)
                        && (forall i :: 0 <= i < k ==> types[i].name != EntryName(e))
                        && r.value == (if e.TypeName? then types[k] else Defaults(e.d, types[k]))
  {
    match e
    case TypeName(name) => CreateTypeInstance(types, name)
    case Partial(d) => EnrichTypeInstance(types, d)
  }

  /** A bare type name and the descriptor that gives only that name find the same
      full type, and fail together. */
  lemma NameIsBlankDescriptor(types: seq<FullType>, name: string)
    ensures GetFullTypeInstance(types, TypeName(name)).Ok?
            <==> GetFullTypeInstance(types, Partial(Blank.(name := Some(name)))).Ok?
    ensures GetFullTypeInstance(types, TypeName(name)).Ok? ==>
              GetFullTypeInstance(types, Partial(Blank.(name := Some(name)))).value
              == GetFullTypeInstance(types, TypeName(name)).value
  {
    var k := FirstIndex(types, Some(name));
    if k >= 0 {
      assert Defaults(Blank.(name := Some(name)), types[k]) == types[k];
    }
  }

  // ----- register / unregister -----

  /** Whether `register` was given a base: its second argument is a non-empty string. */
  predicate HasBase(base: Option<string>) {
    base.Some? && base.value != ""
  }

  /** The full type `register(d, base)` appends. With a base, missing fields come
      from the base's full definition but the name stays the descriptor's own; without
      one, missing fields come from `defaultType`. */
  function Registered(types: seq<FullType>, d: Descriptor, base: Option<string>): (r: Result<FullType>)
    ensures r.Err? <==> HasBase(base) && forall i :: 0 <= i < |types| ==> types[i].name != Some(base.value)
  {
    if HasBase(base) then
      var full :- EnrichTypeInstance(types, d.(name := Some(base.value)));
      Ok(full.(name := d.name))
    else
      Ok(Defaults(d, DefaultType))
  }

  /** With a base, the new type keeps its own name and takes every field it leaves out
      from the first registered type named like the base. */
  lemma RegisteredOnBase(types: seq<FullType>, d: Descriptor, b: string)
    requires b != ""
    requires FirstIndex(types, Some(b)) >= 0
    ensures Registered(types, d, Some(b)) == Ok(Defaults(d, types[FirstIndex(types, Some(b))]).(name := d.name))
  {
  }

  /** Without a base, a missing name becomes the empty string and every other
      missing field takes its `defaultType` value. */
  lemma RegisteredWithoutBase(types: seq<FullType>, d: Descriptor)
    ensures Registered(types, d, None) == Ok(Defaults(d, DefaultType))
    ensures Registered(types, d, None).value.name == Some(Pick(d.name, ""))
    ensures d.range.None? ==> Registered(types, d, None).value.range == 1
    ensures d.column.None? ==> Registered(types, d, None).value.column == Label("auto")
  {
  }

  lemma SeedNames()
    ensures |Seed()| == 4
    ensures forall i :: 0 <= i < 4 ==> Seed()[i].name == Some(BuiltinNames[i])
  {
  }

  /** While the seeded types lead the list, each built-in name finds its seeded
      type, whatever else was registered later under the same name. */
  lemma BuiltinsFound(types: seq<FullType>, i: nat)
    requires |types| >= 4 && types[..4] == Seed()
    requires i < 4
    ensures CreateTypeInstance(types, BuiltinNames[i]) == Ok(Seed()[i])
  {
    SeedNames();
    assert types[i] == Seed()[i];
    assert forall j :: 0 <= j < i ==> types[j] == Seed()[j];
  }

  /** Appending a type leaves every lookup that already succeeded unchanged (the first
      registration of a name wins) and makes the new type findable otherwise. */
  lemma LookupAfterAppend(types: seq<FullType>, t: FullType, name: Option<string>)
    ensures FirstIndex(types + [t], name) ==
      if FirstIndex(types, name) >= 0 then FirstIndex(types, name)
      else if t.name == name then |types|
      else -1
  {
    var k := FirstIndex(types, name);
    var all := types + [t];
    assert forall i :: 0 <= i < |types| ==> all[i] == types[i];
    assert all[|types|] == t;
  }

  /** `FirstIndex` is the one position that is a first match (or -1 when nothing matches). */
  lemma FirstIndexIs(types: seq<FullType>, name: Option<string>, j: int)
    requires -1 <= j < |types|
    requires j == -1 ==> forall i :: 0 <= i < |types| ==> types[i].name != name
    requires j >= 0 ==> types[j].name == name && forall i :: 0 <= i < j ==> types[i].name != name
    ensures FirstIndex(types, name) == j
  {
  }

  /** Dropping a type of another name from position `k` moves a first match after `k`
      one place forward and leaves one before `k` where it is. */
  lemma FirstIndexAfterRemoval(types: seq<FullType>, rest: seq<FullType>, k: nat, name: Option<string>)
    requires k < |types| && |rest| == |types| - 1
    requires forall i :: 0 <= i < k ==> rest[i].name == types[i].name
    requires forall i :: k <= i < |rest| ==> rest[i].name == types[i + 1].name
    requires types[k].name != name
    ensures var j := FirstIndex(types, name);
            FirstIndex(rest, name) == if j < 0 then -1 else if j < k then j else j - 1
  {
    var j := FirstIndex(types, name);
    if j < 0 {
      forall i | 0 <= i < |rest| ensures rest[i].name != name {
        if i < k { assert rest[i].name == types[i].name; } else { assert rest[i].name == types[i + 1].name; }
      }
      FirstIndexIs(rest, name, -1);
    } else if j < k {
      FirstIndexIs(rest, name, j);
    } else {
      assert rest[j - 1].name == types[j].name;
      forall i | 0 <= i < j - 1 ensures rest[i].name != name {
        if i < k { assert rest[i].name == types[i].name; } else { assert rest[i].name == types[i + 1].name; }
      }
      FirstIndexIs(rest, name, j - 1);
    }
  }

  /** Removing the first type named `gone` leaves the lookup of every other name unchanged. */
  lemma LookupAfterRemoval(types: seq<FullType>, gone: string, other: string)
    requires other != gone
    requires FirstIndex(types, Some(gone)) >= 0
    ensures var k := FirstIndex(types, Some(gone));
            CreateTypeInstance(types[..k] + types[k + 1..], other) == CreateTypeInstance(types, other)
  {
    var k := FirstIndex(types, Some(gone));
    var rest := types[..k] + types[k + 1..];
    forall i | 0 <= i < k ensures rest[i].name == types[i].name {
      assert rest[i] == types[i];
    }
    forall i | k <= i < |rest| ensures rest[i].name == types[i + 1].name {
      assert rest[i] == types[i + 1];
    }
    FirstIndexAfterRemoval(types, rest, k, Some(other));
    var j := FirstIndex(types, Some(other));
    if j >= 0 {
      var j' := if j < k then j else j - 1;
      assert rest[j'] == types[j];
      assert CreateTypeInstance(rest, other) == Ok(rest[j']);
    }
  }

  /** The module-level `registeredTypes` list with `register` and `unregister`. */
  class Registry {

    var types: seq<FullType>

    /** The four built-in types stay at the head of the list, in load order. */
    ghost predicate Valid()
      reads this
    {
      |types| >= 4 && types[..4] == Seed()
    }

    /** The list as the module's four load-time `register` calls leave it. */
    constructor ()
      ensures Valid() && types == Seed()
    {
      types := Seed();
    }

    /** `register(d, base)`: append the full type, or throw when the base is unknown. */
    method Register(d: Descriptor, base: Option<string>) returns (r: Result<()>)
      requires Valid()
      modifies this
      ensures Valid()
      ensures match Registered(old(types), d, base)
              case Ok(t) => r == Ok(()) && types == old(types) + [t]
              case Err(e) => r == Err(e) && types == old(types)
    {
      var full := Registered(types, d, base);
      if full.Err? {
        return Err(full.error);
      }
      assert (types + [full.value])[..4] == types[..4];
      types := types + [full.value];
      r := Ok(());
    }

    /** `unregister(name)`: the built-in names cannot be removed; otherwise the first
      type with that name is spliced out, and an unknown name changes nothing. */
    method Unregister(name: string) returns (r: Result<()>)
      requires Valid()
      modifies this
      ensures Valid()
      ensures name in BuiltinNames ==>
                r == Err(Thrown("Cannot remove built-in type " + name)) && types == old(types)
      ensures name !in BuiltinNames ==>
                r == Ok(()) &&
                var k := FirstIndex(old(types), Some(name));
                types == if k < 0 then old(types) else old(types)[..k] + old(types)[k + 1..]
    {
      if name in BuiltinNames {
        return Err(Thrown("Cannot remove built-in type " + name));
      }
      var k := FirstIndex(types, Some(name));
      if k != -1 {
        SeedNames();
        assert forall i :: 0 <= i < 4 ==> types[i].name == Some(BuiltinNames[i]);
        assert k >= 4;
        assert (types[..k] + types[k + 1..])[..4] == types[..4];
        types := types[..k] + types[k + 1..];
      }
      r := Ok(());
    }
  }
}
