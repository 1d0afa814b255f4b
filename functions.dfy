/** The stage functions of a type (`prepare`, `parse`, `apply`, `aggregate`):
    how a stage is written in a type, the predefined functions it may name,
    and how a name is resolved to something callable. */
module Functions {

  import opened Wrappers
  import opened Values
  import JsStrings

  /** A stage field of a type: a string (a predefined function's name, `"none"`
      or `"auto"`), a caller-supplied function called with the JavaScript
      argument list, or a falsy non-string value such as `null`. */
  datatype Stage = Text(s: string) | Fn(call: seq<Value> -> Result<Value>) | Missing

  /** The test `type.stage && type.stage !== 'none'` that decides whether a stage runs. */
  predicate Engaged(st: Stage) {
    match st
    case Text(s) => s != "" && s != "none"
    case Fn(_) => true
    case Missing => false
  }

  /** The functions of the `predefinedFunction` table. */
  datatype Predefined = NoneFn | TrimFn | ConcatFn | SumFn | MaxFn | MinFn | AvgFn

  const PredefinedNames: set<string> := {"none", "trim", "concat", "sum", "max", "min", "avg"}

  /** The entry of the `predefinedFunction` table under `name`, if any. */
  function Named(name: string): (r: Option<Predefined>)
    ensures r.Some? <==> name in PredefinedNames
  {
    if name == "none" then Some(NoneFn)
    else if name == "trim" then Some(TrimFn)
    else if name == "concat" then Some(ConcatFn)
    else if name == "sum" then Some(SumFn)
    else if name == "max" then Some(MaxFn)
    else if name == "min" then Some(MinFn)
    else if name == "avg" then Some(AvgFn)
    else None
  }

  /** What `resolveFunction` hands back: a predefined function or the caller's own. */
  datatype Callable = Builtin(f: Predefined) | User(call: seq<Value> -> Result<Value>)

  /** `resolveFunction`: a name is looked up among the predefined functions and
      fails when it is not one of them; a function is used as it is. */
  function ResolveFunction(st: Stage): (r: Result<Callable>)
    requires st.Text? || st.Fn?
    ensures r.Err? <==> st.Text? && st.s !in PredefinedNames
    ensures r.Err? ==> r.error == Thrown("Unknown function \"" + st.s + "\"")
    ensures st.Text? && r.Ok? ==> r.value.Builtin? && Named(st.s) == Some(r.value.f)
    ensures st.Fn? ==> r.Ok? && r.value.User? && r.value.call == st.call
  {
    match st
    case Fn(call) => Ok(User(call))
    case Text(name) =>
      match Named(name)
      case Some(f) => Ok(Builtin(f))
      case None => Err(Thrown("Unknown function \"" + name + "\""))
  }

  /** The first argument of a call; `undefined` when there is none. */
  function FirstArg(args: seq<Value>): Value {
    if args == [] then Undefined else args[0]
  }

  /** Calls a resolved function. The predefined functions look at their first argument only. */
  function Call(c: Callable, args: seq<Value>): Result<Value> {
    match c
    case Builtin(f) => ApplyPredefined(f, FirstArg(args))
    case User(call) => call(args)
  }

  /** The integers of a list whose every element is an integer. */
  function IntsOf(vs: seq<Value>): (r: Option<seq<int>>)
    ensures r.Some? <==> forall i :: 0 <= i < |vs| ==> vs[i].Int?
    ensures r.Some? ==> |r.value| == |vs| && forall i :: 0 <= i < |vs| ==> r.value[i] == vs[i].i
  {
    if vs == [] then Some([])
    else
      match IntsOf(vs[1..])
      case None => None
      case Some(rest) => if vs[0].Int? then Some([vs[0].i] + rest) else None
  }

  /** Arithmetic sum of a list of integers. */
  function Sum(xs: seq<int>): int {
    if xs == [] then 0 else xs[0] + Sum(xs[1..])
  }

  /** The largest element of a non-empty list. */
  function Max(xs: seq<int>): (m: int)
    requires xs != []
    ensures m in xs
    ensures forall i :: 0 <= i < |xs| ==> xs[i] <= m
  {
    if |xs| == 1 then xs[0]
    else
      var rest := Max(xs[1..]);
      assert forall i :: 1 <= i < |xs| ==> xs[i] == xs[1..][i - 1];
      if xs[0] >= rest then xs[0] else rest
  }

  /** The smallest element of a non-empty list. */
  function Min(xs: seq<int>): (m: int)
    requires xs != []
    ensures m in xs
    ensures forall i :: 0 <= i < |xs| ==> m <= xs[i]
  {
    if |xs| == 1 then xs[0]
    else
      var rest := Min(xs[1..]);
      assert forall i :: 1 <= i < |xs| ==> xs[i] == xs[1..][i - 1];
      if xs[0] <= rest then xs[0] else rest
  }

  /** JavaScript's `+` on two numbers or on two strings. */
  function Plus(a: Value, b: Value): Result<Value> {
    if a.Int? && b.Int? then Ok(Int(a.i + b.i))
    else if a.Str? && b.Str? then Ok(Str(a.s + b.s))
    else Err(Unmodelled("+ on operands other than two integers or two strings"))
  }

  /** The left fold of `+` over `rest`, starting from `acc`. */
  function FoldPlus(acc: Value, rest: seq<Value>): (r: Result<Value>)
    ensures r.Err? ==> r.error.Unmodelled?
    decreases |rest|
  {
    if rest == [] then Ok(acc)
    else
      var next :- Plus(acc, rest[0]);
      FoldPlus(next, rest[1..])
  }

  /** `_.reduce(items, (total, n) => total + n)`: the first item is the start value;
      an empty list reduces to `undefined`. */
  function ConcatAll(vs: seq<Value>): Result<Value> {
    if vs == [] then Ok(Undefined) else FoldPlus(vs[0], vs[1..])
  }

  /** The predefined functions, applied to the value they are given. None of them
      throws a message of its own: what fails is what the model leaves undescribed. */
  function ApplyPredefined(f: Predefined, arg: Value): (r: Result<Value>)
    ensures r.Err? ==> r.error.Unmodelled?
    ensures f == NoneFn ==> r == Ok(arg)
    ensures f == TrimFn ==> (r.Ok? <==> arg.Str?)
    ensures f == SumFn ==> (r.Ok? <==> arg.List? && forall i :: 0 <= i < |arg.items| ==> arg.items[i].Int?)
    ensures f == MaxFn || f == MinFn ==>
              (r.Ok? <==> arg.List? && arg.items != [] && forall i :: 0 <= i < |arg.items| ==> arg.items[i].Int?)
    ensures f == AvgFn && r.Ok? ==>
              arg.List? && IntsOf(arg.items).Some? && r.value.Int?
              && r.value.i * |arg.items| == Sum(IntsOf(arg.items).value)
  {
    match f
    case NoneFn => Ok(arg)
    case TrimFn =>
      if arg.Str? then Ok(Str(JsStrings.Trim(arg.s)))
      else Err(Unmodelled("trim of a value that is not a string"))
    case ConcatFn =>
      if arg.List? then ConcatAll(arg.items)
      else Err(Unmodelled("concat of a value that is not a list"))
    case SumFn =>
      if arg.List? && IntsOf(arg.items).Some? then Ok(Int(Sum(IntsOf(arg.items).value)))
      else Err(Unmodelled("sum of a list that is not all integers"))
    case MaxFn =>
      if arg.List? && arg.items != [] && IntsOf(arg.items).Some? then Ok(Int(Max(IntsOf(arg.items).value)))
      else Err(Unmodelled("max of an empty list or of non-integers"))
    case MinFn =>
      if arg.List? && arg.items != [] && IntsOf(arg.items).Some? then Ok(Int(Min(IntsOf(arg.items).value)))
      else Err(Unmodelled("min of an empty list or of non-integers"))
    case AvgFn =>
      if arg.List? && arg.items != [] && IntsOf(arg.items).Some?
         && Sum(IntsOf(arg.items).value) % |arg.items| == 0
      then Ok(Int(Sum(IntsOf(arg.items).value) / |arg.items|))
      else Err(Unmodelled("average that is not an integer"))
  }

  /** The strings of a list of strings, glued together. */
  function Glue(vs: seq<Value>): string
    requires forall i :: 0 <= i < |vs| ==> vs[i].Str?
  {
    if vs == [] then "" else vs[0].s + Glue(vs[1..])
  }

  lemma {:induction false} FoldPlusStrings(acc: string, rest: seq<Value>)
    requires forall i :: 0 <= i < |rest| ==> rest[i].Str?
    ensures FoldPlus(Str(acc), rest) == Ok(Str(acc + Glue(rest)))
    decreases |rest|
  {
    if rest != [] {
      assert Plus(Str(acc), rest[0]) == Ok(Str(acc + rest[0].s));
      FoldPlusStrings(acc + rest[0].s, rest[1..]);
      assert (acc + rest[0].s) + Glue(rest[1..]) == acc + (rest[0].s + Glue(rest[1..]));
    } else {
      assert acc + Glue(rest) == acc;
    }
  }

  lemma {:induction false} FoldPlusInts(acc: int, rest: seq<Value>)
    requires IntsOf(rest).Some?
    ensures FoldPlus(Int(acc), rest) == Ok(Int(acc + Sum(IntsOf(rest).value)))
    decreases |rest|
  {
    if rest != [] {
      assert Plus(Int(acc), rest[0]) == Ok(Int(acc + rest[0].i));
      FoldPlusInts(acc + rest[0].i, rest[1..]);
      assert IntsOf(rest).value == [rest[0].i] + IntsOf(rest[1..]).value;
    }
  }

  /** `concat` over strings is their concatenation from left to right. */
  lemma ConcatOfStrings(vs: seq<Value>)
    requires vs != [] && forall i :: 0 <= i < |vs| ==> vs[i].Str?
    ensures ApplyPredefined(ConcatFn, List(vs)) == Ok(Str(Glue(vs)))
  {
    FoldPlusStrings(vs[0].s, vs[1..]);
  }

  /** `concat` over integers adds them up, so it agrees with `sum` there. */
  lemma ConcatOfIntsIsSum(vs: seq<Value>)
    requires vs != [] && IntsOf(vs).Some?
    ensures ApplyPredefined(ConcatFn, List(vs)) == ApplyPredefined(SumFn, List(vs))
  {
    FoldPlusInts(vs[0].i, vs[1..]);
    assert IntsOf(vs).value == [vs[0].i] + IntsOf(vs[1..]).value;
  }

  /** `sum` of a list of integers is their arithmetic sum. */
  lemma SumOfInts(vs: seq<Value>, xs: seq<int>)
    requires IntsOf(vs) == Some(xs)
    ensures ApplyPredefined(SumFn, List(vs)) == Ok(Int(Sum(xs)))
  {
  }

  /** `concat` of a single item is that item, whatever it is. */
  lemma ConcatOfOne(v: Value)
    ensures ApplyPredefined(ConcatFn, List([v])) == Ok(v)
  {
  }

  /** `min` and `max` of a non-empty list of integers return elements of the list
      that bound every other element. */
  lemma ExtremesOfInts(vs: seq<Value>)
    requires vs != [] && forall i :: 0 <= i < |vs| ==> vs[i].Int?
    ensures ApplyPredefined(MaxFn, List(vs)).Ok? && ApplyPredefined(MinFn, List(vs)).Ok?
    ensures ApplyPredefined(MaxFn, List(vs)).value in vs && ApplyPredefined(MinFn, List(vs)).value in vs
    ensures forall i :: 0 <= i < |vs| ==>
      ApplyPredefined(MinFn, List(vs)).value.i <= vs[i].i <= ApplyPredefined(MaxFn, List(vs)).value.i
  {
    var xs := IntsOf(vs).value;
    var hi, lo := Max(xs), Min(xs);
    var k :| 0 <= k < |xs| && xs[k] == hi;
    assert vs[k] == Int(hi);
    var j :| 0 <= j < |xs| && xs[j] == lo;
    assert vs[j] == Int(lo);
  }
}
