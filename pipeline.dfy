/** Converting the cells of one line that a type covers into one value:
    `resolveAutoColumn`, `extractItems`, `prepareItem`, `parseItem`,
    `applyItem`, `aggregate` and `convertItem`. */
module Pipeline {

  import opened Wrappers
  import opened Values
  import opened Functions
  import opened TypeRegistry
  import JsStrings

  /** `resolveAutoColumn`: `"auto"` becomes the running column index; any other
      string is refused; a number is kept. */
  function ResolveAutoColumn(t: FullType, index: int): (r: Result<FullType>)
    ensures r.Ok? <==> t.column.Index? || t.column == Label("auto")
    ensures r.Err? ==> r.error == Thrown("Invalid value for column")
    ensures r.Ok? ==> r.value.column.Index? && r.value == t.(column := r.value.column)
    ensures r.Ok? && t.column.Label? ==> r.value.column.n == index
    ensures t.column.Index? ==> r == Ok(t)
  {
    match t.column
    case Index(_) => Ok(t)
    case Label(s) =>
      if s == "auto" then Ok(t.(column := Index(index)))
      else Err(Thrown("Invalid value for column"))
  }

  /** lodash's treatment of a slice bound: a negative bound counts from the end,
      and every bound is clamped into `[0, len]`. */
  function Bound(k: int, len: nat): (b: nat)
    ensures b <= len
    ensures 0 <= k <= len ==> b == k
  {
    if k < 0 then (if -k > len then 0 else len + k)
    else if k > len then len
    else k
  }

  /** `_.slice(s, start, end)`. */
  function Slice<T>(s: seq<T>, start: int, end: int): (r: seq<T>)
    ensures 0 <= start <= end <= |s| ==> r == s[start..end]
    ensures 0 <= start <= |s| <= end ==> r == s[start..]
    ensures exists a, b :: 0 <= a <= b <= |s| && r == s[a..b]
  {
    var a := Bound(start, |s|);
    var b := Bound(end, |s|);
    if a < b then s[a..b] else s[a..a]
  }

  /** `extractItems`: the cells from the type's column on, `range` of them or
      as many as the line still has; a column at or past the end is refused. */
  function ExtractItems(line: seq<string>, start: int, range: int): (r: Result<seq<string>>)
    ensures r.Err? <==> start >= |line|
    ensures r.Err? ==> r.error == Thrown("Input out of range")
    ensures r.Ok? && 0 <= start && 0 <= range ==>
              r.value == line[start..if start + range <= |line| then start + range else |line|]
  {
    if start >= |line| then Err(Thrown("Input out of range"))
    else Ok(Slice(line, start, start + range))
  }

  /** `prepareItem` and `applyItem`, which differ only in the stage they run: an
      engaged stage is resolved and called as `f(item, index)`; otherwise the item
      passes through. */
  function Transform(stage: Stage, item: Value, index: nat): (r: Result<Value>)
    ensures !Engaged(stage) ==> r == Ok(item)
    ensures stage.Text? && Engaged(stage) && stage.s !in PredefinedNames ==>
              r == Err(Thrown("Unknown function \"" + stage.s + "\""))
    ensures stage.Text? && Engaged(stage) && stage.s in PredefinedNames ==>
              r == ApplyPredefined(Named(stage.s).value, item)
    ensures stage.Fn? ==> r == stage.call([item, Int(index)])
  {
    if Engaged(stage) then
      var f :- ResolveFunction(stage);
      Call(f, [item, Int(index)])
    else
      Ok(item)
  }

  /** `parseItem`: only a function is accepted as `parse` (a name, even `"auto"`,
      is refused); it is called as `parse(value, index)`. */
  function ParseItem(stage: Stage, value: Value, index: nat): (r: Result<Value>)
    ensures !stage.Fn? ==> r == Err(Thrown("Invalid value for parse"))
    ensures stage.Fn? ==> r == stage.call([value, Int(index)])
  {
    match stage
    case Fn(parse) => parse([value, Int(index)])
    case _ => Err(Thrown("Invalid value for parse"))
  }

  /** One cell through prepare, parse and apply, as the loop body of `convertItem` does it. */
  function ProcessCell(t: FullType, cell: string, index: nat): Result<Value> {
    var prepared :- Transform(t.prepare, Str(cell), index);
    var value :- ParseItem(t.parse, prepared, index);
    Transform(t.apply, value, index)
  }

  /** The first `n` cells processed in order, stopping at the first that throws. */
  function ProcessPrefix(t: FullType, cells: seq<string>, n: nat): Result<seq<Value>>
    requires n <= |cells|
  {
    if n == 0 then Ok([])
    else
      var values :- ProcessPrefix(t, cells, n - 1);
      var value :- ProcessCell(t, cells[n - 1], n - 1);
      Ok(values + [value])
  }

  /** `_.first(values)`: `undefined` for an empty list. */
  function First(values: seq<Value>): Value {
    if values == [] then Undefined else values[0]
  }

  /** `aggregate`: an engaged aggregate stage is called with the list of values;
      otherwise a type of range 1 yields its first value and any other range the list. */
  function Aggregate(values: seq<Value>, t: FullType): (r: Result<Value>)
    ensures !Engaged(t.aggregate) && t.range == 1 ==> r == Ok(First(values))
    ensures !Engaged(t.aggregate) && t.range != 1 ==> r == Ok(List(values))
    ensures t.aggregate.Fn? ==> r == t.aggregate.call([List(values)])
    ensures t.aggregate.Text? && Engaged(t.aggregate) ==>
              if t.aggregate.s in PredefinedNames
              then r == ApplyPredefined(Named(t.aggregate.s).value, List(values))
              else r == Err(Thrown("Unknown function \"" + t.aggregate.s + "\""))
  {
    if Engaged(t.aggregate) then
      var f :- ResolveFunction(t.aggregate);
      Call(f, [List(values)])
    else if t.range == 1 then Ok(First(values))
    else Ok(List(values))
  }

  /** `convertItem` as a function of the type (its column already resolved) and the line. */
  function Convert(t: FullType, line: seq<string>): Result<Value>
    requires t.column.Index?
  {
    var cells :- ExtractItems(line, t.column.n, t.range);
    var values :- ProcessPrefix(t, cells, |cells|);
    Aggregate(values, t)
  }

  /** `convertItem`: extract the cells, run each through prepare, parse and apply
      with its index inside the type, and aggregate the values. */
  method ConvertItem(t: FullType, line: seq<string>) returns (r: Result<Value>)
    requires t.column.Index?
    ensures r == Convert(t, line)
  {
    var extracted := ExtractItems(line, t.column.n, t.range);
    if extracted.Err? {
      return Err(extracted.error);
    }
    var cells := extracted.value;
    var values: seq<Value> := [];
    var i := 0;
    while i < |cells|
      invariant 0 <= i <= |cells|
      invariant ProcessPrefix(t, cells, i) == Ok(values)
    {
      var prepared := Transform(t.prepare, Str(cells[i]), i);
      if prepared.Err? {
        ErrorPersists(t, cells, i + 1, |cells|);
        return Err(prepared.error);
      }
      var value := ParseItem(t.parse, prepared.value, i);
      if value.Err? {
        ErrorPersists(t, cells, i + 1, |cells|);
        return Err(value.error);
      }
      value := Transform(t.apply, value.value, i);
      if value.Err? {
        ErrorPersists(t, cells, i + 1, |cells|);
        return Err(value.error);
      }
      values := values + [value.value];
      i := i + 1;
    }
    r := Aggregate(values, t);
  }

  // ----- Properties of the conversion -----

  /** The cells are processed independently: the prefix succeeds exactly when every
      cell in it does, and then holds their values in order. */
  lemma {:induction false} ProcessPrefixValues(t: FullType, cells: seq<string>, n: nat)
    requires n <= |cells|
    ensures ProcessPrefix(t, cells, n).Ok? <==> forall i :: 0 <= i < n ==> ProcessCell(t, cells[i], i).Ok?
    ensures ProcessPrefix(t, cells, n).Ok? ==>
              |ProcessPrefix(t, cells, n).value| == n &&
              forall i :: 0 <= i < n ==> ProcessPrefix(t, cells, n).value[i] == ProcessCell(t, cells[i], i).value
  {
    if n > 0 {
      ProcessPrefixValues(t, cells, n - 1);
    }
  }

  /** Once a prefix throws, every longer prefix throws the same error: the cells after
      the failing one are never looked at. */
  lemma {:induction false} ErrorPersists(t: FullType, cells: seq<string>, m: nat, n: nat)
    requires m <= n <= |cells|
    requires ProcessPrefix(t, cells, m).Err?
    ensures ProcessPrefix(t, cells, n) == ProcessPrefix(t, cells, m)
    decreases n
  {
    if n > m {
      ErrorPersists(t, cells, m, n - 1);
    }
  }

  /** When the prefix throws, it throws what the first failing cell throws. */
  lemma {:induction false} ProcessPrefixError(t: FullType, cells: seq<string>, n: nat)
    requires n <= |cells|
    requires ProcessPrefix(t, cells, n).Err?
    ensures exists k :: 0 <= k < n && ProcessCell(t, cells[k], k).Err?
              && ProcessPrefix(t, cells, n).error == ProcessCell(t, cells[k], k).error
              && forall i :: 0 <= i < k ==> ProcessCell(t, cells[i], i).Ok?
  {
    if ProcessPrefix(t, cells, n - 1).Err? {
      ProcessPrefixError(t, cells, n - 1);
    } else {
      ProcessPrefixValues(t, cells, n - 1);
      assert ProcessCell(t, cells[n - 1], n - 1).Err?;
    }
  }

  /** A type of range 1 without an aggregate stage is the conversion of its one cell. */
  lemma ConvertSingleCell(t: FullType, line: seq<string>)
    requires t.column.Index? && 0 <= t.column.n < |line|
    requires t.range == 1 && !Engaged(t.aggregate)
    ensures Convert(t, line) == ProcessCell(t, line[t.column.n], 0)
  {
    var c := t.column.n;
    assert line[c..c + 1] == [line[c]];
    assert ExtractItems(line, c, 1) == Ok([line[c]]);
    ProcessPrefixValues(t, [line[c]], 1);
  }

  /** A type of any other range without an aggregate stage yields the list of its
      cells' values, one per covered cell. */
  lemma ConvertCells(t: FullType, line: seq<string>)
    requires t.column.Index? && 0 <= t.column.n < |line|
    requires t.range >= 0 && t.range != 1 && !Engaged(t.aggregate)
    requires Convert(t, line).Ok?
    ensures var c, n := t.column.n, t.range;
            var cells := line[c..if c + n <= |line| then c + n else |line|];
            Convert(t, line).value.List? &&
            |Convert(t, line).value.items| == |cells| &&
            forall i :: 0 <= i < |cells| ==>
              ProcessCell(t, cells[i], i).Ok? && Convert(t, line).value.items[i] == ProcessCell(t, cells[i], i).value
  {
    var c, n := t.column.n, t.range;
    var cells := line[c..if c + n <= |line| then c + n else |line|];
    assert ExtractItems(line, c, n) == Ok(cells);
    assert ProcessPrefix(t, cells, |cells|).Ok?;
    ProcessPrefixValues(t, cells, |cells|);
    var values := ProcessPrefix(t, cells, |cells|).value;
    assert Convert(t, line) == Ok(List(values));
  }

  /** A type whose parse is the Integer type's and has no prepare or apply stage
      reads the decimal rendering of an integer as that integer. */
  lemma IntegerCell(t: FullType, x: int, index: nat)
    requires t.parse == Fn(IntegerParse) && !Engaged(t.prepare) && !Engaged(t.apply)
    ensures ProcessCell(t, JsStrings.IntToString(x), index) == Ok(Int(x))
  {
    var cell := JsStrings.IntToString(x);
    JsStrings.ParseIntOfDecimal(x, []);
    assert cell + [] == cell;
    assert Transform(t.prepare, Str(cell), index) == Ok(Str(cell));
    assert IntegerParse([Str(cell), Int(index)]) == Ok(Int(x));
    assert ParseItem(t.parse, Str(cell), index) == Ok(Int(x));
    assert Transform(t.apply, Int(x), index) == Ok(Int(x));
  }

  /** Values that are all integers read back as those integers. */
  lemma IntsOfInts(values: seq<Value>, xs: seq<int>)
    requires |values| == |xs| && forall i :: 0 <= i < |xs| ==> values[i] == Int(xs[i])
    ensures IntsOf(values) == Some(xs)
  {
    assert IntsOf(values).Some?;
    assert IntsOf(values).value == xs;
  }

  /** The cells a type's columns cover are the line's cells from its column on. */
  lemma ColumnCells(line: seq<string>, c: nat, xs: seq<int>) returns (cells: seq<string>)
    requires c + |xs| <= |line|
    requires forall i :: 0 <= i < |xs| ==> line[c + i] == JsStrings.IntToString(xs[i])
    ensures cells == line[c..c + |xs|]
    ensures |cells| == |xs| && forall i :: 0 <= i < |xs| ==> cells[i] == JsStrings.IntToString(xs[i])
  {
    cells := line[c..c + |xs|];
    forall i | 0 <= i < |xs|
      ensures cells[i] == JsStrings.IntToString(xs[i])
    {
      assert cells[i] == line[c + i];
    }
  }

  /** Such a type turns cells holding the decimal renderings of integers into
      exactly those integers, in order. */
  lemma IntegerCells(t: FullType, cells: seq<string>, xs: seq<int>)
    requires t.parse == Fn(IntegerParse) && !Engaged(t.prepare) && !Engaged(t.apply)
    requires |cells| == |xs| && forall i :: 0 <= i < |xs| ==> cells[i] == JsStrings.IntToString(xs[i])
    ensures ProcessPrefix(t, cells, |cells|).Ok?
    ensures IntsOf(ProcessPrefix(t, cells, |cells|).value) == Some(xs)
  {
    forall i | 0 <= i < |xs|
      ensures ProcessCell(t, cells[i], i) == Ok(Int(xs[i]))
    {
      IntegerCell(t, xs[i], i);
    }
    ProcessPrefixValues(t, cells, |cells|);
    IntsOfInts(ProcessPrefix(t, cells, |cells|).value, xs);
  }

  /** How many cells `extractItems` takes from a line of `len` cells for a type at
      column `c` with the given range: `range` of them, or as many as the line still has. */
  function Width(c: nat, range: nat, len: nat): (w: nat)
    requires c <= len
    ensures c + w <= len && w <= range
    ensures w == range || c + w == len
  {
    (if c + range <= len then c + range else len) - c
  }

  /** The window `extractItems` returns is the `Width` cells from the column on. */
  lemma Window(line: seq<string>, c: nat, range: int, n: nat)
    requires c < |line| && range >= 0 && n == Width(c, range, |line|)
    ensures ExtractItems(line, c, range) == Ok(line[c..c + n])
  {
  }

  /** `Window` for the column and range of a type. */
  lemma ColumnWindow(t: FullType, line: seq<string>, cells: seq<string>, n: nat)
    requires t.column.Index? && 0 <= t.column.n < |line| && t.range >= 0
    requires n == Width(t.column.n, t.range, |line|)
    requires cells == line[t.column.n..t.column.n + n]
    ensures ExtractItems(line, t.column.n, t.range) == Ok(cells)
  {
    Window(line, t.column.n, t.range, n);
  }

  /** A type with the `sum` aggregate whose cells all convert to integers adds them
      up, whatever window of the line it covers. */
  lemma SumOfCells(t: FullType, line: seq<string>, cells: seq<string>, xs: seq<int>)
    requires t.aggregate == Text("sum") && t.column.Index?
    requires ExtractItems(line, t.column.n, t.range) == Ok(cells)
    requires ProcessPrefix(t, cells, |cells|).Ok? && IntsOf(ProcessPrefix(t, cells, |cells|).value) == Some(xs)
    ensures Convert(t, line) == Ok(Int(Sum(xs)))
  {
    var values := ProcessPrefix(t, cells, |cells|).value;
    assert Convert(t, line) == Aggregate(values, t);
    assert Named("sum") == Some(SumFn);
    assert Aggregate(values, t) == ApplyPredefined(SumFn, List(values));
    SumOfInts(values, xs);
  }

  /** The window an Integer type covers, when it holds decimal renderings of integers:
      its cells convert to exactly those integers. */
  lemma IntegerWindow(t: FullType, line: seq<string>, xs: seq<int>) returns (cells: seq<string>)
    requires t.parse == Fn(IntegerParse) && !Engaged(t.prepare) && !Engaged(t.apply)
    requires t.column.Index? && 0 <= t.column.n < |line| && t.range >= 0
    requires |xs| == Width(t.column.n, t.range, |line|)
    requires forall i :: 0 <= i < |xs| ==> line[t.column.n + i] == JsStrings.IntToString(xs[i])
    ensures cells == line[t.column.n..t.column.n + |xs|]
    ensures ProcessPrefix(t, cells, |cells|).Ok? && IntsOf(ProcessPrefix(t, cells, |cells|).value) == Some(xs)
  {
    cells := ColumnCells(line, t.column.n, xs);
    IntegerCells(t, cells, xs);
  }

  /** An Integer type with the `sum` aggregate adds up the numbers written in the
      columns it covers, and a short line contributes only the cells it has (the
      `sum` scenarios of the test suite). */
  lemma SumOfColumns(t: FullType, line: seq<string>, xs: seq<int>)
    requires t.parse == Fn(IntegerParse) && !Engaged(t.prepare) && !Engaged(t.apply)
    requires t.aggregate == Text("sum")
    requires t.column.Index? && 0 <= t.column.n < |line| && t.range >= 0
    requires |xs| == Width(t.column.n, t.range, |line|)
    requires forall i :: 0 <= i < |xs| ==> line[t.column.n + i] == JsStrings.IntToString(xs[i])
    ensures Convert(t, line) == Ok(Int(Sum(xs)))
  {
    var cells := IntegerWindow(t, line, xs);
    ColumnWindow(t, line, cells, |xs|);
    SumOfCells(t, line, cells, xs);
  }

  /** The short-line case: an Integer type at column 0 with range 4 and the `sum`
      aggregate reads the line `2,4` as 6. */
  lemma SumOfShortLine(t: FullType)
    requires t.parse == Fn(IntegerParse) && !Engaged(t.prepare) && !Engaged(t.apply)
    requires t.aggregate == Text("sum") && t.column == Index(0) && t.range == 4
    ensures Convert(t, ["2", "4"]) == Ok(Int(6))
  {
    var xs := [2, 4];
    assert JsStrings.IntToString(2) == "2" && JsStrings.IntToString(4) == "4";
    SumOfColumns(t, ["2", "4"], xs);
    assert Sum(xs) == 6;
  }
}
