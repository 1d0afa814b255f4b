/** `materialize` and `parse`: turning tokenized lines into records by a schema,
    with the `skip`, `ignore` and `exclude` options. */
module Engine {

  import opened Wrappers
  import opened Values
  import opened TypeRegistry
  import opened Pipeline
  import opened Paths

  /** A function-valued option: missing (or falsy), set to something that is not
      a function, or a predicate supplied by the caller. */
  datatype OptionFn<-T> = Unset | NotFunction | Given(p: T -> bool)

  /** The options `materialize` reads. `skip` is missing when the caller gave none. */
  datatype Options = Options(skip: Option<int>, ignore: OptionFn<seq<string>>, exclude: OptionFn<Record>)

  /** The schema: property paths with their types, in the order `_.keys` lists them. */
  type Schema = seq<(string, SchemaEntry)>

  /** The number of lines to skip; a missing `skip` skips nothing (`undefined > 0` is false). */
  function SkipOf(options: Options): int {
    if options.skip.Some? then options.skip.value else 0
  }

  /** The elements of `s` that `p` does not hold for, in order (`_.filter` with a negated predicate). */
  function Without<T>(s: seq<T>, p: T -> bool): (r: seq<T>)
    ensures |r| <= |s|
  {
    if s == [] then []
    else Without(s[..|s| - 1], p) + (if p(s[|s| - 1]) then [] else [s[|s| - 1]])
  }

  /** What `Without` keeps: exactly the elements the predicate rejects. */
  lemma {:induction false} WithoutMembers<T>(s: seq<T>, p: T -> bool)
    ensures forall x :: x in Without(s, p) <==> x in s && !p(x)
  {
    if s != [] {
      WithoutMembers(s[..|s| - 1], p);
      assert s == s[..|s| - 1] + [s[|s| - 1]];
    }
  }

  /** `ignore(line, options)`: no predicate ignores nothing; a predicate decides; anything
      else throws. */
  function Ignore(line: seq<string>, ignore: OptionFn<seq<string>>): (r: Result<bool>)
    ensures ignore.Unset? ==> r == Ok(false)
    ensures ignore.NotFunction? ==> r == Err(Thrown("Invalid option: ignore is not a function"))
    ensures ignore.Given? ==> r == Ok(ignore.p(line))
  {
    match ignore
    case Unset => Ok(false)
    case NotFunction => Err(Thrown("Invalid option: ignore is not a function"))
    case Given(p) => Ok(p(line))
  }

  /** `excludeItems`: drop the records the predicate holds for; anything but a
      predicate throws, even when there are no records. */
  function ExcludeItems(items: seq<Record>, exclude: OptionFn<Record>): (r: Result<seq<Record>>)
    ensures exclude.Unset? ==> r == Ok(items)
    ensures exclude.NotFunction? ==> r == Err(Thrown("Invalid option: exclude is not a function"))
    ensures exclude.Given? ==> r.Ok? && forall x :: x in r.value <==> x in items && !exclude.p(x)
  {
    match exclude
    case Unset => Ok(items)
    case NotFunction => Err(Thrown("Invalid option: exclude is not a function"))
    case Given(p) =>
      WithoutMembers(items, p);
      Ok(Without(items, p))
  }

  /** The `catch` of `materialize`: a thrown message gets the property appended. */
  function Decorate(e: Error, key: string): (d: Error)
    ensures e.Thrown? ==> d == Thrown(e.message + ". On property " + key)
    ensures e.Unmodelled? ==> d == e
  {
    match e
    case Thrown(m) => Thrown(m + ". On property " + key)
    case Unmodelled(_) => e
  }

  // ----- One line -----

  /** The record being built for a line and the running column index. */
  datatype RowState = RowState(item: Record, index: int)

  /** The body of the `try` for one schema property: look up the full type, resolve
      an automatic column, convert the cells and write the value at the property path;
      the index then moves on by the type's range. */
  function Field(types: seq<FullType>, line: seq<string>, st: RowState, key: string, entry: SchemaEntry)
    : Result<RowState>
  {
    var full :- GetFullTypeInstance(types, entry);
    var t :- ResolveAutoColumn(full, st.index);
    Place(t, line, st, key)
  }

  /** The second half of that body: convert the cells of a type whose column is known
      and write the value at the property path, moving the index on by the range. */
  function Place(t: FullType, line: seq<string>, st: RowState, key: string): Result<RowState>
    requires t.column.Index?
  {
    var value :- Convert(t, line);
    var item :- WriteTo(st.item, key, value);
    Ok(RowState(item, st.index + t.range))
  }

  /** `Field` with the `catch` that decorates what it throws. */
  function FieldStep(types: seq<FullType>, line: seq<string>, st: RowState, key: string, entry: SchemaEntry)
    : Result<RowState>
  {
    match Field(types, line, st, key, entry)
    case Ok(next) => Ok(next)
    case Err(e) => Err(Decorate(e, key))
  }

  /** The per-property callback of `materialize` for one line, as a function value. */
  function FieldOf(types: seq<FullType>, line: seq<string>): (RowState, (string, SchemaEntry)) -> Result<RowState> {
    (st: RowState, e: (string, SchemaEntry)) => FieldStep(types, line, st, e.0, e.1)
  }

  /** `step` applied to the first `k` elements from left to right, starting from `init`
      and stopping at the first failure (a `_.forEach` whose callback may throw). */
  function Steps<S, E>(step: (S, E) -> Result<S>, init: S, xs: seq<E>, k: nat): Result<S>
    requires k <= |xs|
  {
    if k == 0 then Ok(init)
    else
      var s :- Steps(step, init, xs, k - 1);
      step(s, xs[k - 1])
  }

  /** Once a step fails, the failure is the outcome of every longer prefix. */
  lemma {:induction false} StepsErrorPersists<S, E>(step: (S, E) -> Result<S>, init: S, xs: seq<E>, m: nat, n: nat)
    requires m <= n <= |xs|
    requires Steps(step, init, xs, m).Err?
    ensures Steps(step, init, xs, n) == Steps(step, init, xs, m)
    decreases n
  {
    if n > m {
      StepsErrorPersists(step, init, xs, m, n - 1);
    }
  }

  /** A prefix that succeeds is extended by one more step. */
  lemma StepsNext<S, E>(step: (S, E) -> Result<S>, init: S, xs: seq<E>, k: nat, s: S)
    requires k < |xs| && Steps(step, init, xs, k) == Ok(s)
    ensures Steps(step, init, xs, k + 1) == step(s, xs[k])
  {
  }

  /** A failing prefix fails with the error of its first failing step. */
  lemma {:induction false} StepsFirstError<S, E>(step: (S, E) -> Result<S>, init: S, xs: seq<E>, k: nat)
    requires k <= |xs|
    requires Steps(step, init, xs, k).Err?
    ensures exists i, s :: 0 <= i < k && Steps(step, init, xs, i) == Ok(s) && step(s, xs[i]).Err?
              && Steps(step, init, xs, k).error == step(s, xs[i]).error
  {
    var prev := Steps(step, init, xs, k - 1);
    if prev.Err? {
      StepsFirstError(step, init, xs, k - 1);
      var i, s :| 0 <= i < k - 1 && Steps(step, init, xs, i) == Ok(s) && step(s, xs[i]).Err?
              && prev.error == step(s, xs[i]).error;
    } else {
      assert step(prev.value, xs[k - 1]).Err?;
    }
  }

  /** The first `k` properties of the schema applied to a line. */
  function RowPrefix(types: seq<FullType>, line: seq<string>, schema: Schema, k: nat): Result<RowState>
    requires k <= |schema|
  {
    Steps(FieldOf(types, line), RowState(map[], 0), schema, k)
  }

  /** The record a line becomes. */
  function ConvertRow(types: seq<FullType>, line: seq<string>, schema: Schema): Result<Record> {
    RowWith(FieldOf(types, line), schema)
  }

  /** The body of the `try` in the callback `materialize` runs for one schema property.
      `TryField`, `PlaceValue`, `ConvertField` and `Advance` are the executable
      counterparts of `Field`, `Place` and `FieldStep`: they reach the `ConvertItem`
      loop, which a function cannot call, and each is proved equal to its function so
      that `BuildItem`'s loop is proved against the `Steps` fold. */
  method TryField(types: seq<FullType>, line: seq<string>, st: RowState, key: string, entry: SchemaEntry)
    returns (r: Result<RowState>)
    ensures r == Field(types, line, st, key, entry)
  {
    var full :- GetFullTypeInstance(types, entry);
    var t :- ResolveAutoColumn(full, st.index);
    r := PlaceValue(t, line, st, key);
  }

  /** Converting the cells and writing the value, as `Place` states. */
  method PlaceValue(t: FullType, line: seq<string>, st: RowState, key: string) returns (r: Result<RowState>)
    requires t.column.Index?
    ensures r == Place(t, line, st, key)
  {
    var value :- ConvertItem(t, line);
    var item :- WriteTo(st.item, key, value);
    r := Ok(RowState(item, st.index + t.range));
  }

  /** The callback `materialize` runs for one schema property, `try` and `catch` included. */
  method ConvertField(types: seq<FullType>, line: seq<string>, st: RowState, key: string, entry: SchemaEntry)
    returns (r: Result<RowState>)
    ensures r == FieldStep(types, line, st, key, entry)
  {
    r := TryField(types, line, st, key, entry);
    if r.Err? {
      r := Err(Decorate(r.error, key));
    }
  }

  /** `step` is the callback of `materialize` for `line`: it does what `FieldStep` does. */
  ghost predicate Agrees(types: seq<FullType>, line: seq<string>,
                         step: (RowState, (string, SchemaEntry)) -> Result<RowState>)
  {
    forall st, e {:trigger FieldStep(types, line, st, e.0, e.1)} :: step(st, e) == FieldStep(types, line, st, e.0, e.1)
  }

  /** `FieldOf` is such a callback. */
  lemma FieldOfAgrees(types: seq<FullType>, line: seq<string>)
    ensures Agrees(types, line, FieldOf(types, line))
  {
  }

  /** The callback for one property, seen through a `step` that agrees with it. */
  method Advance(types: seq<FullType>, line: seq<string>, st: RowState, key: string, entry: SchemaEntry,
                 ghost step: (RowState, (string, SchemaEntry)) -> Result<RowState>)
    returns (r: Result<RowState>)
    requires Agrees(types, line, step)
    ensures r == step(st, (key, entry))
  {
    r := ConvertField(types, line, st, key, entry);
  }

  /** The record that the properties of `schema`, each applied by `step`, build. */
  function RowWith(step: (RowState, (string, SchemaEntry)) -> Result<RowState>, schema: Schema): Result<Record> {
    var st :- Steps(step, RowState(map[], 0), schema, |schema|);
    Ok(st.item)
  }

  /** The inner loop of `materialize` over the schema's properties. The ghost `step` is
      the callback as a function value; it agrees with `FieldStep` everywhere. */
  method BuildItem(types: seq<FullType>, line: seq<string>, schema: Schema,
                   ghost step: (RowState, (string, SchemaEntry)) -> Result<RowState>)
    returns (r: Result<Record>)
    requires Agrees(types, line, step)
    ensures r == RowWith(step, schema)
  {
    var st := RowState(map[], 0);
    var k := 0;
    while k < |schema|
      invariant 0 <= k <= |schema|
      invariant Steps(step, RowState(map[], 0), schema, k) == Ok(st)
    {
      var next := Advance(types, line, st, schema[k].0, schema[k].1, step);
      StepsNext(step, RowState(map[], 0), schema, k, st);
      if next.Err? {
        StepsErrorPersists(step, RowState(map[], 0), schema, k + 1, |schema|);
        return Err(next.error);
      }
      st := next.value;
      k := k + 1;
    }
    r := Ok(st.item);
  }

  /** The running column index: after `k` properties it is the sum of their types' ranges,
      so an automatic column starts right after the cells the earlier properties took. */
  function RangeBefore(types: seq<FullType>, schema: Schema, k: nat): int
    requires k <= |schema|
  {
    if k == 0 then 0
    else
      RangeBefore(types, schema, k - 1) +
      (match GetFullTypeInstance(types, schema[k - 1].1) case Ok(t) => t.range case Err(_) => 0)
  }

  /** A property that converts moves the index on by its type's range. */
  lemma FieldAdvances(types: seq<FullType>, line: seq<string>, st: RowState, key: string, entry: SchemaEntry)
    requires FieldStep(types, line, st, key, entry).Ok?
    ensures GetFullTypeInstance(types, entry).Ok?
    ensures FieldStep(types, line, st, key, entry).value.index == st.index + GetFullTypeInstance(types, entry).value.range
  {
  }

  /** The index after `k` properties applied by any `step` that agrees with `FieldStep`. */
  lemma {:induction false} IndexAfter(types: seq<FullType>, line: seq<string>, schema: Schema, k: nat,
                                      step: (RowState, (string, SchemaEntry)) -> Result<RowState>)
    requires k <= |schema|
    requires Agrees(types, line, step)
    requires Steps(step, RowState(map[], 0), schema, k).Ok?
    ensures Steps(step, RowState(map[], 0), schema, k).value.index == RangeBefore(types, schema, k)
  {
    if k > 0 {
      var prev := Steps(step, RowState(map[], 0), schema, k - 1);
      assert prev.Ok?;
      IndexAfter(types, line, schema, k - 1, step);
      StepsNext(step, RowState(map[], 0), schema, k - 1, prev.value);
      FieldAdvances(types, line, prev.value, schema[k - 1].0, schema[k - 1].1);
    }
  }

  /** The running index after `k` properties is the sum of their types' ranges. */
  lemma IndexIsRangeSum(types: seq<FullType>, line: seq<string>, schema: Schema, k: nat)
    requires k <= |schema|
    requires RowPrefix(types, line, schema, k).Ok?
    ensures RowPrefix(types, line, schema, k).value.index == RangeBefore(types, schema, k)
  {
    FieldOfAgrees(types, line);
    IndexAfter(types, line, schema, k, FieldOf(types, line));
  }

  /** When a line fails, the error is the first failing property's, and a thrown
      message names that property. */
  lemma RowErrorNamesProperty(types: seq<FullType>, line: seq<string>, schema: Schema)
    requires ConvertRow(types, line, schema).Err?
    ensures exists i, st :: 0 <= i < |schema| && RowPrefix(types, line, schema, i) == Ok(st)
              && Field(types, line, st, schema[i].0, schema[i].1).Err?
              && ConvertRow(types, line, schema).error
                 == Decorate(Field(types, line, st, schema[i].0, schema[i].1).error, schema[i].0)
  {
    var step := FieldOf(types, line);
    StepsFirstError(step, RowState(map[], 0), schema, |schema|);
    var i, st :| 0 <= i < |schema| && Steps(step, RowState(map[], 0), schema, i) == Ok(st) && step(st, schema[i]).Err?
              && Steps(step, RowState(map[], 0), schema, |schema|).error == step(st, schema[i]).error;
    assert step(st, schema[i]) == FieldStep(types, line, st, schema[i].0, schema[i].1);
  }

  // ----- All lines -----

  /** What `materialize` carries from line to line: the lines still to skip and the records so far. */
  datatype Progress = Progress(skip: int, items: seq<Record>)

  /** One iteration of the outer loop of `materialize`, given how a line becomes a record. */
  function LineStep(convert: seq<string> -> Result<Record>, ignore: OptionFn<seq<string>>, done: Progress,
                    line: seq<string>): Result<Progress>
  {
    if done.skip > 0 then Ok(Progress(done.skip - 1, done.items))
    else
      var ignored :- Ignore(line, ignore);
      if ignored then Ok(done)
      else
        var item :- convert(line);
        Ok(Progress(done.skip, done.items + [item]))
  }

  /** The first `j` lines handled as the outer loop of `materialize` does. */
  function RowsPrefix(convert: seq<string> -> Result<Record>, lines: seq<seq<string>>, options: Options, j: nat)
    : Result<Progress>
    requires j <= |lines|
  {
    if j == 0 then Ok(Progress(SkipOf(options), []))
    else
      var done :- RowsPrefix(convert, lines, options, j - 1);
      LineStep(convert, options.ignore, done, lines[j - 1])
  }

  /** The outer loop and the final `excludeItems`, for any conversion of lines. */
  function Materialized(convert: seq<string> -> Result<Record>, lines: seq<seq<string>>, options: Options)
    : Result<seq<Record>>
  {
    var done :- RowsPrefix(convert, lines, options, |lines|);
    ExcludeItems(done.items, options.exclude)
  }

  /** How `materialize` converts a line: by the schema, against the registered types. */
  function RowConverter(types: seq<FullType>, schema: Schema): seq<string> -> Result<Record> {
    (line: seq<string>) => ConvertRow(types, line, schema)
  }

  /** `materialize` as a function of the registered types, the lines, the schema and the options. */
  function MaterializeSpec(types: seq<FullType>, lines: seq<seq<string>>, schema: Schema, options: Options)
    : Result<seq<Record>>
  {
    Materialized(RowConverter(types, schema), lines, options)
  }

  lemma {:induction false} RowsErrorPersists(convert: seq<string> -> Result<Record>, lines: seq<seq<string>>,
                                             options: Options, m: nat, n: nat)
    requires m <= n <= |lines|
    requires RowsPrefix(convert, lines, options, m).Err?
    ensures RowsPrefix(convert, lines, options, n) == RowsPrefix(convert, lines, options, m)
    decreases n
  {
    if n > m {
      RowsErrorPersists(convert, lines, options, m, n - 1);
    }
  }

  /** `materialize`: skip the first lines, drop the ignored ones, build a record per
      remaining line and finally drop the excluded records. */
  method Materialize(registry: Registry, lines: seq<seq<string>>, schema: Schema, options: Options)
    returns (r: Result<seq<Record>>)
    ensures r == MaterializeSpec(registry.types, lines, schema, options)
  {
    var types := registry.types;
    ghost var convert := RowConverter(types, schema);
    var items: seq<Record> := [];
    var skipCount := SkipOf(options);
    var j := 0;
    while j < |lines|
      invariant 0 <= j <= |lines|
      invariant RowsPrefix(convert, lines, options, j) == Ok(Progress(skipCount, items))
    {
      var line := lines[j];
      j := j + 1;
      if skipCount > 0 {
        skipCount := skipCount - 1;
        continue;
      }
      var ignored := Ignore(line, options.ignore);
      if ignored.Err? {
        RowsErrorPersists(convert, lines, options, j, |lines|);
        return Err(ignored.error);
      }
      if ignored.value {
        continue;
      }
      FieldOfAgrees(types, line);
      var item := BuildItem(types, line, schema, FieldOf(types, line));
      assert convert(line) == item;
      if item.Err? {
        RowsErrorPersists(convert, lines, options, j, |lines|);
        return Err(item.error);
      }
      items := items + [item.value];
    }
    r := ExcludeItems(items, options.exclude);
  }

  /** `parse` without its callback: empty content is refused, the tokenizer (the CSV
      library, a parameter here) either fails, and its error is passed on, or gives
      the lines that `materialize` turns into records. */
  method Parse(registry: Registry, content: string, tokenize: string -> Result<seq<seq<string>>>,
               schema: Schema, options: Options)
    returns (r: Result<seq<Record>>)
    ensures content == "" ==> r == Err(Thrown("No content found"))
    ensures content != "" && tokenize(content).Err? ==> r == Err(tokenize(content).error)
    ensures content != "" && tokenize(content).Ok? ==>
              r == MaterializeSpec(registry.types, tokenize(content).value, schema, options)
  {
    if content == "" {
      return Err(Thrown("No content found"));
    }
    var lines := tokenize(content);
    if lines.Err? {
      return Err(lines.error);
    }
    r := Materialize(registry, lines.value, schema, options);
  }

  // ----- A reference definition of materialize -----

  /** The lines left once the first `skip` are dropped. */
  function Unskipped(lines: seq<seq<string>>, skip: int): (r: seq<seq<string>>)
    ensures 0 <= skip <= |lines| ==> r == lines[skip..]
    ensures skip <= 0 ==> r == lines
    ensures skip >= |lines| ==> r == []
  {
    if skip <= 0 then lines else if skip >= |lines| then [] else lines[skip..]
  }

  /** The lines the `ignore` option keeps; a non-function throws once any line is looked at. */
  function KeepRows(rows: seq<seq<string>>, ignore: OptionFn<seq<string>>): Result<seq<seq<string>>> {
    match ignore
    case Unset => Ok(rows)
    case NotFunction =>
      if rows == [] then Ok([]) else Err(Thrown("Invalid option: ignore is not a function"))
    case Given(p) => Ok(Without(rows, p))
  }

  /** Every line converted, in order; the first failure is the result. */
  function ConvertAll(convert: seq<string> -> Result<Record>, rows: seq<seq<string>>): Result<seq<Record>> {
    if rows == [] then Ok([])
    else
      var items :- ConvertAll(convert, rows[..|rows| - 1]);
      var item :- convert(rows[|rows| - 1]);
      Ok(items + [item])
  }

  /** The lines after skipping and ignoring, converted. */
  function ReferenceRows(convert: seq<string> -> Result<Record>, lines: seq<seq<string>>, options: Options)
    : Result<seq<Record>>
  {
    var kept :- KeepRows(Unskipped(lines, SkipOf(options)), options.ignore);
    ConvertAll(convert, kept)
  }

  /** The whole pipeline stage by stage: skip, ignore, convert, exclude. */
  function Reference(convert: seq<string> -> Result<Record>, lines: seq<seq<string>>, options: Options)
    : Result<seq<Record>>
  {
    var items :- ReferenceRows(convert, lines, options);
    ExcludeItems(items, options.exclude)
  }

  /** How many lines are still to skip after `j` lines. */
  function SkipLeft(skip: int, j: nat): int {
    if skip <= 0 then skip else if j <= skip then skip - j else 0
  }

  /** The prefix of the outer loop, stated through the reference on the lines seen so far. */
  function Expected(convert: seq<string> -> Result<Record>, lines: seq<seq<string>>, options: Options, j: nat)
    : Result<Progress>
    requires j <= |lines|
  {
    var items :- ReferenceRows(convert, lines[..j], options);
    Ok(Progress(SkipLeft(SkipOf(options), j), items))
  }

  lemma UnskippedSnoc(rows: seq<seq<string>>, x: seq<string>, skip: int)
    ensures Unskipped(rows + [x], skip) == if skip > |rows| then [] else Unskipped(rows, skip) + [x]
  {
    if 0 < skip <= |rows| {
      assert (rows + [x])[skip..] == rows[skip..] + [x];
    }
  }

  lemma ConvertAllSnoc(convert: seq<string> -> Result<Record>, rows: seq<seq<string>>, x: seq<string>)
    ensures ConvertAll(convert, rows + [x]) ==
      (var items :- ConvertAll(convert, rows);
       var item :- convert(x);
       Ok(items + [item]))
  {
    assert (rows + [x])[..|rows|] == rows;
  }

  lemma WithoutSnoc<T>(s: seq<T>, x: T, p: T -> bool)
    ensures Without(s + [x], p) == Without(s, p) + (if p(x) then [] else [x])
  {
    assert (s + [x])[..|s|] == s;
  }

  /** A line that is not skipped: the loop step agrees with the reference on one more line. */
  lemma StepKept(convert: seq<string> -> Result<Record>, lines: seq<seq<string>>, options: Options, j: nat)
    requires j < |lines| && SkipOf(options) <= j
    requires RowsPrefix(convert, lines, options, j) == Expected(convert, lines, options, j)
    ensures RowsPrefix(convert, lines, options, j + 1) == Expected(convert, lines, options, j + 1)
  {
    var s := SkipOf(options);
    var rows, x := lines[..j], lines[j];
    assert lines[..j + 1] == rows + [x];
    UnskippedSnoc(rows, x, s);
    var u := Unskipped(rows, s);
    assert Unskipped(lines[..j + 1], s) == u + [x];
    assert SkipLeft(s, j + 1) == SkipLeft(s, j) <= 0;
    match options.ignore
    case Unset =>
      ConvertAllSnoc(convert, u, x);
    case NotFunction =>
    case Given(p) =>
      WithoutSnoc(u, x, p);
      var w := Without(u, p);
      assert KeepRows(u + [x], options.ignore) == Ok(w + (if p(x) then [] else [x]));
      if !p(x) {
        ConvertAllSnoc(convert, w, x);
      } else {
        assert w + [] == w;
      }
  }

  /** A line that is skipped: nothing has been kept so far and nothing is kept now. */
  lemma StepSkipped(convert: seq<string> -> Result<Record>, lines: seq<seq<string>>, options: Options, j: nat)
    requires j < |lines| && SkipOf(options) > j
    requires RowsPrefix(convert, lines, options, j) == Expected(convert, lines, options, j)
    ensures RowsPrefix(convert, lines, options, j + 1) == Expected(convert, lines, options, j + 1)
  {
    var s := SkipOf(options);
    assert Unskipped(lines[..j], s) == [];
    assert Unskipped(lines[..j + 1], s) == [];
    assert KeepRows([], options.ignore) == Ok([]);
  }

  /** Every prefix of the outer loop is what the reference computes on the lines seen so far. */
  lemma {:induction false} RowsPrefixIsReference(convert: seq<string> -> Result<Record>, lines: seq<seq<string>>,
                                                 options: Options, j: nat)
    requires j <= |lines|
    ensures RowsPrefix(convert, lines, options, j) == Expected(convert, lines, options, j)
  {
    if j == 0 {
      assert lines[..0] == [];
      assert Unskipped([], SkipOf(options)) == [];
      assert KeepRows([], options.ignore) == Ok([]);
    } else {
      RowsPrefixIsReference(convert, lines, options, j - 1);
      if SkipOf(options) <= j - 1 {
        StepKept(convert, lines, options, j - 1);
      } else {
        StepSkipped(convert, lines, options, j - 1);
      }
    }
  }

  /** `materialize` is the stage-by-stage pipeline: skip, ignore, convert, exclude. */
  lemma MaterializeIsReference(convert: seq<string> -> Result<Record>, lines: seq<seq<string>>, options: Options)
    ensures Materialized(convert, lines, options) == Reference(convert, lines, options)
  {
    RowsPrefixIsReference(convert, lines, options, |lines|);
    assert lines[..|lines|] == lines;
  }

  // ----- Consequences -----

  /** Converting lines one by one: it succeeds exactly when every line converts, and
      yields one record per line, in order. */
  lemma {:induction false} ConvertAllRecords(convert: seq<string> -> Result<Record>, rows: seq<seq<string>>)
    ensures ConvertAll(convert, rows).Ok? <==> forall i :: 0 <= i < |rows| ==> convert(rows[i]).Ok?
    ensures ConvertAll(convert, rows).Ok? ==>
              |ConvertAll(convert, rows).value| == |rows| &&
              forall i :: 0 <= i < |rows| ==> ConvertAll(convert, rows).value[i] == convert(rows[i]).value
  {
    if rows != [] {
      var init := rows[..|rows| - 1];
      ConvertAllRecords(convert, init);
      assert forall i :: 0 <= i < |init| ==> rows[i] == init[i];
    }
  }

  /** Skipping `s` lines is converting the lines after them with nothing skipped. */
  lemma SkipDropsLeadingLines(convert: seq<string> -> Result<Record>, lines: seq<seq<string>>, options: Options)
    requires 0 <= SkipOf(options) <= |lines|
    ensures Materialized(convert, lines, options)
            == Materialized(convert, lines[SkipOf(options)..], options.(skip := None))
  {
    MaterializeIsReference(convert, lines, options);
    MaterializeIsReference(convert, lines[SkipOf(options)..], options.(skip := None));
  }

  /** Skipping at least as many lines as there are yields no records at all: not even
      an invalid `ignore` is looked at, only the `exclude` option. */
  lemma SkipPastEnd(convert: seq<string> -> Result<Record>, lines: seq<seq<string>>, options: Options)
    requires SkipOf(options) >= |lines|
    ensures Materialized(convert, lines, options) == ExcludeItems([], options.exclude)
  {
    MaterializeIsReference(convert, lines, options);
    assert KeepRows([], options.ignore) == Ok([]);
  }

  /** An `ignore` that is not a function throws as soon as a line is not skipped. */
  lemma InvalidIgnoreThrows(convert: seq<string> -> Result<Record>, lines: seq<seq<string>>, options: Options)
    requires options.ignore.NotFunction? && lines != [] && SkipOf(options) < |lines|
    ensures Materialized(convert, lines, options) == Err(Thrown("Invalid option: ignore is not a function"))
  {
    MaterializeIsReference(convert, lines, options);
    assert Unskipped(lines, SkipOf(options)) != [] by {
      if SkipOf(options) > 0 {
        assert lines[SkipOf(options)] in lines[SkipOf(options)..];
      }
    }
  }

  /** With no options, every line becomes a record: one record per line, in order,
      or the first line's failure. */
  lemma OneRecordPerLine(types: seq<FullType>, lines: seq<seq<string>>, schema: Schema)
    ensures var r := MaterializeSpec(types, lines, schema, Options(None, Unset, Unset));
            (r.Ok? <==> forall i :: 0 <= i < |lines| ==> ConvertRow(types, lines[i], schema).Ok?) &&
            (r.Ok? ==> |r.value| == |lines| &&
                       forall i :: 0 <= i < |lines| ==> r.value[i] == ConvertRow(types, lines[i], schema).value)
  {
    var convert := RowConverter(types, schema);
    MaterializeIsReference(convert, lines, Options(None, Unset, Unset));
    ConvertAllRecords(convert, lines);
    assert forall i :: 0 <= i < |lines| ==> convert(lines[i]) == ConvertRow(types, lines[i], schema);
  }

  /** With an `ignore` predicate, the records are those of the lines it rejects. */
  lemma IgnoredLinesDropped(convert: seq<string> -> Result<Record>, lines: seq<seq<string>>,
                            p: seq<string> -> bool)
    ensures Materialized(convert, lines, Options(None, Given(p), Unset)) == ConvertAll(convert, Without(lines, p))
  {
    MaterializeIsReference(convert, lines, Options(None, Given(p), Unset));
  }

  /** A record is in the result exactly when it was built from a line and is not excluded. */
  lemma ExcludedRecordsAreDropped(convert: seq<string> -> Result<Record>, lines: seq<seq<string>>,
                                  p: Record -> bool)
    requires forall i :: 0 <= i < |lines| ==> convert(lines[i]).Ok?
    ensures var r := Materialized(convert, lines, Options(None, Unset, Given(p)));
            r.Ok? && forall x :: x in r.value <==>
              (exists i :: 0 <= i < |lines| && x == convert(lines[i]).value) && !p(x)
  {
    var options := Options(None, Unset, Given(p));
    MaterializeIsReference(convert, lines, options);
    ConvertAllRecords(convert, lines);
    var items := ConvertAll(convert, lines).value;
    assert forall x :: x in items <==> exists i :: 0 <= i < |lines| && x == convert(lines[i]).value by {
      forall x | x in items
        ensures exists i :: 0 <= i < |lines| && x == convert(lines[i]).value
      {
        var i :| 0 <= i < |items| && items[i] == x;
        assert x == convert(lines[i]).value;
      }
      forall i | 0 <= i < |lines|
        ensures convert(lines[i]).value in items
      {
        assert items[i] == convert(lines[i]).value;
      }
    }
  }
}
