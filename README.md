# csv2go transformation engine in Dafny

This project models the transformation engine of `csv2go.js`. The engine turns
rows that are already tokenized (sequences of string cells) into records, driven
by an ordered schema. Each schema property names a *type*, which owns a column
window and a four-stage pipeline: prepare, parse, apply and aggregate. The model
covers:

- **The type registry** (`registry.dfy`, module `TypeRegistry`). This is the
  module-level list `registeredTypes`, a `class Registry` whose `types` field
  `Register` appends to and `Unregister` splices. It is seeded with Integer, Float,
  String and Date. The module also holds the lookups `createTypeInstance`,
  `enrichTypeInstance` and `getFullTypeInstance`, and the completion of a partial
  descriptor (`_.defaults`).
- **The stage functions** (`functions.dfy`, module `Functions`). This is the
  `predefinedFunction` table (`none`, `trim`, `concat`, `sum`, `max`, `min`, `avg`)
  and `resolveFunction`.
- **The field pipeline** (`pipeline.dfy`, module `Pipeline`). It covers
  `resolveAutoColumn`, `extractItems` (with lodash's `_.slice` bounds),
  `prepareItem`, `parseItem`, `applyItem`, `aggregate` and `convertItem`.
  `convertItem` is a method with a loop, proved against the function `Convert`.
- **The path writer** (`paths.dfy`, module `Paths`). This is `writeTo` on
  dot-separated property paths, together with a reader `ReadPath` used to state
  what a write leaves behind.
- **The materializer and the row filter** (`engine.dfy`, module `Engine`). It
  covers `ignore`, `excludeItems`, and `materialize` with its two nested loops.
  `materialize` is a method proved against `MaterializeSpec`. That function is
  proved equal to an independent stage-by-stage reference: skip, then ignore, then
  convert, then exclude. `parse` is modelled without its callback.
- **The JavaScript string operations** the engine relies on (`jsstrings.dfy`):
  `trim`, `indexOf`, `split` and `parseInt` without a radix.

Errors are values. `Thrown(message)` is a string the source throws, with the
source's exact text. `Unmodelled(what)` marks a JavaScript outcome the model does
not describe, such as a `TypeError` or floating-point arithmetic. Caller-supplied
stage functions are function values that receive the JavaScript argument list
(`[item, index]` for prepare, parse and apply, `[values]` for aggregate) and may
fail. The CSV tokenizer is a parameter of `Engine.Parse`.

On these points the code's behaviour is easy to misread; the model follows the code:

- `concat` of an empty list yields `undefined` (`_.reduce` of `[]`) rather than failing.
- A lookup by name returns the *first* registered type with that name (`_.find`).
- `parseItem` accepts only a function as `parse`. A type registered without a
  `parse` and without a base keeps the default `"auto"` and is refused with
  "Invalid value for parse". One registered on a base takes the base's `parse`.
- `writeTo` replaces a *falsy* value on the path with a new object. A truthy
  primitive is kept: outside strict mode the assignment to its property is
  silently dropped. A parsed float, an array or a `Date` on the path is not
  described, because whether a float is falsy (0 and NaN are) is not decided by
  the text the model keeps.
- The error for an unknown type in a partial descriptor is the literal
  "Unknown type [object Object]": JavaScript renders the descriptor object that way.

## Model

| member | source | states |
|---|---|---|
| Functions.Named | csv2go.js:43-66 | the predefined-function table has an entry exactly for the names none, trim, concat, sum, max, min and avg |
| Functions.ApplyPredefined | csv2go.js:43-66 | none of the predefined functions throws a message of its own; `none` returns its argument; `trim` applies to a string; `sum` applies to a list of integers, and `max` and `min` to a non-empty one; an `avg` it describes times the list's length is the list's sum |
| Functions.ResolveFunction | csv2go.js:407-417 | a name fails with `Unknown function "<name>"` exactly when it is not predefined; a predefined name resolves to its table entry; a function is returned unchanged |
| Functions.Max | csv2go.js:58-60 | `_.max` of a non-empty integer list is an element of the list and bounds every element from above |
| Functions.Min | csv2go.js:61-63 | `_.min` of a non-empty integer list is an element of the list and bounds every element from below |
| Functions.FoldPlusStrings | csv2go.js:50-54 | the left fold of `+` over strings appends them in order to the start value |
| Functions.FoldPlusInts | csv2go.js:50-54 | the left fold of `+` over integers adds their arithmetic sum to the start value |
| Functions.ConcatOfStrings | csv2go.js:50-54 | `concat` of a non-empty list of strings is their left-to-right concatenation |
| Functions.ConcatOfIntsIsSum | csv2go.js:50-57 | `concat` of a non-empty list of integers agrees with `sum` |
| Functions.ConcatOfOne | csv2go.js:50-54 | `concat` of a one-element list is that element, whatever it is |
| Functions.SumOfInts | csv2go.js:55-57 | `sum` of a list of integers is their arithmetic sum |
| Functions.ExtremesOfInts | csv2go.js:58-63 | `max` and `min` of a non-empty list of integers succeed, return members of the list, and bound every element |
| JsStrings.Trim | csv2go.js:47-49 | `trim` returns the infix left after removing the white space at both ends; the removed parts are all white space and the result starts and ends with a non-space |
| JsStrings.IndexOf | csv2go.js:211-212 | `indexOf` of a character that occurs is its first position |
| JsStrings.Split | csv2go.js:446 | `split` on one character gives one part more than there are separators; no part holds the separator; joining the parts with it gives the input back |
| JsStrings.ParseIntOfDecimal | csv2go.js:77-79 | `parseInt` reads back the decimal rendering of every integer, negative ones included, and stops at the first character that is not a digit (so "2.2" reads as 2) |
| JsStrings.ParseIntSkipsSpace | csv2go.js:77-79 | `parseInt` skips leading white space (`' 42'` reads as 42) |
| TypeRegistry.DefaultsOfBlank | csv2go.js:379-380 | completing a descriptor that leaves out every field gives back the type it is completed from |
| TypeRegistry.DefaultsOfComplete | csv2go.js:379-380 | completing a descriptor that spells out every field ignores the type it is completed from |
| TypeRegistry.DefaultsCompose | csv2go.js:379-380 | completing in two steps is completing once from the merged descriptor, so a chain of bases acts as one descriptor |
| TypeRegistry.ParseDate | csv2go.js:445-451 | fails with "Invalid date format. Expected: yyyy-mm-dd" exactly when the cell holds no `-`; otherwise the Date gets at least two parts, which join back to the cell |
| TypeRegistry.FirstIndex | csv2go.js:517-519 | the position of the first type with that name, or -1 exactly when no type has it |
| TypeRegistry.CreateTypeInstance | csv2go.js:360-366 | fails with "Unknown type <name>" exactly when no type has the name; otherwise returns the first registered type with that name |
| TypeRegistry.EnrichTypeInstance | csv2go.js:374-381 | fails exactly when no type has the descriptor's name; otherwise returns the descriptor completed from the first registered type with that name |
| TypeRegistry.GetFullTypeInstance | csv2go.js:346-352 | fails with "Unknown type …" exactly when no registered type has the name the entry asks for; otherwise takes the first such type, as it is for a bare name and completing the descriptor for a partial type |
| TypeRegistry.NameIsBlankDescriptor | csv2go.js:346-352 | a bare type name and the descriptor that gives only that name find the same full type, and fail together |
| TypeRegistry.Registered | csv2go.js:106-117 | the full type `register` builds fails exactly when a base is given and no registered type has its name |
| TypeRegistry.RegisteredOnBase | csv2go.js:108-112 | with a base, the new type takes every field it leaves out from the first type named like the base, but keeps its own name |
| TypeRegistry.RegisteredWithoutBase | csv2go.js:113-115 | without a base, missing fields come from `defaultType`: the name becomes "", the range 1 and the column "auto" |
| TypeRegistry.SeedNames | csv2go.js:72-98 | the load-time registry holds exactly the four built-in types, in the order Integer, Float, String, Date |
| TypeRegistry.BuiltinsFound | csv2go.js:72-98 | while the seeded types lead the list, each built-in name finds its seeded type, whatever was registered later under that name |
| TypeRegistry.LookupAfterAppend | csv2go.js:116 | appending a type leaves every lookup that succeeded unchanged (the first registration wins) and otherwise makes the new type findable by its name |
| TypeRegistry.FirstIndexAfterRemoval | csv2go.js:517-521 | removing a type of another name from position k leaves a first match before k where it is and moves one after k back by one |
| TypeRegistry.LookupAfterRemoval | csv2go.js:512-523 | removing the first type named `gone` leaves the lookup of every other name unchanged |
| TypeRegistry.Registry.constructor | csv2go.js:72-98 | the registry starts as the four seeded built-in types |
| TypeRegistry.Registry.Register | csv2go.js:106-117 | appends the full type `Registered` computes, or leaves the list unchanged and reports its error; the built-in types stay at the head |
| TypeRegistry.Registry.Unregister | csv2go.js:512-523 | refuses the four built-in names with "Cannot remove built-in type <name>"; otherwise splices out the first type with the name, and changes nothing when there is none |
| Pipeline.ResolveAutoColumn | csv2go.js:233-242 | "auto" becomes the running index; any other string fails with "Invalid value for column"; a numeric column is kept; no other field changes |
| Pipeline.Bound | csv2go.js:397 | a slice bound lies in `[0, len]` and is kept as it is when already in range |
| Pipeline.Slice | csv2go.js:397 | `_.slice` returns a contiguous part of the list, namely `s[start..end]` when the bounds are in range and the tail from `start` when `end` is past the end |
| Pipeline.ExtractItems | csv2go.js:390-398 | fails with "Input out of range" exactly when the column is at or past the end of the line; otherwise returns the cells from the column up to `min(column + range, length)`, in order |
| Pipeline.Transform | csv2go.js:294-318 | an engaged prepare or apply stage fails for an unknown name, applies a predefined function, or calls a custom one as `f(item, index)`; a stage that is not engaged passes the item through |
| Pipeline.ParseItem | csv2go.js:427-437 | anything but a function as `parse` fails with "Invalid value for parse"; a function is called as `parse(value, index)` |
| Pipeline.Aggregate | csv2go.js:327-338 | an engaged aggregate is called once with the whole list (unknown names fail); without one, range 1 yields the first value and any other range yields the list |
| Pipeline.ConvertItem | csv2go.js:270-284 | the loop over the cells computes `Convert`: extract the cells, run each through prepare, parse and apply with its index, and aggregate; it stops at the first cell that throws |
| Pipeline.ProcessPrefixValues | csv2go.js:274-281 | the cells are processed independently: all of them succeed exactly when each does, and then the values have the cells' count and order, value i coming from cell i at index i |
| Pipeline.ErrorPersists | csv2go.js:275-281 | once a cell throws, the error is the result and later cells are never looked at |
| Pipeline.ProcessPrefixError | csv2go.js:275-281 | when the cells fail, some cell fails |
| Pipeline.ConvertSingleCell | csv2go.js:332-333 | a range-1 type without an aggregate yields the value of its one cell |
| Pipeline.ConvertCells | csv2go.js:334-335 | a type of any other range without an aggregate yields the list of its cells' values, one per extracted cell, in order |
| Pipeline.IntegerCell | csv2go.js:75-80 | the Integer type's pipeline reads the decimal rendering of an integer back as that integer |
| Pipeline.IntegerCells | csv2go.js:275-281 | such a type converts cells holding decimal renderings into exactly those integers, in order |
| Pipeline.Width | csv2go.js:390-398 | the number of cells a range takes from a column: the full range, or what is left of the line when the line is shorter |
| Pipeline.Window | csv2go.js:390-398 | `extractItems` at a column inside the line returns the cells from the column up to the range or up to the end of the line, whichever comes first |
| Pipeline.SumOfCells | csv2go.js:327-330 | a type with the `sum` aggregate whose window of cells, as `extractItems` returns it, all convert to integers yields their arithmetic sum |
| Pipeline.IntegerWindow | csv2go.js:270-284 | the cells of an Integer type's window that hold decimal renderings of integers process to exactly those integers |
| Pipeline.SumOfColumns | csv2go.js:270-284 | an Integer type over several columns with the `sum` aggregate yields the sum of the numbers written in the columns it covers, a line shorter than the range contributing only the cells it has |
| Pipeline.SumOfShortLine | csv2go.js:270-284 | an Integer type at column 0 with range 4 and the `sum` aggregate reads the line `2,4` as 6 |
| Paths.Tail | csv2go.js:214 | the remainder after the first dot is shorter than the path, so the recursion of `writeTo` ends |
| Paths.WriteIntoUndefined | csv2go.js:211-222 | writing into `undefined` always fails; it throws "Illegal property name" only for a path that starts with a dot |
| Paths.WriteIntoPrimitive | csv2go.js:210-225 | writing a plain property of a primitive is silently dropped; anything it throws is "Illegal property name" on an illegal path |
| Paths.WriteTo | csv2go.js:210-225 | a successful write adds exactly the path's first segment to the record's keys and keeps every other property; what it throws is "Illegal property name"; below a parsed float, an array or a `Date` it only refuses a rest that starts with a dot |
| Paths.IllegalSplit | csv2go.js:211-222 | a path is illegal exactly when its first segment is empty or the rest after the first dot is illegal |
| Paths.IllegalRefused | csv2go.js:216-218 | a path with an empty segment before a dot is refused whatever the record holds |
| Paths.IllegalThroughPrimitive | csv2go.js:216-222 | an illegal path is refused through a primitive as well |
| Paths.WriteFailsIffIllegal | csv2go.js:210-225 | on a path that nothing blocks, the write fails exactly when the path is illegal, and then with "Illegal property name" |
| Paths.EmptyWritable | csv2go.js:219-221 | a freshly created object blocks no path |
| Paths.ReadAfterWrite | csv2go.js:210-225 | after a write on a legal, unblocked path, reading the path gives back the value written |
| Paths.ReadOtherPath | csv2go.js:219-224 | a write keeps what every disjoint path reads |
| Paths.SplitAtFirstDot | csv2go.js:211-214 | for a head without dots, `h.a` splits into `h` and `a` |
| Paths.TwoSegmentsLegal | csv2go.js:211-218 | `h.a` with non-empty segments without dots is legal |
| Paths.SecondNestedWrite | csv2go.js:219-222 | writing `h.b` into a record whose object at `h` holds `a` reuses that object: both properties read back and `h` is the only key |
| Paths.NestedFields | csv2go.js:219-222 | writing `customer.firstname` and then `customer.lastname` into an empty record keeps both in one shared object |
| Engine.WithoutMembers | csv2go.js:258-260 | the filtered list holds exactly the elements the predicate rejects |
| Engine.Ignore | csv2go.js:194-202 | a missing option ignores nothing; a predicate decides; anything else fails with "Invalid option: ignore is not a function" |
| Engine.ExcludeItems | csv2go.js:251-261 | a missing option keeps every record; a predicate keeps exactly the records it rejects; anything else fails with "Invalid option: exclude is not a function" |
| Engine.Decorate | csv2go.js:177-179 | a thrown message gets ". On property <key>" appended |
| Engine.StepsErrorPersists | csv2go.js:169-181 | once a property throws, that error is the outcome of the whole line |
| Engine.StepsNext | csv2go.js:169-181 | a prefix of properties that succeeds is extended by the next property's step |
| Engine.StepsFirstError | csv2go.js:169-181 | a failing line fails with the error of its first failing property, reached from a successful prefix |
| Engine.BuildItem | csv2go.js:167-181 | the loop over the schema builds the record the properties' steps build, or fails with the first property's error |
| Engine.FieldAdvances | csv2go.js:180 | a property that converts moves the running index on by its full type's range, whether or not its column was automatic |
| Engine.IndexAfter | csv2go.js:168-180 | after k properties, the running index is the sum of their types' ranges |
| Engine.IndexIsRangeSum | csv2go.js:168-180 | the automatic column of a property is the sum of the earlier properties' ranges (ranges 1, 2, 1 give columns 0, 1, 3) |
| Engine.RowErrorNamesProperty | csv2go.js:171-179 | when a line fails, the error is that of the first failing property, decorated with that property's path |
| Engine.RowsErrorPersists | csv2go.js:158-183 | once a line throws, that error is the outcome of the whole run: no partial result |
| Engine.Materialize | csv2go.js:154-185 | the loops over lines and properties compute `MaterializeSpec`: skip, ignore, convert each line by the schema, exclude |
| Engine.Parse | csv2go.js:477-505 | empty content fails with "No content found"; a tokenizer error is passed on; otherwise the result is `materialize` of the tokenized lines |
| Engine.Unskipped | csv2go.js:157-162 | skipping drops exactly the first `skip` lines, all of them when there are fewer, and none when `skip` is not positive |
| Engine.RowsPrefixIsReference | csv2go.js:158-183 | every prefix of the outer loop is the stage-by-stage reference on the lines seen so far |
| Engine.MaterializeIsReference | csv2go.js:154-185 | `materialize` is the stage-by-stage pipeline: drop the skipped lines, drop the ignored ones, convert the rest, drop the excluded records |
| Engine.ConvertAllRecords | csv2go.js:158-183 | converting lines succeeds exactly when every line converts, and then yields one record per line, in order |
| Engine.SkipDropsLeadingLines | csv2go.js:157-162 | skipping s lines is converting the lines after them with nothing skipped |
| Engine.SkipPastEnd | csv2go.js:157-162 | skipping at least every line yields no records, and the `ignore` option is never looked at |
| Engine.InvalidIgnoreThrows | csv2go.js:163-165 | an `ignore` that is not a function makes the run fail as soon as a line is not skipped |
| Engine.OneRecordPerLine | csv2go.js:154-185 | with no options, the run succeeds exactly when every line converts, and then yields one record per line, in order |
| Engine.IgnoredLinesDropped | csv2go.js:163-165 | with an `ignore` predicate, the records are those of the lines it rejects |
| Engine.ExcludedRecordsAreDropped | csv2go.js:184 | a record is in the result exactly when a line produced it and `exclude` rejects it |

## Left out

- The CSV tokenizer (`parseCsv` and the `csv` library) is a foreign call. It is a parameter of `Engine.Parse`, and the model's input is the tokenized lines.
- `readCsv` and `parseFile` read files, which is I/O. `parse`'s callback is left out, as are the defaulting of the tokenizer options (`delimiter`, `quote`, `escape`) and the `debug` logging.
- `Engine.Parse`: a missing schema counts as an empty one (the source only logs a debug message and `_.keys` of `undefined` is empty). A missing `skip` option counts as 0, which is what `undefined > 0` gives.
- The schema is an ordered list. The order in which `_.keys` lists an object's properties is JavaScript engine behaviour.
- `Values.Value.Float`: `parseFloat` is kept as the text it reads, and floating-point arithmetic is not modelled. `avg` is modelled only when the sum divides evenly; other cases are `Unmodelled`.
- `Functions.ApplyPredefined`: `min` and `max` of an empty list are `Unmodelled`, because their result depends on the lodash version. `+` on mixed or non-numeric operands (`1 + "a"`, lists, objects) is `Unmodelled`. `trim` of a non-string is a `TypeError`, which is `Unmodelled` too.
- `TypeRegistry.ParseDate`: the `Date` object is represented by the parts of the split; the `new Date(...)` arithmetic is not modelled.
- `JsStrings.ParseInt`: integers are unbounded, so the loss of precision beyond 2^53 and the `Infinity` cases are not modelled.
- `Functions.Plus`, `Functions.FoldPlus` and `Functions.ApplyPredefined`: JavaScript numbers are doubles, so `+`, `sum`, `concat` and `avg` round once a result passes 2^53 (`_.sum([9007199254740992, 1])` is 9007199254740992). The model adds unbounded integers exactly. `Functions.FoldPlusInts`, `Functions.SumOfInts`, `Functions.ConcatOfIntsIsSum`, `Pipeline.SumOfCells`, `Pipeline.SumOfColumns` and `Engine.IndexAfter` state exact sums, which hold in JavaScript only while every partial sum stays within 2^53 in absolute value.
- A truthy stage value that is neither a string nor a function (a number, an object) is not modelled. A stage is a name, a function value or a falsy value. Names that live on `Object.prototype` (`toString`, for instance), which the `predefinedFunction[f]` lookup would also find, are not modelled.
- `writeTo` mutates the record in place, while `Paths.WriteTo` returns the new record. The record itself is created fresh for each line. An object a stage function returns and its caller keeps is a value here, though, as are all objects shared by reference (see the `_.clone` line below). So a later dotted key that `writeTo` writes below such an object changes the caller's copy in JavaScript, and the model does not show that.
- `Paths.WriteTo`: writing below a parsed float, an array or a `Date` value found on the path is `Unmodelled`, except that a rest starting with a dot still throws "Illegal property name". The float is kept as its text, and whether it is falsy (0 and NaN are, and `writeTo` then replaces it with a new object) is not decided by that text. A longer path below a truthy primitive is `Unmodelled` too. It is a `TypeError` when the primitive has no property named by the next segment, since the path then goes on through `undefined`. When the primitive has such a property (`length` or an index of a string, an inherited method), the write goes on through that value and is usually dropped without an error. The model does not tell the two apart.
- `Paths.Get`, and with it `Paths.WriteTo`: a record is a map of its own properties, so a segment named after a property every JavaScript object inherits from `Object.prototype` (`constructor`, `toString`, `hasOwnProperty`, `__proto__`, …) is treated as absent. `writeTo` finds the inherited value, which is truthy, and writes below it: `constructor.name` assigns the read-only `Object.name` (dropped silently), `toString.x` and `__proto__.x` write onto objects every record shares, and a plain `__proto__` key with a string value is dropped. In each case the record stays as it was. On such segments, the key set that `Paths.WriteTo` ensures and what `Paths.ReadAfterWrite`, `Paths.EmptyWritable` and `Paths.WriteFailsIffIllegal` state do not hold of the program.
- `Values.Truthy` is defined only for values other than a parsed float, for the same reason.
- `register` with a base sets `type.type` of the caller's descriptor to the base's name and leaves it so: only the enriched copy gets the original name back. The model does not show that change to the caller's object.
- `TypeRegistry.Registry.Register`: without a base, `_.defaults` fills in the caller's own descriptor and that very object is pushed, so the registry aliases it and a later change the caller makes to it changes the registered type. `Register` stores a value, so this aliasing is not modelled.
- `_.clone` in `createTypeInstance` and `enrichTypeInstance` is shallow. Stage functions and nested objects shared by reference are values here. `resolveAutoColumn` assigns the column of the copy only, which `Pipeline.ResolveAutoColumn` models as returning an updated copy.
- `Engine.Ignore` and `Engine.ExcludeItems` take the option as a missing value, a value that is not a function, or a predicate returning a boolean. Truthiness of other predicate results is not modelled.
