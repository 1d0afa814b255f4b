/** `writeTo`: storing a value in a record under a dot-separated property path,
    creating the intermediate objects the path needs. */
module Paths {

  import opened Wrappers
  import opened Values
  import JsStrings

  /** The value a record holds under a property, `undefined` when it has none. */
  function Get(target: Record, prop: string): Value {
    if prop in target then target[prop] else Undefined
  }

  /** The first segment of a path: the property `writeTo` assigns in `target` itself. */
  function Head(path: string): string {
    if '.' in path then path[..JsStrings.IndexOf(path, '.')] else path
  }

  /** The path after its first dot. */
  function Tail(path: string): (r: string)
    requires '.' in path
    ensures |r| < |path|
  {
    path[JsStrings.IndexOf(path, '.') + 1..]
  }

  /** A path `writeTo` refuses somewhere along the way: one that starts with a dot
      or has two dots in a row (each gives an empty segment in front of a dot). */
  predicate IllegalPath(path: string) {
    exists i :: 0 <= i < |path| && path[i] == '.' && (i == 0 || path[i - 1] == '.')
  }

  /** What `writeTo(undefined, path, value)` does: it reads a property of
      `undefined`, a TypeError, unless the path starts with a dot, which it refuses first. */
  function WriteIntoUndefined(path: string): (r: Result<()>)
    ensures r.Err?
    ensures r.error.Thrown? <==> IllegalPath(path) && path[0] == '.'
  {
    if path != [] && path[0] == '.' then Err(Thrown("Illegal property name"))
    else Err(Unmodelled("TypeError: writing a property of undefined"))
  }

  /** What `writeTo(p, path, value)` does for a primitive `p` (a number, a non-empty
      string, `true`): outside strict mode an assignment to a primitive's property is
      dropped. A longer path is described only as far as its refusal of an empty
      segment: past the first segment it goes on through `undefined` (a TypeError)
      when the primitive has no such property, but through a truthy value when it has
      one (`length` or an index of a string, an inherited method), and the model does
      not tell these apart. */
  function WriteIntoPrimitive(path: string): (r: Result<()>)
    ensures '.' !in path ==> r == Ok(())
    ensures r.Err? && r.error.Thrown? ==> r.error == Thrown("Illegal property name") && IllegalPath(path)
  {
    if '.' !in path then Ok(())
    else if JsStrings.IndexOf(path, '.') == 0 then Err(Thrown("Illegal property name"))
    else
      var rest := Tail(path);
      var r := WriteIntoUndefined(rest);
      if r.error.Thrown? then
        var k := JsStrings.IndexOf(path, '.') + 1;
        assert path[k] == '.' && path[k - 1] == '.';
        r
      else r
  }

  /** A value on a path whose treatment by `writeTo` the model does not describe: a
      number read by `parseFloat` (falsy when it is 0 or NaN, which its uninterpreted
      text does not decide), an array or a `Date` (objects whose properties `writeTo`
      would read and create). */
  predicate Uninterpreted(v: Value) {
    v.Float? || v.List? || v.Date?
  }

  /** `writeTo(target, path, value)` on a record: without a dot the property is
      assigned; otherwise the first segment must be non-empty, a falsy value there is
      replaced by a new object, and the rest of the path is written into that object.
      Below an uninterpreted value, only the refusal of a rest that starts with a dot
      is described. */
  function WriteTo(target: Record, path: string, value: Value): (r: Result<Record>)
    ensures r.Ok? ==> r.value.Keys == target.Keys + {Head(path)}
    ensures r.Ok? ==> forall k :: k in target && k != Head(path) ==> r.value[k] == target[k]
    ensures r.Err? && r.error.Thrown? ==> r.error == Thrown("Illegal property name")
    decreases |path|
  {
    if '.' !in path then Ok(target[path := value])
    else
      var dot := JsStrings.IndexOf(path, '.');
      var prop := path[..dot];
      if dot == 0 then Err(Thrown("Illegal property name"))
      else
        var current := Get(target, prop);
        if Uninterpreted(current) then
          var rest := Tail(path);
          if rest != [] && rest[0] == '.' then Err(Thrown("Illegal property name"))
          else Err(Unmodelled("writing below a parsed float, an array or a Date"))
        else if !Truthy(current) then
          var inner :- WriteTo(map[], Tail(path), value);
          Ok(target[prop := Object(inner)])
        else if current.Object? then
          var inner :- WriteTo(current.fields, Tail(path), value);
          Ok(target[prop := Object(inner)])
        else
          var _ :- WriteIntoPrimitive(Tail(path));
          Ok(target)
  }

  /** Reading a dot-separated path back: each segment but the last must hold an object. */
  function ReadPath(target: Record, path: string): Option<Value>
    decreases |path|
  {
    if '.' !in path then (if path in target then Some(target[path]) else None)
    else
      var current := Get(target, Head(path));
      if current.Object? then ReadPath(current.fields, Tail(path)) else None
  }

  /** Nothing along the path stands in the way of `writeTo`: each intermediate
      property is missing, falsy or a plain object. */
  predicate Writable(target: Record, path: string)
    decreases |path|
  {
    '.' in path ==>
      var current := Get(target, Head(path));
      !Uninterpreted(current) && (!Truthy(current) || (current.Object? && Writable(current.fields, Tail(path))))
  }

  /** A path is illegal exactly when its first segment is empty or its tail is illegal. */
  lemma IllegalSplit(path: string)
    requires '.' in path
    ensures IllegalPath(path) <==> JsStrings.IndexOf(path, '.') == 0 || IllegalPath(Tail(path))
  {
    var dot := JsStrings.IndexOf(path, '.');
    var rest := Tail(path);
    assert forall i :: 0 <= i < |rest| ==> rest[i] == path[dot + 1 + i];
    if IllegalPath(path) && dot != 0 {
      var i :| 0 <= i < |path| && path[i] == '.' && (i == 0 || path[i - 1] == '.');
      assert '.' !in path[..dot];
      assert i > dot;
      assert rest[i - dot - 1] == '.';
    }
    if dot != 0 && IllegalPath(rest) {
      var i :| 0 <= i < |rest| && rest[i] == '.' && (i == 0 || rest[i - 1] == '.');
      assert path[dot + 1 + i] == '.';
    }
  }

  lemma NoDotLegal(path: string)
    requires '.' !in path
    ensures !IllegalPath(path)
  {
  }

  /** An illegal path is always refused, whatever the record holds. */
  lemma {:induction false} IllegalRefused(target: Record, path: string, value: Value)
    requires IllegalPath(path)
    ensures WriteTo(target, path, value).Err?
    decreases |path|
  {
    if '.' !in path {
      NoDotLegal(path);
    } else {
      IllegalSplit(path);
      var dot := JsStrings.IndexOf(path, '.');
      if dot != 0 {
        var current := Get(target, path[..dot]);
        if Uninterpreted(current) {
        } else if !Truthy(current) {
          IllegalRefused(map[], Tail(path), value);
        } else if current.Object? {
          IllegalRefused(current.fields, Tail(path), value);
        } else {
          IllegalThroughPrimitive(Tail(path));
        }
      }
    }
  }

  lemma IllegalThroughPrimitive(path: string)
    requires IllegalPath(path)
    ensures WriteIntoPrimitive(path).Err?
  {
    if '.' !in path {
      NoDotLegal(path);
    } else if JsStrings.IndexOf(path, '.') != 0 {
      IllegalSplit(path);
      var rest := Tail(path);
      assert WriteIntoUndefined(rest).Err?;
    }
  }

  /** On a writable path, `writeTo` succeeds exactly when the path is legal, and a
      refusal is always "Illegal property name". */
  lemma {:induction false} WriteFailsIffIllegal(target: Record, path: string, value: Value)
    requires Writable(target, path)
    ensures WriteTo(target, path, value).Err? <==> IllegalPath(path)
    ensures WriteTo(target, path, value).Err? ==> WriteTo(target, path, value).error == Thrown("Illegal property name")
    decreases |path|
  {
    if '.' !in path {
      NoDotLegal(path);
    } else {
      IllegalSplit(path);
      var dot := JsStrings.IndexOf(path, '.');
      if dot != 0 {
        var current := Get(target, path[..dot]);
        if !Truthy(current) {
          EmptyWritable(Tail(path));
          WriteFailsIffIllegal(map[], Tail(path), value);
        } else {
          WriteFailsIffIllegal(current.fields, Tail(path), value);
        }
      }
    }
  }

  /** A fresh object stands in the way of no path. */
  lemma {:induction false} EmptyWritable(path: string)
    ensures Writable(map[], path)
    decreases |path|
  {
    if '.' in path {
      assert Get(map[], Head(path)) == Undefined;
    }
  }

  /** After a successful write on a writable path, the path reads back the value written. */
  lemma {:induction false} ReadAfterWrite(target: Record, path: string, value: Value)
    requires Writable(target, path) && !IllegalPath(path)
    ensures WriteTo(target, path, value).Ok?
    ensures ReadPath(WriteTo(target, path, value).value, path) == Some(value)
    decreases |path|
  {
    WriteFailsIffIllegal(target, path, value);
    if '.' in path {
      IllegalSplit(path);
      var current := Get(target, Head(path));
      if !Truthy(current) {
        EmptyWritable(Tail(path));
        ReadAfterWrite(map[], Tail(path), value);
      } else {
        ReadAfterWrite(current.fields, Tail(path), value);
      }
    }
  }

  /** Two paths that part ways: different first segments, or the same first segment
      followed in both by tails that part ways. */
  predicate Disjoint(p: string, q: string)
    decreases |p|
  {
    Head(p) != Head(q) || ('.' in p && '.' in q && Disjoint(Tail(p), Tail(q)))
  }

  /** Writing one path leaves what any disjoint path reads unchanged: the other
      properties of every object along the way are kept. */
  lemma {:induction false} ReadOtherPath(target: Record, p: string, q: string, value: Value)
    requires Writable(target, p) && !IllegalPath(p)
    requires Disjoint(p, q)
    ensures WriteTo(target, p, value).Ok?
    ensures ReadPath(WriteTo(target, p, value).value, q) == ReadPath(target, q)
    decreases |p|
  {
    ReadAfterWrite(target, p, value);
    var after := WriteTo(target, p, value).value;
    if Head(p) != Head(q) {
      assert Get(after, Head(q)) == Get(target, Head(q));
      if '.' !in q {
        assert Head(q) == q;
      }
    } else {
      IllegalSplit(p);
      var current := Get(target, Head(p));
      if !Truthy(current) {
        EmptyWritable(Tail(p));
        ReadOtherPath(map[], Tail(p), Tail(q), value);
        EmptyReadsNothing(Tail(q));
      } else {
        ReadOtherPath(current.fields, Tail(p), Tail(q), value);
      }
    }
  }

  lemma EmptyReadsNothing(path: string)
    ensures ReadPath(map[], path) == None
  {
    if '.' in path {
      assert Get(map[], Head(path)) == Undefined;
    }
  }

  /** The first dot of `h.a`, for a segment `h` without dots, is the one after `h`. */
  lemma SplitAtFirstDot(h: string, a: string)
    requires '.' !in h
    ensures '.' in h + "." + a
    ensures Head(h + "." + a) == h && Tail(h + "." + a) == a
  {
    var p := h + "." + a;
    assert p[|h|] == '.';
    var dot := JsStrings.IndexOf(p, '.');
    assert dot == |h|;
    assert p[..|h|] == h;
    assert p[|h| + 1..] == a;
  }

  /** `h.a` with non-empty segments without dots is a legal path. */
  lemma TwoSegmentsLegal(h: string, a: string)
    requires h != [] && '.' !in h && '.' !in a
    ensures !IllegalPath(h + "." + a)
  {
    SplitAtFirstDot(h, a);
    IllegalSplit(h + "." + a);
    NoDotLegal(a);
  }

  /** Writing a second property under the same head of a record that holds one
      nested object keeps the first property and adds the second. */
  lemma SecondNestedWrite(one: Record, h: string, a: string, b: string, first: Value, last: Value)
    requires h != [] && '.' !in h && '.' !in a && '.' !in b && a != b
    requires one.Keys == {h} && Get(one, h).Object? && ReadPath(one, h + "." + a) == Some(first)
    ensures WriteTo(one, h + "." + b, last).Ok?
    ensures var two := WriteTo(one, h + "." + b, last).value;
            ReadPath(two, h + "." + a) == Some(first) &&
            ReadPath(two, h + "." + b) == Some(last) &&
            two.Keys == {h}
  {
    var p, q := h + "." + a, h + "." + b;
    SplitAtFirstDot(h, a);
    SplitAtFirstDot(h, b);
    TwoSegmentsLegal(h, b);
    assert Writable(one, q);
    ReadAfterWrite(one, q, last);
    assert Disjoint(q, p);
    ReadOtherPath(one, q, p, last);
  }

  /** The nested-path scenario of the test suite (`customer.firstname`, then
      `customer.lastname`, into an empty record): both values read back, in one
      shared object. */
  lemma NestedFields(h: string, a: string, b: string, first: Value, last: Value)
    requires h != [] && '.' !in h && '.' !in a && '.' !in b && a != b
    ensures WriteTo(map[], h + "." + a, first).Ok?
    ensures var one := WriteTo(map[], h + "." + a, first).value;
            WriteTo(one, h + "." + b, last).Ok? &&
            var two := WriteTo(one, h + "." + b, last).value;
            ReadPath(two, h + "." + a) == Some(first) &&
            ReadPath(two, h + "." + b) == Some(last) &&
            two.Keys == {h}
  {
    var p := h + "." + a;
    SplitAtFirstDot(h, a);
    TwoSegmentsLegal(h, a);
    EmptyWritable(p);
    ReadAfterWrite(map[], p, first);
    var one := WriteTo(map[], p, first).value;
    assert Get(one, h).Object?;
    SecondNestedWrite(one, h, a, b, first, last);
  }
}
