/** The JavaScript values the auth walkthrough handles, and the built-in
    operations it applies to them (truthiness, strict equality, string
    coercion, `indexOf`/`splice`, `concat`, lodash `uniq`, `Object.keys`,
    `Object.assign`, `JSON.stringify`/`JSON.parse`). */
module JsValues {
  import opened Wrappers

  /** A JavaScript value. Objects keep their own properties in enumeration
      order; `Json(v)` is the string that `JSON.stringify(v)` produced, so that
      parsing it gives `v` back. Arrays and objects are compared by identity in
      JavaScript; every `List` and `Obj` here stands for a distinct object. */
  datatype Value =
    | Undef
    | Bool(b: bool)
    | Str(s: string)
    | List(items: seq<Value>)
    | Obj(fields: seq<(string, Value)>)
    | Json(of: Value)

  type Entries = seq<(string, Value)>

  /** A flat answer record such as `coreAnswers` or `context.updatingAuth`. */
  type Answers = map<string, Value>

  /** `m[k]`, undefined when the key is missing. */
  function Get(m: Answers, k: string): Value {
    if k in m then m[k] else Undef
  }

  /** JavaScript truthiness: arrays and objects are truthy even when empty. */
  predicate Truthy(v: Value) {
    match v
    case Undef => false
    case Bool(b) => b
    case Str(s) => s != ""
    case List(_) => true
    case Obj(_) => true
    case Json(_) => true
  }

  // ---------------------------------------------------------------------------
  // Strings
  // ---------------------------------------------------------------------------

  function Join(parts: seq<string>, sep: string): string {
    if |parts| == 0 then ""
    else if |parts| == 1 then parts[0]
    else parts[0] + sep + Join(parts[1..], sep)
  }

  /** `String.prototype.split(sep)` with a one-character separator. */
  function Split(s: string, sep: char): (r: seq<string>)
    ensures |r| >= 1
    decreases |s|
  {
    if sep !in s then [s]
    else
      var i := FirstIndex(s, sep);
      [s[..i]] + Split(s[i + 1..], sep)
  }

  /** Joining on a character that no part contains and splitting on it
      again gives the parts back. */
  lemma {:induction false} SplitJoin(parts: seq<string>, sep: char)
    requires |parts| > 0 && forall i :: 0 <= i < |parts| ==> sep !in parts[i]
    ensures Split(Join(parts, [sep]), sep) == parts
    decreases |parts|
  {
    if |parts| > 1 {
      var rest := Join(parts[1..], [sep]);
      assert Join(parts, [sep]) == parts[0] + [sep] + rest;
      SplitFirst(parts[0], sep, rest);
      SplitJoin(parts[1..], sep);
      assert parts == [parts[0]] + parts[1..];
    }
  }

  /** Splitting stops at the first separator. */
  lemma SplitFirst(a: string, sep: char, rest: string)
    requires sep !in a
    ensures Split(a + [sep] + rest, sep) == [a] + Split(rest, sep)
  {
    var s := a + [sep] + rest;
    assert s[|a|] == sep;
    var i := FirstIndex(s, sep);
    assert s[..|a|] == a;
    assert i == |a|;
    assert s[i + 1..] == rest;
  }

  function FirstIndex(s: string, c: char): (i: nat)
    requires c in s
    ensures i < |s| && s[i] == c && c !in s[..i]
  {
    if s[0] == c then 0 else 1 + FirstIndex(s[1..], c)
  }

  /** ASCII lower-casing, as `toLowerCase` does on the provider names used here. */
  function LowerChar(c: char): char {
    if 'A' <= c <= 'Z' then (c as int + 32) as char else c
  }

  function Lower(s: string): (r: string)
    ensures |r| == |s|
  {
    seq(|s|, i requires 0 <= i < |s| => LowerChar(s[i]))
  }

  predicate TextAt(hay: string, needle: string, i: nat) {
    i + |needle| <= |hay| && hay[i..i + |needle|] == needle
  }

  predicate ContainsText(hay: string, needle: string) {
    exists i: nat | i <= |hay| :: TextAt(hay, needle, i)
  }

  function DigitText(d: nat): string
    requires d < 10
  {
    ["0123456789"[d]]
  }

  /** The decimal text of an array index, as `Object.keys` gives it. */
  function NatText(n: nat): string {
    if n < 10 then DigitText(n) else NatText(n / 10) + DigitText(n % 10)
  }

  function HexDigit(d: nat): char
    requires d < 16
  {
    "0123456789abcdef"[d]
  }

  /** One character as it appears inside a JSON string literal. */
  function EscapeChar(c: char): string {
    if c == '"' then "\\\""
    else if c == '\\' then "\\\\"
    else if c == '\n' then "\\n"
    else if c == '\r' then "\\r"
    else if c == '\t' then "\\t"
    else if c as int == 8 then "\\b"
    else if c as int == 12 then "\\f"
    else if c as int < 32 then "\\u00" + [HexDigit(c as int / 16), HexDigit(c as int % 16)]
    else [c]
  }

  function Quote(s: string): string {
    "\"" + Escape(s) + "\""
  }

  function Escape(s: string): string {
    if s == [] then "" else EscapeChar(s[0]) + Escape(s[1..])
  }

  /** The text `JSON.stringify` writes for a value (an undefined array element
      is written `null`, an undefined property is left out). */
  function JsonText(v: Value): string
    decreases v
  {
    match v
    case Undef => "null"
    case Bool(b) => if b then "true" else "false"
    case Str(s) => Quote(s)
    case Json(x) => Quote(JsonText(x))
    case List(items) => "[" + Join(JsonItems(v, items), ",") + "]"
    case Obj(fields) =>
      "{" + Join(JsonMembers(v, fields), ",") + "}"
  }

  function JsonItems(v: Value, items: seq<Value>): (r: seq<string>)
    requires forall i :: 0 <= i < |items| ==> items[i] < v
    decreases v, |items|
  {
    if items == [] then [] else [JsonText(items[0])] + JsonItems(v, items[1..])
  }

  function JsonMembers(v: Value, fields: Entries): seq<string>
    requires forall i :: 0 <= i < |fields| ==> fields[i].1 < v
    decreases v, |fields|
  {
    if fields == [] then []
    else if fields[0].1 == Undef then JsonMembers(v, fields[1..])
    else [Quote(fields[0].0) + ":" + JsonText(fields[0].1)] + JsonMembers(v, fields[1..])
  }

  /** `s.toLowerCase()`; only strings have it. */
  function LowerText(v: Value): Result<string> {
    if AsText(v).Some? then Ok(Lower(AsText(v).value)) else Err(TypeError)
  }

  /** An array of strings. */
  function Strs(ss: seq<string>): (r: seq<Value>)
    ensures |r| == |ss| && forall i :: 0 <= i < |ss| ==> r[i] == Str(ss[i])
  {
    seq(|ss|, i requires 0 <= i < |ss| => Str(ss[i]))
  }

  /** The characters of a string value, when the value is a string. */
  function AsText(v: Value): Option<string> {
    match v
    case Str(s) => Some(s)
    case Json(x) => Some(JsonText(x))
    case _ => None
  }

  /** `String(v)`: the text a value is coerced to. */
  function ToText(v: Value): string
    decreases v
  {
    match v
    case Undef => "undefined"
    case Bool(b) => if b then "true" else "false"
    case Str(s) => s
    case Json(x) => JsonText(x)
    case List(items) => Join(ItemTexts(v, items), ",")
    case Obj(_) => "[object Object]"
  }

  /** The texts `Array.prototype.join` puts between the commas: an undefined
      element is written as nothing. */
  function ItemTexts(v: Value, items: seq<Value>): seq<string>
    requires forall i :: 0 <= i < |items| ==> items[i] < v
    decreases v, |items|
  {
    if items == [] then [] else [if items[0] == Undef then "" else ToText(items[0])] + ItemTexts(v, items[1..])
  }

  function Chars(s: string): (r: seq<Value>)
    ensures |r| == |s|
  {
    seq(|s|, i requires 0 <= i < |s| => Str([s[i]]))
  }

  /** What `v.length` and `v[t]` see: the elements of an array or the
      characters of a string; anything else has no length. */
  function Indexed(v: Value): seq<Value> {
    match v
    case List(items) => items
    case _ => if AsText(v).Some? then Chars(AsText(v).value) else []
  }

  /** What the spread `[...v]` sees; only arrays and strings are iterable. */
  function Iterate(v: Value): Result<seq<Value>> {
    if v.List? || AsText(v).Some? then Ok(Indexed(v)) else Err(TypeError)
  }

  // ---------------------------------------------------------------------------
  // Equality, arrays
  // ---------------------------------------------------------------------------

  /** `a === b` (and lodash's SameValueZero, which agrees with it here). */
  predicate StrictEquals(a: Value, b: Value) {
    if a.Undef? || b.Undef? then a.Undef? && b.Undef?
    else if a.Bool? || b.Bool? then a.Bool? && b.Bool? && a.b == b.b
    else AsText(a).Some? && AsText(b).Some? && AsText(a).value == AsText(b).value
  }

  predicate IsText(v: Value, t: string) {
    StrictEquals(v, Str(t))
  }

  /** `xs.indexOf(x)`. */
  function IndexOf(xs: seq<Value>, x: Value): (i: int)
    ensures -1 <= i < |xs|
    ensures i >= 0 ==> StrictEquals(xs[i], x) && forall k :: 0 <= k < i ==> !StrictEquals(xs[k], x)
    ensures i == -1 ==> forall k :: 0 <= k < |xs| ==> !StrictEquals(xs[k], x)
  {
    if xs == [] then -1
    else if StrictEquals(xs[0], x) then 0
    else
      var i := IndexOf(xs[1..], x);
      if i == -1 then -1 else i + 1
  }

  /** `xs.includes(x)`. */
  predicate Includes(xs: seq<Value>, x: Value) {
    IndexOf(xs, x) >= 0
  }

  /** `xs.splice(xs.indexOf(x), 1, v)`: a missing `x` gives index -1, which
      splice reads as the last element; on an empty array nothing is removed. */
  function SpliceOver(xs: seq<Value>, x: Value, v: Value): (r: seq<Value>)
    ensures |xs| > 0 ==> |r| == |xs| && r == xs[SplicePosition(xs, x) := v]
    ensures |xs| == 0 ==> r == [v]
  {
    var i := IndexOf(xs, x);
    if i >= 0 then xs[i := v]
    else if |xs| > 0 then xs[|xs| - 1 := v]
    else [v]
  }

  /** Where `SpliceOver` writes: the first equal element, else the last one. */
  function SplicePosition(xs: seq<Value>, x: Value): (i: nat)
    requires |xs| > 0
    ensures i < |xs|
    ensures Includes(xs, x) ==> StrictEquals(xs[i], x) && forall k :: 0 <= k < i ==> !StrictEquals(xs[k], x)
    ensures !Includes(xs, x) ==> i == |xs| - 1
  {
    if IndexOf(xs, x) >= 0 then IndexOf(xs, x) else |xs| - 1
  }

  /** `Array.prototype.concat` with one argument: an array argument is spread. */
  function ConcatArg(xs: seq<Value>, arg: Value): seq<Value> {
    if arg.List? then xs + arg.items else xs + [arg]
  }

  /** lodash `uniq`: the first occurrence of every value, in order. */
  function Uniq(xs: seq<Value>): (r: seq<Value>)
    ensures |r| <= |xs|
    ensures forall i :: 0 <= i < |r| ==> r[i] in xs
  {
    if xs == [] then []
    else
      var p := Uniq(xs[..|xs| - 1]);
      if Includes(p, xs[|xs| - 1]) then p else p + [xs[|xs| - 1]]
  }

  /** `Uniq` keeps no two equal values, and every input value is kept or
      equal to a kept one. */
  lemma {:induction false} UniqSpec(xs: seq<Value>)
    ensures forall i, j :: 0 <= i < j < |Uniq(xs)| ==> !StrictEquals(Uniq(xs)[i], Uniq(xs)[j])
    ensures forall i :: 0 <= i < |xs| ==> Includes(Uniq(xs), xs[i]) || xs[i] in Uniq(xs)
  {
    if xs != [] {
      var init := xs[..|xs| - 1];
      var last := xs[|xs| - 1];
      UniqSpec(init);
      var p := Uniq(init);
      if !Includes(p, last) {
        forall i | 0 <= i < |p| ensures !StrictEquals(p[i], last) {
        }
        var r := p + [last];
        forall i | 0 <= i < |xs| ensures Includes(r, xs[i]) || xs[i] in r {
          if i < |xs| - 1 {
            assert xs[i] == init[i];
            if Includes(p, xs[i]) {
              var k := IndexOf(p, xs[i]);
              assert r[k] == p[k];
              assert IndexOf(r, xs[i]) <= k;
            } else {
              assert xs[i] in p;
            }
          }
        }
      } else {
        forall i | 0 <= i < |xs| ensures Includes(p, xs[i]) || xs[i] in p {
          if i < |xs| - 1 {
            assert xs[i] == init[i];
          }
        }
      }
    }
  }

  lemma UniqSnoc(xs: seq<Value>, x: Value)
    ensures Uniq(xs + [x]) == if Includes(Uniq(xs), x) then Uniq(xs) else Uniq(xs) + [x]
  {
    assert (xs + [x])[..|xs|] == xs;
  }

  /** A value strictly equal to some input value is equal to a kept one. */
  lemma UniqCovers(xs: seq<Value>, y: Value)
    requires Includes(xs, y)
    ensures Includes(Uniq(xs), y)
  {
    UniqSpec(xs);
    var k := IndexOf(xs, y);
    var j := IndexOf(Uniq(xs), xs[k]);
    assert StrictEquals(Uniq(xs)[j], y);
  }

  /** `uniq(xs.concat(ys))` starts with `uniq(xs)`; what follows comes from
      `ys` and equals nothing in `xs`. */
  lemma {:induction false} UniqExtends(xs: seq<Value>, ys: seq<Value>)
    ensures |Uniq(xs)| <= |Uniq(xs + ys)| && Uniq(xs + ys)[..|Uniq(xs)|] == Uniq(xs)
    ensures forall i :: |Uniq(xs)| <= i < |Uniq(xs + ys)| ==> Uniq(xs + ys)[i] in ys && !Includes(xs, Uniq(xs + ys)[i])
    decreases |ys|
  {
    if ys == [] {
      assert xs + ys == xs;
    } else {
      var init := ys[..|ys| - 1];
      var y := ys[|ys| - 1];
      UniqExtends(xs, init);
      assert xs + ys == (xs + init) + [y];
      UniqSnoc(xs + init, y);
      var p := Uniq(xs + init);
      if !Includes(p, y) {
        if Includes(xs, y) {
          UniqCovers(xs, y);
          assert false;
        }
        assert (p + [y])[..|Uniq(xs)|] == p[..|Uniq(xs)|];
      }
      assert forall i :: 0 <= i < |init| ==> init[i] == ys[i];
    }
  }

  /** On values no two of which are equal, `uniq` keeps everything in place. */
  lemma {:induction false} UniqDistinct(xs: seq<Value>)
    requires forall i, j :: 0 <= i < j < |xs| ==> !StrictEquals(xs[i], xs[j])
    ensures Uniq(xs) == xs
    decreases |xs|
  {
    if xs != [] {
      var init := xs[..|xs| - 1];
      var last := xs[|xs| - 1];
      assert xs == init + [last];
      assert forall k :: 0 <= k < |init| ==> init[k] == xs[k];
      UniqDistinct(init);
      forall k | 0 <= k < |init| ensures !StrictEquals(init[k], last) {
      }
      UniqSnoc(init, last);
    }
  }

  // ---------------------------------------------------------------------------
  // Objects
  // ---------------------------------------------------------------------------

  function Keys(es: Entries): seq<string> {
    seq(|es|, i requires 0 <= i < |es| => es[i].0)
  }

  function Values(es: Entries): seq<Value> {
    seq(|es|, i requires 0 <= i < |es| => es[i].1)
  }

  /** `o[k]` on an object with entries `es`. */
  function Field(es: Entries, k: string): Value {
    if es == [] then Undef
    else if es[0].0 == k then es[0].1
    else Field(es[1..], k)
  }

  /** `o[k] = v`: an existing property keeps its place, a new one goes last. */
  function SetField(es: Entries, k: string, v: Value): (r: Entries)
    ensures Field(r, k) == v
    ensures forall k' :: k' != k ==> Field(r, k') == Field(es, k')
    ensures k in Keys(es) ==> Keys(r) == Keys(es)
    ensures k !in Keys(es) ==> Keys(r) == Keys(es) + [k]
  {
    if es == [] then [(k, v)]
    else if es[0].0 == k then
      assert Keys(es)[0] == k;
      [(k, v)] + es[1..]
    else
      var rest := SetField(es[1..], k, v);
      assert Keys(es) == [es[0].0] + Keys(es[1..]);
      assert Keys([es[0]] + rest) == [es[0].0] + Keys(rest);
      [es[0]] + rest
  }

  /** No key occurs twice. */
  predicate DistinctKeys(es: Entries) {
    forall i, j :: 0 <= i < j < |es| ==> es[i].0 != es[j].0
  }

  /** Setting a property keeps the keys distinct and adds no key but its own. */
  lemma SetFieldKeys(es: Entries, k: string, v: Value)
    ensures var r := SetField(es, k, v);
      && k in Keys(r)
      && (forall x :: x in Keys(es) ==> x in Keys(r))
      && (forall x :: x in Keys(r) ==> x == k || x in Keys(es))
      && (DistinctKeys(es) ==> DistinctKeys(r))
  {
    var r := SetField(es, k, v);
    assert |Keys(r)| == |r|;
    if k in Keys(es) {
      assert forall i :: 0 <= i < |r| ==> r[i].0 == Keys(r)[i] == Keys(es)[i] == es[i].0;
    } else {
      assert forall i :: 0 <= i < |es| ==> r[i].0 == Keys(r)[i] == Keys(es)[i] == es[i].0;
      assert r[|es|].0 == Keys(r)[|es|] == k;
    }
  }

  lemma {:induction false} FieldAbsent(es: Entries, k: string)
    requires k !in Keys(es)
    ensures Field(es, k) == Undef
  {
    if es != [] {
      assert Keys(es) == [es[0].0] + Keys(es[1..]);
      FieldAbsent(es[1..], k);
    }
  }

  /** `v.name` for a property that only plain objects carry here; reading
      any property of undefined throws. */
  function Prop(v: Value, name: string): Result<Value> {
    match v
    case Undef => Err(TypeError)
    case Obj(fields) => Ok(Field(fields, name))
    case _ => Ok(Undef)
  }

  /** The own enumerable properties of a value, in `Object.keys` order. */
  function OwnEntries(v: Value): Entries {
    match v
    case Obj(fields) => fields
    case _ =>
      var xs := Indexed(v);
      seq(|xs|, i requires 0 <= i < |xs| => (NatText(i), xs[i]))
  }

  /** `Object.assign(m, {k1: v1, ...})`: later entries win. */
  function AssignEntries(m: Answers, es: Entries): (r: Answers)
    ensures r.Keys == m.Keys + set i | 0 <= i < |es| :: es[i].0
    decreases |es|
  {
    if es == [] then m
    else
      var r := AssignEntries(m, es[..|es| - 1])[es[|es| - 1].0 := es[|es| - 1].1];
      assert forall i :: 0 <= i < |es| - 1 ==> es[..|es| - 1][i] == es[i];
      r
  }

  /** `Object.assign(m, v)`; undefined and booleans contribute nothing. */
  function Assign(m: Answers, v: Value): Answers {
    AssignEntries(m, OwnEntries(v))
  }

  /** `Object.assign` with a unique-keyed source sets exactly its fields. */
  lemma {:induction false} AssignEntriesGet(m: Answers, es: Entries, k: string)
    requires DistinctKeys(es)
    ensures k in Keys(es) ==> Get(AssignEntries(m, es), k) == Field(es, k)
    ensures k !in Keys(es) ==> Get(AssignEntries(m, es), k) == Get(m, k)
    decreases |es|
  {
    if es != [] {
      var init := es[..|es| - 1];
      var last := es[|es| - 1];
      assert es == init + [last];
      AssignEntriesGet(m, init, k);
      AssignSnoc(m, init, last, k);
      KeysSnoc(init, last);
      FieldSnoc(init, last, k);
      if k == last.0 {
        LastKeyNew(es);
        FieldAbsent(init, k);
      }
    }
  }

  lemma AssignSnoc(m: Answers, init: Entries, last: (string, Value), k: string)
    ensures Get(AssignEntries(m, init + [last]), k) == if k == last.0 then last.1 else Get(AssignEntries(m, init), k)
  {
    assert (init + [last])[..|init|] == init;
  }

  lemma KeysSnoc(init: Entries, last: (string, Value))
    ensures Keys(init + [last]) == Keys(init) + [last.0]
  {
  }

  /** With distinct keys, the last key is not among the earlier ones. */
  lemma LastKeyNew(es: Entries)
    requires |es| > 0 && DistinctKeys(es)
    ensures es[|es| - 1].0 !in Keys(es[..|es| - 1])
  {
    var init := es[..|es| - 1];
    forall i | 0 <= i < |init| ensures Keys(init)[i] != es[|es| - 1].0 {
      assert init[i] == es[i];
    }
  }

  /** In entries with distinct keys, each key reads its own value. */
  lemma {:induction false} FieldAt(es: Entries, i: nat)
    requires i < |es| && DistinctKeys(es)
    ensures Field(es, es[i].0) == es[i].1
  {
    if i > 0 {
      assert es[0].0 != es[i].0;
      assert es[1..][i - 1] == es[i];
      FieldAt(es[1..], i - 1);
    }
  }

  /** A property read on an object written with three properties. */
  lemma FieldOfThree(a: (string, Value), b: (string, Value), c: (string, Value), k: string)
    ensures Field([a, b, c], k) == if a.0 == k then a.1 else if b.0 == k then b.1 else if c.0 == k then c.1 else Undef
  {
    assert [a, b, c][1..] == [b, c];
    assert [b, c][1..] == [c];
    assert [c][1..] == [];
    assert Field([c], k) == if c.0 == k then c.1 else Undef;
    assert Field([b, c], k) == if b.0 == k then b.1 else Field([c], k);
  }

  lemma {:induction false} FieldSnoc(es: Entries, e: (string, Value), k: string)
    ensures Field(es + [e], k) == if k in Keys(es) then Field(es, k) else if k == e.0 then e.1 else Undef
  {
    if es == [] {
    } else {
      assert (es + [e])[1..] == es[1..] + [e];
      assert Keys(es) == [es[0].0] + Keys(es[1..]);
      FieldSnoc(es[1..], e, k);
    }
  }

  // ---------------------------------------------------------------------------
  // JSON
  // ---------------------------------------------------------------------------

  /** `JSON.stringify(v)`; stringifying undefined gives undefined, not text. */
  function Stringify(v: Value): Value {
    if v == Undef then Undef else Json(v)
  }

  /** `JSON.parse(v)`. Only text this model serialised can be read back; any
      other argument is treated as malformed JSON. */
  function Parse(v: Value): Result<Value> {
    if v.Json? && v.of != Undef then Ok(v.of) else Err(SyntaxError)
  }

  lemma ParseStringify(v: Value)
    requires v != Undef
    ensures Parse(Stringify(v)) == Ok(v)
  {
  }
}
