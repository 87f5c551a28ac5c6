/** JSON values as Python holds them, and the prefix rewrite of flowdocs/dataops/clone.py. */
module Json {
  import opened Common

  type Fields = map<string, Json>

  datatype Json =
    | Null
    | Bool(truth: bool)
    | Int(number: int)
    | Float(value: real)
    | String(text: string)
    | List(items: seq<Json>)
    | Object(fields: Fields)

  function Get(fields: Fields, key: string): Json { if key in fields then fields[key] else Null }

  predicate Numeric(v: Json) { v.Bool? || v.Int? || v.Float? }

  function Value(v: Json): real
    requires Numeric(v)
  {
    match v
    case Bool(b) => if b then 1.0 else 0.0
    case Int(n) => n as real
    case Float(r) => r
  }

  /** Python's ==, for which True, 1 and 1.0 are one value. */
  predicate Same(a: Json, b: Json) {
    if Numeric(a) && Numeric(b) then Value(a) == Value(b)
    else if a.List? && b.List? then
      |a.items| == |b.items| && forall i :: 0 <= i < |a.items| ==> Same(a.items[i], b.items[i])
    else if a.Object? && b.Object? then
      a.fields.Keys == b.fields.Keys && forall k :: k in a.fields ==> Same(a.fields[k], b.fields[k])
    else a == b
  }

  lemma {:induction false} SameReflexive(a: Json)
    ensures Same(a, a)
  {
    match a
    case List(items) => forall i | 0 <= i < |items| ensures Same(items[i], items[i]) { SameReflexive(items[i]); }
    case Object(fields) => forall k | k in fields ensures Same(fields[k], fields[k]) { SameReflexive(fields[k]); }
    case _ =>
  }

  lemma {:induction false} SameSymmetric(a: Json, b: Json)
    requires Same(a, b)
    ensures Same(b, a)
  {
    if a.List? && b.List? {
      forall i | 0 <= i < |a.items| ensures Same(b.items[i], a.items[i]) { SameSymmetric(a.items[i], b.items[i]); }
    } else if a.Object? && b.Object? {
      forall k | k in b.fields ensures Same(b.fields[k], a.fields[k]) { SameSymmetric(a.fields[k], b.fields[k]); }
    }
  }

  lemma {:induction false} SameTransitive(a: Json, b: Json, c: Json)
    requires Same(a, b) && Same(b, c)
    ensures Same(a, c)
  {
    if a.List? && b.List? && c.List? {
      forall i | 0 <= i < |a.items| ensures Same(a.items[i], c.items[i]) {
        SameTransitive(a.items[i], b.items[i], c.items[i]);
      }
    } else if a.Object? && b.Object? && c.Object? {
      forall k | k in a.fields ensures Same(a.fields[k], c.fields[k]) {
        SameTransitive(a.fields[k], b.fields[k], c.fields[k]);
      }
    }
  }

  // ---------------------------------------------------------------- rewriting a prefix

  function RewriteText(x: string, from: string, to: string): string {
    if from <= x then to + x[|from|..] else x
  }

  /** _rewrite_dataset_bindings. */
  function Rewrite(v: Json, from: string, to: string): Json {
    match v
    case String(x) => String(RewriteText(x, from, to))
    case List(items) => List(seq(|items|, i requires 0 <= i < |items| => Rewrite(items[i], from, to)))
    case Object(fields) => Object(map k | k in fields :: Rewrite(fields[k], from, to))
    case _ => v
  }

  /** P holds of every string in the value, the names of fields aside. */
  predicate Everywhere(v: Json, p: string -> bool) {
    match v
    case String(x) => p(x)
    case List(items) => forall i :: 0 <= i < |items| ==> Everywhere(items[i], p)
    case Object(fields) => forall k :: k in fields ==> Everywhere(fields[k], p)
    case _ => true
  }

  lemma TextUndone(x: string, from: string, to: string)
    ensures RewriteText(RewriteText(x, from, to), to, from) == x <==> (to <= x ==> from <= x)
  {
    if from <= x {
      assert (to + x[|from|..])[|to|..] == x[|from|..];
      assert x == from + x[|from|..];
    } else if to <= x {
      assert from <= from + x[|to|..];
    }
  }

  /** The reverse rewrite gives the value back exactly when no string carries only the
      destination prefix. */
  lemma {:induction false} RewriteUndone(v: Json, from: string, to: string)
    ensures Rewrite(Rewrite(v, from, to), to, from) == v <==> Everywhere(v, x => to <= x ==> from <= x)
  {
    var back := Rewrite(Rewrite(v, from, to), to, from);
    match v
    case String(x) => TextUndone(x, from, to);
    case List(items) =>
      forall i | 0 <= i < |items|
        ensures back.items[i] == items[i] <==> Everywhere(items[i], x => to <= x ==> from <= x)
      {
        RewriteUndone(items[i], from, to);
      }
      assert back.items == items <==> forall i :: 0 <= i < |items| ==> back.items[i] == items[i];
    case Object(fields) =>
      forall k | k in fields
        ensures back.fields[k] == fields[k] <==> Everywhere(fields[k], x => to <= x ==> from <= x)
      {
        RewriteUndone(fields[k], from, to);
      }
      assert back.fields.Keys == fields.Keys;
      assert back.fields == fields <==> forall k :: k in fields ==> back.fields[k] == fields[k];
    case _ =>
  }

  lemma PrefixesMeet(a: string, b: string, x: string)
    requires a <= x && b <= x
    ensures a <= b || b <= a
  {
    if |a| <= |b| {
      assert a == x[..|b|][..|a|];
    } else {
      assert b == x[..|a|][..|b|];
    }
  }

  lemma TailsCancel(a: string, b: string, x: string)
    requires a + x == b + x
    ensures a == b
  {
    assert (a + x)[..|a|] == a && (b + x)[..|b|] == b;
  }

  predicate Apart(from: string, to: string) { !(from <= to) && !(to <= from) }

  /** What the rewrite makes of a string no longer has the source prefix. */
  predicate LosesPrefix(x: string, from: string, to: string) { from <= x ==> !(from <= to + x[|from|..]) }

  /** No string with the source prefix is left exactly when none of those it rewrites comes
      out with that prefix again. */
  lemma {:induction false} RewriteLeavesNone(v: Json, from: string, to: string)
    ensures Everywhere(Rewrite(v, from, to), x => !(from <= x)) <==> Everywhere(v, x => LosesPrefix(x, from, to))
  {
    var w := Rewrite(v, from, to);
    match v
    case String(x) =>
    case List(items) =>
      forall i | 0 <= i < |items|
        ensures Everywhere(w.items[i], x => !(from <= x)) <==> Everywhere(items[i], x => LosesPrefix(x, from, to))
      {
        RewriteLeavesNone(items[i], from, to);
      }
    case Object(fields) =>
      forall k | k in fields
        ensures Everywhere(w.fields[k], x => !(from <= x)) <==> Everywhere(fields[k], x => LosesPrefix(x, from, to))
      {
        RewriteLeavesNone(fields[k], from, to);
      }
    case _ =>
  }

  /** Which it never does when neither prefix extends the other. */
  lemma ApartLoses(x: string, from: string, to: string)
    requires Apart(from, to)
    ensures LosesPrefix(x, from, to)
  {
    if from <= x {
      var y := to + x[|from|..];
      if from <= y { PrefixesMeet(from, to, y); }
    }
  }

  /** The value with every string blanked. */
  function Shape(v: Json): Json {
    match v
    case String(_) => String("")
    case List(items) => List(seq(|items|, i requires 0 <= i < |items| => Shape(items[i])))
    case Object(fields) => Object(map k | k in fields :: Shape(fields[k]))
    case _ => v
  }

  lemma {:induction false} RewriteKeepsShape(v: Json, from: string, to: string)
    ensures Shape(Rewrite(v, from, to)) == Shape(v)
  {
    var w := Rewrite(v, from, to);
    match v
    case List(items) =>
      forall i | 0 <= i < |items| ensures Shape(w.items[i]) == Shape(items[i]) {
        RewriteKeepsShape(items[i], from, to);
      }
      assert Shape(w).items == Shape(v).items;
    case Object(fields) =>
      forall k | k in fields ensures Shape(w.fields[k]) == Shape(fields[k]) {
        RewriteKeepsShape(fields[k], from, to);
      }
      assert Shape(w).fields == Shape(v).fields;
    case _ =>
  }

  lemma {:induction false} RewriteSame(a: Json, b: Json, from: string, to: string)
    requires Same(a, b)
    ensures Same(Rewrite(a, from, to), Rewrite(b, from, to))
  {
    if a.List? && b.List? {
      forall i | 0 <= i < |a.items| ensures Same(Rewrite(a.items[i], from, to), Rewrite(b.items[i], from, to)) {
        RewriteSame(a.items[i], b.items[i], from, to);
      }
    } else if a.Object? && b.Object? {
      forall k | k in a.fields ensures Same(Rewrite(a.fields[k], from, to), Rewrite(b.fields[k], from, to)) {
        RewriteSame(a.fields[k], b.fields[k], from, to);
      }
    }
  }

  /** The rewrite leaves a value alone exactly when no string carries the source prefix. */
  lemma {:induction false} RewriteFixes(v: Json, from: string, to: string)
    requires from != to
    ensures Same(Rewrite(v, from, to), v) <==> Everywhere(v, x => !(from <= x))
  {
    match v
    case String(x) =>
      if from <= x {
        var rest := x[|from|..];
        assert x == from + rest;
        if to + rest == from + rest { TailsCancel(to, from, rest); }
      }
    case List(items) =>
      forall i | 0 <= i < |items|
        ensures Same(Rewrite(items[i], from, to), items[i]) <==> Everywhere(items[i], x => !(from <= x))
      {
        RewriteFixes(items[i], from, to);
      }
    case Object(fields) =>
      forall k | k in fields
        ensures Same(Rewrite(fields[k], from, to), fields[k]) <==> Everywhere(fields[k], x => !(from <= x))
      {
        RewriteFixes(fields[k], from, to);
      }
    case _ =>
  }
}
