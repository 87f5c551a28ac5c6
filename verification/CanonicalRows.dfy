/** The compact ASCII JSON text of a list of rows, as flowdocs/core/media_quarantine.py feeds
    it to a digest piece by piece, and how far it determines the list. */
module CanonicalRows {

  /** A Python str is a sequence of code points, lone surrogates among them. */
  type Code = c: int | 0 <= c < 0x11_0000

  type Text = seq<Code>

  type Unit = u: int | 0 <= u < 0x1_0000

  /** A cell holds the 16-bit units of its text: json.dumps escapes nothing wider. */
  datatype Cell = Null | Number(n: nat) | Str(units: seq<Unit>)

  type Row = r: seq<Cell> | |r| > 0 witness [Null]

  // ---------------------------------------------------------------- texts and units

  predicate High(c: int) { 0xD800 <= c < 0xDC00 }

  predicate Low(c: int) { 0xDC00 <= c < 0xE000 }

  function UnitsOf(c: Code): (r: seq<Unit>)
    ensures |r| == if c < 0x1_0000 then 1 else 2
    ensures c < 0x1_0000 ==> r[0] == c
    ensures c >= 0x1_0000 ==> High(r[0]) && Low(r[1]) && c == Pair(r[0], r[1])
  {
    if c < 0x1_0000 then [c]
    else
      var n := c - 0x1_0000;
      assert n / 0x400 < 0x400 && n == 0x400 * (n / 0x400) + n % 0x400;
      [0xD800 + n / 0x400, 0xDC00 + n % 0x400]
  }

  function Units(t: Text): seq<Unit> { if t == [] then [] else UnitsOf(t[0]) + Units(t[1..]) }

  /** The code point that a surrogate pair stands for. */
  function Pair(high: int, low: int): int { 0x1_0000 + 0x400 * (high - 0xD800) + (low - 0xDC00) }

  /** Every high surrogate directly before a low one joined with it. */
  function Joined(t: Text): Text {
    if t == [] then []
    else if |t| >= 2 && High(t[0]) && Low(t[1]) then [Pair(t[0], t[1])] + Joined(t[2..])
    else [t[0]] + Joined(t[1..])
  }

  predicate NoPairs(t: Text) { forall i :: 0 <= i < |t| - 1 ==> !(High(t[i]) && Low(t[i + 1])) }

  lemma PairUnits(high: int, low: int)
    requires High(high) && Low(low)
    ensures UnitsOf(Pair(high, low)) == [high, low]
  {
    var n := Pair(high, low) - 0x1_0000;
    assert n / 0x400 == high - 0xD800 && n % 0x400 == low - 0xDC00;
  }

  lemma UnitsOn(c: Code, rest: Text)
    ensures Units([c] + rest) == UnitsOf(c) + Units(rest)
  {
    assert ([c] + rest)[1..] == rest;
  }

  lemma UnitsOfPair(t: Text)
    requires |t| >= 2 && High(t[0]) && Low(t[1])
    ensures Units(t) == UnitsOf(Pair(t[0], t[1])) + Units(t[2..])
  {
    PairUnits(t[0], t[1]);
    UnitsOn(t[1], t[2..]);
    UnitsOn(t[0], t[1..]);
    assert t[1..] == [t[1]] + t[2..] && t == [t[0]] + t[1..];
  }

  /** Joining pairs changes nothing of what is escaped. */
  lemma {:induction false} JoinedUnits(t: Text)
    ensures Units(Joined(t)) == Units(t)
    decreases |t|
  {
    if t != [] {
      if |t| >= 2 && High(t[0]) && Low(t[1]) {
        UnitsOfPair(t);
        UnitsOn(Pair(t[0], t[1]), Joined(t[2..]));
        JoinedUnits(t[2..]);
      } else {
        UnitsOn(t[0], Joined(t[1..]));
        JoinedUnits(t[1..]);
      }
    }
  }

  lemma {:induction false} JoinedNoPairs(t: Text)
    ensures NoPairs(Joined(t))
    ensures Joined(t) != [] && Low(Joined(t)[0]) ==> t != [] && Low(t[0])
    decreases |t|
  {
    if t != [] {
      if |t| >= 2 && High(t[0]) && Low(t[1]) {
        JoinedNoPairs(t[2..]);
      } else {
        JoinedNoPairs(t[1..]);
      }
    }
  }

  lemma {:induction false} JoinedFixes(t: Text)
    requires NoPairs(t)
    ensures Joined(t) == t
  {
    if t != [] {
      assert forall i :: 0 <= i < |t| - 1 ==> t[1..][i] == t[i + 1];
      JoinedFixes(t[1..]);
    }
  }

  /** The units of a text begin with a low surrogate only if the text does. */
  lemma LowFirst(t: Text)
    requires Units(t) != [] && Low(Units(t)[0])
    ensures t != [] && t[0] == Units(t)[0]
  {
  }

  lemma WideStarts(s: Text, t: Text)
    requires s != [] && t != [] && Units(s) == Units(t) && s[0] < 0x1_0000 <= t[0]
    ensures |s| >= 2 && High(s[0]) && Low(s[1])
  {
    assert Units(t)[0] == s[0] && Units(t)[1] == UnitsOf(t[0])[1];
    assert Units(s)[1..] == Units(s[1..]);
    assert Units(s[1..])[0] == Units(t)[1];
    LowFirst(s[1..]);
    assert s[1..][0] == s[1];
  }

  lemma FirstTells(s: Text, t: Text)
    requires NoPairs(s) && s != [] && t != [] && Units(s) == Units(t) && s[0] < 0x1_0000
    ensures t[0] == s[0]
  {
    if t[0] >= 0x1_0000 {
      WideStarts(s, t);
    } else {
      assert Units(s)[0] == s[0] && Units(t)[0] == t[0];
    }
  }

  /** A text without pairs is determined by its units. */
  lemma {:induction false} UnitsTell(s: Text, t: Text)
    requires NoPairs(s) && NoPairs(t) && Units(s) == Units(t)
    ensures s == t
    decreases |s|
  {
    if s == [] || t == [] {
      assert s == t;
    } else {
      if s[0] < 0x1_0000 { FirstTells(s, t); }
      if t[0] < 0x1_0000 { FirstTells(t, s); }
      var u, v := UnitsOf(s[0]), UnitsOf(t[0]);
      assert Units(s)[0] == u[0] && Units(t)[0] == v[0] && |u| == |v|;
      if |u| == 2 { assert Units(s)[1] == u[1] && Units(t)[1] == v[1]; }
      assert Units(s)[|u|..] == Units(s[1..]) && Units(t)[|v|..] == Units(t[1..]);
      assert forall i :: 0 <= i < |s| - 1 ==> s[1..][i] == s[i + 1];
      assert forall i :: 0 <= i < |t| - 1 ==> t[1..][i] == t[i + 1];
      UnitsTell(s[1..], t[1..]);
      assert s == [s[0]] + s[1..] && t == [t[0]] + t[1..];
    }
  }

  /** Exactly when two texts are escaped alike: when they agree once pairs are joined. */
  lemma SameUnits(s: Text, t: Text)
    ensures Units(s) == Units(t) <==> Joined(s) == Joined(t)
  {
    JoinedUnits(s);
    JoinedUnits(t);
    JoinedNoPairs(s);
    JoinedNoPairs(t);
    if Units(s) == Units(t) { UnitsTell(Joined(s), Joined(t)); }
  }

  /** Two texts that are escaped alike: U+D83D U+DE00 and U+1F600. */
  lemma SurrogatesCollide()
    ensures var s: Text, t: Text := [0xD83D, 0xDE00], [0x1_F600]; s != t && Units(s) == Units(t)
  {
    var s: Text, t: Text := [0xD83D, 0xDE00], [0x1_F600];
    assert s[2..] == [] && Joined(s) == [Pair(0xD83D, 0xDE00)] == t;
    JoinedUnits(s);
  }

  /** The code points of a string of Unicode scalar values. */
  function Codes(s: string): (t: Text)
    ensures |t| == |s|
  {
    seq(|s|, i requires 0 <= i < |s| => s[i] as int)
  }

  lemma CodesNoPairs(s: string)
    ensures NoPairs(Codes(s))
  {
  }

  // ---------------------------------------------------------------- units

  function HexDigit(k: nat): char
    requires k < 16
  {
    if k < 10 then '0' + k as char else 'a' + (k - 10) as char
  }

  function HexValue(c: char): int { if c <= '9' then c as int - '0' as int else c as int - 'a' as int + 10 }

  /** A unit as backslash, u and four digits. */
  function Hex(u: Unit): (r: string)
    ensures |r| == 6
  {
    ['\\', 'u', HexDigit(u / 4096), HexDigit(u / 256 % 16), HexDigit(u / 16 % 16), HexDigit(u % 16)]
  }

  function HexUnit(s: string): int
    requires |s| >= 6
  {
    4096 * HexValue(s[2]) + 256 * HexValue(s[3]) + 16 * HexValue(s[4]) + HexValue(s[5])
  }

  /** The letter after the backslash, for the units that have one: quote, backslash, newline,
      return, tab, backspace and form feed. */
  function Letter(u: Unit): char {
    match u
    case 34 => '"'
    case 92 => '\\'
    case 10 => 'n'
    case 13 => 'r'
    case 9 => 't'
    case 8 => 'b'
    case 12 => 'f'
    case _ => 'u'
  }

  /** A unit as json.dumps writes it with ensure_ascii. */
  function Escape(u: Unit): (r: string)
    ensures r != "" && r[0] != '"'
  {
    if Letter(u) != 'u' then ['\\', Letter(u)]
    else if 32 <= u <= 126 then [u as char]
    else Hex(u)
  }

  /** The unit at the start of a text. */
  function UnitAt(s: string): int
    requires s != ""
  {
    if s[0] != '\\' || |s| == 1 then s[0] as int
    else
      match s[1]
      case 'n' => 10
      case 'r' => 13
      case 't' => 9
      case 'b' => 8
      case 'f' => 12
      case 'u' => if |s| < 6 then 0 else HexUnit(s)
      case other => other as int
  }

  lemma HexRead(k: nat)
    requires k < 16
    ensures HexValue(HexDigit(k)) == k
  {
  }

  lemma Digits16(u: nat)
    ensures u == 4096 * (u / 4096) + 256 * (u / 256 % 16) + 16 * (u / 16 % 16) + u % 16
  {
    assert u / 256 == 16 * (u / 4096) + u / 256 % 16;
    assert u / 16 == 16 * (u / 256) + u / 16 % 16;
  }

  lemma HexUnitRead(u: Unit, x: string)
    ensures HexUnit(Hex(u) + x) == u
  {
    var s := Hex(u) + x;
    assert s[2] == HexDigit(u / 4096) && s[3] == HexDigit(u / 256 % 16);
    assert s[4] == HexDigit(u / 16 % 16) && s[5] == HexDigit(u % 16);
    HexRead(u / 4096);
    HexRead(u / 256 % 16);
    HexRead(u / 16 % 16);
    HexRead(u % 16);
    Digits16(u);
  }

  lemma EscapeRead(u: Unit, x: string)
    ensures UnitAt(Escape(u) + x) == u
  {
    var s := Escape(u) + x;
    assert s[0] == Escape(u)[0];
    if Letter(u) != 'u' {
      assert s[1] == Letter(u);
    } else if !(32 <= u <= 126) {
      HexUnitRead(u, x);
      assert s[0] == '\\' && s[1] == 'u';
    }
  }

  lemma Tails(a: string, x: string, b: string, y: string)
    requires a + x == b + y && |a| == |b|
    ensures a == b && x == y
  {
    assert (a + x)[..|a|] == a && (a + x)[|a|..] == x;
    assert (b + y)[..|b|] == b && (b + y)[|b|..] == y;
  }

  lemma EscapeTells(c: Unit, x: string, d: Unit, y: string)
    requires Escape(c) + x == Escape(d) + y
    ensures c == d && x == y
  {
    EscapeRead(c, x);
    EscapeRead(d, y);
    Tails(Escape(c), x, Escape(d), y);
  }

  // ---------------------------------------------------------------- cells

  /** The rest of a string literal, with its closing quote. */
  function Quoted(s: seq<Unit>): (r: string)
    ensures r != "" && (r[0] == '"' <==> s == [])
  {
    if s == [] then "\"" else Escape(s[0]) + Quoted(s[1..])
  }

  lemma QuotedSplit(s: seq<Unit>, x: string)
    requires s != []
    ensures Quoted(s) + x == Escape(s[0]) + (Quoted(s[1..]) + x)
  {
  }

  lemma {:induction false} QuotedTells(s: seq<Unit>, x: string, t: seq<Unit>, y: string)
    requires Quoted(s) + x == Quoted(t) + y
    ensures s == t && x == y
  {
    assert (Quoted(s) + x)[0] == Quoted(s)[0] && (Quoted(t) + y)[0] == Quoted(t)[0];
    if s == [] {
      Tails("\"", x, "\"", y);
    } else {
      QuotedSplit(s, x);
      QuotedSplit(t, y);
      EscapeTells(s[0], Quoted(s[1..]) + x, t[0], Quoted(t[1..]) + y);
      QuotedTells(s[1..], x, t[1..], y);
      assert s == [s[0]] + s[1..] && t == [t[0]] + t[1..];
    }
  }

  predicate IsDigit(c: char) { '0' <= c <= '9' }

  function Decimal(n: nat): (r: string)
    ensures r != "" && forall i :: 0 <= i < |r| ==> IsDigit(r[i])
  {
    if n < 10 then ['0' + n as char] else Decimal(n / 10) + ['0' + (n % 10) as char]
  }

  function DecimalValue(s: string): int {
    if s == "" then 0 else 10 * DecimalValue(s[..|s| - 1]) + s[|s| - 1] as int - '0' as int
  }

  lemma {:induction false} DecimalRead(n: nat)
    ensures DecimalValue(Decimal(n)) == n
  {
    if n >= 10 {
      DecimalRead(n / 10);
      assert Decimal(n)[..|Decimal(n)| - 1] == Decimal(n / 10);
    }
  }

  lemma DecimalTells(m: nat, x: string, n: nat, y: string)
    requires Decimal(m) + x == Decimal(n) + y
    requires x != "" && y != "" && !IsDigit(x[0]) && !IsDigit(y[0])
    ensures m == n && x == y
  {
    var s, a, b := Decimal(m) + x, Decimal(m), Decimal(n);
    assert s[|a|] == x[0] && (b + y)[|b|] == y[0];
    assert forall i :: 0 <= i < |a| ==> s[i] == a[i];
    assert forall i :: 0 <= i < |b| ==> (b + y)[i] == b[i];
    Tails(a, x, b, y);
    DecimalRead(m);
    DecimalRead(n);
  }

  function Write(c: Cell): (r: string)
    ensures r != "" && (c.Null? <==> r[0] == 'n') && (c.Str? <==> r[0] == '"') && (c.Number? <==> IsDigit(r[0]))
  {
    match c
    case Null => "null"
    case Number(n) => Decimal(n)
    case Str(s) => "\"" + Quoted(s)
  }

  lemma StrSplit(s: seq<Unit>, x: string)
    ensures Write(Str(s)) + x == ['"'] + (Quoted(s) + x)
  {
    var q := Quoted(s);
    assert Write(Str(s)) == ['"'] + q;
    assert (['"'] + q) + x == ['"'] + (q + x);
  }

  lemma StrTells(s: seq<Unit>, x: string, t: seq<Unit>, y: string)
    requires Write(Str(s)) + x == Write(Str(t)) + y
    ensures s == t && x == y
  {
    StrSplit(s, x);
    StrSplit(t, y);
    Tails(['"'], Quoted(s) + x, ['"'], Quoted(t) + y);
    QuotedTells(s, x, t, y);
  }

  lemma CellTells(c: Cell, x: string, d: Cell, y: string)
    requires Write(c) + x == Write(d) + y
    requires x != "" && y != "" && !IsDigit(x[0]) && !IsDigit(y[0])
    ensures c == d && x == y
  {
    SameKind(c, x, d, y);
    match c {
      case Null => Tails("null", x, "null", y);
      case Number(n) => DecimalTells(n, x, d.n, y);
      case Str(t) => StrTells(t, x, d.units, y);
    }
  }

  lemma SameKind(c: Cell, x: string, d: Cell, y: string)
    requires Write(c) + x == Write(d) + y
    ensures (c.Null? <==> d.Null?) && (c.Number? <==> d.Number?) && (c.Str? <==> d.Str?)
  {
    assert (Write(c) + x)[0] == Write(c)[0] && (Write(d) + y)[0] == Write(d)[0];
  }

  // ---------------------------------------------------------------- rows

  /** The cells of a row from some cell on, with the closing bracket. */
  function Cells(r: Row): (t: string)
    ensures t != ""
  {
    if |r| == 1 then Write(r[0]) + "]" else Write(r[0]) + ("," + Cells(r[1..]))
  }

  function WriteRow(r: Row): string { "[" + Cells(r) }

  /** What follows the first cell. */
  function After(r: Row, x: string): (t: string)
    ensures t != "" && t[0] == if |r| == 1 then ']' else ','
  {
    if |r| == 1 then "]" + x else "," + (Cells(r[1..]) + x)
  }

  lemma CellsSplit(r: Row, x: string)
    ensures Cells(r) + x == Write(r[0]) + After(r, x)
  {
  }

  lemma {:induction false} CellsTell(r: Row, x: string, q: Row, y: string)
    requires Cells(r) + x == Cells(q) + y
    ensures r == q && x == y
    decreases |r|
  {
    CellsSplit(r, x);
    CellsSplit(q, y);
    CellTells(r[0], After(r, x), q[0], After(q, y));
    if |r| == 1 {
      Tails("]", x, "]", y);
      assert r == [r[0]] && q == [q[0]];
    } else {
      Tails(",", Cells(r[1..]) + x, ",", Cells(q[1..]) + y);
      CellsTell(r[1..], x, q[1..], y);
      assert r == [r[0]] + r[1..] && q == [q[0]] + q[1..];
    }
  }

  /** The text from some row on; started says that another row came before. */
  function Rest(rows: seq<Row>, started: bool): (t: string)
    ensures t != ""
    ensures t[0] == if rows == [] then ']' else if started then ',' else '['
  {
    if rows == [] then "]" else (if started then "," else "") + (WriteRow(rows[0]) + Rest(rows[1..], true))
  }

  /** The whole text that is hashed. */
  function Stream(rows: seq<Row>): string { "[" + Rest(rows, false) }

  lemma RestSplit(rows: seq<Row>, started: bool)
    requires rows != []
    ensures Rest(rows, started) == (if started then ",[" else "[") + (Cells(rows[0]) + Rest(rows[1..], true))
  {
  }

  lemma FirstRowTells(a: seq<Row>, b: seq<Row>, started: bool)
    requires a != [] && b != [] && Rest(a, started) == Rest(b, started)
    ensures a[0] == b[0] && Rest(a[1..], true) == Rest(b[1..], true)
  {
    var sep := if started then ",[" else "[";
    RestSplit(a, started);
    RestSplit(b, started);
    Tails(sep, Cells(a[0]) + Rest(a[1..], true), sep, Cells(b[0]) + Rest(b[1..], true));
    CellsTell(a[0], Rest(a[1..], true), b[0], Rest(b[1..], true));
  }

  lemma BothEnd(a: seq<Row>, b: seq<Row>, started: bool)
    requires Rest(a, started) == Rest(b, started)
    ensures a == [] <==> b == []
  {
    assert Rest(a, started)[0] == Rest(b, started)[0];
  }

  lemma {:induction false} RestTells(a: seq<Row>, b: seq<Row>, started: bool)
    requires Rest(a, started) == Rest(b, started)
    ensures a == b
  {
    BothEnd(a, b, started);
    if a != [] {
      FirstRowTells(a, b, started);
      RestTells(a[1..], b[1..], true);
      assert a == [a[0]] + a[1..] && b == [b[0]] + b[1..];
    }
  }

  /** Different lists of rows never give the same text: it determines every cell. */
  lemma StreamTells(a: seq<Row>, b: seq<Row>)
    requires Stream(a) == Stream(b)
    ensures a == b
  {
    Tails("[", Rest(a, false), "[", Rest(b, false));
    RestTells(a, b, false);
  }
}
