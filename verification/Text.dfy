/** String and path operations of Python that the models share. */
module Text {

  /** str.isspace. */
  predicate IsSpace(c: char) {
    || '\t' <= c <= '\r' || '\U{1c}' <= c <= ' ' || c == '\U{85}' || c == '\U{a0}' || c == '\U{1680}'
    || '\U{2000}' <= c <= '\U{200a}' || c == '\U{2028}' || c == '\U{2029}' || c == '\U{202f}' || c == '\U{205f}'
    || c == '\U{3000}'
  }

  function TrimLeft(s: string): (r: string)
    ensures r == "" || !IsSpace(r[0])
    ensures |r| <= |s| && r == s[|s| - |r|..]
    ensures |r| == |s| <==> s == "" || !IsSpace(s[0])
  {
    if s != "" && IsSpace(s[0]) then TrimLeft(s[1..]) else s
  }

  function TrimRight(s: string): (r: string)
    ensures r == "" || !IsSpace(r[|r| - 1])
    ensures r <= s
    ensures |r| == |s| <==> s == "" || !IsSpace(s[|s| - 1])
  {
    if s != "" && IsSpace(s[|s| - 1]) then TrimRight(s[..|s| - 1]) else s
  }

  function Strip(s: string): string { TrimRight(TrimLeft(s)) }

  function TrimSlashes(s: string): (r: string)
    ensures r == "" || r[0] != '/'
    ensures |r| <= |s| && r == s[|s| - |r|..]
    ensures |r| == |s| <==> s == "" || s[0] != '/'
  {
    if s != "" && s[0] == '/' then TrimSlashes(s[1..]) else s
  }

  /** value.strip().lstrip("/"). */
  function Trimmed(s: string): string { TrimSlashes(Strip(s)) }

  lemma TrimmedEnds(s: string)
    ensures Trimmed(s) != "" ==> Trimmed(s)[0] != '/' && !IsSpace(Trimmed(s)[|Trimmed(s)| - 1])
  {
    var t, r := Strip(s), Trimmed(s);
    if r != "" { assert r[|r| - 1] == t[|t| - 1]; }
  }

  /** Trimming what is not blank changes nothing exactly when its ends are clean. */
  lemma TrimmedFixes(s: string)
    requires s != ""
    ensures Trimmed(s) == s <==> !IsSpace(s[0]) && !IsSpace(s[|s| - 1]) && s[0] != '/'
  {
    var t := TrimLeft(s);
    assert |Trimmed(s)| <= |Strip(s)| <= |t| <= |s|;
  }

  function Low(c: char): char { if 'A' <= c <= 'Z' then (c - 'A') + 'a' else c }

  function Lower(s: string): string { seq(|s|, i requires 0 <= i < |s| => Low(s[i])) }

  predicate IsSha256(s: string) {
    |s| == 64 && forall i :: 0 <= i < |s| ==> '0' <= s[i] <= '9' || 'a' <= s[i] <= 'f'
  }

  lemma DigestFixes(s: string)
    requires IsSha256(s)
    ensures Lower(Strip(s)) == s
  {
    assert Strip(s) == s;
  }

  // ---------------------------------------------------------------- components of a path

  function Split(s: string): (parts: seq<string>)
    ensures |parts| > 0
  {
    SplitFrom("", s)
  }

  /** The components of head + s, of which head has no slash. */
  function SplitFrom(head: string, s: string): (parts: seq<string>)
    ensures |parts| > 0
    decreases |s|
  {
    if s == "" then [head]
    else if s[0] == '/' then [head] + SplitFrom("", s[1..])
    else SplitFrom(head + [s[0]], s[1..])
  }

  lemma {:induction false} NoSlash(head: string, s: string)
    requires '/' !in s
    ensures SplitFrom(head, s) == [head + s]
    decreases |s|
  {
    if s == "" {
      assert head + s == head;
    } else {
      assert s[0] in s;
      assert forall x :: x in s[1..] ==> x in s;
      NoSlash(head + [s[0]], s[1..]);
      assert head + [s[0]] + s[1..] == head + s;
    }
  }

  lemma {:induction false} SplitJoined(head: string, a: string, b: string)
    ensures SplitFrom(head, a + "/" + b) == SplitFrom(head, a) + Split(b)
    decreases |a|
  {
    var whole := a + "/" + b;
    if a == "" {
      assert whole[1..] == b;
    } else {
      assert whole[1..] == a[1..] + "/" + b;
      if a[0] == '/' {
        SplitJoined("", a[1..], b);
      } else {
        SplitJoined(head + [a[0]], a[1..], b);
      }
    }
  }

  /** The parts that pathlib keeps. */
  function Kept(parts: seq<string>): (r: seq<string>)
    ensures forall p :: p in r <==> p in parts && p != "" && p != "."
  {
    if parts == [] then []
    else if parts[0] == "" || parts[0] == "." then Kept(parts[1..])
    else [parts[0]] + Kept(parts[1..])
  }

  predicate Absolute(s: string) { s != "" && s[0] == '/' }

  /** PurePosixPath(s).parts. */
  function Parts(s: string): seq<string> { (if Absolute(s) then ["/"] else []) + Kept(Split(s)) }

  lemma PartsOfName(s: string)
    requires s != "" && s != "." && '/' !in s
    ensures Parts(s) == [s]
  {
    NoSlash("", s);
    assert "" + s == s && Split(s) == [s];
    var one := [s];
    assert s[0] in s && one[0] == s && one[1..] == [];
    assert Kept(one) == [s] + Kept(one[1..]) == one;
    assert [] + one == one;
  }

  predicate PlainParts(parts: seq<string>) { forall p :: p in parts ==> p != "" && p != "." && p != ".." }

  predicate PlainPath(s: string) { PlainParts(Split(s)) && '\\' !in s }

  lemma PlainJoined(a: string, b: string)
    ensures PlainPath(a + "/" + b) <==> PlainPath(a) && PlainPath(b)
    ensures Basename(a + "/" + b) == Basename(b)
  {
    SplitJoined("", a, b);
    var left, right := Split(a), Split(b);
    assert forall p :: p in left + right <==> p in left || p in right;
    assert forall c :: c in a + "/" + b <==> c in a || c == '/' || c in b;
  }

  /** posixpath.basename. */
  function Basename(s: string): string { var parts := Split(s); parts[|parts| - 1] }
}
