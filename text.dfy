/**
 * The string operations the servers use: `trim`, `split('\n')`, `includes`,
 * `startsWith`, the decimal rendering of an integer, and the split of a URL
 * path into its `/`-separated segments.
 */
module Text {

  /** The characters that JavaScript's `String.prototype.trim` removes (WhiteSpace and LineTerminator). */
  predicate IsSpace(c: char) {
    c == ' ' || c == '\t' || c == '\n' || c == '\r' || c == '\U{B}' || c == '\U{C}'
    || c == '\U{A0}' || c == '\U{1680}' || ('\U{2000}' <= c <= '\U{200A}')
    || c == '\U{2028}' || c == '\U{2029}' || c == '\U{202F}' || c == '\U{205F}'
    || c == '\U{3000}' || c == '\U{FEFF}'
  }

  predicate Blank(s: string) {
    forall i :: 0 <= i < |s| ==> IsSpace(s[i])
  }

  /** `trimStart`: the longest suffix that does not start with white space. */
  function TrimStart(s: string): (r: string)
    ensures |r| <= |s| && r == s[|s| - |r|..]
    ensures Blank(s[..|s| - |r|])
    ensures r == [] || !IsSpace(r[0])
  {
    if s != [] && IsSpace(s[0]) then TrimStart(s[1..]) else s
  }

  /** `trimEnd`: the longest prefix that does not end with white space. */
  function TrimEnd(s: string): (r: string)
    ensures |r| <= |s| && r == s[..|r|]
    ensures Blank(s[|r|..])
    ensures r == [] || !IsSpace(r[|r| - 1])
  {
    if s != [] && IsSpace(s[|s| - 1]) then TrimEnd(s[..|s| - 1]) else s
  }

  /** `trim`: the result is empty exactly when the string is all white space. */
  function Trim(s: string): (r: string)
    ensures r == [] <==> Blank(s)
    ensures r == [] || (!IsSpace(r[0]) && !IsSpace(r[|r| - 1]))
  {
    var t := TrimStart(s);
    assert s == s[..|s| - |t|] + t;
    TrimEnd(t)
  }

  /** `s.split(sep)` for a one-character separator: never empty, and no part holds the separator. */
  function Split(s: string, sep: char): (parts: seq<string>)
    ensures |parts| >= 1
    ensures forall k :: 0 <= k < |parts| ==> sep !in parts[k]
  {
    if s == [] then [""]
    else
      var rest := Split(s[1..], sep);
      if s[0] == sep then [""] + rest else [[s[0]] + rest[0]] + rest[1..]
  }

  /** `parts.join(sep)`, the inverse of `Split`. */
  function Join(parts: seq<string>, sep: char): string
    requires |parts| >= 1
  {
    if |parts| == 1 then parts[0] else parts[0] + [sep] + Join(parts[1..], sep)
  }

  lemma {:induction false} JoinSplit(s: string, sep: char)
    ensures Join(Split(s, sep), sep) == s
  {
    if s != [] {
      var rest := Split(s[1..], sep);
      JoinSplit(s[1..], sep);
      if s[0] == sep {
        assert s == [sep] + s[1..];
      } else if |rest| == 1 {
        assert s == [s[0]] + s[1..];
      } else {
        assert ([[s[0]] + rest[0]] + rest[1..])[1..] == rest[1..];
        assert s == [s[0]] + s[1..];
      }
    }
  }

  lemma {:induction false} SplitNoSeparator(s: string, sep: char)
    requires sep !in s
    ensures Split(s, sep) == [s]
  {
    if s != [] {
      SplitNoSeparator(s[1..], sep);
      assert s == [s[0]] + s[1..];
    }
  }

  /** Splitting at a separator splits the two sides independently. */
  lemma {:induction false} SplitAround(a: string, b: string, sep: char)
    ensures Split(a + [sep] + b, sep) == Split(a, sep) + Split(b, sep)
  {
    if a == [] {
      assert a + [sep] + b == [sep] + b;
      assert ([sep] + b)[1..] == b;
    } else {
      SplitAround(a[1..], b, sep);
      SplitConsAppend(a[0], a[1..], a[1..] + [sep] + b, Split(b, sep), sep);
      assert a == [a[0]] + a[1..];
      assert a + [sep] + b == [a[0]] + (a[1..] + [sep] + b);
    }
  }

  /** Prepending one character to two strings keeps a common tail of their splits. */
  lemma SplitConsAppend(c: char, x: string, y: string, tail: seq<string>, sep: char)
    requires Split(y, sep) == Split(x, sep) + tail
    ensures Split([c] + y, sep) == Split([c] + x, sep) + tail
  {
    if c == sep {
      SplitAtSeparator(x, sep);
      SplitAtSeparator(y, sep);
      ConsAppend("", Split(x, sep), tail);
    } else {
      SplitExtends(c, x, sep);
      SplitExtends(c, y, sep);
      HeadAppend(c, Split(x, sep), tail);
    }
  }

  lemma ConsAppend(first: string, parts: seq<string>, tail: seq<string>)
    ensures [first] + (parts + tail) == ([first] + parts) + tail
  {
  }

  lemma HeadAppend(c: char, parts: seq<string>, tail: seq<string>)
    requires |parts| >= 1
    ensures [[c] + (parts + tail)[0]] + (parts + tail)[1..] == ([[c] + parts[0]] + parts[1..]) + tail
  {
    assert (parts + tail)[0] == parts[0];
    assert (parts + tail)[1..] == parts[1..] + tail;
  }

  /** A leading separator opens an empty first part. */
  lemma SplitAtSeparator(s: string, sep: char)
    ensures Split([sep] + s, sep) == [""] + Split(s, sep)
  {
    var cs := [sep] + s;
    assert cs[0] == sep && cs[1..] == s;
  }

  /** Any other leading character joins the first part. */
  lemma SplitExtends(c: char, s: string, sep: char)
    requires c != sep
    ensures Split([c] + s, sep) == [[c] + Split(s, sep)[0]] + Split(s, sep)[1..]
  {
    var cs := [c] + s;
    assert cs[0] == c && cs[1..] == s;
  }

  lemma {:induction false} SplitJoin(parts: seq<string>, sep: char)
    requires |parts| >= 1
    requires forall k :: 0 <= k < |parts| ==> sep !in parts[k]
    ensures Split(Join(parts, sep), sep) == parts
  {
    if |parts| == 1 {
      SplitNoSeparator(parts[0], sep);
    } else {
      SplitNoSeparator(parts[0], sep);
      SplitJoin(parts[1..], sep);
      SplitAround(parts[0], Join(parts[1..], sep), sep);
      assert parts == [parts[0]] + parts[1..];
    }
  }

  /** The segments of an absolute URL path: what follows the leading `/`, split on `/`. */
  function Segments(path: string): seq<string> {
    Split(if |path| > 0 && path[0] == '/' then path[1..] else path, '/')
  }

  /** `/collection/id`, as the clients build it with a template literal. */
  function Under(collection: string, id: string): string {
    "/" + collection + "/" + id
  }

  /** `/collection/id/action`. */
  function Action(collection: string, id: string, action: string): string {
    Under(collection, id) + "/" + action
  }

  lemma UnderSegments(collection: string, id: string)
    requires '/' !in collection
    ensures Segments(Under(collection, id)) == [collection] + Split(id, '/')
  {
    assert Under(collection, id)[1..] == collection + ['/'] + id;
    SplitAround(collection, id, '/');
    SplitNoSeparator(collection, '/');
  }

  lemma ActionSegments(collection: string, id: string, action: string)
    requires '/' !in collection && '/' !in action
    ensures Segments(Action(collection, id, action)) == [collection] + Split(id, '/') + [action]
  {
    var rest := id + ['/'] + action;
    assert Action(collection, id, action)[1..] == collection + ['/'] + rest;
    SplitAround(collection, rest, '/');
    SplitAround(id, action, '/');
    SplitNoSeparator(collection, '/');
    SplitNoSeparator(action, '/');
  }

  predicate OccursAt(s: string, sub: string, i: int) {
    0 <= i <= |s| - |sub| && s[i..i + |sub|] == sub
  }

  /** `s.includes(sub)`: a case-sensitive substring test. */
  function Contains(s: string, sub: string): (b: bool)
    ensures b <==> exists i :: OccursAt(s, sub, i)
  {
    if |sub| > |s| then false
    else if s[..|sub|] == sub then assert OccursAt(s, sub, 0); true
    else
      var b := Contains(s[1..], sub);
      assert forall i :: OccursAt(s[1..], sub, i) <==> OccursAt(s, sub, i + 1);
      assert forall i :: OccursAt(s, sub, i) ==> i == 0 || OccursAt(s[1..], sub, i - 1);
      b
  }

  /** A string in which a character never occurs contains no substring starting with it. */
  lemma Absent(s: string, sub: string)
    requires |sub| > 0 && sub[0] !in s
    ensures !Contains(s, sub)
  {
  }

  predicate StartsWith(s: string, prefix: string) {
    |prefix| <= |s| && s[..|prefix|] == prefix
  }

  function Digit(d: nat): char
    requires d < 10
  {
    "0123456789"[d]
  }

  /** The decimal digits of a natural number, as `String(n)` writes them. */
  function NatToString(n: nat): (r: string)
    ensures |r| >= 1
    ensures forall i :: 0 <= i < |r| ==> '0' <= r[i] <= '9'
  {
    if n < 10 then [Digit(n)] else NatToString(n / 10) + [Digit(n % 10)]
  }

  /** `String(n)` for an integer-valued number. */
  function IntToString(n: int): string {
    if n < 0 then "-" + NatToString(-n) else NatToString(n)
  }
}
