/** The JavaScript string operations the screens use: `toLowerCase`,
    `includes`, `trim`, `split(',')` and `Array.prototype.join`. Strings are
    sequences of characters. */
module Text {

  /** The characters `String.prototype.trim` removes: the ECMAScript
      WhiteSpace and LineTerminator code points. */
  predicate IsWhitespace(c: char)
  {
    var n := c as int;
    n == 0x09 || n == 0x0A || n == 0x0B || n == 0x0C || n == 0x0D || n == 0x20 ||
    n == 0xA0 || n == 0x1680 || (0x2000 <= n <= 0x200A) || n == 0x2028 ||
    n == 0x2029 || n == 0x202F || n == 0x205F || n == 0x3000 || n == 0xFEFF
  }

  predicate IsAsciiUpper(c: char)
  {
    'A' <= c <= 'Z'
  }

  /** `toLowerCase` on one character; only ASCII letters are mapped. */
  function LowerChar(c: char): (r: char)
    ensures !IsAsciiUpper(r)
    ensures !IsAsciiUpper(c) ==> r == c
  {
    if IsAsciiUpper(c) then (c as int + 32) as char else c
  }

  /** `s.toLowerCase()`: same length, no upper-case ASCII letter left,
      every other character kept. */
  function ToLower(s: string): (r: string)
    ensures |r| == |s|
    ensures forall i :: 0 <= i < |r| ==> !IsAsciiUpper(r[i])
    ensures forall i :: 0 <= i < |s| && !IsAsciiUpper(s[i]) ==> r[i] == s[i]
  {
    if s == [] then [] else [LowerChar(s[0])] + ToLower(s[1..])
  }

  /** `hay.includes(needle)`: `needle` occurs in `hay` at some position. */
  predicate Contains(hay: string, needle: string)
    decreases |hay|
  {
    needle <= hay || (hay != [] && Contains(hay[1..], needle))
  }

  /** The empty string occurs in every string. */
  lemma EmptyContained(hay: string)
    ensures Contains(hay, "")
  {
  }

  /** A string that occurs in `hay` is no longer than `hay`. */
  lemma {:induction false} ContainedIsShorter(hay: string, needle: string)
    requires Contains(hay, needle)
    ensures |needle| <= |hay|
    decreases |hay|
  {
    if !(needle <= hay) {
      ContainedIsShorter(hay[1..], needle);
    }
  }

  /** Drops leading whitespace: what remains is a suffix of `s`, everything
      dropped is whitespace and the remainder does not start with it. */
  function TrimStart(s: string): (r: string)
    ensures |r| <= |s| && r == s[|s| - |r|..]
    ensures forall i :: 0 <= i < |s| - |r| ==> IsWhitespace(s[i])
    ensures r == [] || !IsWhitespace(r[0])
  {
    if s != [] && IsWhitespace(s[0]) then TrimStart(s[1..]) else s
  }

  /** Drops trailing whitespace: what remains is a prefix of `s`, everything
      dropped is whitespace and the remainder does not end with it. */
  function TrimEnd(s: string): (r: string)
    ensures |r| <= |s| && r == s[..|r|]
    ensures forall i :: |r| <= i < |s| ==> IsWhitespace(s[i])
    ensures r == [] || !IsWhitespace(r[|r| - 1])
  {
    if s != [] && IsWhitespace(s[|s| - 1]) then TrimEnd(s[..|s| - 1]) else s
  }

  /** Neither starts nor ends with whitespace. */
  predicate IsTrimmed(s: string)
  {
    s == [] || (!IsWhitespace(s[0]) && !IsWhitespace(s[|s| - 1]))
  }

  /** `s[i..j]` is what remains of `s` once whitespace is removed in front
      of `i` and from `j` on. */
  predicate StripsTo(s: string, i: int, j: int)
  {
    0 <= i <= j <= |s| &&
    (forall k :: 0 <= k < i ==> IsWhitespace(s[k])) &&
    (forall k :: j <= k < |s| ==> IsWhitespace(s[k]))
  }

  /** `s.trim()`: the part of `s` left when the whitespace at both ends is
      removed. It is trimmed, no longer than `s`, and `s` itself when `s` is
      already trimmed. */
  function Trim(s: string): (r: string)
    ensures exists i, j :: StripsTo(s, i, j) && r == s[i..j]
    ensures IsTrimmed(r)
    ensures |r| <= |s|
    ensures forall c :: c in r ==> c in s
    ensures IsTrimmed(s) ==> r == s
  {
    var t := TrimStart(s);
    var r := TrimEnd(t);
    var i := |s| - |t|;
    TrimIsInfix(s, t, r);
    assert StripsTo(s, i, i + |r|) && r == s[i..i + |r|];
    assert r != [] ==> r[0] == t[0];
    assert forall c :: c in r ==> c in t;
    assert forall c :: c in t ==> c in s;
    r
  }

  lemma TrimIsInfix(s: string, t: string, r: string)
    requires |t| <= |s| && t == s[|s| - |t|..]
    requires forall k :: 0 <= k < |s| - |t| ==> IsWhitespace(s[k])
    requires |r| <= |t| && r == t[..|r|]
    requires forall k :: |r| <= k < |t| ==> IsWhitespace(t[k])
    ensures StripsTo(s, |s| - |t|, |s| - |t| + |r|)
    ensures r == s[|s| - |t|..|s| - |t| + |r|]
  {
    var i := |s| - |t|;
    forall k | i + |r| <= k < |s|
      ensures IsWhitespace(s[k])
    {
      assert s[k] == t[k - i];
    }
  }

  /** Whitespace only is trimmed away completely. */
  lemma {:induction false} TrimBlank(s: string)
    requires forall c :: c in s ==> IsWhitespace(c)
    ensures Trim(s) == ""
  {
    TrimStartBlank(s);
  }

  lemma {:induction false} TrimStartBlank(s: string)
    requires forall c :: c in s ==> IsWhitespace(c)
    ensures TrimStart(s) == ""
  {
    if s != [] {
      assert s[0] in s;
      assert forall c :: c in s[1..] ==> c in s;
      TrimStartBlank(s[1..]);
    }
  }

  /** Trimming whitespace in front of a trimmed, non-empty string yields
      that string. */
  lemma {:induction false} TrimAfterBlank(w: string, p: string)
    requires forall c :: c in w ==> IsWhitespace(c)
    requires p != [] && IsTrimmed(p)
    ensures Trim(w + p) == p
  {
    TrimStartBeforeText(w, p);
  }

  lemma {:induction false} TrimStartBeforeText(w: string, p: string)
    requires forall c :: c in w ==> IsWhitespace(c)
    requires p != [] && !IsWhitespace(p[0])
    ensures TrimStart(w + p) == p
  {
    if w == [] {
      assert w + p == p;
    } else {
      assert w[0] in w;
      assert (w + p)[1..] == w[1..] + p;
      assert forall c :: c in w[1..] ==> c in w;
      TrimStartBeforeText(w[1..], p);
    }
  }

  /** `s.split(',')`: the pieces between commas, at least one of them and
      none containing a comma. */
  function Split(s: string): (r: seq<string>)
    ensures |r| >= 1
    ensures forall piece :: piece in r ==> ',' !in piece
    ensures forall piece, c :: piece in r && c in piece ==> c in s
  {
    if s == [] then [""]
    else
      var rest := Split(s[1..]);
      assert forall piece :: piece in rest[1..] ==> piece in rest;
      if s[0] == ',' then [""] + rest
      else [[s[0]] + rest[0]] + rest[1..]
  }

  /** `parts.join(sep)`. */
  function Join(parts: seq<string>, sep: string): string
  {
    if parts == [] then ""
    else if |parts| == 1 then parts[0]
    else parts[0] + sep + Join(parts[1..], sep)
  }

  /** Splitting on commas and joining with a comma gives back the string. */
  lemma {:induction false} JoinSplit(s: string)
    ensures Join(Split(s), ",") == s
  {
    if s != [] {
      JoinSplit(s[1..]);
      var rest := Split(s[1..]);
      if s[0] == ',' {
        assert Split(s)[1..] == rest;
      } else {
        var r := Split(s);
        assert r[0] == [s[0]] + rest[0] && r[1..] == rest[1..];
        if |rest| > 1 {
          assert Join(rest, ",") == rest[0] + "," + Join(rest[1..], ",");
        }
      }
    }
  }

  /** A comma-free string is a single piece. */
  lemma {:induction false} SplitNoComma(a: string)
    requires ',' !in a
    ensures Split(a) == [a]
  {
    if a != [] {
      assert ',' !in a[1..];
      SplitNoComma(a[1..]);
      assert [a[0]] + a[1..] == a;
    }
  }

  /** A comma after a comma-free prefix ends the first piece. */
  lemma {:induction false} SplitAtComma(a: string, b: string)
    requires ',' !in a
    ensures Split(a + "," + b) == [a] + Split(b)
  {
    if a == [] {
      assert a + "," + b == [','] + b;
      assert ([','] + b)[1..] == b;
    } else {
      assert ',' !in a[1..];
      SplitAtComma(a[1..], b);
      assert (a + "," + b)[1..] == a[1..] + "," + b;
      assert [a[0]] + a[1..] == a;
    }
  }
}
