/**
 * The JavaScript string primitives the adapters rely on: `startsWith`,
 * `split('\n')`, `trim()`, and `+=` accumulation over a sequence of pieces.
 */
module Text {

  /** `s.startsWith(prefix)` */
  predicate StartsWith(s: string, prefix: string) {
    |prefix| <= |s| && s[..|prefix|] == prefix
  }

  /**
   * `s.split('\n')`: the pieces between newline characters. There is always
   * at least one piece (the empty string splits into `[""]`), and no piece
   * contains a newline.
   */
  function SplitLines(s: string): (r: seq<string>)
    ensures |r| >= 1
    ensures forall i :: 0 <= i < |r| ==> '\n' !in r[i]
  {
    if |s| == 0 then [""]
    else
      var rest := SplitLines(s[1..]);
      if s[0] == '\n' then [""] + rest
      else [[s[0]] + rest[0]] + rest[1..]
  }

  /** `parts.join('\n')` */
  function JoinLines(parts: seq<string>): string
    requires |parts| >= 1
  {
    if |parts| == 1 then parts[0] else parts[0] + "\n" + JoinLines(parts[1..])
  }

  /** Joining the pieces of a split gives back the original string. */
  lemma {:induction false} JoinSplitLines(s: string)
    ensures JoinLines(SplitLines(s)) == s
  {
    if |s| > 0 {
      var rest := SplitLines(s[1..]);
      JoinSplitLines(s[1..]);
      if s[0] == '\n' {
        assert SplitLines(s) == [""] + rest;
        assert ([""] + rest)[1..] == rest;
        assert JoinLines(SplitLines(s)) == "" + "\n" + JoinLines(rest);
        assert s == [s[0]] + s[1..];
      } else {
        var parts := [[s[0]] + rest[0]] + rest[1..];
        assert SplitLines(s) == parts;
        if |rest| == 1 {
          assert JoinLines(parts) == [s[0]] + rest[0];
          assert JoinLines(rest) == rest[0];
        } else {
          assert parts[1..] == rest[1..];
          assert JoinLines(parts) == [s[0]] + rest[0] + "\n" + JoinLines(rest[1..]);
          assert JoinLines(rest) == rest[0] + "\n" + JoinLines(rest[1..]);
        }
        assert s == [s[0]] + s[1..];
      }
    }
  }

  /** A newline-free prefix glues onto the first piece of what follows it. */
  lemma {:induction false} SplitAfterPlainPrefix(p: string, s: string)
    requires '\n' !in p
    ensures SplitLines(p + s) == [p + SplitLines(s)[0]] + SplitLines(s)[1..]
  {
    if |p| > 0 {
      assert (p + s)[1..] == p[1..] + s;
      assert (p + s)[0] == p[0];
      SplitAfterPlainPrefix(p[1..], s);
      assert [p[0]] + (p[1..] + SplitLines(s)[0]) == p + SplitLines(s)[0];
    } else {
      var r := SplitLines(s);
      assert p + s == s && p + r[0] == r[0];
      assert r == [r[0]] + r[1..];
    }
  }

  /** Splitting a join of newline-free pieces gives back the pieces. */
  lemma {:induction false} SplitJoinLines(parts: seq<string>)
    requires |parts| >= 1
    requires forall i :: 0 <= i < |parts| ==> '\n' !in parts[i]
    ensures SplitLines(JoinLines(parts)) == parts
  {
    if |parts| == 1 {
      SplitAfterPlainPrefix(parts[0], "");
      assert parts[0] + "" == parts[0];
    } else {
      var tail := JoinLines(parts[1..]);
      SplitJoinLines(parts[1..]);
      assert SplitLines("\n" + tail) == [""] + SplitLines(tail) by {
        assert ("\n" + tail)[1..] == tail;
      }
      assert parts[0] + "\n" + tail == parts[0] + ("\n" + tail);
      SplitAfterPlainPrefix(parts[0], "\n" + tail);
      assert parts[0] + "" == parts[0];
    }
  }

  /** A string without newlines splits into itself. */
  lemma SplitPlain(s: string)
    requires '\n' !in s
    ensures SplitLines(s) == [s]
  {
    SplitAfterPlainPrefix(s, "");
    assert s + "" == s;
  }

  /** The characters `String.prototype.trim` removes: ECMAScript WhiteSpace and LineTerminator. */
  predicate IsWhiteSpace(c: char) {
    c == '\t' || c == '\n' || c == '\U{000B}' || c == '\U{000C}' || c == '\r' ||
    c == ' ' || c == '\U{00A0}' || c == '\U{1680}' || ('\U{2000}' <= c <= '\U{200A}') ||
    c == '\U{2028}' || c == '\U{2029}' || c == '\U{202F}' || c == '\U{205F}' ||
    c == '\U{3000}' || c == '\U{FEFF}'
  }

  /** Drops leading white space. */
  function TrimStart(s: string): string {
    if |s| > 0 && IsWhiteSpace(s[0]) then TrimStart(s[1..]) else s
  }

  /** Drops trailing white space. */
  function TrimEnd(s: string): string {
    if |s| > 0 && IsWhiteSpace(s[|s| - 1]) then TrimEnd(s[..|s| - 1]) else s
  }

  /** `s.trim()` */
  function Trim(s: string): string {
    TrimEnd(TrimStart(s))
  }

  /** Trimming the start leaves a suffix of `s` that does not start with white space, and removes only white space. */
  lemma {:induction false} TrimStartCharacterised(s: string)
    ensures var r := TrimStart(s);
      |r| <= |s| && r == s[|s| - |r|..] && (r == [] || !IsWhiteSpace(r[0])) &&
      forall i :: 0 <= i < |s| - |r| ==> IsWhiteSpace(s[i])
  {
    if |s| > 0 && IsWhiteSpace(s[0]) {
      TrimStartCharacterised(s[1..]);
    }
  }

  /** Trimming the end leaves a prefix of `s` that does not end with white space, and removes only white space. */
  lemma {:induction false} TrimEndCharacterised(s: string)
    ensures var r := TrimEnd(s);
      |r| <= |s| && r == s[..|r|] && (r == [] || !IsWhiteSpace(r[|r| - 1])) &&
      forall i :: |r| <= i < |s| ==> IsWhiteSpace(s[i])
  {
    if |s| > 0 && IsWhiteSpace(s[|s| - 1]) {
      TrimEndCharacterised(s[..|s| - 1]);
    }
  }

  /** `s.trim()` is the part of `s` between its leading and trailing white space. */
  lemma TrimCharacterised(s: string)
    ensures var t := Trim(s);
      (exists i, j :: 0 <= i <= j <= |s| && t == s[i..j] &&
        (forall k :: 0 <= k < i ==> IsWhiteSpace(s[k])) && (forall k :: j <= k < |s| ==> IsWhiteSpace(s[k]))) &&
      (t == [] || (!IsWhiteSpace(t[0]) && !IsWhiteSpace(t[|t| - 1])))
  {
    var u := TrimStart(s);
    TrimStartCharacterised(s);
    TrimEndCharacterised(u);
    var t := TrimEnd(u);
    var i := |s| - |u|;
    var j := i + |t|;
    assert t == s[i..j];
    forall k | j <= k < |s| ensures IsWhiteSpace(s[k]) {
      assert s[k] == u[k - i];
    }
    if t != [] {
      assert t[0] == u[0];
    }
  }

  /** A string that neither starts nor ends with white space is its own trim. */
  lemma TrimPlain(s: string)
    requires |s| > 0 && !IsWhiteSpace(s[0]) && !IsWhiteSpace(s[|s| - 1])
    ensures Trim(s) == s
  {
    assert TrimStart(s) == s;
  }

  /** One trailing white-space character does not survive trimming. */
  lemma TrimDropsTrailing(s: string, c: char)
    requires |s| > 0 && !IsWhiteSpace(s[0]) && IsWhiteSpace(c)
    ensures Trim(s + [c]) == Trim(s)
  {
    assert TrimStart(s + [c]) == s + [c];
    assert TrimStart(s) == s;
    assert (s + [c])[..|s + [c]| - 1] == s;
  }

  /** The string built by appending each piece in turn to an initially empty string. */
  function Concat(pieces: seq<string>): string {
    if pieces == [] then "" else Concat(pieces[..|pieces| - 1]) + pieces[|pieces| - 1]
  }

  /** Accumulating two runs of pieces one after the other equals accumulating each run. */
  lemma {:induction false} ConcatAppend(a: seq<string>, b: seq<string>)
    ensures Concat(a + b) == Concat(a) + Concat(b)
  {
    if b == [] {
      assert a + b == a;
    } else {
      var b' := b[..|b| - 1];
      assert (a + b)[..|a + b| - 1] == a + b';
      ConcatAppend(a, b');
    }
  }

  /** Appending one piece appends its text. */
  lemma AppendText(pieces: seq<string>, piece: string)
    ensures Concat(pieces + [piece]) == Concat(pieces) + piece
  {
    assert (pieces + [piece])[..|pieces|] == pieces;
  }
}
