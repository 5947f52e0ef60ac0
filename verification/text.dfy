/** The JavaScript string operations the code relies on: `trim`, `split` on a
    one-character separator, `join`, and the decimal rendering of integers in
    template literals. */
module Text {

  /** ECMAScript WhiteSpace and LineTerminator code points, the set that
      `String.prototype.trim` removes. */
  predicate IsSpace(c: char) {
    || c == '\t' || c == '\n' || c == '\U{B}' || c == '\U{C}' || c == '\r'
    || c == ' ' || c == '\U{A0}' || c == '\U{1680}'
    || ('\U{2000}' <= c <= '\U{200A}')
    || c == '\U{2028}' || c == '\U{2029}' || c == '\U{202F}' || c == '\U{205F}'
    || c == '\U{3000}' || c == '\U{FEFF}'
  }

  predicate AllSpace(s: string) {
    forall k :: 0 <= k < |s| ==> IsSpace(s[k])
  }

  /** Neither end of `s` is whitespace. */
  predicate Trimmed(s: string) {
    |s| == 0 || (!IsSpace(s[0]) && !IsSpace(s[|s| - 1]))
  }

  /** `s` with its leading whitespace removed. */
  function TrimStart(s: string): (r: string)
    ensures |r| <= |s| && r == s[|s| - |r|..]
    ensures AllSpace(s[..|s| - |r|])
    ensures |r| == 0 || !IsSpace(r[0])
    decreases |s|
  {
    if |s| > 0 && IsSpace(s[0]) then
      var r := TrimStart(s[1..]);
      assert s[..|s| - |r|][1..] == s[1..][..|s| - 1 - |r|];
      r
    else s
  }

  /** `s` with its trailing whitespace removed. */
  function TrimEnd(s: string): (r: string)
    ensures |r| <= |s| && r == s[..|r|]
    ensures AllSpace(s[|r|..])
    ensures |r| == 0 || !IsSpace(r[|r| - 1])
    decreases |s|
  {
    if |s| > 0 && IsSpace(s[|s| - 1]) then
      var r := TrimEnd(s[..|s| - 1]);
      assert s[|r|..][..|s| - 1 - |r|] == s[..|s| - 1][|r|..];
      r
    else s
  }

  /** `String.prototype.trim`. */
  function Trim(s: string): (r: string)
    ensures Trimmed(r)
    ensures |r| <= |s|
  {
    TrimEnd(TrimStart(s))
  }

  /** Trimming adds no character. */
  lemma TrimKeepsOut(s: string, c: char)
    requires c !in s
    ensures c !in Trim(s)
  {
    var t := TrimStart(s);
    assert c !in t by {
      assert forall k :: 0 <= k < |t| ==> t[k] == s[|s| - |t| + k];
    }
    var r := TrimEnd(t);
    assert forall k :: 0 <= k < |r| ==> r[k] == t[k];
  }

  /** Trimming removes exactly the whitespace padding around a non-empty
      trimmed string. */
  lemma {:induction false} TrimDropsPadding(pre: string, d: string, post: string)
    requires AllSpace(pre) && AllSpace(post)
    requires Trimmed(d) && |d| > 0
    ensures Trim(pre + d + post) == d
  {
    assert pre + d + post == pre + (d + post);
    TrimStartSkips(pre, d + post);
    TrimEndSkips(d, post);
    assert Trim(pre + d + post) == TrimEnd(TrimStart(pre + (d + post)));
  }

  lemma {:induction false} TrimStartSkips(pre: string, t: string)
    requires AllSpace(pre)
    requires |t| > 0 && !IsSpace(t[0])
    ensures TrimStart(pre + t) == t
    decreases |pre|
  {
    if |pre| == 0 {
      assert pre + t == t;
    } else {
      assert (pre + t)[1..] == pre[1..] + t;
      TrimStartSkips(pre[1..], t);
    }
  }

  lemma {:induction false} TrimEndSkips(t: string, post: string)
    requires AllSpace(post)
    requires |t| > 0 && !IsSpace(t[|t| - 1])
    ensures TrimEnd(t + post) == t
    decreases |post|
  {
    if |post| == 0 {
      assert t + post == t;
    } else {
      var s := t + post;
      assert s[..|s| - 1] == t + post[..|post| - 1];
      TrimEndSkips(t, post[..|post| - 1]);
    }
  }

  /** A string that ends in a non-space character does not trim to empty. */
  lemma TrimNotBlank(s: string)
    requires |s| > 0 && !IsSpace(s[|s| - 1])
    ensures Trim(s) != ""
  {
    var t := TrimStart(s);
    assert s[..|s|] == s;
    assert t[|t| - 1] == s[|s| - 1];
    assert t + "" == t;
    TrimEndSkips(t, "");
  }

  /** A trimmed string is its own trim; in particular `Trim` is idempotent. */
  lemma TrimOfTrimmed(s: string)
    requires Trimmed(s)
    ensures Trim(s) == s
  {
    if |s| > 0 {
      assert [] + s + [] == s;
      TrimDropsPadding([], s, []);
    }
  }

  /** Index of the first occurrence of `c` in `s`. */
  function IndexOf(s: string, c: char): (i: nat)
    requires c in s
    ensures i < |s| && s[i] == c && c !in s[..i]
  {
    if s[0] == c then 0 else 1 + IndexOf(s[1..], c)
  }

  /** `Array.prototype.join`: the empty list joins to the empty string. */
  function Join(xs: seq<string>, sep: string): string
    decreases |xs|
  {
    if |xs| == 0 then ""
    else if |xs| == 1 then xs[0]
    else xs[0] + sep + Join(xs[1..], sep)
  }

  /** `String.prototype.split` with a one-character separator: the segments
      between occurrences of `c`, empty ones included, so at least one. Joining
      them back with `c` rebuilds `s`. */
  function Split(s: string, c: char): (r: seq<string>)
    ensures |r| >= 1
    ensures forall i :: 0 <= i < |r| ==> c !in r[i]
    ensures Join(r, [c]) == s
    decreases |s|
  {
    if c in s then
      var i := IndexOf(s, c);
      var rest := Split(s[i + 1..], c);
      assert s == s[..i] + [c] + s[i + 1..];
      [s[..i]] + rest
    else [s]
  }

  /** The first piece is a prefix of the string, so it holds no character
      the string does not. */
  lemma SplitFirstKeepsOut(s: string, c: char, d: char)
    requires d !in s
    ensures d !in Split(s, c)[0]
  {
    var first := Split(s, c)[0];
    assert first == if c in s then s[..IndexOf(s, c)] else s;
    assert forall k :: 0 <= k < |first| ==> first[k] == s[k];
  }

  /** Splitting undoes joining when no piece contains the separator. */
  lemma {:induction false} SplitJoin(xs: seq<string>, c: char)
    requires |xs| >= 1
    requires forall i :: 0 <= i < |xs| ==> c !in xs[i]
    ensures Split(Join(xs, [c]), c) == xs
    decreases |xs|
  {
    if |xs| > 1 {
      var rest := Join(xs[1..], [c]);
      assert Join(xs, [c]) == xs[0] + [c] + rest;
      SplitAt(xs[0], c, rest);
      SplitJoin(xs[1..], c);
      assert [xs[0]] + xs[1..] == xs;
    }
  }

  /** A string without the separator is a single piece. */
  lemma SplitNone(s: string, c: char)
    requires c !in s
    ensures Split(s, c) == [s]
  {
  }

  /** The first piece ends at the first separator; the rest is split on. */
  lemma SplitAt(x: string, c: char, y: string)
    requires c !in x
    ensures Split(x + [c] + y, c) == [x] + Split(y, c)
  {
    var s := x + [c] + y;
    assert s[|x|] == c;
    assert s[..|x|] == x;
    assert IndexOf(s, c) == |x|;
    assert s[|x| + 1..] == y;
  }

  /** A prefix without the separator belongs to the first piece. */
  lemma SplitFirstOfPrefix(x: string, y: string, c: char)
    requires c !in x
    ensures Split(x + y, c)[0] == x + Split(y, c)[0]
  {
    var s := x + y;
    if c in y {
      var k := IndexOf(y, c);
      var j := |x| + k;
      assert s[j] == c;
      assert s[..j] == x + y[..k];
      assert IndexOf(s, c) == j;
    } else {
      assert c !in s;
    }
  }

  /** Decimal digits of `n`, most significant first, no leading zero. */
  function NatToString(n: nat): (r: string)
    ensures |r| >= 1
    ensures forall i :: 0 <= i < |r| ==> '0' <= r[i] <= '9'
    decreases n
  {
    var d := ['0' + (n % 10) as char];
    if n < 10 then d else NatToString(n / 10) + d
  }

  /** An integer as a template literal renders it. */
  function IntToString(n: int): (r: string)
    ensures |r| >= 1
    ensures (r[0] == '-') <==> n < 0
  {
    if n < 0 then "-" + NatToString(-n) else NatToString(n)
  }

  /** The body of a `JSON.stringify`d string: `"` and `\` get a backslash in
      front, every other character stands for itself. */
  function JsonEscape(s: string): (r: string)
    ensures |r| >= |s|
    decreases |s|
  {
    if |s| == 0 then ""
    else if s[0] == '"' || s[0] == '\\' then ['\\', s[0]] + JsonEscape(s[1..])
    else [s[0]] + JsonEscape(s[1..])
  }

  /** Reading an escaped body back: a backslash takes the next character
      literally. */
  function JsonUnescape(t: string): string
    decreases |t|
  {
    if |t| == 0 then ""
    else if t[0] == '\\' && |t| >= 2 then [t[1]] + JsonUnescape(t[2..])
    else [t[0]] + JsonUnescape(t[1..])
  }

  /** A string without `"` or `\` is its own escaped body. */
  lemma {:induction false} JsonEscapePlain(s: string)
    requires '"' !in s && '\\' !in s
    ensures JsonEscape(s) == s
    decreases |s|
  {
    if |s| > 0 {
      assert s[0] != '"' && s[0] != '\\';
      assert '"' !in s[1..] && '\\' !in s[1..];
      JsonEscapePlain(s[1..]);
      assert [s[0]] + s[1..] == s;
    }
  }

  /** `JSON.stringify` of a string: the escaped body between double quotes. */
  function JsonQuote(s: string): (r: string)
    ensures |r| >= 2 && r[0] == '"' && r[|r| - 1] == '"'
    ensures JsonUnescape(r[1..|r| - 1]) == s
  {
    JsonUnescapeEscape(s);
    var r := "\"" + JsonEscape(s) + "\"";
    assert r[1..|r| - 1] == JsonEscape(s);
    r
  }

  /** Escaping is undone by unescaping, so distinct strings quote
      differently. */
  lemma {:induction false} JsonUnescapeEscape(s: string)
    ensures JsonUnescape(JsonEscape(s)) == s
    decreases |s|
  {
    if |s| > 0 {
      JsonUnescapeEscape(s[1..]);
      var e := JsonEscape(s);
      if s[0] == '"' || s[0] == '\\' {
        assert e[2..] == JsonEscape(s[1..]);
      } else {
        assert e[1..] == JsonEscape(s[1..]);
      }
      assert [s[0]] + s[1..] == s;
    }
  }
}
