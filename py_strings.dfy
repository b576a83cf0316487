/**
 * The few Python string builtins the core relies on: truthiness of an optional
 * string, `str.lower`, the substring test `in`, `" ".join`, `str.strip` and
 * `str.isdigit`.  Case mapping, whitespace and digits are those of ASCII.
 */
module PyStrings {
  import opened Wrappers

  /** `if s:` on an `Optional[str]`: neither `None` nor the empty string. */
  predicate Truthy(s: Option<string>) {
    s.Some? && s.value != ""
  }

  /** `s or ""` on an `Optional[str]`. */
  function OrEmpty(s: Option<string>): (r: string)
    ensures Truthy(s) <==> r != ""
    ensures Truthy(s) ==> r == s.value
  {
    if s.Some? then s.value else ""
  }

  function LowerChar(c: char): char {
    if 'A' <= c <= 'Z' then (c as int - 'A' as int + 'a' as int) as char else c
  }

  /** `s.lower()`, character by character. */
  function Lower(s: string): (r: string)
    ensures |r| == |s|
    ensures forall i :: 0 <= i < |s| ==> r[i] == LowerChar(s[i])
    ensures forall i :: 0 <= i < |r| ==> !('A' <= r[i] <= 'Z')
  {
    seq(|s|, i requires 0 <= i < |s| => LowerChar(s[i]))
  }

  /** `needle in hay` for strings: `needle` occurs in `hay` as a contiguous block. */
  predicate Contains(hay: string, needle: string)
    decreases |hay|
  {
    needle <= hay || (hay != [] && Contains(hay[1..], needle))
  }

  /** `needle` occurs in `hay` starting at index `i`. */
  predicate OccursAt(hay: string, needle: string, i: int) {
    0 <= i <= |hay| - |needle| && hay[i..i + |needle|] == needle
  }

  /** Dropping the first character moves every later occurrence one place left. */
  lemma OccursShift(hay: string, needle: string, i: int)
    requires hay != [] && 1 <= i
    ensures OccursAt(hay, needle, i) <==> OccursAt(hay[1..], needle, i - 1)
  {
    if 0 <= i - 1 <= |hay[1..]| - |needle| {
      assert hay[1..][i - 1..i - 1 + |needle|] == hay[i..i + |needle|];
    }
  }

  /** `Contains` agrees with the textbook definition of a substring occurrence. */
  lemma {:induction false} ContainsAt(hay: string, needle: string)
    ensures Contains(hay, needle) <==> exists i :: OccursAt(hay, needle, i)
  {
    if needle <= hay {
      assert OccursAt(hay, needle, 0);
    } else if hay == [] {
    } else {
      ContainsAt(hay[1..], needle);
      if exists i :: OccursAt(hay, needle, i) {
        var i :| OccursAt(hay, needle, i);
        assert i != 0;
        OccursShift(hay, needle, i);
      }
      if exists j :: OccursAt(hay[1..], needle, j) {
        var j :| OccursAt(hay[1..], needle, j);
        OccursShift(hay, needle, j + 1);
      }
    }
  }

  /** `sep.join(parts)`. */
  function Join(sep: string, parts: seq<string>): string {
    if parts == [] then ""
    else if |parts| == 1 then parts[0]
    else parts[0] + sep + Join(sep, parts[1..])
  }

  /** `sep.join(parts)` lays each part out between some prefix and some suffix. */
  lemma {:induction false} JoinSplit(sep: string, parts: seq<string>, i: int) returns (pre: string, post: string)
    requires 0 <= i < |parts|
    ensures Join(sep, parts) == pre + parts[i] + post
    decreases |parts|
  {
    if |parts| == 1 {
      pre, post := "", "";
    } else if i == 0 {
      pre, post := "", sep + Join(sep, parts[1..]);
    } else {
      var p, q := JoinSplit(sep, parts[1..], i - 1);
      pre, post := parts[0] + sep + p, q;
    }
  }

  /** Lower-casing works piece by piece. */
  lemma LowerAppend(a: string, b: string)
    ensures Lower(a + b) == Lower(a) + Lower(b)
  {
    forall i | 0 <= i < |a + b| ensures Lower(a + b)[i] == (Lower(a) + Lower(b))[i] {
      if i < |a| {
        assert (a + b)[i] == a[i];
      } else {
        assert (a + b)[i] == b[i - |a|];
      }
    }
  }

  /** A block found in the middle piece is found in the whole. */
  lemma ContainsInMiddle(a: string, m: string, b: string, needle: string)
    requires Contains(m, needle)
    ensures Contains(a + m + b, needle)
  {
    ContainsAt(m, needle);
    var i :| OccursAt(m, needle, i);
    var whole := a + m + b;
    assert whole[|a| + i..|a| + i + |needle|] == m[i..i + |needle|];
    assert OccursAt(whole, needle, |a| + i);
    ContainsAt(whole, needle);
  }

  /** The characters `str.isspace` accepts among the first 128 code points. */
  predicate IsSpace(c: char) {
    c == ' ' || (9 <= c as int <= 13) || (28 <= c as int <= 31)
  }

  predicate AllSpace(s: string) {
    forall i :: 0 <= i < |s| ==> IsSpace(s[i])
  }

  function TrimStart(s: string): (r: string)
    ensures r != [] ==> !IsSpace(r[0])
    ensures |r| <= |s|
  {
    if s != [] && IsSpace(s[0]) then TrimStart(s[1..]) else s
  }

  function TrimEnd(s: string): (r: string)
    ensures r != [] ==> !IsSpace(r[|r| - 1])
    ensures |r| <= |s|
  {
    if s != [] && IsSpace(s[|s| - 1]) then TrimEnd(s[..|s| - 1]) else s
  }

  /** `s.strip()`: the text between the leading and the trailing whitespace. */
  function Strip(s: string): (r: string)
    ensures r != [] ==> !IsSpace(r[0]) && !IsSpace(r[|r| - 1])
    ensures |r| <= |s|
    ensures exists i, j :: 0 <= i <= j <= |s| && r == s[i..j] && AllSpace(s[..i]) && AllSpace(s[j..])
  {
    var t := TrimStart(s);
    TrimStartIsSuffix(s);
    TrimEndIsPrefix(t);
    var i := |s| - |t|;
    var j := i + |TrimEnd(t)|;
    assert s[i..j] == t[..|TrimEnd(t)|];
    assert s[j..] == t[|TrimEnd(t)|..];
    TrimEnd(t)
  }

  /** `TrimStart` drops a blank prefix and keeps the rest. */
  lemma {:induction false} TrimStartIsSuffix(s: string)
    ensures TrimStart(s) == s[|s| - |TrimStart(s)|..]
    ensures AllSpace(s[..|s| - |TrimStart(s)|])
    decreases |s|
  {
    if s != [] && IsSpace(s[0]) {
      TrimStartIsSuffix(s[1..]);
      var k := |s[1..]| - |TrimStart(s[1..])|;
      assert s[1..][k..] == s[k + 1..];
      assert s[..k + 1] == [s[0]] + s[1..][..k];
    }
  }

  /** `TrimEnd` keeps a prefix and drops a blank suffix. */
  lemma {:induction false} TrimEndIsPrefix(s: string)
    ensures TrimEnd(s) == s[..|TrimEnd(s)|]
    ensures AllSpace(s[|TrimEnd(s)|..])
    decreases |s|
  {
    if s != [] && IsSpace(s[|s| - 1]) {
      var m := |s| - 1;
      TrimEndIsPrefix(s[..m]);
      var n := |TrimEnd(s[..m])|;
      assert s[n..] == s[..m][n..] + [s[m]];
    }
  }

  lemma {:induction false} TrimStartSkipsSpace(w: string, x: string)
    requires AllSpace(w)
    ensures TrimStart(w + x) == TrimStart(x)
  {
    if w != [] {
      assert (w + x)[0] == w[0];
      assert (w + x)[1..] == w[1..] + x;
      TrimStartSkipsSpace(w[1..], x);
    } else {
      assert w + x == x;
    }
  }

  lemma {:induction false} TrimEndSkipsSpace(x: string, w: string)
    requires AllSpace(w)
    ensures TrimEnd(x + w) == TrimEnd(x)
  {
    if w != [] {
      assert (x + w)[|x + w| - 1] == w[|w| - 1];
      assert (x + w)[..|x + w| - 1] == x + w[..|w| - 1];
      TrimEndSkipsSpace(x, w[..|w| - 1]);
    } else {
      assert x + w == x;
    }
  }

  /** Trimming the front of `x + w` either keeps all of `w` or, when `x` is blank, trims into `w`. */
  lemma {:induction false} TrimStartAppend(x: string, w: string)
    ensures TrimStart(x) != [] ==> TrimStart(x + w) == TrimStart(x) + w
    ensures TrimStart(x) == [] ==> TrimStart(x + w) == TrimStart(w)
  {
    if x == [] {
      assert x + w == w;
    } else if IsSpace(x[0]) {
      assert (x + w)[1..] == x[1..] + w;
      TrimStartAppend(x[1..], w);
    }
  }

  /** Whitespace around a string does not change what `strip` returns. */
  lemma StripIgnoresPadding(w1: string, s: string, w2: string)
    requires AllSpace(w1) && AllSpace(w2)
    ensures Strip(w1 + s + w2) == Strip(s)
  {
    assert w1 + s + w2 == w1 + (s + w2);
    TrimStartSkipsSpace(w1, s + w2);
    TrimStartAppend(s, w2);
    if TrimStart(s) != [] {
      TrimEndSkipsSpace(TrimStart(s), w2);
    } else {
      TrimStartSkipsSpace(w2, []);
      assert w2 + [] == w2;
    }
  }

  predicate IsDigit(c: char) {
    '0' <= c <= '9'
  }

  /** `s.isdigit()`: non-empty and every character a digit. */
  predicate IsDigits(s: string) {
    s != [] && forall i :: 0 <= i < |s| ==> IsDigit(s[i])
  }
}
