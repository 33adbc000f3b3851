/** String helpers with Python's meaning: `strip`, `lower`, `find`,
    `rfind`, `split`, `join`, substring search and `Path` name parts.
    Case mapping covers ASCII letters only (the Korean text the system
    handles has no case) and `strip` removes ASCII whitespace. */
module Text {
  import opened Wrappers

  predicate IsSpace(c: char) {
    c == ' ' || c == '\t' || c == '\n' || c == '\r' || c as int == 11 || c as int == 12
  }

  function TrimStart(s: string): (r: string)
    ensures |r| <= |s| && r == s[|s| - |r|..]
    ensures r == "" || !IsSpace(r[0])
    ensures forall i :: 0 <= i < |s| - |r| ==> IsSpace(s[i])
  {
    if |s| > 0 && IsSpace(s[0]) then TrimStart(s[1..]) else s
  }

  function TrimEnd(s: string): (r: string)
    ensures |r| <= |s| && r == s[..|r|]
    ensures r == "" || !IsSpace(r[|r| - 1])
    ensures forall i :: |r| <= i < |s| ==> IsSpace(s[i])
  {
    if |s| > 0 && IsSpace(s[|s| - 1]) then TrimEnd(s[..|s| - 1]) else s
  }

  /** `s.strip()` */
  function Strip(s: string): string {
    TrimEnd(TrimStart(s))
  }

  /** `not s.strip()`: the string is empty or all whitespace. */
  predicate IsBlank(s: string) {
    Strip(s) == ""
  }

  lemma BlankIffAllSpace(s: string)
    ensures IsBlank(s) <==> forall i :: 0 <= i < |s| ==> IsSpace(s[i])
  {
  }

  function LowerChar(c: char): (r: char)
    ensures 'A' <= c <= 'Z' ==> 'a' <= r <= 'z'
    ensures !('A' <= c <= 'Z') ==> r == c
  {
    if 'A' <= c <= 'Z' then (c as int + 32) as char else c
  }

  function UpperChar(c: char): (r: char)
    ensures 'a' <= c <= 'z' ==> 'A' <= r <= 'Z'
    ensures !('a' <= c <= 'z') ==> r == c
  {
    if 'a' <= c <= 'z' then (c as int - 32) as char else c
  }

  /** `s.lower()` */
  function Lower(s: string): (r: string)
    ensures |r| == |s|
    ensures forall i :: 0 <= i < |s| ==> r[i] == LowerChar(s[i])
  {
    seq(|s|, i requires 0 <= i < |s| => LowerChar(s[i]))
  }

  /** `s.upper()` */
  function Upper(s: string): (r: string)
    ensures |r| == |s|
    ensures forall i :: 0 <= i < |s| ==> r[i] == UpperChar(s[i])
  {
    seq(|s|, i requires 0 <= i < |s| => UpperChar(s[i]))
  }

  /** Text without upper-case ASCII letters is its own lower case. */
  lemma LowerKeepsLowercase(s: string)
    requires forall i :: 0 <= i < |s| ==> !('A' <= s[i] <= 'Z')
    ensures Lower(s) == s
  {
  }

  lemma LowerIdempotent(s: string)
    ensures Lower(Lower(s)) == Lower(s)
  {
  }

  /** `k in s` for strings: `k` occurs as a contiguous substring of `s`. */
  predicate Contains(s: string, k: string) {
    exists i | 0 <= i <= |s| - |k| :: OccursAt(s, k, i)
  }

  predicate OccursAt(s: string, k: string, i: int) {
    0 <= i <= |s| - |k| && s[i..i + |k|] == k
  }

  predicate StartsWith(s: string, p: string) {
    |p| <= |s| && s[..|p|] == p
  }

  /** `s.find(c)`: the first index of `c`, or -1. */
  function Find(s: string, c: char): (r: int)
    ensures -1 <= r < |s|
    ensures r == -1 <==> c !in s
    ensures r >= 0 ==> s[r] == c && c !in s[..r]
  {
    if |s| == 0 then -1
    else if s[0] == c then 0
    else
      var k := Find(s[1..], c);
      if k == -1 then -1 else k + 1
  }

  /** `s.rfind(c)`: the last index of `c`, or -1. */
  function RFind(s: string, c: char): (r: int)
    ensures -1 <= r < |s|
    ensures r == -1 <==> c !in s
    ensures r >= 0 ==> s[r] == c && c !in s[r + 1..]
  {
    if |s| == 0 then -1
    else if s[|s| - 1] == c then |s| - 1
    else
      var k := RFind(s[..|s| - 1], c);
      assert s == s[..|s| - 1] + [s[|s| - 1]];
      k
  }

  /** `s.split(sep)` for a one-character separator. */
  function Split(s: string, sep: char): (r: seq<string>)
    ensures |r| >= 1
    ensures forall i :: 0 <= i < |r| ==> sep !in r[i]
    decreases |s|
  {
    var k := Find(s, sep);
    if k == -1 then [s] else [s[..k]] + Split(s[k + 1..], sep)
  }

  /** `sep.join(parts)` */
  function Join(sep: string, parts: seq<string>): string
  {
    if |parts| == 0 then ""
    else if |parts| == 1 then parts[0]
    else parts[0] + sep + Join(sep, parts[1..])
  }

  lemma {:induction false} SplitJoin(s: string, sep: char)
    ensures Join([sep], Split(s, sep)) == s
    decreases |s|
  {
    var k := Find(s, sep);
    if k != -1 {
      var rest := s[k + 1..];
      var parts := Split(rest, sep);
      SplitJoin(rest, sep);
      JoinCons([sep], s[..k], parts);
      assert s == s[..k] + [sep] + rest;
    }
  }

  /** Joining a first piece onto at least one more puts the separator
      between them. */
  lemma JoinCons(sep: string, first: string, parts: seq<string>)
    requires |parts| >= 1
    ensures Join(sep, [first] + parts) == first + sep + Join(sep, parts)
  {
    assert ([first] + parts)[1..] == parts;
  }

  /** The decimal digits of `n`, as Python's `str(n)` writes them. */
  function NatToString(n: nat): (r: string)
    ensures |r| >= 1
    ensures forall i :: 0 <= i < |r| ==> '0' <= r[i] <= '9'
  {
    if n < 10 then [('0' as int + n) as char]
    else NatToString(n / 10) + [('0' as int + n % 10) as char]
  }

  /** `Path(p).name`: the last component of `p`, where components are
      separated by '/' and empty and "." components do not count; "" when
      no component is left. */
  function PathName(p: string): (r: string)
    ensures '/' !in r && r != "."
    ensures |r| <= |p|
    ensures '/' !in p && p != "." ==> r == p
    decreases |p|
  {
    var k := RFind(p, '/');
    var last := if k == -1 then p else p[k + 1..];
    if last != "" && last != "." then last
    else if k == -1 then ""
    else PathName(p[..k])
  }

  /** The name is a piece of the path: its characters are the path's. */
  lemma {:induction false} PathNameChars(p: string)
    ensures forall j :: 0 <= j < |PathName(p)| ==> PathName(p)[j] in p
    decreases |p|
  {
    var k := RFind(p, '/');
    if k != -1 {
      var last := p[k + 1..];
      if last != "" && last != "." {
        assert forall j :: 0 <= j < |last| ==> last[j] == p[k + 1 + j];
      } else {
        PathNameChars(p[..k]);
        assert forall j :: 0 <= j < k ==> p[..k][j] == p[j];
      }
    }
  }

  /** The last of `parts` that is neither empty nor ".", or "" when there
      is none. */
  function LastComponent(parts: seq<string>): (r: string)
    ensures r == "" || r in parts
    ensures r != "."
  {
    if |parts| == 0 then ""
    else
      var last := parts[|parts| - 1];
      if last != "" && last != "." then last
      else LastComponent(parts[..|parts| - 1])
  }

  /** Index of the suffix dot in a file name, following Python's `Path`:
      the last '.', provided it is neither the first nor the last character. */
  function SuffixDot(name: string): (r: Option<nat>)
    ensures r.Some? ==> 0 < r.value < |name| - 1 && name[r.value] == '.' && '.' !in name[r.value + 1..]
  {
    var i := RFind(name, '.');
    if 0 < i < |name| - 1 then Some(i) else None
  }

  /** Without a suffix dot, every inner '.' has another '.' after it. */
  lemma NoSuffixDot(name: string, j: int)
    requires SuffixDot(name).None?
    requires 0 < j < |name| - 1 && name[j] == '.'
    ensures '.' in name[j + 1..]
  {
    var i := RFind(name, '.');
    assert name[j] in name;
    if j > i {
      assert false;
    }
    assert i == |name| - 1;
    assert name[j + 1..][i - j - 1] == '.';
  }

  /** `Path(name).suffix` (Python 3.11 and earlier). */
  function Suffix(name: string): string {
    match SuffixDot(name)
    case Some(i) => name[i..]
    case None => ""
  }

  /** `Path(name).stem` */
  function Stem(name: string): string {
    match SuffixDot(name)
    case Some(i) => name[..i]
    case None => name
  }

  lemma StemSuffix(name: string)
    ensures Stem(name) + Suffix(name) == name
    ensures Suffix(name) == "" || (Suffix(name)[0] == '.' && |Suffix(name)| >= 2)
  {
    match SuffixDot(name)
    case Some(i) => assert name[..i] + name[i..] == name;
    case None =>
  }

  /** An occurrence survives appending text after it. */
  lemma OccursInExtension(s: string, t: string, k: string, i: int)
    requires OccursAt(s, k, i)
    ensures Contains(s + t, k)
  {
    assert (s + t)[i..i + |k|] == s[i..i + |k|];
    assert OccursAt(s + t, k, i);
  }

  /** An occurrence survives putting text before it. */
  lemma OccursAfterPrefix(t: string, s: string, k: string, i: int)
    requires OccursAt(s, k, i)
    ensures OccursAt(t + s, k, |t| + i)
  {
    assert (t + s)[|t| + i..|t| + i + |k|] == s[i..i + |k|];
  }

  /** Every part occurs in the parts joined with any separator. */
  lemma {:induction false} JoinContains(sep: string, parts: seq<string>, i: int)
    requires 0 <= i < |parts|
    ensures Contains(Join(sep, parts), parts[i])
  {
    if |parts| == 1 {
      assert OccursAt(Join(sep, parts), parts[0], 0);
    } else {
      var rest := Join(sep, parts[1..]);
      assert Join(sep, parts) == parts[0] + (sep + rest);
      if i == 0 {
        assert OccursAt(parts[0], parts[0], 0);
        OccursInExtension(parts[0], sep + rest, parts[0], 0);
      } else {
        JoinContains(sep, parts[1..], i - 1);
        var j :| 0 <= j <= |rest| - |parts[i]| && OccursAt(rest, parts[i], j);
        OccursAfterPrefix(parts[0] + sep, rest, parts[i], j);
        assert parts[0] + sep + rest == parts[0] + (sep + rest);
      }
    }
  }

  /** Lower-casing keeps occurrences, lower-cased. */
  lemma ContainsLower(s: string, k: string)
    requires Contains(s, k)
    ensures Contains(Lower(s), Lower(k))
  {
    var i :| 0 <= i <= |s| - |k| && OccursAt(s, k, i);
    assert Lower(s)[i..i + |k|] == Lower(k);
    assert OccursAt(Lower(s), Lower(k), i);
  }

  /** A string with a non-whitespace character is not blank. */
  lemma NotBlank(s: string, i: int)
    requires 0 <= i < |s| && !IsSpace(s[i])
    ensures !IsBlank(s)
  {
    BlankIffAllSpace(s);
  }

  /** A pattern with a character the text lacks does not occur in it. */
  lemma MissingCharNotContained(s: string, k: string, j: int)
    requires 0 <= j < |k| && k[j] !in s
    ensures !Contains(s, k)
  {
    forall i | 0 <= i <= |s| - |k|
      ensures !OccursAt(s, k, i)
    {
      assert i + j < |s|;
    }
  }

  /** Joining then splitting on a separator that no part contains gives
      the parts back. */
  lemma {:induction false} JoinSplit(parts: seq<string>, sep: char)
    requires |parts| >= 1
    requires forall i :: 0 <= i < |parts| ==> sep !in parts[i]
    ensures Split(Join([sep], parts), sep) == parts
  {
    if |parts| == 1 {
      assert Find(parts[0], sep) == -1;
    } else {
      var s := Join([sep], parts);
      var rest := Join([sep], parts[1..]);
      assert s == parts[0] + [sep] + rest;
      assert s[|parts[0]|] == sep;
      assert s[..|parts[0]|] == parts[0];
      assert Find(s, sep) == |parts[0]|;
      assert s[|parts[0]| + 1..] == rest;
      JoinSplit(parts[1..], sep);
    }
  }

  /** Joining two non-empty lists is joining their joins. */
  lemma {:induction false} JoinConcat(a: seq<string>, b: seq<string>, sep: string)
    requires |a| >= 1 && |b| >= 1
    ensures Join(sep, a + b) == Join(sep, a) + sep + Join(sep, b)
  {
    if |a| == 1 {
      assert (a + b)[1..] == b;
    } else {
      assert (a + b)[1..] == a[1..] + b;
      JoinConcat(a[1..], b, sep);
    }
  }

  /** Two lists joined back to back with no separator between them: the
      last part of the first and the first part of the second share one
      part. */
  function Glue(a: seq<string>, b: seq<string>): (r: seq<string>)
    requires |a| >= 1 && |b| >= 1
    ensures |r| == |a| + |b| - 1
  {
    a[..|a| - 1] + [a[|a| - 1] + b[0]] + b[1..]
  }

  /** Concatenating two joins is joining the glued lists. */
  lemma {:induction false} JoinGlue(a: seq<string>, b: seq<string>, sep: string)
    requires |a| >= 1 && |b| >= 1
    ensures Join(sep, a) + Join(sep, b) == Join(sep, Glue(a, b))
  {
    if |a| == 1 {
      assert Glue(a, b) == [a[0] + b[0]] + b[1..];
      if |b| > 1 {
        assert ([a[0] + b[0]] + b[1..])[1..] == b[1..];
      }
    } else {
      var rest := Glue(a[1..], b);
      assert Glue(a, b) == [a[0]] + rest by {
        assert a[1..][..|a| - 2] == a[1..|a| - 1];
        assert a[..|a| - 1] == [a[0]] + a[1..|a| - 1];
      }
      assert ([a[0]] + rest)[1..] == rest;
      JoinGlue(a[1..], b, sep);
    }
  }

  /** Gluing keeps every part free of a character no input part holds. */
  lemma GlueWithout(a: seq<string>, b: seq<string>, c: char)
    requires |a| >= 1 && |b| >= 1
    requires forall i :: 0 <= i < |a| ==> c !in a[i]
    requires forall i :: 0 <= i < |b| ==> c !in b[i]
    ensures forall i :: 0 <= i < |Glue(a, b)| ==> c !in Glue(a, b)[i]
  {
    var g := Glue(a, b);
    forall i | 0 <= i < |g| ensures c !in g[i] {
      if i < |a| - 1 {
        assert g[i] == a[i];
      } else if i == |a| - 1 {
        assert g[i] == a[|a| - 1] + b[0];
      } else {
        assert g[i] == b[i - |a| + 1];
      }
    }
  }

  /** Every part prefixed with `p`. */
  function Prefixed(p: string, xs: seq<string>): (r: seq<string>)
    ensures |r| == |xs|
    ensures forall i :: 0 <= i < |xs| ==> r[i] == p + xs[i]
  {
    seq(|xs|, i requires 0 <= i < |xs| => p + xs[i])
  }

  /** Text in front of a join belongs to its first part. */
  lemma JoinPrefixFirst(x: string, sep: string, xs: seq<string>)
    requires |xs| >= 1
    ensures x + Join(sep, xs) == Join(sep, [x + xs[0]] + xs[1..])
  {
    if |xs| > 1 {
      assert ([x + xs[0]] + xs[1..])[1..] == xs[1..];
    }
  }

  /** Splitting at the first character of a wider separator gives the
      parts back, each after the first led by the rest of the separator. */
  lemma SplitWiderJoin(c: seq<string>, sep: char, pad: string)
    requires |c| >= 1 && sep !in pad
    requires forall i :: 0 <= i < |c| ==> sep !in c[i]
    ensures Split(Join([sep] + pad, c), sep) == [c[0]] + Prefixed(pad, c[1..])
  {
    var parts := [c[0]] + Prefixed(pad, c[1..]);
    JoinWiderSep(c, [sep], pad);
    forall i | 0 <= i < |parts| ensures sep !in parts[i] {
      if i > 0 {
        assert parts[i] == pad + c[i];
      } else {
        assert parts[0] == c[0];
      }
    }
    JoinSplit(parts, sep);
  }

  /** Joining with `a + b` is joining with `a` after prefixing every part
      but the first with `b`. */
  lemma {:induction false} JoinWiderSep(c: seq<string>, a: string, b: string)
    requires |c| >= 1
    ensures Join(a + b, c) == Join(a, [c[0]] + Prefixed(b, c[1..]))
  {
    if |c| > 1 {
      JoinWiderSep(c[1..], a, b);
      var tail := Prefixed(b, c[2..]);
      assert c[1..][1..] == c[2..];
      assert Prefixed(b, c[1..]) == [b + c[1]] + tail;
      JoinPrefixFirst(b, a, [c[1]] + tail);
      assert ([c[1]] + tail)[1..] == tail;
      assert ([c[0]] + Prefixed(b, c[1..]))[1..] == Prefixed(b, c[1..]);
    }
  }

  /** The first position at or after `i` that is not whitespace. */
  function SkipSpace(s: string, i: nat): (r: nat)
    requires i <= |s|
    ensures i <= r <= |s|
    ensures forall j :: i <= j < r ==> IsSpace(s[j])
    ensures r < |s| ==> !IsSpace(s[r])
    decreases |s| - i
  {
    if i < |s| && IsSpace(s[i]) then SkipSpace(s, i + 1) else i
  }

  lemma {:induction false} SkipSpaceMonotone(s: string, a: nat, b: nat)
    requires a <= b <= |s|
    ensures SkipSpace(s, a) <= SkipSpace(s, b)
    decreases b - a
  {
    if a < b && IsSpace(s[a]) {
      SkipSpaceMonotone(s, a + 1, b);
    }
  }

  /** The two brace characters, by code point. */
  const OpenBrace: char := 123 as char
  const CloseBrace: char := 125 as char

  /** Text that opens and closes with a brace. */
  predicate Braced(t: string) {
    |t| >= 2 && t[0] == OpenBrace && t[|t| - 1] == CloseBrace
  }

  /** `t` occurs in `s` at `i`, with no opening brace before it and no
      closing brace after it. */
  predicate OutermostAt(s: string, t: string, i: int) {
    OccursAt(s, t, i) && OpenBrace !in s[..i] && CloseBrace !in s[i + |t|..]
  }

  /** The text from the first opening brace to the last closing brace,
      when that is a non-empty span: what `find` of the opening brace and
      `rfind` of the closing one (plus one) cut out, and what the greedy
      brace-to-brace pattern matches with DOTALL. */
  function BraceSpan(response: string): (r: Option<string>)
    ensures r.Some? ==> Braced(r.value) && OutermostAt(response, r.value, Find(response, OpenBrace))
    ensures r.None? <==> (OpenBrace !in response || CloseBrace !in response ||
      RFind(response, CloseBrace) < Find(response, OpenBrace))
  {
    var start := Find(response, OpenBrace);
    var end := RFind(response, CloseBrace) + 1;
    if start != -1 && end > start then Some(response[start..end]) else None
  }

  /** A braced text with no opening brace before it and no closing brace
      after it is the span found. */
  lemma BraceSpanOfWrapped(pre: string, t: string, post: string)
    requires Braced(t) && OpenBrace !in pre && CloseBrace !in post
    ensures BraceSpan(pre + t + post) == Some(t)
  {
    var s := pre + t + post;
    assert s[..|pre|] == pre && s[|pre|] == OpenBrace;
    FindAt(s, OpenBrace, |pre|);
    assert s[|pre| + |t|..] == post && s[|pre| + |t| - 1] == CloseBrace;
    RFindAt(s, CloseBrace, |pre| + |t| - 1);
    assert s[|pre|..|pre| + |t|] == t;
  }

  /** An occurrence of `c` with no `c` before it is the one `Find` finds. */
  lemma FindAt(s: string, c: char, k: int)
    requires 0 <= k < |s| && s[k] == c && c !in s[..k]
    ensures Find(s, c) == k
  {
  }

  /** `s.split(sep)[0]`: the text before the first `sep`. */
  function FirstPart(s: string, sep: char): (r: string)
    ensures |r| <= |s| && r == s[..|r|] && sep !in r
    ensures r == s || s[|r|] == sep
    ensures r == Split(s, sep)[0]
  {
    var k := Find(s, sep);
    if k == -1 then s else s[..k]
  }

  /** `s.split(sep)[-1]`: the text after the last `sep`. */
  function LastPart(s: string, sep: char): (r: string)
    ensures |r| <= |s| && r == s[|s| - |r|..] && sep !in r
    ensures sep in s ==> |r| < |s| && s[|s| - |r| - 1] == sep
    ensures sep !in s ==> r == s
  {
    var k := RFind(s, sep);
    if k == -1 then s else s[k + 1..]
  }

  /** `LastPart` is the last piece `Split` produces. */
  lemma {:induction false} LastPartOfSplit(s: string, sep: char)
    ensures LastPart(s, sep) == Split(s, sep)[|Split(s, sep)| - 1]
    decreases |s|
  {
    var k := Find(s, sep);
    if k == -1 {
      assert Split(s, sep) == [s];
    } else {
      var rest := s[k + 1..];
      var parts := Split(rest, sep);
      var whole := Split(s, sep);
      assert whole == [s[..k]] + parts;
      assert whole[|whole| - 1] == parts[|parts| - 1];
      LastPartOfSplit(rest, sep);
      LastPartAfter(s, sep, k);
    }
  }

  /** After any occurrence of `sep`, the last part is the same. */
  lemma LastPartAfter(s: string, sep: char, k: int)
    requires 0 <= k < |s| && s[k] == sep
    ensures LastPart(s, sep) == LastPart(s[k + 1..], sep)
  {
    var rest := s[k + 1..];
    var t := LastPart(rest, sep);
    SuffixOfDrop(s, k + 1, t);
    assert s[|s| - |t| - 1] == sep by {
      if |t| == |rest| {
        assert |s| - |t| - 1 == k;
      }
    }
    LastPartUnique(s, sep, t);
  }

  /** A suffix of `s[k..]` is a suffix of `s`, and what precedes it there
      precedes it in `s`. */
  lemma SuffixOfDrop(s: string, k: nat, t: string)
    requires k <= |s| && |t| <= |s| - k && t == s[k..][|s| - k - |t|..]
    ensures t == s[|s| - |t|..]
    ensures |t| < |s| - k ==> s[|s| - |t| - 1] == s[k..][|s| - k - |t| - 1]
  {
  }

  /** The text after the last `sep` is the only suffix that holds no
      `sep` and is the whole string or follows a `sep`. */
  lemma LastPartUnique(s: string, sep: char, t: string)
    requires |t| <= |s| && t == s[|s| - |t|..] && sep !in t
    requires |t| == |s| || s[|s| - |t| - 1] == sep
    ensures t == LastPart(s, sep)
  {
  }

  /** Lower-casing keeps a non-letter exactly where it was. */
  lemma LowerKeepsNonLetter(s: string, c: char)
    requires !('A' <= c <= 'Z') && !('a' <= c <= 'z')
    ensures c in s <==> c in Lower(s)
    ensures forall i :: 0 <= i < |s| ==> (s[i] == c <==> Lower(s)[i] == c)
  {
    if c in s {
      var i :| 0 <= i < |s| && s[i] == c;
      assert Lower(s)[i] == c;
    }
    if c in Lower(s) {
      var i :| 0 <= i < |s| && Lower(s)[i] == c;
      assert s[i] == c;
    }
  }

  lemma LowerSuffix(s: string, n: nat)
    requires n <= |s|
    ensures Lower(s[n..]) == Lower(s)[n..]
  {
  }

  /** Lower-casing commutes with cutting at a separator that is not a
      letter. */
  lemma LowerLastPart(s: string, sep: char)
    requires !('A' <= sep <= 'Z') && !('a' <= sep <= 'z')
    ensures Lower(LastPart(s, sep)) == LastPart(Lower(s), sep)
  {
    LowerOfLastPart(s, sep, LastPart(s, sep));
  }

  /** Lower-casing a suffix that has no `sep` and follows one (or is all
      of `s`) gives the last part of the lower-cased string. */
  lemma LowerOfLastPart(s: string, sep: char, t: string)
    requires !('A' <= sep <= 'Z') && !('a' <= sep <= 'z')
    requires |t| <= |s| && t == s[|s| - |t|..] && sep !in t
    requires |t| == |s| || s[|s| - |t| - 1] == sep
    ensures Lower(t) == LastPart(Lower(s), sep)
  {
    var ls := Lower(s);
    var n := |s| - |t|;
    LowerSuffix(s, n);
    assert Lower(t) == ls[n..];
    LowerKeepsNonLetter(t, sep);
    if n > 0 {
      assert ls[n - 1] == LowerChar(sep) == sep;
    }
    LastPartUnique(ls, sep, Lower(t));
  }
  /** An occurrence of `c` with no `c` after it is the one `RFind` finds. */
  lemma RFindAt(s: string, c: char, k: int)
    requires 0 <= k < |s| && s[k] == c && c !in s[k + 1..]
    ensures RFind(s, c) == k
  {
  }

  /** Splitting at the last separator: the parts of what precedes it,
      then what follows it. */
  lemma SplitAtLast(s: string, sep: char, k: int)
    requires 0 <= k < |s| && s[k] == sep && sep !in s[k + 1..]
    ensures Split(s, sep) == Split(s[..k], sep) + [s[k + 1..]]
  {
    var head := Split(s[..k], sep);
    var parts := head + [s[k + 1..]];
    SplitJoin(s[..k], sep);
    JoinConcat(head, [s[k + 1..]], [sep]);
    assert s == s[..k] + [sep] + s[k + 1..];
    assert forall i :: 0 <= i < |parts| ==> sep !in parts[i] by {
      forall i | 0 <= i < |parts|
        ensures sep !in parts[i]
      {
        if i < |head| {
          assert parts[i] == head[i];
        }
      }
    }
    JoinSplit(parts, sep);
  }

  /** `PathName` is the last component `Split` yields once empty and "."
      components are dropped. */
  lemma {:induction false} PathNameIsLastComponent(p: string)
    ensures PathName(p) == LastComponent(Split(p, '/'))
    decreases |p|
  {
    var k := RFind(p, '/');
    if k == -1 {
      WholeComponent(p);
    } else {
      PathNameIsLastComponent(p[..k]);
      LaterComponent(p, k);
    }
  }

  /** With no '/', the one component is the whole path. */
  lemma WholeComponent(p: string)
    requires '/' !in p
    ensures PathName(p) == LastComponent(Split(p, '/'))
  {
    assert Split(p, '/') == [p] by {
      assert Find(p, '/') == -1;
    }
    assert [p][..0] == [];
  }

  /** After the last '/', the path either ends in its name or the name is
      that of the path before it. */
  lemma LaterComponent(p: string, k: int)
    requires 0 <= k < |p| && k == RFind(p, '/')
    requires PathName(p[..k]) == LastComponent(Split(p[..k], '/'))
    ensures PathName(p) == LastComponent(Split(p, '/'))
  {
    SplitAtLast(p, '/', k);
    PathNameStep(p, k);
    LastComponentStep(Split(p[..k], '/'), p[k + 1..]);
  }

  /** One step of `PathName` at the last '/'. */
  lemma PathNameStep(p: string, k: int)
    requires 0 <= k < |p| && k == RFind(p, '/')
    ensures PathName(p) == if p[k + 1..] != "" && p[k + 1..] != "." then p[k + 1..] else PathName(p[..k])
  {
  }

  /** One step of `LastComponent` at the last part. */
  lemma LastComponentStep(head: seq<string>, last: string)
    ensures LastComponent(head + [last]) == if last != "" && last != "." then last else LastComponent(head)
  {
    assert (head + [last])[..|head|] == head;
  }

  /** A trailing '/' does not change the name. */
  lemma PathNameTrailingSlash(p: string)
    ensures PathName(p + "/") == PathName(p)
  {
    var q := p + "/";
    RFindAt(q, '/', |p|);
    assert q[..|p|] == p;
  }

  /** The name of `dir + "/" + name`, for a name that is a component. */
  lemma PathNameAfterSlash(dir: string, name: string)
    requires '/' !in name && name != "" && name != "."
    ensures PathName(dir + "/" + name) == name
  {
    var p := dir + "/" + name;
    assert p[|dir| + 1..] == name;
    RFindAt(p, '/', |dir|);
  }

  /** A stem followed by a dot-led, dot-free suffix splits back into the
      two. */
  lemma SuffixOfJoin(stem: string, suffix: string)
    requires |stem| > 0 && |suffix| >= 2 && suffix[0] == '.' && '.' !in suffix[1..]
    ensures Suffix(stem + suffix) == suffix && Stem(stem + suffix) == stem
  {
    var name := stem + suffix;
    assert name[|stem| + 1..] == suffix[1..];
    RFindAt(name, '.', |stem|);
    assert name[|stem|..] == suffix;
  }
}
