/**
 * String helpers shared by the model: Python's whitespace test and `strip`,
 * decimal rendering of counters (with its parse-back), `find`/`rfind` of a
 * character, `in` on strings, `split`/`join` on a separator, the word scanner
 * behind `re.findall(r'\b\w+\b', ...)`, and the subsequence order used to say
 * that an edit never removes text, and `repr` of a string.
 */
module Text {
  import opened Wrappers

  /** The characters for which Python's `str.isspace()` is true. */
  predicate IsSpace(c: char)
  {
    || c == ' ' || c == '\t' || c == '\n' || c == '\r' || c == '\U{B}' || c == '\U{C}'
    || ('\U{1C}' <= c <= '\U{1F}') || c == '\U{85}' || c == '\U{A0}' || c == '\U{1680}'
    || ('\U{2000}' <= c <= '\U{200A}') || c == '\U{2028}' || c == '\U{2029}'
    || c == '\U{202F}' || c == '\U{205F}' || c == '\U{3000}'
  }

  /** Every character is whitespace (this includes the empty string). */
  predicate IsBlank(s: string)
  {
    forall i :: 0 <= i < |s| ==> IsSpace(s[i])
  }

  /** A whitespace character before a blank prefix of the rest makes a blank prefix. */
  lemma BlankPrefixCons(s: string, k: nat)
    requires 1 <= k <= |s| && IsSpace(s[0]) && IsBlank(s[1..][..k - 1])
    ensures IsBlank(s[..k])
  {
    forall i | 0 <= i < k
      ensures IsSpace(s[..k][i])
    {
      if i > 0 {
        assert s[..k][i] == s[1..][..k - 1][i - 1];
      }
    }
  }

  /** `s.lstrip()`: drop leading whitespace. */
  function TrimStart(s: string): (r: string)
    ensures |r| <= |s| && r == s[|s| - |r|..]
    ensures r != [] ==> !IsSpace(r[0])
    ensures IsBlank(s[..|s| - |r|])
    ensures r == [] <==> IsBlank(s)
  {
    if s != [] && IsSpace(s[0]) then
      var r := TrimStart(s[1..]);
      var k := |s| - |r|;
      BlankPrefixCons(s, k);
      assert s[1..][k - 1..] == s[k..];
      r
    else s
  }

  /** `s.rstrip()`: drop trailing whitespace. */
  function TrimEnd(s: string): (r: string)
    ensures |r| <= |s| && r == s[..|r|]
    ensures r != [] ==> !IsSpace(r[|r| - 1])
    ensures IsBlank(s[|r|..])
    ensures r == [] <==> IsBlank(s)
  {
    if s != [] && IsSpace(s[|s| - 1]) then
      var r := TrimEnd(s[..|s| - 1]);
      assert s[|r|..] == s[..|s| - 1][|r|..] + [s[|s| - 1]];
      r
    else s
  }

  /** `s.strip()`: the longest slice of `s` with no whitespace at either end. */
  function Strip(s: string): (r: string)
    ensures |r| <= |s|
    ensures r != [] ==> !IsSpace(r[0]) && !IsSpace(r[|r| - 1])
    ensures r == [] <==> IsBlank(s)
  {
    TrimEnd(TrimStart(s))
  }

  // ---------------------------------------------------------------------------
  // Decimal rendering of naturals (Python's f"{n}" for a non-negative int)

  predicate IsDigit(c: char) { '0' as int <= c as int <= '9' as int }

  function DigitChar(d: nat): (c: char)
    requires d < 10
    ensures IsDigit(c) && c as int - '0' as int == d
  {
    ['0', '1', '2', '3', '4', '5', '6', '7', '8', '9'][d]
  }

  /** The decimal digits of `n`, most significant first, without leading zeros. */
  function NatToString(n: nat): (r: string)
    ensures |r| >= 1
    ensures forall i :: 0 <= i < |r| ==> IsDigit(r[i])
    ensures |r| > 1 ==> r[0] != '0'
  {
    if n < 10 then [DigitChar(n)] else NatToString(n / 10) + [DigitChar(n % 10)]
  }

  /** The value of a string of decimal digits. */
  function DigitsValue(s: string): nat
    requires forall i :: 0 <= i < |s| ==> IsDigit(s[i])
  {
    if s == [] then 0
    else
      assert IsDigit(s[|s| - 1]);
      DigitsValue(s[..|s| - 1]) * 10 + (s[|s| - 1] as int - '0' as int)
  }

  /** Reading the rendering back gives the number: the rendering loses nothing. */
  lemma {:induction false} DigitsValueOfNatToString(n: nat)
    ensures DigitsValue(NatToString(n)) == n
  {
    if n >= 10 {
      var s := NatToString(n);
      assert s[..|s| - 1] == NatToString(n / 10);
      DigitsValueOfNatToString(n / 10);
    }
  }

  /** Distinct numbers have distinct renderings (so ids built from counters never collide). */
  lemma NatToStringInjective(m: nat, n: nat)
    requires NatToString(m) == NatToString(n)
    ensures m == n
  {
    DigitsValueOfNatToString(m);
    DigitsValueOfNatToString(n);
  }

  // ---------------------------------------------------------------------------
  // Searching

  /** Python's `pat in s` for strings. */
  predicate Contains(s: string, pat: string)
    decreases |s|
  {
    pat <= s || (s != [] && Contains(s[1..], pat))
  }

  /** `s.find(c)`, with -1 modelled as None. */
  function FindFirst(s: string, c: char): (r: Option<nat>)
    ensures r.Some? ==> r.value < |s| && s[r.value] == c && c !in s[..r.value]
    ensures r.None? <==> c !in s
  {
    if s == [] then None
    else if s[0] == c then Some(0)
    else match FindFirst(s[1..], c)
      case None => None
      case Some(i) =>
        assert s[..i + 1] == [s[0]] + s[1..][..i];
        Some(i + 1)
  }

  /** `s.rfind(c)`, with -1 modelled as None. */
  function FindLast(s: string, c: char): (r: Option<nat>)
    ensures r.Some? ==> r.value < |s| && s[r.value] == c && c !in s[r.value + 1..]
    ensures r.None? <==> c !in s
  {
    if s == [] then None
    else if s[|s| - 1] == c then Some(|s| - 1)
    else
      var r := FindLast(s[..|s| - 1], c);
      assert r.Some? ==> s[r.value + 1..] == s[..|s| - 1][r.value + 1..] + [s[|s| - 1]];
      assert s == s[..|s| - 1] + [s[|s| - 1]];
      r
  }

  // ---------------------------------------------------------------------------
  // split / join on a separator

  /** The first position at which `sep` occurs in `s`. */
  function IndexOf(s: string, sep: string): (r: Option<nat>)
    requires sep != []
    ensures r.Some? ==> r.value + |sep| <= |s| && s[r.value..r.value + |sep|] == sep
    decreases |s|
  {
    if |s| < |sep| then None
    else if sep <= s then Some(0)
    else match IndexOf(s[1..], sep)
      case None => None
      case Some(i) => Some(i + 1)
  }

  /** `s.split(sep)`: the pieces between occurrences of `sep`, left to right. */
  function Split(s: string, sep: string): (r: seq<string>)
    requires sep != []
    ensures |r| >= 1
    decreases |s|
  {
    match IndexOf(s, sep)
    case None => [s]
    case Some(i) => [s[..i]] + Split(s[i + |sep|..], sep)
  }

  /** `sep.join(parts)`. */
  function Join(parts: seq<string>, sep: string): string
  {
    if |parts| == 0 then ""
    else if |parts| == 1 then parts[0]
    else parts[0] + sep + Join(parts[1..], sep)
  }

  /** Splitting and re-joining on the same separator gives the text back. */
  lemma {:induction false} JoinSplit(s: string, sep: string)
    requires sep != []
    ensures Join(Split(s, sep), sep) == s
    decreases |s|
  {
    match IndexOf(s, sep)
    case None =>
    case Some(i) =>
      var rest := s[i + |sep|..];
      var ps := Split(s, sep);
      assert ps == [s[..i]] + Split(rest, sep);
      assert ps[1..] == Split(rest, sep);
      JoinSplit(rest, sep);
      assert Join(ps, sep) == s[..i] + sep + Join(ps[1..], sep);
      assert s == s[..i] + sep + rest;
  }

  /**
   * Appending `x` to part `i` and re-joining inserts `x` into the joined text
   * at one position `k`; nothing else changes.
   */
  lemma {:induction false} JoinAppendToPart(parts: seq<string>, sep: string, i: nat, x: string)
    returns (k: nat)
    requires i < |parts|
    ensures k <= |Join(parts, sep)|
    ensures Join(parts[i := parts[i] + x], sep) == Join(parts, sep)[..k] + x + Join(parts, sep)[k..]
  {
    var j := Join(parts, sep);
    if |parts| == 1 {
      k := |parts[0]|;
    } else if i == 0 {
      k := |parts[0]|;
      assert parts[i := parts[i] + x][1..] == parts[1..];
      assert j[..k] == parts[0];
    } else {
      var k' := JoinAppendToPart(parts[1..], sep, i - 1, x);
      var rest := Join(parts[1..], sep);
      k := |parts[0]| + |sep| + k';
      assert parts[i := parts[i] + x][1..] == parts[1..][i - 1 := parts[i] + x];
      assert j == parts[0] + sep + rest;
      assert j[..k] == parts[0] + sep + rest[..k'];
      assert j[k..] == rest[k'..];
    }
  }

  /** Joining one more part adds the separator and the part at the end. */
  lemma {:induction false} JoinAppend(parts: seq<string>, sep: string, x: string)
    requires parts != []
    ensures Join(parts + [x], sep) == Join(parts, sep) + sep + x
  {
    if |parts| == 1 {
      assert (parts + [x])[1..] == [x];
    } else {
      JoinAppend(parts[1..], sep, x);
      assert (parts + [x])[1..] == parts[1..] + [x];
    }
  }

  lemma {:induction false} ContainsAfter(x: string, t: string, pat: string)
    requires Contains(t, pat)
    ensures Contains(x + t, pat)
    decreases |x|
  {
    if x == [] {
      assert x + t == t;
    } else {
      ContainsAfter(x[1..], t, pat);
      assert (x + t)[1..] == x[1..] + t;
    }
  }

  /** Every part occurs in the joined text. */
  lemma {:induction false} JoinContainsPart(parts: seq<string>, sep: string, k: nat)
    requires k < |parts|
    ensures Contains(Join(parts, sep), parts[k])
  {
    if k == 0 {
      assert parts[0] <= Join(parts, sep);
    } else {
      JoinContainsPart(parts[1..], sep, k - 1);
      ContainsAfter(parts[0] + sep, Join(parts[1..], sep), parts[k]);
    }
  }

  lemma {:induction false} IndexOfAbsent(p: string, c: char)
    requires c !in p
    ensures IndexOf(p, [c]) == None
  {
    if |p| >= 1 {
      assert p[0] != c && c !in p[1..];
      IndexOfAbsent(p[1..], c);
    }
  }

  lemma {:induction false} IndexOfFirst(p: string, c: char, t: string)
    requires c !in p
    ensures IndexOf(p + [c] + t, [c]) == Some(|p|)
  {
    if p == [] {
      assert p + [c] + t == [c] + t;
    } else {
      assert p[0] != c && c !in p[1..];
      IndexOfFirst(p[1..], c, t);
      assert (p + [c] + t)[0] == p[0];
      assert (p + [c] + t)[1..] == p[1..] + [c] + t;
    }
  }

  /** Splitting on a one-character separator undoes joining parts that do not contain it. */
  lemma {:induction false} SplitJoin(parts: seq<string>, c: char)
    requires parts != []
    requires forall i :: 0 <= i < |parts| ==> c !in parts[i]
    ensures Split(Join(parts, [c]), [c]) == parts
  {
    if |parts| == 1 {
      IndexOfAbsent(parts[0], c);
    } else {
      var rest := Join(parts[1..], [c]);
      IndexOfFirst(parts[0], c, rest);
      SplitJoin(parts[1..], c);
      var s := parts[0] + [c] + rest;
      assert s[..|parts[0]|] == parts[0];
      assert s[|parts[0]| + 1..] == rest;
    }
  }

  // ---------------------------------------------------------------------------
  // Subsequences: `a` can be obtained from `b` by deleting characters

  predicate Subseq(a: string, b: string)
    decreases |b|
  {
    a == [] || (b != [] && ((a[0] == b[0] && Subseq(a[1..], b[1..])) || Subseq(a, b[1..])))
  }

  lemma {:induction false} SubseqRefl(a: string)
    ensures Subseq(a, a)
  {
    if a != [] { SubseqRefl(a[1..]); }
  }

  lemma {:induction false} SubseqPrepend(a: string, b: string, x: string)
    requires Subseq(a, b)
    ensures Subseq(a, x + b)
    decreases |x|
  {
    if x == [] {
      assert x + b == b;
    } else if a != [] {
      SubseqPrepend(a, b, x[1..]);
      assert (x + b)[1..] == x[1..] + b;
    }
  }

  /** Inserting text anywhere keeps every subsequence a subsequence. */
  lemma {:induction false} SubseqInsert(a: string, b: string, k: nat, x: string)
    requires k <= |b| && Subseq(a, b)
    ensures Subseq(a, b[..k] + x + b[k..])
    decreases k
  {
    var c := b[..k] + x + b[k..];
    if k == 0 {
      assert c == x + b;
      SubseqPrepend(a, b, x);
    } else if a != [] {
      assert c[0] == b[0];
      assert c[1..] == b[1..][..k - 1] + x + b[1..][k - 1..];
      if a[0] == b[0] && Subseq(a[1..], b[1..]) {
        SubseqInsert(a[1..], b[1..], k - 1, x);
      } else {
        SubseqInsert(a, b[1..], k - 1, x);
      }
    }
  }

  // ---------------------------------------------------------------------------
  // Words: the maximal runs of word characters, as `re.findall(r'\b\w+\b', s)`

  /** ASCII letters, digits and underscore (the model's `\w`). */
  predicate IsWordChar(c: char)
  {
    ('a' <= c <= 'z') || ('A' <= c <= 'Z') || IsDigit(c) || c == '_'
  }

  /** ASCII lower-casing (the model's `str.lower()`). */
  function Lower(s: string): (r: string)
    ensures |r| == |s|
    ensures forall i :: 0 <= i < |s| ==> (IsWordChar(r[i]) <==> IsWordChar(s[i]))
  {
    seq(|s|, i requires 0 <= i < |s| =>
      if 'A' <= s[i] <= 'Z' then (s[i] as int - 'A' as int + 'a' as int) as char else s[i])
  }

  /** The number of word characters at the start of `s`. */
  function WordRun(s: string): (n: nat)
    ensures n <= |s|
    ensures forall i :: 0 <= i < n ==> IsWordChar(s[i])
    ensures n < |s| ==> !IsWordChar(s[n])
  {
    if s != [] && IsWordChar(s[0]) then 1 + WordRun(s[1..]) else 0
  }

  /** The words of `s`, left to right; each is non-empty and made of word characters only. */
  function WordList(s: string): (ws: seq<string>)
    ensures forall w :: w in ws ==> w != [] && forall i :: 0 <= i < |w| ==> IsWordChar(w[i])
    decreases |s|
  {
    if s == [] then []
    else if !IsWordChar(s[0]) then WordList(s[1..])
    else
      var n := WordRun(s);
      [s[..n]] + WordList(s[n..])
  }

  /** `set(re.findall(r'\b\w+\b', s.lower()))`. */
  function Words(s: string): set<string>
  {
    set w | w in WordList(Lower(s))
  }

  // ---------------------------------------------------------------------------
  // repr() of a string

  /** The quote `repr` puts around a string: `"` when it holds a `'` and no `"`, else `'`. */
  function ReprQuote(s: string): (q: char)
    ensures q == '"' <==> ('\'' in s && '"' !in s)
    ensures q == '"' || q == '\''
  {
    if '\'' in s && '"' !in s then '"' else '\''
  }

  /** One character as `repr` writes it between quotes `q`. */
  function EscapeChar(c: char, q: char): (e: string)
    ensures 1 <= |e| <= 2
    ensures '\n' !in e
  {
    if c == '\\' then "\\\\"
    else if c == '\n' then "\\n"
    else if c == '\r' then "\\r"
    else if c == '\t' then "\\t"
    else if c == q then ['\\', q]
    else [c]
  }

  /** The characters of `s` as `repr` writes them between quotes `q`. */
  function Escape(s: string, q: char): (r: string)
    ensures |s| <= |r| <= 2 * |s|
    ensures '\n' !in r
  {
    if s == [] then [] else EscapeChar(s[0], q) + Escape(s[1..], q)
  }

  /** The character an escape `\c` stands for. */
  function EscapedChar(c: char): char
  {
    if c == 'n' then '\n' else if c == 'r' then '\r' else if c == 't' then '\t' else c
  }

  /** Reading escaped text back, as Python reads a string literal. */
  function Unescape(r: string): string
  {
    if r == [] then []
    else if r[0] == '\\' && |r| >= 2 then [EscapedChar(r[1])] + Unescape(r[2..])
    else [r[0]] + Unescape(r[1..])
  }

  /** Reading back one escaped character. */
  lemma UnescapeOne(c: char, q: char, rest: string)
    requires q == '"' || q == '\''
    ensures Unescape(EscapeChar(c, q) + rest) == [c] + Unescape(rest)
  {
    var e := EscapeChar(c, q);
    if |e| == 2 {
      assert (e + rest)[0] == '\\' && (e + rest)[1] == e[1] && (e + rest)[2..] == rest;
    } else {
      assert (e + rest)[0] == c && (e + rest)[1..] == rest;
    }
  }

  /** Escaping loses nothing: reading the escaped text back gives the string. */
  lemma {:induction false} UnescapeEscape(s: string, q: char)
    requires q == '"' || q == '\''
    ensures Unescape(Escape(s, q)) == s
  {
    if s != [] {
      UnescapeEscape(s[1..], q);
      UnescapeOne(s[0], q, Escape(s[1..], q));
    }
  }

  /**
   * Python's `repr(s)`: the escaped characters between the chosen quotes.
   * Other unprintable characters, which `repr` writes as `\x..` or `\u....`,
   * are kept as they are.
   */
  function StrRepr(s: string): (r: string)
    ensures |r| >= 2 && r[0] == ReprQuote(s) && r[|r| - 1] == ReprQuote(s)
    ensures '\n' !in r
    ensures Unescape(r[1..|r| - 1]) == s
  {
    var q := ReprQuote(s);
    UnescapeEscape(s, q);
    assert ([q] + Escape(s, q) + [q])[1..|Escape(s, q)| + 1] == Escape(s, q);
    [q] + Escape(s, q) + [q]
  }
}
