/** String operations of the JavaScript runtime that the core relies on:
    `startsWith`, `Array.prototype.join`, `trim` and number formatting, and
    the facts about concatenation that calculations over traces, rows and
    counts use. */
module Text {
  import opened Wrappers

  /** `s.startsWith(prefix)`. */
  predicate StartsWith(s: string, prefix: string) {
    |prefix| <= |s| && s[..|prefix|] == prefix
  }

  lemma StartsWithConcat(prefix: string, rest: string)
    ensures StartsWith(prefix + rest, prefix)
  {
    assert (prefix + rest)[..|prefix|] == prefix;
  }

  lemma StartsWithExtend(s: string, prefix: string, rest: string)
    requires StartsWith(s, prefix)
    ensures StartsWith(s + rest, prefix)
  {
    assert (s + rest)[..|prefix|] == s[..|prefix|];
  }

  lemma StartsWithFirstOfFour(p: string, x: string, y: string, z: string)
    ensures StartsWith(p + x + y + z, p)
  {
    StartsWithConcat(p, x);
    StartsWithExtend(p + x, p, y);
    StartsWithExtend(p + x + y, p, z);
  }

  lemma StartsWithTransitive(s: string, prefix: string, shorter: string)
    requires StartsWith(s, prefix) && StartsWith(prefix, shorter)
    ensures StartsWith(s, shorter)
  {
    assert s[..|shorter|] == s[..|prefix|][..|shorter|];
  }

  lemma StartsWithFirst(s: string, prefix: string)
    requires StartsWith(s, prefix) && |prefix| > 0
    ensures s[0] == prefix[0]
  {
    assert s[..|prefix|][0] == s[0];
  }

  /** When `s` starts with a first line `line1 + "\n"` and also has `line2` as
      its first line, the two lines are the same. */
  lemma FirstLineDecides(line1: string, line2: string, rest: string)
    requires '\n' !in line1 && '\n' !in line2
    requires StartsWith(line2 + "\n" + rest, line1 + "\n")
    ensures line1 == line2
  {
    var s := line2 + "\n" + rest;
    var w := line1 + "\n";
    assert s[..|w|] == w;
    assert forall k :: 0 <= k < |line1| ==> s[k] == line1[k] && line1[k] in line1;
    assert forall k :: 0 <= k < |line2| ==> s[k] == line2[k] && line2[k] in line2;
    assert s[|line2|] == '\n';
    assert s[|line1|] == w[|line1|] == '\n';
    assert |line1| == |line2|;
    assert line1 == s[..|line1|] == line2;
  }

  /** `s.endsWith(suffix)`. */
  predicate EndsWith(s: string, suffix: string) {
    |suffix| <= |s| && s[|s| - |suffix|..] == suffix
  }

  lemma EndsWithConcat(rest: string, suffix: string)
    ensures EndsWith(rest + suffix, suffix)
  {
    assert (rest + suffix)[|rest|..] == suffix;
  }

  /** What lies between `prefix` and `suffix` when `s` is `prefix + body + suffix`:
      the inverse of a template with one hole. */
  function Between(s: string, prefix: string, suffix: string): Option<string> {
    if |prefix| + |suffix| <= |s| && StartsWith(s, prefix) && EndsWith(s, suffix)
    then Some(s[|prefix|..|s| - |suffix|])
    else None
  }

  /** Filling the hole and taking it out again are inverse. */
  lemma BetweenFilled(prefix: string, body: string, suffix: string)
    ensures Between(prefix + body + suffix, prefix, suffix) == Some(body)
  {
    var s := prefix + body + suffix;
    assert s[..|prefix|] == prefix;
    assert s[|s| - |suffix|..] == suffix;
    assert s[|prefix|..|s| - |suffix|] == body;
  }


  /** `parts.join(sep)`: the parts with `sep` between neighbours, `""` for no parts. */
  function Join(parts: seq<string>, sep: string): string
    decreases |parts|
  {
    if |parts| == 0 then ""
    else if |parts| == 1 then parts[0]
    else parts[0] + sep + Join(parts[1..], sep)
  }

  /** Joining one more part appends the separator and that part. */
  lemma {:induction false} JoinSnoc(parts: seq<string>, last: string, sep: string)
    requires |parts| > 0
    ensures Join(parts + [last], sep) == Join(parts, sep) + sep + last
    decreases |parts|
  {
    if |parts| == 1 {
      assert parts + [last] == [parts[0], last];
      assert [parts[0], last][1..] == [last];
    } else {
      assert (parts + [last])[1..] == parts[1..] + [last];
      JoinSnoc(parts[1..], last, sep);
    }
  }

  /** The characters `String.prototype.trim` removes: ECMAScript WhiteSpace
      (tab, vertical tab, form feed, space, no-break space, byte order mark and
      the Unicode space separators) and LineTerminator. */
  predicate IsJsWhitespace(c: char) {
    || c == '\t' || c == '\n' || c == '\U{000B}' || c == '\U{000C}' || c == '\r'
    || c == ' ' || c == '\U{00A0}' || c == '\U{1680}' || ('\U{2000}' <= c <= '\U{200A}')
    || c == '\U{2028}' || c == '\U{2029}' || c == '\U{202F}' || c == '\U{205F}'
    || c == '\U{3000}' || c == '\U{FEFF}'
  }

  /** Every character of `s` is whitespace (vacuously so for `""`). */
  predicate Blank(s: string) {
    forall i :: 0 <= i < |s| ==> IsJsWhitespace(s[i])
  }

  function TrimStart(s: string): string
    decreases |s|
  {
    if |s| > 0 && IsJsWhitespace(s[0]) then TrimStart(s[1..]) else s
  }

  function TrimEnd(s: string): string
    decreases |s|
  {
    if |s| > 0 && IsJsWhitespace(s[|s| - 1]) then TrimEnd(s[..|s| - 1]) else s
  }

  /** `s.trim()`. */
  function Trim(s: string): string {
    TrimEnd(TrimStart(s))
  }

  lemma {:induction false} TrimStartBlank(s: string)
    ensures TrimStart(s) == "" <==> Blank(s)
    ensures TrimStart(s) != "" ==> !IsJsWhitespace(TrimStart(s)[0])
    decreases |s|
  {
    if |s| > 0 && IsJsWhitespace(s[0]) {
      TrimStartBlank(s[1..]);
      assert Blank(s) <==> Blank(s[1..]) by {
        if Blank(s[1..]) {
          forall i | 0 <= i < |s| ensures IsJsWhitespace(s[i]) {
            if i > 0 { assert s[i] == s[1..][i - 1]; }
          }
        }
        if Blank(s) {
          forall i | 0 <= i < |s[1..]| ensures IsJsWhitespace(s[1..][i]) {
            assert s[1..][i] == s[i + 1];
          }
        }
      }
    } else if |s| > 0 {
      assert !IsJsWhitespace(s[0]);
    }
  }

  lemma {:induction false} TrimEndKeepsNonBlankStart(s: string)
    requires |s| > 0 && !IsJsWhitespace(s[0])
    ensures TrimEnd(s) != ""
    decreases |s|
  {
    if IsJsWhitespace(s[|s| - 1]) {
      assert |s| > 1;
      assert s[..|s| - 1][0] == s[0];
      TrimEndKeepsNonBlankStart(s[..|s| - 1]);
    }
  }

  /** `s.trim().length === 0` holds exactly when `s` is all whitespace. */
  lemma TrimEmptyIffBlank(s: string)
    ensures Trim(s) == "" <==> Blank(s)
  {
    TrimStartBlank(s);
    if TrimStart(s) != "" {
      TrimEndKeepsNonBlankStart(TrimStart(s));
    }
  }

  function Digit(d: nat): char
    requires d < 10
  {
    "0123456789"[d]
  }

  /** The decimal rendering of a natural number, as a template string shows it. */
  function Decimal(n: nat): (r: string)
    ensures |r| > 0
    decreases n
  {
    if n < 10 then [Digit(n)] else Decimal(n / 10) + [Digit(n % 10)]
  }

  /** The decimal rendering of an integer, with a leading `-` when negative. */
  function IntToString(i: int): (r: string)
    ensures |r| > 0
  {
    if i < 0 then "-" + Decimal(-i) else Decimal(i)
  }

  // ---------------------------------------------------------------------------
  // Concatenation

  lemma SeqAssoc<T>(a: seq<T>, b: seq<T>, c: seq<T>)
    ensures (a + b) + c == a + (b + c)
  {
  }

  /** Appending the same suffix to equal sequences. */
  lemma SameSuffix<T>(x: seq<T>, y: seq<T>, suffix: seq<T>)
    requires x == y
    ensures x + suffix == y + suffix
  {
  }

  lemma TwoThen<T>(x: T, y: T, rest: seq<T>)
    ensures [x] + ([y] + rest) == [x, y] + rest
  {
  }
}
