/** The Python string operations the GSM8K rules rely on: `str.strip()`,
    `str.rsplit(sep)`, placeholder substitution as done by `str.format` on
    the templates used here, and `float()` on decimal text. */
module Text {
  import opened Types

  // ---------------------------------------------------------------------
  // str.strip()

  /** The characters `str.isspace()` accepts. */
  predicate IsSpace(c: char) {
    c == ' ' || ('\t' <= c <= '\r') || ('\U{1C}' <= c <= '\U{1F}')
    || c == '\U{85}' || c == '\U{A0}' || c == '\U{1680}'
    || ('\U{2000}' <= c <= '\U{200A}') || c == '\U{2028}' || c == '\U{2029}'
    || c == '\U{202F}' || c == '\U{205F}' || c == '\U{3000}'
  }

  /** `s.lstrip()`: a suffix of `s`, everything dropped is whitespace. */
  function TrimStart(s: string): (r: string)
    ensures |r| <= |s| && r == s[|s| - |r|..]
    ensures r == [] || !IsSpace(r[0])
    ensures forall i :: 0 <= i < |s| - |r| ==> IsSpace(s[i])
  {
    if s != [] && IsSpace(s[0]) then TrimStart(s[1..]) else s
  }

  /** `s.rstrip()`: a prefix of `s`, everything dropped is whitespace. */
  function TrimEnd(s: string): (r: string)
    ensures |r| <= |s| && r == s[..|r|]
    ensures r == [] || !IsSpace(r[|r| - 1])
    ensures forall i :: |r| <= i < |s| ==> IsSpace(s[i])
  {
    if s != [] && IsSpace(s[|s| - 1]) then TrimEnd(s[..|s| - 1]) else s
  }

  /** `r` is `s` with whitespace only removed: `a` characters before it,
      the rest after it. */
  predicate StrippedAt(s: string, r: string, a: int) {
    0 <= a <= |s| - |r| && r == s[a..a + |r|]
    && (forall i :: 0 <= i < a ==> IsSpace(s[i]))
    && (forall i :: a + |r| <= i < |s| ==> IsSpace(s[i]))
  }

  /** `s.strip()`: the longest middle part of `s` that neither starts nor
      ends with whitespace. */
  function Strip(s: string): (r: string)
    ensures r == [] || (!IsSpace(r[0]) && !IsSpace(r[|r| - 1]))
  {
    TrimEnd(TrimStart(s))
  }

  /** `strip()` removes whitespace only: what it returns is the middle of
      the text, with whitespace alone on either side. */
  lemma StripRemovesOnlySpace(s: string)
    ensures StrippedAt(s, Strip(s), |s| - |TrimStart(s)|)
  {
    var t := TrimStart(s);
    TrimmedBothEnds(s, t, TrimEnd(t), |s| - |t|);
  }

  /** Whitespace before the suffix `t == s[a..]`, and after the prefix `r`
      of `t`, leaves `r` stripped out of `s`. */
  lemma TrimmedBothEnds(s: string, t: string, r: string, a: nat)
    requires a <= |s| && t == s[a..] && |r| <= |t| && r == t[..|r|]
    requires forall i :: 0 <= i < a ==> IsSpace(s[i])
    requires forall i :: |r| <= i < |t| ==> IsSpace(t[i])
    ensures StrippedAt(s, r, a)
  {
    assert r == s[a..a + |r|];
    forall i | a + |r| <= i < |s| ensures IsSpace(s[i]) {
      assert s[i] == t[i - a];
    }
  }

  /** Text without whitespace at either end is left alone by `strip()`. */
  lemma {:induction false} StripKeepsTrimmed(s: string)
    requires s == [] || (!IsSpace(s[0]) && !IsSpace(s[|s| - 1]))
    ensures Strip(s) == s
  {
    assert TrimStart(s) == s;
    assert TrimEnd(s) == s;
  }

  /** `strip()` is idempotent. */
  lemma StripIdempotent(s: string)
    ensures Strip(Strip(s)) == Strip(s)
  {
    StripKeepsTrimmed(Strip(s));
  }

  /** Leading whitespace before text that does not start with whitespace
      is what `strip()` removes. */
  lemma {:induction false} StripLeadingSpaces(spaces: string, t: string)
    requires forall i :: 0 <= i < |spaces| ==> IsSpace(spaces[i])
    requires t != [] && !IsSpace(t[0]) && !IsSpace(t[|t| - 1])
    ensures Strip(spaces + t) == t
    decreases |spaces|
  {
    if spaces == [] {
      assert spaces + t == t;
      StripKeepsTrimmed(t);
    } else {
      assert (spaces + t)[1..] == spaces[1..] + t;
      assert TrimStart(spaces + t) == TrimStart(spaces[1..] + t);
      StripLeadingSpaces(spaces[1..], t);
    }
  }

  // ---------------------------------------------------------------------
  // str.rsplit(sep)

  /** `sep` occurs in `s` starting at index `i`. */
  predicate OccursAt(s: string, sep: string, i: int) {
    0 <= i && i + |sep| <= |s| && s[i..i + |sep|] == sep
  }

  /** `s.rfind(sep)`, with `None` for -1: scans from the right. */
  function LastIndexOf(s: string, sep: string): (r: Option<nat>)
    requires sep != []
    ensures r.Some? ==> r.value + |sep| <= |s|
    decreases |s|
  {
    if |s| < |sep| then None
    else if s[|s| - |sep|..] == sep then Some(|s| - |sep|)
    else LastIndexOf(s[..|s| - 1], sep)
  }

  /** `rfind` finds the rightmost occurrence, and reports none only when
      there is none. */
  lemma {:induction false} LastIndexOfIsLast(s: string, sep: string)
    requires sep != []
    ensures var r := LastIndexOf(s, sep);
            r.Some? ==> OccursAt(s, sep, r.value) && forall j :: r.value < j ==> !OccursAt(s, sep, j)
    ensures LastIndexOf(s, sep).None? ==> forall j :: !OccursAt(s, sep, j)
    decreases |s|
  {
    if |s| < |sep| {
      assert LastIndexOf(s, sep).None?;
    } else if s[|s| - |sep|..] == sep {
      assert LastIndexOf(s, sep) == Some(|s| - |sep|);
    } else {
      assert LastIndexOf(s, sep) == LastIndexOf(s[..|s| - 1], sep);
      LastIndexOfIsLast(s[..|s| - 1], sep);
      DropLastChar(s, sep);
    }
  }

  /** When `s` does not end with `sep`, dropping its last character changes
      none of the places where `sep` occurs. */
  lemma DropLastChar(s: string, sep: string)
    requires sep != [] && |sep| <= |s| && s[|s| - |sep|..] != sep
    ensures forall j :: OccursAt(s, sep, j) == OccursAt(s[..|s| - 1], sep, j)
  {
    var front := s[..|s| - 1];
    forall j | 0 <= j && j + |sep| < |s| ensures OccursAt(s, sep, j) == OccursAt(front, sep, j) {
      OccursInPrefix(s, sep, j, |s| - 1);
    }
    assert !OccursAt(s, sep, |s| - |sep|) by {
      assert s[|s| - |sep|..|s|] == s[|s| - |sep|..];
    }
  }

  /** An occurrence ending within the first `k` characters is one in
      `s[..k]` too. */
  lemma OccursInPrefix(s: string, sep: string, j: nat, k: nat)
    requires j + |sep| <= k <= |s|
    ensures OccursAt(s, sep, j) == OccursAt(s[..k], sep, j)
  {
    assert s[..k][j..j + |sep|] == s[j..j + |sep|];
  }

  /** The rightmost occurrence is what `rfind` returns. */
  lemma LastIndexOfAt(s: string, sep: string, i: nat)
    requires sep != [] && OccursAt(s, sep, i)
    requires forall j :: i < j ==> !OccursAt(s, sep, j)
    ensures LastIndexOf(s, sep) == Some(i)
  {
    LastIndexOfIsLast(s, sep);
  }

  /** `s.rsplit(sep)` with no limit: cut at the rightmost occurrence, then
      split what is left of it the same way. */
  function RSplit(s: string, sep: string): (r: seq<string>)
    requires sep != []
    ensures |r| >= 1
    ensures |r| == 1 <==> LastIndexOf(s, sep).None?
    ensures |r| == 1 ==> r[0] == s
    decreases |s|
  {
    match LastIndexOf(s, sep)
    case None => [s]
    case Some(i) => RSplit(s[..i], sep) + [s[i + |sep|..]]
  }

  /** `rsplit` returns the text whole exactly when `sep` does not occur
      in it. */
  lemma RSplitWholeIffAbsent(s: string, sep: string)
    requires sep != []
    ensures |RSplit(s, sep)| == 1 <==> forall j :: !OccursAt(s, sep, j)
  {
    LastIndexOfIsLast(s, sep);
  }

  /** No piece of `rsplit` contains the separator: together with
      `JoinRSplit` and `RSplitAt` this fixes the split. */
  lemma {:induction false} RSplitPiecesFree(s: string, sep: string)
    requires sep != []
    ensures forall k, j :: 0 <= k < |RSplit(s, sep)| ==> !OccursAt(RSplit(s, sep)[k], sep, j)
    decreases |s|
  {
    LastIndexOfIsLast(s, sep);
    match LastIndexOf(s, sep)
    case None =>
    case Some(i) =>
      RSplitAt(s, sep, i);
      RSplitPiecesFree(s[..i], sep);
      AfterLastFree(s, sep, i, s[i + |sep|..]);
  }

  /** The text after the rightmost occurrence holds no occurrence. */
  lemma AfterLastFree(s: string, sep: string, i: nat, t: string)
    requires sep != [] && OccursAt(s, sep, i) && t == s[i + |sep|..]
    requires forall j :: i < j ==> !OccursAt(s, sep, j)
    ensures forall j :: !OccursAt(t, sep, j)
  {
    forall j | 0 <= j && j + |sep| <= |t| ensures !OccursAt(t, sep, j) {
      assert t[j..j + |sep|] == s[i + |sep| + j..i + |sep| + j + |sep|];
      assert !OccursAt(s, sep, i + |sep| + j);
    }
  }

  /** `sep.join(pieces)`. */
  function Join(pieces: seq<string>, sep: string): string
    requires |pieces| >= 1
  {
    if |pieces| == 1 then pieces[0] else Join(pieces[..|pieces| - 1], sep) + sep + pieces[|pieces| - 1]
  }

  /** Joining the pieces of `rsplit` with the separator gives back the text. */
  lemma {:induction false} JoinRSplit(s: string, sep: string)
    requires sep != []
    ensures Join(RSplit(s, sep), sep) == s
    decreases |s|
  {
    match LastIndexOf(s, sep)
    case None =>
    case Some(i) =>
      RSplitAt(s, sep, i);
      JoinRSplit(s[..i], sep);
      JoinSnoc(RSplit(s[..i], sep), s[i + |sep|..], sep);
  }

  /** Cutting at the last separator. */
  lemma RSplitAt(s: string, sep: string, i: nat)
    requires sep != [] && LastIndexOf(s, sep) == Some(i)
    ensures i + |sep| <= |s|
    ensures RSplit(s, sep) == RSplit(s[..i], sep) + [s[i + |sep|..]]
    ensures s == s[..i] + sep + s[i + |sep|..]
  {
    LastIndexOfIsLast(s, sep);
    CutAt(s, sep, i);
  }

  /** Text around an occurrence of `sep` is the part before, `sep`, and the
      part after. */
  lemma CutAt(s: string, sep: string, i: nat)
    requires OccursAt(s, sep, i)
    ensures s == s[..i] + sep + s[i + |sep|..]
  {
    assert s == s[..i] + s[i..i + |sep|] + s[i + |sep|..];
  }

  /** Joining one more piece appends the separator and the piece. */
  lemma JoinSnoc(pieces: seq<string>, last: string, sep: string)
    requires |pieces| >= 1
    ensures Join(pieces + [last], sep) == Join(pieces, sep) + sep + last
  {
    assert (pieces + [last])[..|pieces|] == pieces;
  }

  /** Text without a `#` holds no `####`. */
  lemma NoHashNoSeparator(s: string)
    requires forall i :: 0 <= i < |s| ==> s[i] != '#'
    ensures LastIndexOf(s, "####").None?
  {
    LastIndexOfIsLast(s, "####");
    NoSeparatorPast(s, 0);
  }

  /** Text with a single `####`, and no other `#`, splits into the parts
      before and after it. */
  lemma RSplitOnce(before: string, after: string)
    requires forall i :: 0 <= i < |before| ==> before[i] != '#'
    requires forall i :: 0 <= i < |after| ==> after[i] != '#'
    ensures RSplit(before + "####" + after, "####") == [before, after]
  {
    var s := before + "####" + after;
    var n := |before|;
    OnlySeparatorAt(before, after);
    RSplitAt(s, "####", n);
    assert s[..n] == before && s[n + 4..] == after;
    NoHashNoSeparator(before);
  }

  /** The only `####` in such text is the one after `before`. */
  lemma OnlySeparatorAt(before: string, after: string)
    requires forall i :: 0 <= i < |after| ==> after[i] != '#'
    ensures LastIndexOf(before + "####" + after, "####") == Some(|before|)
  {
    var s := before + "####" + after;
    var n := |before|;
    assert OccursAt(s, "####", n) by {
      assert s[n..n + 4] == "####";
    }
    forall k | n + 4 <= k < |s| ensures s[k] != '#' {
      assert s[k] == after[k - n - 4];
    }
    NoSeparatorPast(s, n + 4);
    LastIndexOfAt(s, "####", n);
  }

  /** No `#` from index `m` on leaves no `####` past `m - 4`. */
  lemma NoSeparatorPast(s: string, m: nat)
    requires forall k :: m <= k < |s| ==> s[k] != '#'
    ensures forall v :: m - 4 < v ==> !OccursAt(s, "####", v)
  {
    forall v | 0 <= v && m - 4 < v && v + 4 <= |s| ensures !OccursAt(s, "####", v) {
      assert s[v..v + 4][3] == s[v + 3];
    }
  }

  // ---------------------------------------------------------------------
  // Template substitution

  /** `template.format(name=value)` for templates whose only replacement
      field is `{name}`: every occurrence of `{name}` becomes `value`, every
      other character is copied. */
  function Format(template: string, name: string, value: string): string
    decreases |template|
  {
    var field := "{" + name + "}";
    if template == [] then []
    else if |field| <= |template| && template[..|field|] == field then
      value + Format(template[|field|..], name, value)
    else [template[0]] + Format(template[1..], name, value)
  }

  /** The default template `{name}` yields the value verbatim. */
  lemma FormatFieldOnly(name: string, value: string)
    ensures Format("{" + name + "}", name, value) == value
  {
    var field := "{" + name + "}";
    assert field[..|field|] == field;
    assert field[|field|..] == [];
  }

  /** A template without `{` is copied unchanged. */
  lemma {:induction false} FormatLiteral(template: string, name: string, value: string)
    requires forall i :: 0 <= i < |template| ==> template[i] != '{'
    ensures Format(template, name, value) == template
    decreases |template|
  {
    if template != [] {
      var field := "{" + name + "}";
      assert field[0] == '{';
      assert !(|field| <= |template| && template[..|field|] == field) by {
        assert template[0] != '{';
      }
      FormatLiteral(template[1..], name, value);
      assert template == [template[0]] + template[1..];
    }
  }

  /** A template `a{name}b` with no braces in `a` or `b` yields `a`, the
      value, then `b`. */
  lemma FormatAround(a: string, b: string, name: string, value: string)
    requires forall i :: 0 <= i < |a| ==> a[i] != '{'
    requires forall i :: 0 <= i < |b| ==> b[i] != '{'
    ensures Format(a + "{" + name + "}" + b, name, value) == a + value + b
  {
    var field := "{" + name + "}";
    FormatAroundField(a, b, field, name, value);
    assert a + "{" + name + "}" + b == a + field + b;
  }

  lemma {:induction false} FormatAroundField(a: string, b: string, field: string, name: string, value: string)
    requires field == "{" + name + "}"
    requires forall i :: 0 <= i < |a| ==> a[i] != '{'
    requires forall i :: 0 <= i < |b| ==> b[i] != '{'
    ensures Format(a + field + b, name, value) == a + value + b
    decreases |a|
  {
    if a == [] {
      assert a + field + b == field + b;
      FieldFirst(field, b, name, value);
    } else {
      var rest := a[1..] + field + b;
      assert a + field + b == [a[0]] + rest by { assert a == [a[0]] + a[1..]; }
      FormatCopiesChar(a[0], rest, name, value);
      FormatAroundField(a[1..], b, field, name, value);
      assert a + value + b == [a[0]] + (a[1..] + value + b) by { assert a == [a[0]] + a[1..]; }
    }
  }

  /** A character other than `{` is copied. */
  lemma FormatCopiesChar(c: char, rest: string, name: string, value: string)
    requires c != '{'
    ensures Format([c] + rest, name, value) == [c] + Format(rest, name, value)
  {
    var t := [c] + rest;
    var field := "{" + name + "}";
    assert !(|field| <= |t| && t[..|field|] == field) by {
      assert field[0] == '{' && t[0] == c;
    }
    assert t[1..] == rest;
  }

  /** A template that starts with the field and continues without braces. */
  lemma FieldFirst(field: string, b: string, name: string, value: string)
    requires field == "{" + name + "}"
    requires forall i :: 0 <= i < |b| ==> b[i] != '{'
    ensures Format(field + b, name, value) == value + b
  {
    var t := field + b;
    assert t[..|field|] == field && t[|field|..] == b;
    FormatLiteral(b, name, value);
  }

  // ---------------------------------------------------------------------
  // float() on decimal text

  predicate IsDigit(c: char) { '0' <= c <= '9' }

  predicate AllDigits(s: string) { forall i :: 0 <= i < |s| ==> IsDigit(s[i]) }

  /** The value of a decimal digit string (0 for the empty string). */
  function DigitsValue(s: string): nat
    requires AllDigits(s)
  {
    if s == [] then 0 else DigitsValue(s[..|s| - 1]) * 10 + (s[|s| - 1] as int - '0' as int)
  }

  function Pow10(n: nat): (r: nat)
    ensures r >= 1
  {
    if n == 0 then 1 else 10 * Pow10(n - 1)
  }

  /** Index of the first `c` in `s`, or `|s|` when there is none. */
  function IndexOfChar(s: string, c: char): (r: nat)
    ensures r <= |s|
    ensures r < |s| ==> s[r] == c
    ensures forall i :: 0 <= i < r ==> s[i] != c
  {
    if s == [] then 0
    else if s[0] == c then 0
    else 1 + IndexOfChar(s[1..], c)
  }

  /** The value of `whole.frac` written in decimal. */
  function DecimalValue(whole: string, frac: string): (r: real)
    requires AllDigits(whole) && AllDigits(frac)
    ensures r >= 0.0
  {
    DigitsValue(whole) as real + DigitsValue(frac) as real / Pow10(|frac|) as real
  }

  /** An unsigned decimal `digits[.digits]` with at least one digit. */
  function ParseUnsigned(body: string): (r: Option<real>)
    ensures r.Some? ==> r.value >= 0.0
    ensures r.Some? ==> body != [] && forall i :: 0 <= i < |body| ==> IsDigit(body[i]) || body[i] == '.'
  {
    var k := IndexOfChar(body, '.');
    var whole := body[..k];
    var frac := if k < |body| then body[k + 1..] else [];
    if AllDigits(whole) && AllDigits(frac) && (whole != [] || frac != []) then
      assert forall i :: k < i < |body| ==> body[i] == frac[i - k - 1];
      Some(DecimalValue(whole, frac))
    else None
  }

  /** The characters `float()` strips. It first turns every non-ASCII
      whitespace character into a space and then strips ASCII whitespace
      only, so the separators U+001C..U+001F, which `str.isspace()`
      accepts, are kept, and the text is then not a number. */
  predicate IsFloatSpace(c: char) {
    IsSpace(c) && !('\U{1C}' <= c <= '\U{1F}')
  }

  /** The leading strip of `float()`: a suffix of `s`, everything dropped
      is `float()` whitespace. */
  function FloatTrimStart(s: string): (r: string)
    ensures |r| <= |s| && r == s[|s| - |r|..]
    ensures r == [] || !IsFloatSpace(r[0])
    ensures forall i :: 0 <= i < |s| - |r| ==> IsFloatSpace(s[i])
  {
    if s != [] && IsFloatSpace(s[0]) then FloatTrimStart(s[1..]) else s
  }

  /** The trailing strip of `float()`: a prefix of `s`, everything dropped
      is `float()` whitespace. */
  function FloatTrimEnd(s: string): (r: string)
    ensures |r| <= |s| && r == s[..|r|]
    ensures r == [] || !IsFloatSpace(r[|r| - 1])
    ensures forall i :: |r| <= i < |s| ==> IsFloatSpace(s[i])
  {
    if s != [] && IsFloatSpace(s[|s| - 1]) then FloatTrimEnd(s[..|s| - 1]) else s
  }

  /** The text `float()` reads after stripping its own whitespace. */
  function FloatStrip(s: string): (r: string)
    ensures r == [] || (!IsFloatSpace(r[0]) && !IsFloatSpace(r[|r| - 1]))
  {
    FloatTrimEnd(FloatTrimStart(s))
  }

  /** `float(s)` for decimal text: surrounding whitespace is ignored, an
      optional sign, digits with an optional fractional part; `None` stands
      for the `ValueError` raised on anything else. */
  function ParseFloat(s: string): (r: Option<real>)
    ensures Strip(s) == [] ==> r.None?
    ensures r.Some? && r.value < 0.0 ==> Strip(s)[0] == '-'
  {
    var t := FloatStrip(s);
    var r := ParseSigned(t);
    if r.Some? then
      FloatStripAgrees(s, t);
      r
    else r
  }

  /** The characters a number may start or end with. */
  predicate NumberChar(c: char) {
    IsDigit(c) || c == '.' || c == '+' || c == '-'
  }

  lemma NumberCharNotSpace(c: char)
    requires NumberChar(c)
    ensures !IsSpace(c)
  {
  }

  /** A number is read only where `float()`'s strip and `str.strip()`
      agree. */
  lemma ParseFloatReadsStripped(s: string)
    requires ParseFloat(s).Some?
    ensures FloatStrip(s) == Strip(s)
  {
    FloatStripAgrees(s, FloatStrip(s));
  }

  /** `float()` on text already stripped: an optional sign, then an
      unsigned decimal. */
  function ParseSigned(t: string): (r: Option<real>)
    ensures t == [] ==> r.None?
    ensures r.Some? && r.value < 0.0 ==> t[0] == '-'
    ensures r.Some? ==> t != [] && NumberChar(t[0]) && NumberChar(t[|t| - 1])
  {
    if t != [] && (t[0] == '+' || t[0] == '-') then
      match ParseUnsigned(t[1..])
      case None => None
      case Some(x) => Some(if t[0] == '-' then -x else x)
    else ParseUnsigned(t)
  }

  /** When `float()`'s strip leaves text that starts and ends the way a
      number does, `str.strip()` leaves the same text. */
  lemma FloatStripAgrees(s: string, t: string)
    requires t == FloatStrip(s) && t != [] && NumberChar(t[0]) && NumberChar(t[|t| - 1])
    ensures Strip(s) == t
  {
    var u := FloatTrimStart(s);
    var pre := s[..|s| - |u|];
    var post := u[|t|..];
    FloatSpaceBefore(s, u, pre);
    FloatSpaceAfter(u, t, post);
    NumberCharNotSpace(t[0]);
    NumberCharNotSpace(t[|t| - 1]);
    StripAround(s, pre, t, post);
  }

  /** What `float()`'s leading strip drops is `float()` whitespace. */
  lemma FloatSpaceBefore(s: string, u: string, pre: string)
    requires |u| <= |s| && u == s[|s| - |u|..]
    requires forall i :: 0 <= i < |s| - |u| ==> IsFloatSpace(s[i])
    requires pre == s[..|s| - |u|]
    ensures s == pre + u
    ensures forall i :: 0 <= i < |pre| ==> IsFloatSpace(pre[i])
  {
    assert s == s[..|s| - |u|] + s[|s| - |u|..];
    forall i | 0 <= i < |pre| ensures IsFloatSpace(pre[i]) {
      assert pre[i] == s[i];
    }
  }

  /** What `float()`'s trailing strip drops is `float()` whitespace. */
  lemma FloatSpaceAfter(u: string, t: string, post: string)
    requires t == FloatTrimEnd(u) && post == u[|t|..]
    ensures u == t + post
    ensures forall i :: 0 <= i < |post| ==> IsFloatSpace(post[i])
  {
    forall i | 0 <= i < |post| ensures IsFloatSpace(post[i]) {
      assert post[i] == u[|t| + i];
    }
  }

  /** `float()` whitespace on both sides of text that starts and ends with
      non-whitespace is what `strip()` removes. */
  lemma StripAround(s: string, pre: string, t: string, post: string)
    requires s == pre + (t + post)
    requires forall i :: 0 <= i < |pre| ==> IsFloatSpace(pre[i])
    requires forall i :: 0 <= i < |post| ==> IsFloatSpace(post[i])
    requires t != [] && !IsSpace(t[0]) && !IsSpace(t[|t| - 1])
    ensures Strip(s) == t
  {
    TrimStartPast(pre, t + post);
    TrimEndPast(t, post);
  }

  lemma {:induction false} TrimStartPast(pre: string, w: string)
    requires forall i :: 0 <= i < |pre| ==> IsFloatSpace(pre[i])
    requires w != [] && !IsSpace(w[0])
    ensures TrimStart(pre + w) == w
    decreases |pre|
  {
    var s := pre + w;
    if pre == [] {
      assert s == w;
    } else {
      assert s[0] == pre[0] && s[1..] == pre[1..] + w;
      assert TrimStart(s) == TrimStart(s[1..]);
      TrimStartPast(pre[1..], w);
    }
  }

  lemma {:induction false} TrimEndPast(w: string, post: string)
    requires forall i :: 0 <= i < |post| ==> IsFloatSpace(post[i])
    requires w != [] && !IsSpace(w[|w| - 1])
    ensures TrimEnd(w + post) == w
    decreases |post|
  {
    var s := w + post;
    if post == [] {
      assert s == w;
    } else {
      var front := post[..|post| - 1];
      assert s[|s| - 1] == post[|post| - 1] && s[..|s| - 1] == w + front;
      assert TrimEnd(s) == TrimEnd(s[..|s| - 1]);
      TrimEndPast(w, front);
    }
  }

  /** Text without `float()` whitespace at either end is read as it is. */
  lemma FloatStripKeepsTrimmed(s: string)
    requires s == [] || (!IsFloatSpace(s[0]) && !IsFloatSpace(s[|s| - 1]))
    ensures FloatStrip(s) == s
  {
    assert FloatTrimStart(s) == s;
  }

  /** Text that `strip()` has trimmed is trimmed for `float()` too, so
      `float(x.strip())` reads the stripped text itself. */
  lemma ParseFloatStripped(s: string)
    ensures ParseFloat(Strip(s)) == ParseSigned(Strip(s))
  {
    FloatStripKeepsTrimmed(Strip(s));
  }

  /** `float()` keeps a leading separator U+001C..U+001F and rejects the
      text, whatever follows. */
  lemma FloatKeepsSeparator(c: char, t: string)
    requires '\U{1C}' <= c <= '\U{1F}'
    ensures ParseFloat([c] + t) == None
  {
    var s := [c] + t;
    FloatStripStartsWith(c, t);
    ParseSignedNeedsNumberStart(FloatStrip(s));
    ParseFloatIsSigned(s);
  }

  /** Text that does not start the way a number does is not a number. */
  lemma ParseSignedNeedsNumberStart(u: string)
    requires u == [] || ('\U{1C}' <= u[0] <= '\U{1F}')
    ensures ParseSigned(u) == None
  {
  }

  /** `float()` reads what its own strip leaves. */
  lemma ParseFloatIsSigned(s: string)
    ensures ParseFloat(s) == ParseSigned(FloatStrip(s))
  {
  }

  /** Text that does not start with `float()` whitespace keeps its first
      character through `float()`'s strip, unless nothing is left. */
  lemma FloatStripStartsWith(c: char, t: string)
    requires !IsFloatSpace(c)
    ensures var u := FloatStrip([c] + t); u == [] || u[0] == c
  {
    var s := [c] + t;
    assert FloatTrimStart(s) == s;
  }

  /** `strip()` removes such a separator, so `float(x.strip())` reads the
      digits after it. */
  lemma StripRemovesSeparator(c: char, digits: string)
    requires '\U{1C}' <= c <= '\U{1F}'
    requires digits != [] && AllDigits(digits)
    ensures ParseFloat(Strip([c] + digits)) == Some(DigitsValue(digits) as real)
  {
    assert IsDigit(digits[0]) && IsDigit(digits[|digits| - 1]);
    NumberCharNotSpace(digits[0]);
    NumberCharNotSpace(digits[|digits| - 1]);
    StripLeadingSpaces([c], digits);
    DigitsParse(digits);
  }

  /** A sign in front of an unsigned decimal, through `float()`: `-`
      negates it, `+` or no sign keeps it. */
  lemma ParseFloatSigned(sign: string, body: string, x: real)
    requires sign == "" || sign == "+" || sign == "-"
    requires ParseUnsigned(body) == Some(x)
    ensures ParseFloat(sign + body) == Some(if sign == "-" then -x else x)
  {
    ParseSignedBody(sign, body, x);
    ParseFloatOfTrimmed(sign + body);
  }

  /** Text that reads as a number without stripping reads the same way
      through `float()`. */
  lemma ParseFloatOfTrimmed(s: string)
    requires ParseSigned(s).Some?
    ensures ParseFloat(s) == ParseSigned(s)
  {
    NumberCharNotSpace(s[0]);
    NumberCharNotSpace(s[|s| - 1]);
    FloatStripKeepsTrimmed(s);
  }

  /** `digits.digits` reads as its decimal value. */
  lemma ParseUnsignedDecimal(whole: string, frac: string)
    requires AllDigits(whole) && AllDigits(frac) && (whole != [] || frac != [])
    ensures ParseUnsigned(whole + "." + frac) == Some(DecimalValue(whole, frac))
  {
    var body := whole + "." + frac;
    assert body[|whole|] == '.';
    IndexOfCharAt(body, '.', |whole|);
    assert body[..|whole|] == whole && body[|whole| + 1..] == frac;
  }

  /** A sign in front of an unsigned decimal negates it or keeps it. */
  lemma ParseSignedBody(sign: string, body: string, x: real)
    requires sign == "" || sign == "+" || sign == "-"
    requires ParseUnsigned(body) == Some(x)
    ensures ParseSigned(sign + body) == Some(if sign == "-" then -x else x)
  {
    var s := sign + body;
    if sign == "" {
      assert s == body;
      assert body[0] != '+' && body[0] != '-';
    } else {
      assert s[0] == sign[0] && s[1..] == body;
    }
  }

  /** The first `c` is found at `k` when nothing before `k` is `c`. */
  lemma {:induction false} IndexOfCharAt(s: string, c: char, k: nat)
    requires k < |s| && s[k] == c
    requires forall i :: 0 <= i < k ==> s[i] != c
    ensures IndexOfChar(s, c) == k
    decreases k
  {
    if k > 0 {
      IndexOfCharAt(s[1..], c, k - 1);
    }
  }

  /** Digits without a point parse to their decimal value. */
  lemma ParseUnsignedDigits(s: string)
    requires s != [] && AllDigits(s)
    ensures ParseUnsigned(s) == Some(DigitsValue(s) as real)
  {
    var k := IndexOfChar(s, '.');
    assert forall i :: 0 <= i < |s| ==> s[i] != '.';
    assert s[..k] == s;
    assert DecimalValue(s, []) == DigitsValue(s) as real by {
      assert DigitsValue([]) == 0;
    }
  }

  /** A non-empty digit string parses to its decimal value. */
  lemma DigitsParse(s: string)
    requires s != [] && AllDigits(s)
    ensures ParseFloat(s) == Some(DigitsValue(s) as real)
  {
    ParseUnsignedDigits(s);
    assert s[0] != '+' && s[0] != '-';
    ParseFloatOfTrimmed(s);
  }

  /** The empty string is not a number. */
  lemma EmptyDoesNotParse()
    ensures ParseFloat("") == None
  {
    FloatStripKeepsTrimmed("");
  }

  /** `str(n)` for a natural number. */
  function NatToDigits(n: nat): (r: string)
    ensures r != [] && AllDigits(r)
  {
    var d := ['0' + (n % 10) as char];
    if n < 10 then d else NatToDigits(n / 10) + d
  }

  lemma {:induction false} DigitsValueOfNat(n: nat)
    ensures DigitsValue(NatToDigits(n)) == n
  {
    var s := NatToDigits(n);
    if n >= 10 {
      DigitsValueOfNat(n / 10);
      assert s[..|s| - 1] == NatToDigits(n / 10);
    }
  }

  /** `float(str(n)) == n`. */
  lemma ParseFloatOfNat(n: nat)
    ensures ParseFloat(NatToDigits(n)) == Some(n as real)
  {
    DigitsParse(NatToDigits(n));
    DigitsValueOfNat(n);
  }
}
