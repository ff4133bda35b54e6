/** The few Python string operations the relay relies on, over `seq<char>`. */
module Strings {
  import opened Wrappers
  import Seqs

  /** Python's `s.split(sep)` for a one-character separator: the pieces
      between the separators, always at least one, none containing `sep`. */
  function Split(s: string, sep: char): (r: seq<string>)
    ensures |r| >= 1
    ensures forall i :: 0 <= i < |r| ==> sep !in r[i]
    decreases |s|
  {
    if s == [] then [""]
    else
      var rest := Split(s[1..], sep);
      if s[0] == sep then [""] + rest
      else [[s[0]] + rest[0]] + rest[1..]
  }

  /** Python's `sep.join(parts)` for a non-empty list of parts. */
  function Join(parts: seq<string>, sep: char): string
    requires |parts| >= 1
    decreases |parts|
  {
    if |parts| == 1 then parts[0] else parts[0] + [sep] + Join(parts[1..], sep)
  }

  /** Joining the pieces of a split gives back the original string. */
  lemma {:induction false} JoinSplit(s: string, sep: char)
    ensures Join(Split(s, sep), sep) == s
    decreases |s|
  {
    if s != [] {
      JoinSplit(s[1..], sep);
      var rest := Split(s[1..], sep);
      if s[0] != sep {
        if |rest| == 1 {
          assert Split(s, sep) == [[s[0]] + rest[0]];
        } else {
          assert Split(s, sep)[1..] == rest[1..];
          assert Join(rest, sep) == rest[0] + [sep] + Join(rest[1..], sep);
          assert [s[0]] + rest[0] + [sep] + Join(rest[1..], sep) == [s[0]] + Join(rest, sep);
        }
      } else {
        assert Split(s, sep) == [""] + rest;
        assert ([""] + rest)[1..] == rest;
      }
    }
  }

  /** Splitting a string gained by `Join` from separator-free parts gives back the parts. */
  lemma {:induction false} SplitJoin(parts: seq<string>, sep: char)
    requires |parts| >= 1
    requires forall i :: 0 <= i < |parts| ==> sep !in parts[i]
    ensures Split(Join(parts, sep), sep) == parts
    decreases |parts|
  {
    if |parts| == 1 {
      SplitNoSep(parts[0], [], sep);
      assert parts[0] + [] == parts[0];
      assert parts[0] + "" == parts[0];
    } else {
      SplitJoin(parts[1..], sep);
      var tail := [sep] + Join(parts[1..], sep);
      SplitNoSep(parts[0], tail, sep);
      assert Join(parts, sep) == parts[0] + tail;
      assert tail[1..] == Join(parts[1..], sep);
      assert Split(tail, sep) == [""] + parts[1..];
      assert parts[0] + "" == parts[0];
      assert [parts[0]] + parts[1..] == parts;
    }
  }

  /** A separator-free prefix extends the first piece of the split of what follows it. */
  lemma {:induction false} SplitNoSep(a: string, b: string, sep: char)
    requires sep !in a
    ensures Split(a + b, sep) == [a + Split(b, sep)[0]] + Split(b, sep)[1..]
    decreases |a|
  {
    if a != [] {
      SplitNoSep(a[1..], b, sep);
      assert a[0] in a;
      assert (a + b)[0] == a[0] != sep;
      assert (a + b)[1..] == a[1..] + b;
      var rest := Split(a[1..] + b, sep);
      assert Split(a + b, sep) == [[a[0]] + rest[0]] + rest[1..];
      assert rest[0] == a[1..] + Split(b, sep)[0];
      assert rest[1..] == Split(b, sep)[1..];
      assert [a[0]] + (a[1..] + Split(b, sep)[0]) == a + Split(b, sep)[0];
    } else {
      assert a + b == b;
      assert a + Split(b, sep)[0] == Split(b, sep)[0];
      assert [Split(b, sep)[0]] + Split(b, sep)[1..] == Split(b, sep);
    }
  }

  /** The first piece of a split (Python's `s.split(sep)[0]`) is the longest
      separator-free prefix of `s`: either all of `s`, or followed by `sep`. */
  lemma {:induction false} SplitHead(s: string, sep: char)
    ensures var h := Split(s, sep)[0];
      |h| <= |s| && h == s[..|h|] && (|h| == |s| || s[|h|] == sep)
    decreases |s|
  {
    if s != [] {
      SplitHead(s[1..], sep);
    }
  }

  predicate IsDigit(c: char) {
    '0' <= c <= '9'
  }

  function DigitChar(d: nat): (c: char)
    requires d < 10
    ensures IsDigit(c)
  {
    ('0' as int + d) as char
  }

  /** Python's `str(n)` for a natural number: decimal digits, no leading zero. */
  function DecimalNat(n: nat): (s: string)
    ensures |s| >= 1
    ensures forall i :: 0 <= i < |s| ==> IsDigit(s[i])
    decreases n
  {
    if n < 10 then [DigitChar(n)] else DecimalNat(n / 10) + [DigitChar(n % 10)]
  }

  /** Python's `str(n)` (and `f'{n}'`) for an integer. */
  function Decimal(n: int): (s: string)
    ensures |s| >= 1
    ensures s[0] == '-' <==> n < 0
    ensures forall i :: (if n < 0 then 1 else 0) <= i < |s| ==> IsDigit(s[i])
  {
    if n < 0 then "-" + DecimalNat(-n) else DecimalNat(n)
  }

  function DigitValue(c: char): nat
    requires IsDigit(c)
  {
    c as int - '0' as int
  }

  /** The value of a run of decimal digits, leading zeros allowed. */
  function DigitsValue(s: string): nat
    requires forall i :: 0 <= i < |s| ==> IsDigit(s[i])
    decreases |s|
  {
    if s == [] then 0
    else DigitsValue(s[..|s| - 1]) * 10 + DigitValue(s[|s| - 1])
  }

  predicate AllDigits(s: string) {
    |s| >= 1 && forall i :: 0 <= i < |s| ==> IsDigit(s[i])
  }

  /** Python's `int(s)` on a header value: an optional sign and ASCII digits;
      anything else raises (`None` here). */
  function ParseInt(s: string): (r: Option<int>)
    ensures r.Some? <==> AllDigits(s) || (|s| >= 2 && (s[0] == '-' || s[0] == '+') && AllDigits(s[1..]))
  {
    if AllDigits(s) then Some(DigitsValue(s))
    else if |s| >= 2 && s[0] == '-' && AllDigits(s[1..]) then Some(-(DigitsValue(s[1..]) as int))
    else if |s| >= 2 && s[0] == '+' && AllDigits(s[1..]) then Some(DigitsValue(s[1..]))
    else None
  }

  lemma {:induction false} DigitsValueDecimal(n: nat)
    ensures DigitsValue(DecimalNat(n)) == n
    decreases n
  {
    if n >= 10 {
      DigitsValueDecimal(n / 10);
      var s := DecimalNat(n);
      assert s[..|s| - 1] == DecimalNat(n / 10);
    }
  }

  /** Reading back the decimal rendering of an integer gives the integer. */
  lemma ParseDecimal(n: int)
    ensures ParseInt(Decimal(n)) == Some(n)
  {
    if n < 0 {
      DigitsValueDecimal(-n);
      assert Decimal(n)[1..] == DecimalNat(-n);
    } else {
      DigitsValueDecimal(n);
    }
  }

  /** The decimal rendering is one-to-one. */
  lemma DecimalInjective(m: int, n: int)
    requires Decimal(m) == Decimal(n)
    ensures m == n
  {
    ParseDecimal(m);
    ParseDecimal(n);
  }

  /** `t` contains a brace. */
  predicate HasBrace(t: string)
    decreases |t|
  {
    t != [] && (t[0] == '{' || t[0] == '}' || HasBrace(t[1..]))
  }

  /** What the front of a non-empty template formats to: the number of
      characters it takes and the text it gives, or `None` for a brace that
      starts no field. */
  function Head(t: string, w: string, h: string): (r: Option<(nat, string)>)
    requires t != []
    ensures r.Some? ==> 1 <= r.value.0 <= |t|
  {
    if |t| >= 3 && t[..3] == "{w}" then Some((3, w))
    else if |t| >= 3 && t[..3] == "{h}" then Some((3, h))
    else if |t| >= 2 && t[..2] == "{{" then Some((2, "{"))
    else if |t| >= 2 && t[..2] == "}}" then Some((2, "}"))
    else if t[0] == '{' || t[0] == '}' then None
    else Some((1, [t[0]]))
  }

  /** Python's `t.format(w=w, h=h)`: `{w}` and `{h}` are replaced, `{{` and
      `}}` stand for a brace, and any other brace raises (`None` here). */
  function FormatSize(t: string, w: string, h: string): (r: Option<string>)
    ensures r.None? ==> HasBrace(t)
    decreases |t|
  {
    if t == [] then Some([])
    else match Head(t, w, h)
      case None => None
      case Some(piece) => Prepend(piece.1, FormatSize(t[piece.0..], w, h))
  }

  /** A character other than a brace stands for itself. */
  lemma HeadLiteral(t: string, w: string, h: string)
    requires t != [] && t[0] != '{' && t[0] != '}'
    ensures Head(t, w, h) == Some((1, [t[0]]))
  {
    if |t| >= 3 {
      assert t[..3][0] == t[0];
    }
    if |t| >= 2 {
      assert t[..2][0] == t[0];
    }
  }

  function Prepend(a: string, r: Option<string>): Option<string> {
    if r.Some? then Some(a + r.value) else None
  }

  /** A first character other than a brace stands for itself. */
  lemma FormatLiteralChar(u: string, w: string, h: string)
    requires u != [] && u[0] != '{' && u[0] != '}'
    ensures FormatSize(u, w, h) == Prepend([u[0]], FormatSize(u[1..], w, h))
  {
    HeadLiteral(u, w, h);
  }

  lemma PrependPrepend(a: string, b: string, r: Option<string>)
    ensures Prepend(a, Prepend(b, r)) == Prepend(a + b, r)
  {
    if r.Some? {
      Seqs.AppendAssoc(a, b, r.value);
    }
  }

  /** Brace-free text passes through the format unchanged, in front of anything. */
  lemma {:induction false} FormatLiteralPrefix(a: string, t: string, w: string, h: string)
    requires !HasBrace(a)
    ensures FormatSize(a + t, w, h) == Prepend(a, FormatSize(t, w, h))
    decreases |a|
  {
    if a == [] {
      PrependEmpty(FormatSize(t, w, h));
      assert a + t == t;
    } else {
      var x, rest := a[0], a[1..];
      LiteralTail(a);
      FormatLiteralPrefix(rest, t, w, h);
      FormatLiteralStep(a, t, w, h);
      PrependPrepend([x], rest, FormatSize(t, w, h));
      assert [x] + rest == a;
    }
  }

  /** The first character of brace-free text in front of `t` stands for itself. */
  lemma FormatLiteralStep(a: string, t: string, w: string, h: string)
    requires a != [] && a[0] != '{' && a[0] != '}'
    ensures FormatSize(a + t, w, h) == Prepend([a[0]], FormatSize(a[1..] + t, w, h))
  {
    assert (a + t)[0] == a[0] && (a + t)[1..] == a[1..] + t;
    FormatLiteralChar(a + t, w, h);
  }

  lemma PrependEmpty(r: Option<string>)
    ensures Prepend([], r) == r
  {
    if r.Some? {
      assert [] + r.value == r.value;
    }
  }

  lemma LiteralTail(a: string)
    requires !HasBrace(a) && a != []
    ensures a[0] != '{' && a[0] != '}' && !HasBrace(a[1..])
  {
  }

  /** `{w}` and `{h}` at the front are replaced by the width and the height. */
  lemma FormatFields(t: string, w: string, h: string)
    ensures FormatSize("{w}" + t, w, h) == Prepend(w, FormatSize(t, w, h))
    ensures FormatSize("{h}" + t, w, h) == Prepend(h, FormatSize(t, w, h))
  {
    assert ("{w}" + t)[..3] == "{w}" && ("{w}" + t)[3..] == t;
    assert ("{h}" + t)[..3] == "{h}" && ("{h}" + t)[3..] == t;
  }

  /** Brace-free text in front of a template that formats to `x`. */
  lemma LiteralThen(a: string, t: string, w: string, h: string, x: string)
    requires !HasBrace(a) && FormatSize(t, w, h) == Some(x)
    ensures FormatSize(a + t, w, h) == Some(a + x)
  {
    FormatLiteralPrefix(a, t, w, h);
  }

  /** A field in front of a template that formats to `x`. */
  lemma FieldThen(t: string, w: string, h: string, x: string)
    requires FormatSize(t, w, h) == Some(x)
    ensures FormatSize("{w}" + t, w, h) == Some(w + x)
    ensures FormatSize("{h}" + t, w, h) == Some(h + x)
  {
    FormatFields(t, w, h);
  }

  /** A template `a{w}b{h}c` with brace-free `a`, `b`, `c` formats to `a w b h c`. */
  lemma FormatSizeTemplate(a: string, b: string, c: string, w: string, h: string)
    requires !HasBrace(a) && !HasBrace(b) && !HasBrace(c)
    ensures FormatSize(a + "{w}" + b + "{h}" + c, w, h) == Some(a + w + b + h + c)
  {
    assert c + [] == c;
    LiteralThen(c, [], w, h, []);
    FieldThen(c, w, h, c);
    LiteralThen(b, "{h}" + c, w, h, h + c);
    FieldThen(b + ("{h}" + c), w, h, b + (h + c));
    LiteralThen(a, "{w}" + (b + ("{h}" + c)), w, h, w + (b + (h + c)));
    Regroup(a, "{w}", b, "{h}", c);
    Regroup(a, w, b, h, c);
  }


  /** Five strings joined from the right are joined from the left. */
  lemma Regroup(p: string, q: string, r: string, s: string, t: string)
    ensures p + (q + (r + (s + t))) == p + q + r + s + t
  {
    Seqs.AppendAssoc(r, s, t);
    Seqs.AppendAssoc(q, r + s, t);
    Seqs.AppendAssoc(q, r, s);
    Seqs.AppendAssoc(p, q + r + s, t);
    Seqs.AppendAssoc(p, q + r, s);
    Seqs.AppendAssoc(p, q, r);
  }
}
