/** String operations the JavaScript sources rely on: `String.prototype.trim`,
    decimal rendering of non-negative integers, `padStart`, `Array.join`, and
    the "```" fence marker used by the feedback route. Strings are sequences of
    Unicode scalar values; no normalisation is modelled. */
module Text {

  /** The characters JavaScript's `trim` and the regular-expression class `\s`
      treat as white space: the WhiteSpace and LineTerminator productions of
      ECMAScript (tab, line feed, vertical tab, form feed, carriage return,
      space, no-break space, the Zs separators, the line and paragraph
      separators and the byte-order mark). */
  predicate IsSpace(c: char) {
    || c == '\t' || c == '\n' || c == '\U{B}' || c == '\U{C}' || c == '\r'
    || c == ' ' || c == '\U{A0}' || c == '\U{1680}'
    || ('\U{2000}' <= c <= '\U{200A}')
    || c == '\U{2028}' || c == '\U{2029}' || c == '\U{202F}' || c == '\U{205F}'
    || c == '\U{3000}' || c == '\U{FEFF}'
  }

  predicate AllSpace(s: string) {
    forall k :: 0 <= k < |s| ==> IsSpace(s[k])
  }

  /** `trimStart`: drops the white-space prefix and keeps the rest intact. */
  function TrimStart(s: string): (r: string)
    ensures |r| <= |s| && r == s[|s| - |r|..]
    ensures AllSpace(s[..|s| - |r|])
    ensures r != [] ==> !IsSpace(r[0])
  {
    if |s| > 0 && IsSpace(s[0]) then
      var r := TrimStart(s[1..]);
      var d := |s| - |r|;
      assert s[1..][..d - 1] == s[1..d];
      assert AllSpace(s[..d]) by {
        forall k | 0 <= k < d ensures IsSpace(s[..d][k]) {
          assert k == 0 || s[..d][k] == s[1..d][k - 1];
        }
      }
      r
    else s
  }

  /** `trimEnd`: drops the white-space suffix and keeps the rest intact. */
  function TrimEnd(s: string): (r: string)
    ensures |r| <= |s| && r == s[..|r|]
    ensures AllSpace(s[|r|..])
    ensures r != [] ==> !IsSpace(r[|r| - 1])
  {
    if |s| > 0 && IsSpace(s[|s| - 1]) then
      var t := s[..|s| - 1];
      var r := TrimEnd(t);
      assert s[|r|..] == t[|r|..] + [s[|s| - 1]];
      r
    else s
  }

  /** Where `Trim(s)` starts inside `s`. */
  function TrimOffset(s: string): nat
    ensures TrimOffset(s) <= |s|
  {
    |s| - |TrimStart(s)|
  }

  /** `String.prototype.trim`: the slice of `s` between its white-space prefix
      and its white-space suffix. */
  function Trim(s: string): (r: string)
    ensures TrimOffset(s) + |r| <= |s|
    ensures r == s[TrimOffset(s)..TrimOffset(s) + |r|]
    ensures AllSpace(s[..TrimOffset(s)]) && AllSpace(s[TrimOffset(s) + |r|..])
    ensures r != [] ==> !IsSpace(r[0]) && !IsSpace(r[|r| - 1])
  {
    var t := TrimStart(s);
    var r := TrimEnd(t);
    SliceOfSuffix(s, t, |r|);
    r
  }

  /** Slicing a suffix of `s` is slicing `s` itself, shifted. */
  lemma SliceOfSuffix(s: string, t: string, n: nat)
    requires |t| <= |s| && t == s[|s| - |t|..] && n <= |t|
    ensures s[|s| - |t|..|s| - |t| + n] == t[..n]
    ensures s[|s| - |t| + n..] == t[n..]
  {
  }

  lemma TrimStartOfUntrimmed(s: string)
    requires s == [] || !IsSpace(s[0])
    ensures TrimStart(s) == s
  {
  }

  lemma TrimEndOfUntrimmed(s: string)
    requires s == [] || !IsSpace(s[|s| - 1])
    ensures TrimEnd(s) == s
  {
  }

  /** Trimming is idempotent. */
  lemma TrimIdempotent(s: string)
    ensures Trim(Trim(s)) == Trim(s)
  {
    var r := Trim(s);
    TrimStartOfUntrimmed(r);
    TrimEndOfUntrimmed(r);
  }

  /** A white-space prefix never survives `trimStart`. */
  lemma {:induction false} TrimStartDropsSpaces(ws: string, s: string)
    requires AllSpace(ws)
    ensures TrimStart(ws + s) == TrimStart(s)
    decreases |ws|
  {
    if ws != [] {
      assert (ws + s)[1..] == ws[1..] + s;
      TrimStartDropsSpaces(ws[1..], s);
    } else {
      assert ws + s == s;
    }
  }

  /** A white-space suffix never survives `trimEnd`. */
  lemma {:induction false} TrimEndDropsSpaces(s: string, ws: string)
    requires AllSpace(ws)
    ensures TrimEnd(s + ws) == TrimEnd(s)
    decreases |ws|
  {
    if ws != [] {
      var n := |ws| - 1;
      assert (s + ws)[..|s + ws| - 1] == s + ws[..n];
      TrimEndDropsSpaces(s, ws[..n]);
    } else {
      assert s + ws == s;
    }
  }

  /** `trimStart` of a concatenation whose left part is not all white space
      only touches the left part. */
  lemma {:induction false} TrimStartAppend(s: string, t: string)
    ensures AllSpace(s) ==> TrimStart(s + t) == TrimStart(t)
    ensures !AllSpace(s) ==> TrimStart(s + t) == TrimStart(s) + t
    decreases |s|
  {
    if s == [] {
      assert s + t == t;
    } else if IsSpace(s[0]) {
      assert (s + t)[0] == s[0];
      assert (s + t)[1..] == s[1..] + t;
      TrimStartAppend(s[1..], t);
      assert AllSpace(s) <==> AllSpace(s[1..]) by {
        forall k | 0 <= k < |s| - 1 ensures s[1..][k] == s[k + 1] {
        }
      }
    } else {
      assert (s + t)[0] == s[0];
      assert !AllSpace(s) by {
        assert !IsSpace(s[0]);
      }
    }
  }

  /** White space around a string does not change its trimmed form. */
  lemma TrimIgnoresPadding(ws: string, s: string, ws': string)
    requires AllSpace(ws) && AllSpace(ws')
    ensures Trim(ws + s + ws') == Trim(s)
  {
    assert ws + s + ws' == ws + (s + ws');
    TrimStartDropsSpaces(ws, s + ws');
    TrimStartAppend(s, ws');
    if !AllSpace(s) {
      TrimEndDropsSpaces(TrimStart(s), ws');
    } else {
      TrimStartAppend(s, []);
      assert s + [] == s;
      assert TrimStart(ws') == [] by {
        TrimStartAppend(ws', []);
        assert ws' + [] == ws';
      }
    }
  }

  /** Trimming a slice from after a run of white space is trimming the slice
      from before it. */
  lemma TrimAfterSpaces(s: string, p: nat, r: nat, q: nat)
    requires p <= r <= q <= |s|
    requires forall k :: p <= k < r ==> IsSpace(s[k])
    ensures Trim(s[r..q]) == Trim(s[p..q])
  {
    var u, t := s[p..r], s[r..q];
    assert AllSpace(u) by {
      forall k | 0 <= k < |u| ensures IsSpace(u[k]) {
        assert u[k] == s[p + k];
      }
    }
    assert s[p..q] == u + t;
    TrimStartDropsSpaces(u, t);
  }

  // ---------------------------------------------------------------- decimals

  predicate IsDigit(c: char) {
    '0' <= c <= '9'
  }

  predicate AllDigits(s: string) {
    forall k :: 0 <= k < |s| ==> IsDigit(s[k])
  }

  function DigitChar(d: nat): (c: char)
    requires d < 10
    ensures IsDigit(c)
  {
    (d + 48) as char
  }

  function DigitValue(c: char): (d: nat)
    requires IsDigit(c)
    ensures d < 10
  {
    (c as int - 48) as nat
  }

  /** JavaScript's `String(n)` for a non-negative integer: its decimal digits,
      most significant first, with no leading zero. */
  function NatToString(n: nat): (r: string)
    ensures 1 <= |r| && AllDigits(r)
    ensures n < 10 <==> |r| == 1
    ensures n < 100 ==> |r| <= 2
    ensures r[0] == '0' ==> n == 0
    decreases n
  {
    if n < 10 then [DigitChar(n)]
    else NatToString(n / 10) + [DigitChar(n % 10)]
  }

  /** The value of a string of decimal digits (the empty string reads as 0). */
  function ParseDecimal(s: string): (n: nat)
    requires AllDigits(s)
    ensures (forall k :: 0 <= k < |s| ==> s[k] == '0') ==> n == 0
  {
    if s == [] then 0
    else ParseDecimal(s[..|s| - 1]) * 10 + DigitValue(s[|s| - 1])
  }

  /** Reading back a rendered number gives the number. */
  lemma {:induction false} ParseNatToString(n: nat)
    ensures ParseDecimal(NatToString(n)) == n
    decreases n
  {
    var r := NatToString(n);
    if n < 10 {
      assert r[..0] == [];
    } else {
      assert r[..|r| - 1] == NatToString(n / 10);
      ParseNatToString(n / 10);
    }
  }

  /** A leading zero does not change a decimal value. */
  lemma {:induction false} ParseLeadingZero(s: string)
    requires AllDigits(s)
    ensures AllDigits("0" + s) && ParseDecimal("0" + s) == ParseDecimal(s)
    decreases |s|
  {
    if s != [] {
      assert ("0" + s)[..|"0" + s| - 1] == "0" + s[..|s| - 1];
      ParseLeadingZero(s[..|s| - 1]);
    } else {
      assert ("0" + s)[..0] == [];
    }
  }

  /** `String.prototype.padStart(width, "0")`: zeros in front of `s` up to
      `width` characters; a string already that long is left alone. */
  function PadStartZero(s: string, width: nat): (r: string)
    ensures |s| >= width ==> r == s
    ensures |s| < width ==> r == seq(width - |s|, _ => '0') + s
    decreases width - |s|
  {
    if |s| >= width then s
    else
      var n := width - |s|;
      assert seq(n - 1, _ => '0') + ['0'] + s == seq(n, _ => '0') + s;
      PadStartZero(['0'] + s, width)
  }

  // ------------------------------------------------------------------- joins

  /** `Array.prototype.join(sep)` on strings: the elements in order with
      `sep` between neighbours; the empty array joins to "". */
  function Join(xs: seq<string>, sep: string): (r: string)
    ensures xs == [] ==> r == []
    ensures |xs| == 1 ==> r == xs[0]
  {
    if xs == [] then []
    else if |xs| == 1 then xs[0]
    else xs[0] + sep + Join(xs[1..], sep)
  }

  /** Joining a longer array adds exactly one separator and the new element. */
  lemma {:induction false} JoinSnoc(xs: seq<string>, x: string, sep: string)
    requires xs != []
    ensures Join(xs + [x], sep) == Join(xs, sep) + sep + x
    decreases |xs|
  {
    if |xs| == 1 {
      assert (xs + [x])[1..] == [x];
    } else {
      assert (xs + [x])[1..] == xs[1..] + [x];
      JoinSnoc(xs[1..], x, sep);
    }
  }

  // ------------------------------------------------------------------ fences

  /** A "```" code-fence marker starts at index `k` of `s`. */
  predicate FenceAt(s: string, k: int) {
    0 <= k && k + 3 <= |s| && s[k] == '`' && s[k + 1] == '`' && s[k + 2] == '`'
  }

  /** `s` contains no "```". */
  predicate NoFence(s: string) {
    forall k :: 0 <= k < |s| ==> !FenceAt(s, k)
  }

  /** A slice of a fence-free string is fence-free. */
  lemma NoFenceSlice(s: string, i: nat, j: nat)
    requires i <= j <= |s| && NoFence(s)
    ensures NoFence(s[i..j])
  {
    forall k ensures !FenceAt(s[i..j], k) {
      if FenceAt(s[i..j], k) {
        assert FenceAt(s, i + k);
      }
    }
  }

  /** Trimming cannot create a fence. */
  lemma TrimKeepsNoFence(s: string)
    requires NoFence(s)
    ensures NoFence(Trim(s))
  {
    var r, o := Trim(s), TrimOffset(s);
    assert r == s[o..o + |r|];
    NoFenceSlice(s, o, o + |r|);
  }
}
