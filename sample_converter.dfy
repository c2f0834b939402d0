/** Model of the integer back end of the WAV-to-firmware sample converter:
    the peak scan used for normalisation, the trim of trailing silence from
    the quantised samples, and the formatter that renders them as a C array
    declaration, eight right-justified values per line.  Decoding,
    resampling, the floating-point scaling and all I/O are outside the
    model: it starts from the already quantised integer samples. */
module SampleConverter {

  datatype Option<T> = None | Some(value: T)

  function Abs(x: real): real
  {
    if x < 0.0 then -x else x
  }

  function Min(a: int, b: int): int
  {
    if a <= b then a else b
  }

  // ---------------------------------------------------------------------
  // Peak scan (`findPeak`)
  // ---------------------------------------------------------------------

  /** The running maximum and minimum, seeded with -1 and 1, and the larger
      of their magnitudes.  The seeds never win on a non-empty input: the
      result is always the largest sample magnitude, and 1 on an empty one.
      A result of 0 (the division by zero in the normalisation that follows)
      happens exactly when the input is non-empty and silent. */
  method FindPeak(samples: seq<real>) returns (peak: real)
    ensures forall k :: 0 <= k < |samples| ==> Abs(samples[k]) <= peak
    ensures |samples| > 0 ==> exists k :: 0 <= k < |samples| && peak == Abs(samples[k])
    ensures |samples| == 0 ==> peak == 1.0
    ensures peak == 0.0 <==> |samples| > 0 && forall k :: 0 <= k < |samples| ==> samples[k] == 0.0
  {
    var hi, lo := -1.0, 1.0;
    for i := 0 to |samples|
      invariant -1.0 <= hi && lo <= 1.0
      invariant forall k :: 0 <= k < i ==> lo <= samples[k] <= hi
      invariant hi == -1.0 || exists k :: 0 <= k < i && hi == samples[k]
      invariant lo == 1.0 || exists k :: 0 <= k < i && lo == samples[k]
      invariant i > 0 && hi == -1.0 ==> lo <= -1.0
      invariant i > 0 && lo == 1.0 ==> hi >= 1.0
    {
      hi := if samples[i] > hi then samples[i] else hi;
      lo := if samples[i] < lo then samples[i] else lo;
    }
    peak := if Abs(hi) >= Abs(lo) then Abs(hi) else Abs(lo);
    if |samples| > 0 {
      // A seed that is the larger magnitude ties with a sample on the other side.
      if hi == -1.0 && peak == Abs(hi) {
        assert peak == Abs(lo);
      } else if lo == 1.0 && peak == Abs(lo) {
        assert peak == Abs(hi);
      }
      if peak == 0.0 {
        forall k | 0 <= k < |samples| ensures samples[k] == 0.0 {
          assert Abs(samples[k]) <= peak;
        }
      }
    }
  }

  // ---------------------------------------------------------------------
  // Trim of trailing zeros
  // ---------------------------------------------------------------------

  predicate HasNonZero(s: seq<int>)
  {
    exists k :: 0 <= k < |s| && s[k] != 0
  }

  function Zeros(n: nat): (z: seq<int>)
    ensures |z| == n && forall k :: 0 <= k < n ==> z[k] == 0
  {
    seq(n, _ => 0)
  }

  /** The input with its run of trailing zeros removed: the longest prefix
      that is empty or ends in a non-zero value, followed only by zeros. */
  function Trimmed(s: seq<int>): (t: seq<int>)
    ensures |t| <= |s| && t == s[..|t|]
    ensures forall k :: |t| <= k < |s| ==> s[k] == 0
    ensures t == [] || t[|t| - 1] != 0
  {
    if |s| == 0 || s[|s| - 1] != 0 then s else Trimmed(s[..|s| - 1])
  }

  /** The source's `while convdata[-1] == 0: convdata.pop()`.  On a silent
      or empty list that loop indexes an empty list and fails, hence the
      precondition (see `TrimmedEmptyIffSilent`). */
  method TrimTrailingZeros(data: seq<int>) returns (trimmed: seq<int>)
    requires HasNonZero(data)
    ensures trimmed == Trimmed(data)
    ensures |trimmed| > 0 && trimmed[|trimmed| - 1] != 0
    ensures trimmed == data[..|trimmed|]
    ensures forall k :: |trimmed| <= k < |data| ==> data[k] == 0
  {
    ghost var w :| 0 <= w < |data| && data[w] != 0;
    trimmed := data;
    while trimmed[|trimmed| - 1] == 0
      invariant w < |trimmed| <= |data| && trimmed == data[..|trimmed|]
      invariant forall k :: |trimmed| <= k < |data| ==> data[k] == 0
      invariant Trimmed(trimmed) == Trimmed(data)
      decreases |trimmed|
    {
      trimmed := trimmed[..|trimmed| - 1];
    }
  }

  /** The trim fails (leaves nothing) exactly on an all-zero or empty list. */
  lemma TrimmedEmptyIffSilent(s: seq<int>)
    ensures Trimmed(s) == [] <==> !HasNonZero(s)
  {
  }

  /** The trim exactly undoes padding with zeros: a list that is empty or
      ends in a non-zero value comes back from any amount of padding. */
  lemma {:induction false} TrimmedOfPadded(t: seq<int>, n: nat)
    requires t == [] || t[|t| - 1] != 0
    ensures Trimmed(t + Zeros(n)) == t
  {
    if n > 0 {
      var s := t + Zeros(n);
      assert s[..|s| - 1] == t + Zeros(n - 1);
      TrimmedOfPadded(t, n - 1);
    } else {
      assert t + Zeros(0) == t;
    }
  }

  /** Trimming an already trimmed list changes nothing. */
  lemma TrimmedIdempotent(s: seq<int>)
    ensures Trimmed(Trimmed(s)) == Trimmed(s)
  {
  }

  // ---------------------------------------------------------------------
  // `"%4i" % s`: decimal rendering, right-justified in width 4
  // ---------------------------------------------------------------------

  predicate IsDigit(c: char)
  {
    '0' <= c <= '9'
  }

  predicate AllDigits(s: string)
  {
    forall k :: 0 <= k < |s| ==> IsDigit(s[k])
  }

  function DigitChar(d: int): (c: char)
    requires 0 <= d < 10
    ensures IsDigit(c) && c as int - '0' as int == d
  {
    ('0' as int + d) as char
  }

  function Pow10(k: nat): (p: nat)
    ensures p >= 1
  {
    if k == 0 then 1 else 10 * Pow10(k - 1)
  }

  /** Decimal digits of a natural number, without leading zeros. */
  function NatToDecimal(n: nat): (s: string)
    ensures |s| >= 1 && AllDigits(s)
    ensures s[0] == '0' ==> n == 0
    decreases n
  {
    if n < 10 then [DigitChar(n)] else NatToDecimal(n / 10) + [DigitChar(n % 10)]
  }

  /** Python's `str` of an integer: a minus sign before the digits of the
      magnitude when negative. */
  function IntToDecimal(v: int): string
  {
    if v < 0 then "-" + NatToDecimal(-v) else NatToDecimal(v)
  }

  function Spaces(n: nat): (s: string)
    ensures |s| == n && forall k :: 0 <= k < n ==> s[k] == ' '
  {
    seq(n, _ => ' ')
  }

  /** One sample as `%4i` renders it: padded on the left with spaces to
      width 4, never truncated. */
  function FormatField(v: int): (f: string)
    ensures |f| >= 4 && |IntToDecimal(v)| <= |f|
    ensures |f| > 4 ==> f == IntToDecimal(v)
  {
    var d := IntToDecimal(v);
    if |d| < 4 then Spaces(4 - |d|) + d else d
  }

  /** `%4i` right-justifies: the decimal rendering ends the field and only
      spaces precede it. */
  lemma FieldJustified(v: int)
    ensures |IntToDecimal(v)| <= |FormatField(v)|
    ensures FormatField(v)[|FormatField(v)| - |IntToDecimal(v)|..] == IntToDecimal(v)
    ensures forall k :: 0 <= k < |FormatField(v)| - |IntToDecimal(v)| ==> FormatField(v)[k] == ' '
  {
  }

  /** A number has at most k digits exactly when it is below 10^k. */
  lemma {:induction false} DecimalLength(n: nat, k: nat)
    requires k >= 1
    ensures |NatToDecimal(n)| <= k <==> n < Pow10(k)
    decreases n
  {
    if n >= 10 {
      if k > 1 {
        DecimalLength(n / 10, k - 1);
      } else {
        assert |NatToDecimal(n)| == |NatToDecimal(n / 10)| + 1;
      }
    } else if k > 1 {
      assert Pow10(k) == 10 * Pow10(k - 1);
    }
  }

  /** Every value from -999 to 9999, and no other, takes exactly four
      characters; wider values overflow the column. */
  lemma FieldWidth(v: int)
    ensures |FormatField(v)| >= 4
    ensures |FormatField(v)| == 4 <==> -999 <= v <= 9999
  {
    assert Pow10(3) == 1000 && Pow10(4) == 10000;
    if v < 0 {
      DecimalLength(-v, 3);
    } else {
      DecimalLength(v, 4);
    }
  }

  /** Reading a decimal field back: skip the padding, an optional minus
      sign, then the digits. */
  function ParseNat(s: string): nat
    requires AllDigits(s)
  {
    if |s| == 0 then 0 else 10 * ParseNat(s[..|s| - 1]) + (s[|s| - 1] as int - '0' as int)
  }

  function DropSpaces(s: string): string
  {
    if |s| > 0 && s[0] == ' ' then DropSpaces(s[1..]) else s
  }

  function ParseField(f: string): Option<int>
  {
    var t := DropSpaces(f);
    if |t| > 1 && t[0] == '-' && AllDigits(t[1..]) then Some(-(ParseNat(t[1..]) as int))
    else if |t| > 0 && AllDigits(t) then Some(ParseNat(t))
    else None
  }

  lemma {:induction false} ParseNatOfDecimal(n: nat)
    ensures ParseNat(NatToDecimal(n)) == n
    decreases n
  {
    if n >= 10 {
      var s := NatToDecimal(n);
      assert s[..|s| - 1] == NatToDecimal(n / 10);
      ParseNatOfDecimal(n / 10);
    }
  }

  lemma {:induction false} DropSpacesOfPadded(k: nat, d: string)
    requires |d| > 0 && d[0] != ' '
    ensures DropSpaces(Spaces(k) + d) == d
  {
    if k > 0 {
      assert (Spaces(k) + d)[1..] == Spaces(k - 1) + d;
      DropSpacesOfPadded(k - 1, d);
    } else {
      assert Spaces(0) + d == d;
    }
  }

  /** The rendering loses nothing: every field reads back as its value. */
  lemma FieldRoundTrip(v: int)
    ensures ParseField(FormatField(v)) == Some(v)
  {
    var d := IntToDecimal(v);
    var f := FormatField(v);
    if |d| < 4 {
      DropSpacesOfPadded(4 - |d|, d);
    } else {
      assert DropSpaces(d) == d;
    }
    assert DropSpaces(f) == d;
    if v < 0 {
      assert d[1..] == NatToDecimal(-v);
      ParseNatOfDecimal(-v);
    } else {
      ParseNatOfDecimal(v);
    }
  }

  // ---------------------------------------------------------------------
  // Grouping into lines of eight values
  // ---------------------------------------------------------------------

  /** Reference definition of the grouping: consecutive chunks of eight, the
      last one shorter when the count is not a multiple of eight. */
  function Grouped<T>(xs: seq<T>): (g: seq<seq<T>>)
    ensures |g| == (|xs| + 7) / 8
    ensures forall i :: 0 <= i < |g| ==> 1 <= |g[i]| <= 8
    ensures forall i :: 0 <= i < |g| - 1 ==> |g[i]| == 8
    decreases |xs|
  {
    if |xs| == 0 then [] else if |xs| <= 8 then [xs] else [xs[..8]] + Grouped(xs[8..])
  }

  function Flatten<T>(rows: seq<seq<T>>): seq<T>
  {
    if |rows| == 0 then [] else rows[0] + Flatten(rows[1..])
  }

  /** Element j of group i is element 8i + j of the input, and group i holds
      the next eight values or what is left of them. */
  lemma {:induction false} GroupedAt<T>(xs: seq<T>, i: nat, j: nat)
    requires i < |Grouped(xs)|
    ensures |Grouped(xs)[i]| == Min(8, |xs| - 8 * i)
    ensures j < |Grouped(xs)[i]| ==> 8 * i + j < |xs| && Grouped(xs)[i][j] == xs[8 * i + j]
    decreases |xs|
  {
    if |xs| > 8 && i > 0 {
      GroupedAt(xs[8..], i - 1, j);
    }
  }

  /** Concatenating the groups in order gives back exactly the input. */
  lemma {:induction false} FlattenGrouped<T>(xs: seq<T>)
    ensures Flatten(Grouped(xs)) == xs
    decreases |xs|
  {
    if |xs| > 8 {
      var g := Grouped(xs);
      assert g[0] == xs[..8] && g[1..] == Grouped(xs[8..]);
      FlattenGrouped(xs[8..]);
    } else if |xs| > 0 {
      assert Grouped(xs)[1..] == [];
    }
  }

  /** `izip_longest(*(iter(lines),) * 8)`: tuples of eight consecutive
      values, the last filled up with `None`. */
  function PaddedGroups<T>(xs: seq<T>): (g: seq<seq<Option<T>>>)
    ensures |g| == (|xs| + 7) / 8
    ensures forall i :: 0 <= i < |g| ==> |g[i]| == 8
    ensures forall i, j :: 0 <= i < |g| && 0 <= j < 8 ==> (g[i][j].None? <==> 8 * i + j >= |xs|)
    ensures forall i :: 0 <= i < |g| - 1 ==> NoFill(g[i])
  {
    seq((|xs| + 7) / 8, i requires 0 <= i => seq(8, j requires 0 <= j => if 8 * i + j < |xs| then Some(xs[8 * i + j]) else None))
  }

  /** Value t of the input is the entry at column t % 8 of row t / 8. */
  lemma PaddedGroupsAt<T>(xs: seq<T>, t: nat)
    requires t < |xs|
    ensures t / 8 < |PaddedGroups(xs)| && PaddedGroups(xs)[t / 8][t % 8] == Some(xs[t])
  {
  }

  /** `takewhile(lambda x: x is not None, row)`: the longest prefix of
      present values. */
  function TakeWhileSome<T>(row: seq<Option<T>>): (r: seq<Option<T>>)
    ensures |r| <= |row| && r == row[..|r|]
    ensures forall k :: 0 <= k < |r| ==> r[k].Some?
    ensures |r| < |row| ==> row[|r|].None?
  {
    if |row| == 0 || row[0].None? then [] else [row[0]] + TakeWhileSome(row[1..])
  }

  function Somes<T>(xs: seq<T>): (r: seq<Option<T>>)
    ensures |r| == |xs| && forall k :: 0 <= k < |xs| ==> r[k] == Some(xs[k])
  {
    seq(|xs|, k requires 0 <= k < |xs| => Some(xs[k]))
  }

  predicate NoFill<T>(row: seq<Option<T>>)
  {
    forall k :: 0 <= k < |row| ==> row[k].Some?
  }

  function Values<T>(row: seq<Option<T>>): (r: seq<T>)
    requires NoFill(row)
    ensures |r| == |row| && forall k :: 0 <= k < |r| ==> row[k] == Some(r[k])
  {
    seq(|row|, k requires 0 <= k < |row| => row[k].value)
  }

  /** Lines 59 to 62 of the script: group with `None` fill, then overwrite
      the last group with its fill stripped.  The result holds no `None`,
      and its groups are exactly the reference chunks.  On an empty list the
      source fails at `lines[-1]`, hence the precondition. */
  method GroupLines(fields: seq<string>) returns (lines: seq<seq<Option<string>>>)
    requires |fields| > 0
    ensures |lines| == |Grouped(fields)| == (|fields| + 7) / 8
    ensures forall i :: 0 <= i < |lines| ==> NoFill(lines[i]) && lines[i] == Somes(Grouped(fields)[i])
  {
    var padded := PaddedGroups(fields);
    lines := padded;
    lines := lines[|lines| - 1 := TakeWhileSome(lines[|lines| - 1])];

    var g := Grouped(fields);
    var last := |g| - 1;
    forall i | 0 <= i < |lines| ensures lines[i] == Somes(g[i]) {
      GroupedAt(fields, i, 0);
      var n := Min(8, |fields| - 8 * i);
      if i < last {
        forall j | 0 <= j < 8 ensures padded[i][j] == Some(g[i][j]) {
          GroupedAt(fields, i, j);
        }
      } else {
        var r := TakeWhileSome(padded[last]);
        // The fill starts right after the last value present.
        assert n < 8 ==> padded[last][n].None?;
        assert |r| == n;
        forall j | 0 <= j < n ensures r[j] == Some(g[last][j]) {
          GroupedAt(fields, last, j);
        }
      }
    }
  }

  // ---------------------------------------------------------------------
  // Rendering and assembly
  // ---------------------------------------------------------------------

  /** Python's `sep.join(items)`. */
  function Join(sep: string, items: seq<string>): string
    decreases |items|
  {
    if |items| == 0 then ""
    else if |items| == 1 then items[0]
    else Join(sep, items[..|items| - 1]) + sep + items[|items| - 1]
  }

  /** `"  %s," % ", ".join(line)`: two spaces, the fields, a trailing comma. */
  function RenderLine(fields: seq<string>): (l: string)
    ensures |l| == |Join(", ", fields)| + 3
    ensures l[..2] == "  " && l[|l| - 1] == ','
  {
    "  " + Join(", ", fields) + ","
  }

  const Header := "const char sample_XX[] PROGMEM = \n{"
  const Footer := "};"

  /** `"%s\n%s\n%s\n" % (header, "\n".join(lines), footer)`. */
  function Assemble(lines: seq<string>): (t: string)
    ensures |t| == |Join("\n", lines)| + 40
    ensures t[..36] == Header + "\n"
    ensures t[|t| - 4..] == "\n" + Footer + "\n"
  {
    Header + "\n" + Join("\n", lines) + "\n" + Footer + "\n"
  }

  function FormatAll(samples: seq<int>): (fields: seq<string>)
    ensures |fields| == |samples| && forall k :: 0 <= k < |samples| ==> fields[k] == FormatField(samples[k])
  {
    seq(|samples|, k requires 0 <= k < |samples| => FormatField(samples[k]))
  }

  function RenderAll(groups: seq<seq<string>>): (lines: seq<string>)
    ensures |lines| == |groups| && forall i :: 0 <= i < |groups| ==> lines[i] == RenderLine(groups[i])
  {
    seq(|groups|, i requires 0 <= i < |groups| => RenderLine(groups[i]))
  }

  /** The text the script writes for a trimmed, non-empty sample list. */
  function SourceText(samples: seq<int>): (t: string)
    requires |samples| > 0
    ensures |t| >= 40
    ensures t[..36] == Header + "\n"
    ensures t[|t| - 4..] == "\n" + Footer + "\n"
  {
    Assemble(RenderAll(Grouped(FormatAll(samples))))
  }

  /** Lines 49 to 70 of the script from the quantised samples on: trim, render
      each value, group, render each line, assemble. */
  method Convert(quantized: seq<int>) returns (text: string)
    requires HasNonZero(quantized)
    ensures text == SourceText(Trimmed(quantized))
  {
    var samples := TrimTrailingZeros(quantized);
    var fields := seq(|samples|, k requires 0 <= k < |samples| => FormatField(samples[k]));
    var groups := GroupLines(fields);
    var lines := seq(|groups|, i requires 0 <= i < |groups| => RenderLine(Values(groups[i])));
    text := Assemble(lines);

    var g := Grouped(FormatAll(samples));
    assert fields == FormatAll(samples);
    forall i | 0 <= i < |groups| ensures Values(groups[i]) == g[i] {
    }
    assert lines == RenderAll(g);
  }

  // ---------------------------------------------------------------------
  // Layout of the output
  // ---------------------------------------------------------------------

  /** The start of item j of a join whose items before it all take `stride`
      characters together with their separator. */
  function Offset(j: nat, stride: nat): nat
  {
    if j == 0 then 0 else Offset(j - 1, stride) + stride
  }

  lemma {:induction false} OffsetIsProduct(j: nat, stride: nat)
    ensures Offset(j, stride) == j * stride
  {
    if j > 0 {
      OffsetIsProduct(j - 1, stride);
      assert (j - 1) * stride + stride == j * stride;
    }
  }

  /** Joining n items of width w with a separator s takes n(w + s) - s. */
  lemma {:induction false} JoinLength(sep: string, items: seq<string>, w: nat)
    requires |items| > 0
    requires forall k :: 0 <= k < |items| ==> |items[k]| == w
    ensures |Join(sep, items)| + |sep| == Offset(|items|, w + |sep|)
    decreases |items|
  {
    var n := |items|;
    if n > 1 {
      JoinLength(sep, items[..n - 1], w);
    }
  }

  /** Item j starts at j(w + s) when the items before it have width w. */
  lemma {:induction false} JoinItemAt(sep: string, items: seq<string>, w: nat, j: nat)
    requires j < |items|
    requires forall k :: 0 <= k < j ==> |items[k]| == w
    ensures Offset(j, w + |sep|) + |items[j]| <= |Join(sep, items)|
    ensures Join(sep, items)[Offset(j, w + |sep|) .. Offset(j, w + |sep|) + |items[j]|] == items[j]
    decreases |items|
  {
    var n := |items|;
    if n > 1 {
      var init := items[..n - 1];
      var joined := Join(sep, init);
      var start := Offset(j, w + |sep|);
      assert Join(sep, items) == joined + sep + items[n - 1];
      if j < n - 1 {
        JoinItemAt(sep, init, w, j);
        SliceOfPrefix(joined, sep + items[n - 1], start, start + |items[j]|);
        assert joined + sep + items[n - 1] == joined + (sep + items[n - 1]);
      } else {
        JoinLength(sep, init, w);
        assert start == |joined + sep|;
        SliceOfConcat(joined + sep, items[n - 1], [], 0, |items[n - 1]|);
        assert joined + sep + items[n - 1] + [] == joined + sep + items[n - 1];
      }
    }
  }

  /** The separator after item j sits at j(w + s) + w. */
  lemma {:induction false} JoinSepAt(sep: string, items: seq<string>, w: nat, j: nat)
    requires j + 1 < |items|
    requires forall k :: 0 <= k <= j ==> |items[k]| == w
    ensures Offset(j + 1, w + |sep|) <= |Join(sep, items)|
    ensures Join(sep, items)[Offset(j, w + |sep|) + w .. Offset(j + 1, w + |sep|)] == sep
    decreases |items|
  {
    var n := |items|;
    var init := items[..n - 1];
    var joined := Join(sep, init);
    var start := Offset(j, w + |sep|) + w;
    assert Offset(j + 1, w + |sep|) == start + |sep|;
    assert Join(sep, items) == joined + sep + items[n - 1];
    if j + 1 < n - 1 {
      JoinSepAt(sep, init, w, j);
      SliceOfPrefix(joined, sep + items[n - 1], start, start + |sep|);
      assert joined + sep + items[n - 1] == joined + (sep + items[n - 1]);
    } else {
      JoinLength(sep, init, w);
      assert start == |joined|;
      SliceOfConcat(joined, sep, items[n - 1], 0, |sep|);
    }
  }

  /** The four characters of value column c of a rendered line, and the
      two after them. */
  function Column(line: string, c: nat): string
  {
    if 6 * c + 6 <= |line| then line[2 + 6 * c .. 6 + 6 * c] else ""
  }

  function Gap(line: string, c: nat): string
  {
    if 6 * c + 8 <= |line| then line[6 + 6 * c .. 8 + 6 * c] else ""
  }

  /** A line of k four-character fields is fully determined: two spaces,
      field c in columns 2 + 6c to 5 + 6c, ", " between fields, and a
      final comma, 6k + 1 characters in all. */
  lemma RenderLineLayout(fields: seq<string>)
    requires |fields| > 0
    requires forall k :: 0 <= k < |fields| ==> |fields[k]| == 4
    ensures |RenderLine(fields)| == 6 * |fields| + 1
    ensures RenderLine(fields)[..2] == "  " && RenderLine(fields)[6 * |fields|] == ','
    ensures forall c :: 0 <= c < |fields| ==> Column(RenderLine(fields), c) == fields[c]
    ensures forall c :: 0 <= c < |fields| - 1 ==> Gap(RenderLine(fields), c) == ", "
  {
    var body := Join(", ", fields);
    var line := RenderLine(fields);
    JoinLength(", ", fields, 4);
    OffsetIsProduct(|fields|, 6);
    forall c | 0 <= c < |fields| ensures Column(line, c) == fields[c] {
      JoinItemAt(", ", fields, 4, c);
      OffsetIsProduct(c, 6);
      assert line[2 + 6 * c .. 6 + 6 * c] == body[6 * c .. 6 * c + 4];
    }
    forall c | 0 <= c < |fields| - 1 ensures Gap(line, c) == ", " {
      JoinSepAt(", ", fields, 4, c);
      OffsetIsProduct(c, 6);
      OffsetIsProduct(c + 1, 6);
      assert line[6 + 6 * c .. 8 + 6 * c] == body[6 * c + 4 .. 6 * c + 6];
    }
  }

  /** Where value t of the list appears in the text: after the header line
      and the "{" line, in line t / 8 of fifty characters, column t % 8. */
  function FieldOffset(t: nat): nat
  {
    |Header| + 1 + 50 * (t / 8) + 2 + 6 * (t % 8)
  }

  predicate InFieldRange(samples: seq<int>)
  {
    forall k :: 0 <= k < |samples| ==> -999 <= samples[k] <= 9999
  }

  /** Each group of the rendered list holds fields of width four when the
      values fit the column. */
  lemma GroupFieldsWidth(samples: seq<int>)
    requires InFieldRange(samples)
    ensures forall a, b :: 0 <= a < |Grouped(FormatAll(samples))| && 0 <= b < |Grouped(FormatAll(samples))[a]| ==>
              |Grouped(FormatAll(samples))[a][b]| == 4
  {
    var fields := FormatAll(samples);
    var g := Grouped(fields);
    forall a, b | 0 <= a < |g| && 0 <= b < |g[a]| ensures |g[a][b]| == 4 {
      GroupedAt(fields, a, b);
      FieldWidth(samples[8 * a + b]);
    }
  }

  lemma SliceWithin(s: string, a: nat, u: string, x: nat, y: nat)
    requires a + |u| <= |s| && s[a .. a + |u|] == u && x <= y <= |u|
    ensures s[a + x .. a + y] == u[x .. y]
  {
    var l, r := s[a + x .. a + y], u[x .. y];
    forall k | 0 <= k < |l| ensures l[k] == r[k] {
      assert s[a .. a + |u|][x + k] == l[k];
    }
  }

  lemma SliceOfConcat(p: string, b: string, q: string, x: nat, y: nat)
    requires x <= y <= |b|
    ensures (p + b + q)[|p| + x .. |p| + y] == b[x .. y]
  {
    var l := (p + b + q)[|p| + x .. |p| + y];
    assert forall k :: 0 <= k < |l| ==> l[k] == b[x + k];
  }

  lemma SliceOfPrefix(u: string, v: string, i: nat, j: nat)
    requires i <= j <= |u|
    ensures (u + v)[i .. j] == u[i .. j]
  {
  }

  /** In the joined lines, column c of line i starts at 50i + 2 + 6c when
      the lines before it are full (49 characters). */
  lemma BodyColumnAt(lines: seq<string>, i: nat, c: nat)
    requires i < |lines| && 6 * c + 6 <= |lines[i]|
    requires forall a :: 0 <= a < i ==> |lines[a]| == 49
    ensures 50 * i + 6 + 6 * c <= |Join("\n", lines)|
    ensures Join("\n", lines)[50 * i + 2 + 6 * c .. 50 * i + 6 + 6 * c] == Column(lines[i], c)
  {
    JoinItemAt("\n", lines, 49, i);
    OffsetIsProduct(i, 50);
    SliceWithin(Join("\n", lines), 50 * i, lines[i], 2 + 6 * c, 6 + 6 * c);
  }

  /** Value t sits in line t / 8, column t % 8 of the joined lines. */
  lemma BodySampleAt(samples: seq<int>, t: nat)
    requires t < |samples|
    requires InFieldRange(samples)
    ensures 50 * (t / 8) + 6 + 6 * (t % 8) <= |Join("\n", RenderAll(Grouped(FormatAll(samples))))|
    ensures Join("\n", RenderAll(Grouped(FormatAll(samples))))[50 * (t / 8) + 2 + 6 * (t % 8) .. 50 * (t / 8) + 6 + 6 * (t % 8)]
            == FormatField(samples[t])
  {
    var fields := FormatAll(samples);
    var g := Grouped(fields);
    var lines := RenderAll(g);
    var i, c := t / 8, t % 8;
    GroupFieldsWidth(samples);
    GroupedAt(fields, i, c);
    forall a | 0 <= a < i ensures |lines[a]| == 49 {
      RenderLineLayout(g[a]);
    }
    RenderLineLayout(g[i]);
    BodyColumnAt(lines, i, c);
  }

  /** The joined lines sit in the text right after the 36 characters of
      the header line and the "{" line, and 4 characters precede the end. */
  lemma AssembleBody(lines: seq<string>, x: nat, y: nat)
    requires x <= y <= |Join("\n", lines)|
    ensures |Assemble(lines)| == |Join("\n", lines)| + 40
    ensures Assemble(lines)[36 + x .. 36 + y] == Join("\n", lines)[x .. y]
  {
    var body := Join("\n", lines);
    var head := Header + "\n";
    assert |head| == 36;
    SliceOfConcat(head, body, [], x, y);
    assert head + body + [] == head + body;
    var text := head + body;
    SliceOfPrefix(text, "\n", |head| + x, |head| + y);
    SliceOfPrefix(text + "\n", Footer, |head| + x, |head| + y);
    SliceOfPrefix(text + "\n" + Footer, "\n", |head| + x, |head| + y);
  }

  /** Every value of the list stands, rendered by `%4i`, at a position of
      the text that depends only on its index. */
  lemma SampleAt(samples: seq<int>, t: nat)
    requires |samples| > 0 && t < |samples|
    requires InFieldRange(samples)
    ensures FieldOffset(t) + 4 <= |SourceText(samples)|
    ensures SourceText(samples)[FieldOffset(t) .. FieldOffset(t) + 4] == FormatField(samples[t])
  {
    var lines := RenderAll(Grouped(FormatAll(samples)));
    var x := 50 * (t / 8) + 2 + 6 * (t % 8);
    BodySampleAt(samples, t);
    AssembleBody(lines, x, x + 4);
    assert FieldOffset(t) == 36 + x;
  }

  /** The text determines the list: every value reads back from its field. */
  lemma RecoverSample(samples: seq<int>, t: nat)
    requires |samples| > 0 && t < |samples|
    requires InFieldRange(samples)
    ensures FieldOffset(t) + 4 <= |SourceText(samples)|
    ensures ParseField(SourceText(samples)[FieldOffset(t) .. FieldOffset(t) + 4]) == Some(samples[t])
  {
    SampleAt(samples, t);
    FieldRoundTrip(samples[t]);
  }

  /** Full lines of 49 characters joined with "\n" take 50 each. */
  lemma BodyLength(lines: seq<string>)
    requires |lines| > 0
    requires forall a :: 0 <= a < |lines| - 1 ==> |lines[a]| == 49
    ensures |Join("\n", lines)| == 50 * (|lines| - 1) + |lines[|lines| - 1]|
  {
    var m := |lines|;
    if m > 1 {
      JoinLength("\n", lines[..m - 1], 49);
      OffsetIsProduct(m - 1, 50);
    }
  }

  /** The length of the text: six characters per value, two more per line
      (the indent, and the line break that the comma leaves out), and 39
      for the wrapper. */
  lemma TextLength(samples: seq<int>)
    requires |samples| > 0
    requires InFieldRange(samples)
    ensures |SourceText(samples)| == 6 * |samples| + 2 * ((|samples| + 7) / 8) + 39
  {
    var fields := FormatAll(samples);
    var g := Grouped(fields);
    var lines := RenderAll(g);
    var m := |g|;
    GroupFieldsWidth(samples);
    GroupedAt(fields, m - 1, 0);
    RenderLineLayout(g[m - 1]);
    forall a | 0 <= a < m - 1 ensures |lines[a]| == 49 {
      RenderLineLayout(g[a]);
    }
    BodyLength(lines);
  }

  /** Different sample lists give different texts: the formatter loses
      nothing, as long as every value fits its four-character column. */
  lemma SourceTextInjective(a: seq<int>, b: seq<int>)
    requires |a| > 0 && |b| > 0
    requires InFieldRange(a) && InFieldRange(b)
    requires SourceText(a) == SourceText(b)
    ensures a == b
  {
    TextLength(a);
    TextLength(b);
    forall t | 0 <= t < |a| ensures a[t] == b[t] {
      RecoverSample(a, t);
      RecoverSample(b, t);
    }
  }

  // ---------------------------------------------------------------------
  // Line structure of the output
  // ---------------------------------------------------------------------

  function CountNewlines(s: string): nat
  {
    if |s| == 0 then 0 else CountNewlines(s[..|s| - 1]) + (if s[|s| - 1] == '\n' then 1 else 0)
  }

  lemma {:induction false} CountNewlinesConcat(a: string, b: string)
    ensures CountNewlines(a + b) == CountNewlines(a) + CountNewlines(b)
    decreases |b|
  {
    if |b| > 0 {
      assert (a + b)[..|a + b| - 1] == a + b[..|b| - 1];
      CountNewlinesConcat(a, b[..|b| - 1]);
    } else {
      assert a + b == a;
    }
  }

  predicate NoNewline(s: string)
  {
    forall k :: 0 <= k < |s| ==> s[k] != '\n'
  }

  lemma {:induction false} CountNewlinesAbsent(s: string)
    requires NoNewline(s)
    ensures CountNewlines(s) == 0
    decreases |s|
  {
    if |s| > 0 {
      CountNewlinesAbsent(s[..|s| - 1]);
    }
  }

  /** Joining lines that hold no line break with "\n" puts n - 1 of them. */
  lemma {:induction false} CountNewlinesJoin(items: seq<string>)
    requires |items| > 0
    requires forall k :: 0 <= k < |items| ==> NoNewline(items[k])
    ensures CountNewlines(Join("\n", items)) == |items| - 1
    decreases |items|
  {
    var n := |items|;
    CountNewlinesAbsent(items[n - 1]);
    if n > 1 {
      var init := items[..n - 1];
      var joined := Join("\n", init);
      assert Join("\n", items) == joined + "\n" + items[n - 1];
      CountNewlinesJoin(init);
      assert CountNewlines("\n") == 1;
      CountNewlinesConcat(joined, "\n");
      CountNewlinesConcat(joined + "\n", items[n - 1]);
    }
  }

  lemma {:induction false} JoinNoNewline(sep: string, items: seq<string>)
    requires NoNewline(sep)
    requires forall k :: 0 <= k < |items| ==> NoNewline(items[k])
    ensures NoNewline(Join(sep, items))
    decreases |items|
  {
    if |items| > 1 {
      JoinNoNewline(sep, items[..|items| - 1]);
    }
  }

  lemma FieldNoNewline(v: int)
    ensures NoNewline(FormatField(v))
  {
  }

  /** A rendered line never contains a line break. */
  lemma RenderLineNoNewline(fields: seq<string>)
    requires forall k :: 0 <= k < |fields| ==> NoNewline(fields[k])
    ensures NoNewline(RenderLine(fields))
  {
    JoinNoNewline(", ", fields);
  }

  lemma HeaderNewlines()
    ensures CountNewlines(Header) == 1
  {
    var declaration := "const char sample_XX[] PROGMEM = ";
    assert Header == declaration + "\n" + "{";
    CountNewlinesAbsent(declaration);
    CountNewlinesConcat(declaration, "\n");
    CountNewlinesConcat(declaration + "\n", "{");
  }

  /** The text has the header line, the "{" line, one line per group of
      eight values (so the ceiling of N / 8), and the "};" line. */
  lemma TextLineCount(samples: seq<int>)
    requires |samples| > 0
    ensures CountNewlines(SourceText(samples)) == (|samples| + 7) / 8 + 3
  {
    var fields := FormatAll(samples);
    var g := Grouped(fields);
    var lines := RenderAll(g);
    forall i | 0 <= i < |lines| ensures NoNewline(lines[i]) {
      forall j | 0 <= j < |g[i]| ensures NoNewline(g[i][j]) {
        GroupedAt(fields, i, j);
        FieldNoNewline(samples[8 * i + j]);
      }
      RenderLineNoNewline(g[i]);
    }
    var body := Join("\n", lines);
    CountNewlinesJoin(lines);
    HeaderNewlines();
    assert CountNewlines("\n") == 1;
    CountNewlinesAbsent(Footer);
    CountNewlinesConcat(Header, "\n");
    CountNewlinesConcat(Header + "\n", body);
    CountNewlinesConcat(Header + "\n" + body, "\n");
    CountNewlinesConcat(Header + "\n" + body + "\n", Footer);
    CountNewlinesConcat(Header + "\n" + body + "\n" + Footer, "\n");
  }
}
