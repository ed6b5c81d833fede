/**
 * Masking of Brazilian document numbers (lib/masks.ts).
 *
 * Every mask first keeps only the digits of its input and then runs a chain of
 * single (non-global) regular-expression replacements. Each replacement is
 * modelled as written: `InsertAfterRun` is `.replace(/(\d{w})(\d)/, "$1<sep>$2")`
 * (the same function serves `(\d{w})(\d{1,2})`, whose match puts the separator at
 * the same place) and `TrimAfterDashPair` is `.replace(/(-\d{2})\d+?$/, "$1")`.
 * `CpfMaskLayout` and `CnpjMaskLayout` then prove that the chains compute the
 * documented layouts, written independently as `Layout`.
 */
module Masks {
  import opened Wrappers
  import opened Decimal

  // ---------------------------------------------------------------------------
  // removeMask: `value.replace(/\D/g, "")`
  // ---------------------------------------------------------------------------

  function RemoveMask(v: string): (r: string)
    ensures AllDigits(r) && |r| <= |v|
    ensures AllDigits(v) ==> r == v
  {
    if v == [] then []
    else (if IsDigit(v[0]) then [v[0]] else []) + RemoveMask(v[1..])
  }

  /** Digits are kept in their order: removing the mask of a concatenation concatenates. */
  lemma {:induction false} RemoveMaskAppend(a: string, b: string)
    ensures RemoveMask(a + b) == RemoveMask(a) + RemoveMask(b)
  {
    if a == [] {
      assert a + b == b;
    } else {
      assert (a + b)[0] == a[0] && (a + b)[1..] == a[1..] + b;
      RemoveMaskAppend(a[1..], b);
    }
  }

  /** Every digit occurrence of the input is kept, and nothing else. */
  lemma {:induction false} RemoveMaskCounts(v: string, c: char)
    ensures multiset(RemoveMask(v))[c] == if IsDigit(c) then multiset(v)[c] else 0
  {
    if v != [] {
      RemoveMaskCounts(v[1..], c);
      assert v == [v[0]] + v[1..];
    }
  }

  lemma RemoveMaskIdempotent(v: string)
    ensures RemoveMask(RemoveMask(v)) == RemoveMask(v)
  {
  }

  // ---------------------------------------------------------------------------
  // The regular-expression steps
  // ---------------------------------------------------------------------------

  /**
   * The leftmost position at or after `i` where `k` consecutive digits start:
   * where the regular-expression engine finds its first match of `\d{k}`.
   */
  function FindRun(s: string, k: nat, i: nat): (r: Option<nat>)
    ensures r.Some? ==> i <= r.value && RunAt(s, r.value, k)
    ensures r.Some? ==> forall j :: i <= j < r.value ==> !RunAt(s, j, k)
    ensures r.None? ==> forall j :: i <= j ==> !RunAt(s, j, k)
    decreases |s| - i
  {
    if i + k > |s| then None
    else if AllDigits(s[i..i + k]) then Some(i)
    else FindRun(s, k, i + 1)
  }

  /** `k` digits start at position `j` of `s`. */
  predicate RunAt(s: string, j: nat, k: nat)
  {
    j + k <= |s| && AllDigits(s[j..j + k])
  }

  /** `s.replace(/(\d{w})(\d)/, "$1" + sep + "$2")`: `sep` after the first `w` digits of the first run of `w + 1`. */
  function InsertAfterRun(s: string, w: nat, sep: char): (r: string)
    ensures |r| <= |s| + 1
  {
    match FindRun(s, w + 1, 0)
    case None => s
    case Some(i) => s[..i + w] + [sep] + s[i + w..]
  }

  /**
   * The leftmost position at or after `i` where `-\d{2}\d+?$` matches: a dash
   * followed only by digits, at least three of them, up to the end of `s`.
   */
  function FindDashTail(s: string, i: nat): (r: Option<nat>)
    ensures r.Some? ==> i <= r.value && r.value + 4 <= |s| && s[r.value] == '-'
    ensures r.Some? ==> AllDigits(s[r.value + 1..])
    ensures r.Some? ==> forall k :: i <= k < r.value ==> !DashTailAt(s, k)
    ensures r.None? ==> forall k :: i <= k < |s| ==> !DashTailAt(s, k)
    decreases |s| - i
  {
    if i + 4 > |s| then None
    else if s[i] == '-' && AllDigits(s[i + 1..]) then Some(i)
    else FindDashTail(s, i + 1)
  }

  /** A dash at `k` followed only by digits, at least three of them, up to the end of `s`. */
  predicate DashTailAt(s: string, k: nat)
    requires k < |s|
  {
    s[k] == '-' && k + 4 <= |s| && AllDigits(s[k + 1..])
  }

  /** `s.replace(/(-\d{2})\d+?$/, "$1")`: drops every digit after the second one that follows a final dash. */
  function TrimAfterDashPair(s: string): (r: string)
    ensures r <= s
  {
    match FindDashTail(s, 0)
    case None => s
    case Some(i) => s[..i + 3]
  }

  /** The steps of applyCpfMask (lib/masks.ts:1-8) as written. */
  function CpfMaskSteps(v: string): string
  {
    var numbers := RemoveMask(v);
    TrimAfterDashPair(
      InsertAfterRun(InsertAfterRun(InsertAfterRun(numbers, 3, '.'), 3, '.'), 3, '-'))
  }

  /** The steps of applyCnpjMask (lib/masks.ts:10-18) as written. */
  function CnpjMaskSteps(v: string): string
  {
    var numbers := RemoveMask(v);
    TrimAfterDashPair(
      InsertAfterRun(InsertAfterRun(InsertAfterRun(InsertAfterRun(numbers, 2, '.'), 3, '.'), 3, '/'), 4, '-'))
  }

  /** applyCpfMask: the first 11 digits of the input grouped as `ddd.ddd.ddd-dd`. */
  function ApplyCpfMask(v: string): (r: string)
    ensures r == Layout(Take(RemoveMask(v), CpfDigits), CpfWidths, CpfSeps)
  {
    CpfMaskLayout(v);
    CpfMaskSteps(v)
  }

  /** applyCnpjMask: the first 14 digits of the input grouped as `dd.ddd.ddd/dddd-dd`. */
  function ApplyCnpjMask(v: string): (r: string)
    ensures r == Layout(Take(RemoveMask(v), CnpjDigits), CnpjWidths, CnpjSeps)
  {
    CnpjMaskLayout(v);
    CnpjMaskSteps(v)
  }

  // ---------------------------------------------------------------------------
  // applyCurrencyMask: only whether there is anything to format
  // ---------------------------------------------------------------------------

  /**
   * The outcome of applyCurrencyMask. `Amount(c)` stands for the pt-BR rendering
   * of `c / 100` with two decimals, which `toLocaleString` produces and which is
   * not modelled.
   */
  datatype CurrencyText = Blank | Amount(cents: nat)

  function ApplyCurrencyMask(v: string): (r: CurrencyText)
    ensures r == Blank <==> forall i :: 0 <= i < |v| ==> !IsDigit(v[i])
    ensures r.Amount? ==> r.cents == ParseDecimal(RemoveMask(v))
  {
    var numbers := RemoveMask(v);
    if numbers == [] then
      NoDigitNoNumbers(v);
      Blank
    else
      DigitsSurvive(v);
      Amount(ParseDecimal(numbers))
  }

  lemma {:induction false} NoDigitNoNumbers(v: string)
    requires RemoveMask(v) == []
    ensures forall i :: 0 <= i < |v| ==> !IsDigit(v[i])
  {
    if v != [] {
      NoDigitNoNumbers(v[1..]);
      forall i | 1 <= i < |v| ensures !IsDigit(v[i]) {
        assert v[i] == v[1..][i - 1];
      }
    }
  }

  lemma {:induction false} DigitsSurvive(v: string)
    requires RemoveMask(v) != []
    ensures exists i :: 0 <= i < |v| && IsDigit(v[i])
  {
    if !IsDigit(v[0]) {
      DigitsSurvive(v[1..]);
      var i :| 0 <= i < |v[1..]| && IsDigit(v[1..][i]);
      assert IsDigit(v[i + 1]);
    }
  }

  // ---------------------------------------------------------------------------
  // The documented layouts
  // ---------------------------------------------------------------------------

  /**
   * Digits grouped by `widths`, group `i` followed by `seps[i]` when more digits
   * follow; the digits after the last listed group form the final group.
   */
  function Layout(t: string, widths: seq<nat>, seps: string): string
    requires |widths| == |seps|
  {
    if widths == [] || |t| <= widths[0] then t
    else t[..widths[0]] + [seps[0]] + Layout(t[widths[0]..], widths[1..], seps[1..])
  }

  function Sum(ws: seq<nat>): nat
  {
    if ws == [] then 0 else ws[0] + Sum(ws[1..])
  }

  predicate NoDigit(seps: string)
  {
    forall i :: 0 <= i < |seps| ==> !IsDigit(seps[i])
  }

  /** CPF: `ddd.ddd.ddd-dd`, at most 11 digits. */
  const CpfWidths: seq<nat> := [3, 3, 3]
  const CpfSeps: string := "..-"
  const CpfDigits: nat := 11

  /** CNPJ: `dd.ddd.ddd/dddd-dd`, at most 14 digits. */
  const CnpjWidths: seq<nat> := [2, 3, 3, 4]
  const CnpjSeps: string := "../-"
  const CnpjDigits: nat := 14

  /** Removing the separators of a layout gives its digits back. */
  lemma {:induction false} RemoveMaskLayout(t: string, widths: seq<nat>, seps: string)
    requires |widths| == |seps| && AllDigits(t) && NoDigit(seps)
    ensures RemoveMask(Layout(t, widths, seps)) == t
  {
    if widths != [] && |t| > widths[0] {
      var w := widths[0];
      assert AllDigits(t[w..]);
      RemoveMaskLayout(t[w..], widths[1..], seps[1..]);
      RemoveMaskGroup(t, w, seps[0], Layout(t[w..], widths[1..], seps[1..]));
    }
  }

  lemma RemoveMaskGroup(t: string, w: nat, e: char, rest: string)
    requires AllDigits(t) && w < |t| && !IsDigit(e) && RemoveMask(rest) == t[w..]
    ensures RemoveMask(t[..w] + [e] + rest) == t
  {
    assert AllDigits(t[..w]);
    assert RemoveMask([e]) == [] by { assert [e][1..] == []; }
    RemoveMaskAppend(t[..w] + [e], rest);
    RemoveMaskAppend(t[..w], [e]);
    assert t[..w] + t[w..] == t;
  }

  /** A layout adds at most one separator per group boundary. */
  lemma {:induction false} LayoutLength(t: string, widths: seq<nat>, seps: string)
    requires |widths| == |seps|
    ensures |t| <= |Layout(t, widths, seps)| <= |t| + |seps|
  {
    if widths != [] && |t| > widths[0] {
      LayoutLength(t[widths[0]..], widths[1..], seps[1..]);
    }
  }

  // ---------------------------------------------------------------------------
  // The regular-expression chains compute the layouts
  // ---------------------------------------------------------------------------

  /** Searching a string shifted right by a prefix finds the same match, shifted. */
  lemma {:induction false} FindRunShift(p: string, q: string, k: nat, i: nat)
    ensures FindRun(p + q, k, |p| + i) == Shift(FindRun(q, k, i), |p|)
    decreases |q| - i
  {
    var s := p + q;
    if |p| + i + k <= |s| {
      assert s[|p| + i..|p| + i + k] == q[i..i + k];
      if !AllDigits(q[i..i + k]) {
        FindRunShift(p, q, k, i + 1);
      }
    }
  }

  /** No run of `k` digits can straddle a non-digit that comes fewer than `k` places in. */
  lemma {:induction false} FindRunPastSep(p: string, e: char, q: string, k: nat, j: nat)
    requires |p| < k && !IsDigit(e) && j <= |p|
    ensures FindRun(p + [e] + q, k, j) == Shift(FindRun(q, k, 0), |p| + 1)
    decreases |p| - j
  {
    var s := p + [e] + q;
    if j + k <= |s| {
      assert s[j..j + k][|p| - j] == e;
      if j < |p| {
        FindRunPastSep(p, e, q, k, j + 1);
      } else {
        assert s == (p + [e]) + q;
        FindRunShift(p + [e], q, k, 0);
      }
    } else {
      assert FindRun(q, k, 0) == None;
    }
  }

  /** One `(\d{w})(\d)` replacement on a layout whose groups are at most `w` wide adds the next group. */
  lemma {:induction false} InsertAfterRunLayout(t: string, widths: seq<nat>, seps: string, w: nat, sep: char)
    requires |widths| == |seps| && AllDigits(t) && NoDigit(seps)
    requires forall i :: 0 <= i < |widths| ==> widths[i] <= w
    ensures InsertAfterRun(Layout(t, widths, seps), w, sep) == Layout(t, widths + [w], seps + [sep])
  {
    if widths == [] {
      InsertAfterRunDigits(t, w, sep);
      assert widths + [w] == [w] && seps + [sep] == [sep];
    } else if |t| <= widths[0] {
      assert FindRun(t, w + 1, 0) == None;
    } else {
      var v := widths[0];
      var rest := Layout(t[v..], widths[1..], seps[1..]);
      assert AllDigits(t[v..]);
      InsertAfterRunLayout(t[v..], widths[1..], seps[1..], w, sep);
      InsertAfterRunPastSep(t[..v], seps[0], rest, w, sep);
      assert (widths + [w])[1..] == widths[1..] + [w];
      assert (seps + [sep])[1..] == seps[1..] + [sep];
    }
  }

  /** On digits alone, the replacement puts `sep` after the first `w` of them when more follow. */
  lemma InsertAfterRunDigits(t: string, w: nat, sep: char)
    requires AllDigits(t)
    ensures InsertAfterRun(t, w, sep) == Layout(t, [w], [sep])
  {
    if |t| > w {
      assert AllDigits(t[0..w + 1]);
      assert FindRun(t, w + 1, 0) == Some(0);
      assert t[w..] == Layout(t[w..], [], []);
    }
  }

  /** A group of at most `w` characters closed by a non-digit is passed over unchanged. */
  lemma InsertAfterRunPastSep(p: string, e: char, rest: string, w: nat, sep: char)
    requires |p| <= w && !IsDigit(e)
    ensures InsertAfterRun(p + [e] + rest, w, sep) == p + [e] + InsertAfterRun(rest, w, sep)
  {
    FindRunPastSep(p, e, rest, w + 1, 0);
    match FindRun(rest, w + 1, 0)
    case None =>
    case Some(j) =>
      var s := p + [e] + rest;
      assert s[..|p| + 1 + j + w] == p + [e] + rest[..j + w];
      assert s[|p| + 1 + j + w..] == rest[j + w..];
  }

  lemma {:induction false} FindDashTailShift(p: string, q: string, i: nat)
    ensures FindDashTail(p + q, |p| + i) == Shift(FindDashTail(q, i), |p|)
    decreases |q| - i
  {
    var s := p + q;
    if |p| + i + 4 <= |s| {
      assert s[|p| + i] == q[i];
      assert s[|p| + i + 1..] == q[i + 1..];
      FindDashTailShift(p, q, i + 1);
    }
  }

  /** A prefix without dashes only shifts where the dash tail is found. */
  lemma {:induction false} FindDashTailPast(p: string, q: string, j: nat)
    requires j <= |p| && forall i :: 0 <= i < |p| ==> p[i] != '-'
    ensures FindDashTail(p + q, j) == Shift(FindDashTail(q, 0), |p|)
    decreases |p| - j
  {
    var s := p + q;
    if j == |p| {
      FindDashTailShift(p, q, 0);
    } else if j + 4 <= |s| {
      assert s[j] == p[j];
      FindDashTailPast(p, q, j + 1);
    } else {
      assert FindDashTail(q, 0) == None;
    }
  }

  /**
   * The final `(-\d{2})\d+?$` replacement on a layout whose last separator is
   * the only dash keeps two digits in the last group.
   */
  lemma {:induction false} TrimLayout(t: string, widths: seq<nat>, seps: string)
    requires |widths| == |seps| >= 1 && AllDigits(t) && NoDigit(seps)
    requires seps[|seps| - 1] == '-'
    requires forall i :: 0 <= i < |seps| - 1 ==> seps[i] != '-'
    ensures TrimAfterDashPair(Layout(t, widths, seps)) == Layout(Take(t, Sum(widths) + 2), widths, seps)
  {
    if |t| <= widths[0] {
      TrimLayoutShort(t, widths, seps);
    } else if |seps| == 1 {
      TrimLayoutLast(t, widths, seps);
    } else {
      var v := widths[0];
      var ws, ss := widths[1..], seps[1..];
      assert AllDigits(t[v..]);
      assert NoDigit(ss) && ss[|ss| - 1] == '-';
      assert forall i :: 0 <= i < |ss| - 1 ==> ss[i] != '-' by {
        forall i | 0 <= i < |ss| - 1 ensures ss[i] != '-' { assert ss[i] == seps[i + 1]; }
      }
      TrimLayout(t[v..], ws, ss);
      TrimLayoutStep(t, widths, seps, Sum(ws) + 2);
    }
  }

  lemma TrimLayoutShort(t: string, widths: seq<nat>, seps: string)
    requires |widths| == |seps| >= 1 && AllDigits(t) && |t| <= widths[0]
    ensures TrimAfterDashPair(Layout(t, widths, seps)) == Layout(Take(t, Sum(widths) + 2), widths, seps)
  {
    FindDashTailPast(t, [], 0);
    assert t + [] == t;
  }

  lemma TrimLayoutLast(t: string, widths: seq<nat>, seps: string)
    requires |widths| == |seps| == 1 && AllDigits(t) && seps[0] == '-' && |t| > widths[0]
    ensures TrimAfterDashPair(Layout(t, widths, seps)) == Layout(Take(t, Sum(widths) + 2), widths, seps)
  {
    var v := widths[0];
    assert Sum(widths) == v by { assert widths[1..] == []; }
    TakeSplit(t, v, 2);
    assert Layout(t[v..], [], []) == t[v..];
    assert Layout(Take(t, v + 2)[v..], [], []) == Take(t, v + 2)[v..];
    TrimLastGroup(t, v);
  }

  lemma TrimLayoutStep(t: string, widths: seq<nat>, seps: string, m: nat)
    requires |widths| == |seps| >= 2 && AllDigits(t) && seps[0] != '-' && |t| > widths[0]
    requires m == Sum(widths[1..]) + 2
    requires var v := widths[0];
      TrimAfterDashPair(Layout(t[v..], widths[1..], seps[1..])) == Layout(Take(t[v..], m), widths[1..], seps[1..])
    ensures TrimAfterDashPair(Layout(t, widths, seps)) == Layout(Take(t, Sum(widths) + 2), widths, seps)
  {
    var v, e := widths[0], seps[0];
    var rest := Layout(t[v..], widths[1..], seps[1..]);
    LayoutUnfold(t, widths, seps);
    TrimGroupPastSep(t, v, e, rest);
    var k := Take(t, v + m);
    TakeSplit(t, v, m);
    LayoutUnfold(k, widths, seps);
  }

  lemma LayoutUnfold(t: string, widths: seq<nat>, seps: string)
    requires |widths| == |seps| >= 1 && |t| > widths[0]
    ensures Layout(t, widths, seps) == t[..widths[0]] + [seps[0]] + Layout(t[widths[0]..], widths[1..], seps[1..])
  {
  }

  lemma TrimGroupPastSep(t: string, v: nat, e: char, rest: string)
    requires AllDigits(t) && v <= |t| && e != '-'
    ensures TrimAfterDashPair(t[..v] + [e] + rest) == t[..v] + [e] + TrimAfterDashPair(rest)
  {
    assert AllDigits(t[..v]);
    TrimPastSep(t[..v], e, rest);
  }

  lemma TakeSplit(t: string, v: nat, m: nat)
    requires v < |t| && m > 0
    ensures v < |Take(t, v + m)|
    ensures Take(t, v + m)[..v] == t[..v] && Take(t, v + m)[v..] == Take(t[v..], m)
  {
    if |t| > v + m {
      assert Take(t, v + m) == t[..v + m];
      assert Take(t[v..], m) == t[v..][..m];
    } else {
      assert Take(t, v + m) == t;
      assert Take(t[v..], m) == t[v..];
    }
  }

  /** On a last group of digits after the only dash, the replacement keeps two of them. */
  lemma TrimLastGroup(t: string, v: nat)
    requires AllDigits(t) && v < |t|
    ensures TrimAfterDashPair(t[..v] + ['-'] + t[v..]) == Take(t, v + 2)[..v] + ['-'] + Take(t, v + 2)[v..]
  {
    var rest := t[v..];
    assert AllDigits(rest);
    FindDashTailPast(t[..v], ['-'] + rest, 0);
    assert t[..v] + (['-'] + rest) == t[..v] + ['-'] + rest;
    assert (['-'] + rest)[1..] == rest;
    if |rest| >= 3 {
      assert FindDashTail(['-'] + rest, 0) == Some(0);
      assert Take(t, v + 2) == t[..v + 2];
    } else {
      assert FindDashTail(['-'] + rest, 0) == None;
      assert Take(t, v + 2) == t;
    }
  }

  /** A group without dashes closed by a separator other than a dash is passed over unchanged. */
  lemma TrimPastSep(p: string, e: char, rest: string)
    requires AllDigits(p) && e != '-'
    ensures TrimAfterDashPair(p + [e] + rest) == p + [e] + TrimAfterDashPair(rest)
  {
    FindDashTailPast(p + [e], rest, 0);
    match FindDashTail(rest, 0)
    case None =>
    case Some(j) =>
      var s := p + [e] + rest;
      assert s[..|p| + 1 + j + 3] == p + [e] + rest[..j + 3];
  }

  /** The replace steps of applyCpfMask group the first 11 digits of the input as `ddd.ddd.ddd-dd`. */
  lemma CpfMaskLayout(v: string)
    ensures CpfMaskSteps(v) == Layout(Take(RemoveMask(v), CpfDigits), CpfWidths, CpfSeps)
  {
    var d := RemoveMask(v);
    CpfGroups(d);
    CpfTrim(d);
  }

  lemma CpfGroups(d: string)
    requires AllDigits(d)
    ensures InsertAfterRun(InsertAfterRun(InsertAfterRun(d, 3, '.'), 3, '.'), 3, '-')
         == Layout(d, CpfWidths, CpfSeps)
  {
    InsertAfterRunDigits(d, 3, '.');
    InsertAfterRunLayout(d, [3], ".", 3, '.');
    assert [3] + [3] == [3, 3] && "." + ['.'] == "..";
    InsertAfterRunLayout(d, [3, 3], "..", 3, '-');
    assert [3, 3] + [3] == CpfWidths && ".." + ['-'] == CpfSeps;
  }

  lemma CpfTrim(d: string)
    requires AllDigits(d)
    ensures TrimAfterDashPair(Layout(d, CpfWidths, CpfSeps)) == Layout(Take(d, CpfDigits), CpfWidths, CpfSeps)
  {
    assert Sum(CpfWidths) + 2 == CpfDigits;
    assert NoDigit(CpfSeps);
    TrimLayout(d, CpfWidths, CpfSeps);
  }

  /** The replace steps of applyCnpjMask group the first 14 digits of the input as `dd.ddd.ddd/dddd-dd`. */
  lemma CnpjMaskLayout(v: string)
    ensures CnpjMaskSteps(v) == Layout(Take(RemoveMask(v), CnpjDigits), CnpjWidths, CnpjSeps)
  {
    var d := RemoveMask(v);
    CnpjFirstGroups(d);
    CnpjLastGroups(d);
    CnpjTrim(d);
  }

  lemma CnpjTrim(d: string)
    requires AllDigits(d)
    ensures TrimAfterDashPair(Layout(d, CnpjWidths, CnpjSeps)) == Layout(Take(d, CnpjDigits), CnpjWidths, CnpjSeps)
  {
    assert Sum(CnpjWidths) + 2 == CnpjDigits;
    assert NoDigit(CnpjSeps);
    TrimLayout(d, CnpjWidths, CnpjSeps);
  }

  lemma CnpjFirstGroups(d: string)
    requires AllDigits(d)
    ensures InsertAfterRun(InsertAfterRun(d, 2, '.'), 3, '.') == Layout(d, [2, 3], "..")
  {
    InsertAfterRunDigits(d, 2, '.');
    InsertAfterRunLayout(d, [2], ".", 3, '.');
  }

  lemma CnpjLastGroups(d: string)
    requires AllDigits(d)
    ensures InsertAfterRun(InsertAfterRun(Layout(d, [2, 3], ".."), 3, '/'), 4, '-')
         == Layout(d, CnpjWidths, CnpjSeps)
  {
    InsertAfterRunLayout(d, [2, 3], "..", 3, '/');
    assert [2, 3] + [3] == [2, 3, 3] && ".." + ['/'] == "../";
    InsertAfterRunLayout(d, [2, 3, 3], "../", 4, '-');
    assert [2, 3, 3] + [4] == CnpjWidths && "../" + ['-'] == CnpjSeps;
  }

  // ---------------------------------------------------------------------------
  // Properties of the masks
  // ---------------------------------------------------------------------------

  /** The CPF mask sees only the digits of its input. */
  lemma CpfMaskOnlyDigits(v: string)
    ensures ApplyCpfMask(v) == ApplyCpfMask(RemoveMask(v))
  {
    RemoveMaskIdempotent(v);
  }

  /** The CNPJ mask sees only the digits of its input. */
  lemma CnpjMaskOnlyDigits(v: string)
    ensures ApplyCnpjMask(v) == ApplyCnpjMask(RemoveMask(v))
  {
    RemoveMaskIdempotent(v);
  }

  /** Unmasking a masked CPF gives back its first 11 input digits; the output fits `maxLength={14}`. */
  lemma CpfMaskRoundTrip(v: string)
    ensures RemoveMask(ApplyCpfMask(v)) == Take(RemoveMask(v), 11)
    ensures |ApplyCpfMask(v)| <= 14
  {
    RemoveMaskLayout(Take(RemoveMask(v), CpfDigits), CpfWidths, CpfSeps);
    LayoutLength(Take(RemoveMask(v), CpfDigits), CpfWidths, CpfSeps);
  }

  /** Unmasking a masked CNPJ gives back its first 14 input digits; the output fits `maxLength={18}`. */
  lemma CnpjMaskRoundTrip(v: string)
    ensures RemoveMask(ApplyCnpjMask(v)) == Take(RemoveMask(v), 14)
    ensures |ApplyCnpjMask(v)| <= 18
  {
    RemoveMaskLayout(Take(RemoveMask(v), CnpjDigits), CnpjWidths, CnpjSeps);
    LayoutLength(Take(RemoveMask(v), CnpjDigits), CnpjWidths, CnpjSeps);
  }

  lemma CpfMaskIdempotent(v: string)
    ensures ApplyCpfMask(ApplyCpfMask(v)) == ApplyCpfMask(v)
  {
    CpfMaskRoundTrip(v);
  }

  lemma CnpjMaskIdempotent(v: string)
    ensures ApplyCnpjMask(ApplyCnpjMask(v)) == ApplyCnpjMask(v)
  {
    CnpjMaskRoundTrip(v);
  }

  /** With at least 11 digits the CPF mask is exactly `ddd.ddd.ddd-dd`, 14 characters. */
  lemma CpfMaskFull(v: string)
    requires |RemoveMask(v)| >= 11
    ensures var d := RemoveMask(v);
      ApplyCpfMask(v) == d[..3] + "." + d[3..6] + "." + d[6..9] + "-" + d[9..11]
    ensures |ApplyCpfMask(v)| == 14
  {
    var d := RemoveMask(v);
    var t := Take(d, CpfDigits);
    LayoutFull(t, CpfWidths, CpfSeps, 2);
    CpfFilled(d);
  }

  lemma CpfFilled(d: string)
    requires |d| >= 11
    ensures Filled(Take(d, 11), CpfWidths, CpfSeps) == d[..3] + "." + d[3..6] + "." + d[6..9] + "-" + d[9..11]
  {
    var t := d[..11];
    var t1 := t[3..];
    var t2 := t1[3..];
    var t3 := t2[3..];
    assert Filled(t3, [], "") == t3;
    assert Filled(t2, [3], "-") == t2[..3] + "-" + t3;
    assert Filled(t1, [3, 3], ".-") == t1[..3] + "." + Filled(t2, [3], "-");
    assert Filled(t, CpfWidths, CpfSeps) == t[..3] + "." + Filled(t1, [3, 3], ".-");
    assert Take(d, 11) == t;
    assert t[..3] == d[..3] && t1[..3] == d[3..6] && t2[..3] == d[6..9] && t3 == d[9..11];
  }

  /** With at least 14 digits the CNPJ mask is exactly `dd.ddd.ddd/dddd-dd`, 18 characters. */
  lemma CnpjMaskFull(v: string)
    requires |RemoveMask(v)| >= 14
    ensures var d := RemoveMask(v);
      ApplyCnpjMask(v) == d[..2] + "." + d[2..5] + "." + d[5..8] + "/" + d[8..12] + "-" + d[12..14]
    ensures |ApplyCnpjMask(v)| == 18
  {
    var d := RemoveMask(v);
    var t := Take(d, CnpjDigits);
    LayoutFull(t, CnpjWidths, CnpjSeps, 2);
    CnpjFilled(d);
  }

  lemma CnpjFilled(d: string)
    requires |d| >= 14
    ensures Filled(Take(d, 14), CnpjWidths, CnpjSeps)
         == d[..2] + "." + d[2..5] + "." + d[5..8] + "/" + d[8..12] + "-" + d[12..14]
  {
    var t := d[..14];
    var t1 := t[2..];
    var t2 := t1[3..];
    var t3 := t2[3..];
    var t4 := t3[4..];
    assert Filled(t4, [], "") == t4;
    assert Filled(t3, [4], "-") == t3[..4] + "-" + t4;
    assert Filled(t2, [3, 4], "/-") == t2[..3] + "/" + Filled(t3, [4], "-");
    assert Filled(t1, [3, 3, 4], "./-") == t1[..3] + "." + Filled(t2, [3, 4], "/-");
    assert Filled(t, CnpjWidths, CnpjSeps) == t[..2] + "." + Filled(t1, [3, 3, 4], "./-");
    assert Take(d, 14) == t;
    assert t[..2] == d[..2] && t1[..3] == d[2..5] && t2[..3] == d[5..8];
    assert t3[..4] == d[8..12] && t4 == d[12..14];
  }

  /**
   * When the digits fill every group and `last` more, the layout is each group
   * followed by its separator, then the `last` digits.
   */
  lemma {:induction false} LayoutFull(t: string, widths: seq<nat>, seps: string, last: nat)
    requires |widths| == |seps| && |t| == Sum(widths) + last && last > 0
    ensures Layout(t, widths, seps) == Filled(t, widths, seps)
  {
    if widths != [] {
      LayoutFull(t[widths[0]..], widths[1..], seps[1..], last);
    }
  }

  /** Every group written out, each followed by its separator. */
  function Filled(t: string, widths: seq<nat>, seps: string): string
    requires |widths| == |seps| && |t| >= Sum(widths)
  {
    if widths == [] then t
    else t[..widths[0]] + [seps[0]] + Filled(t[widths[0]..], widths[1..], seps[1..])
  }
}
