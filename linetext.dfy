/**
 * Character-level helpers of the line reader in src/graph.c: the C-string length,
 * the in-place strip of trailing whitespace, the `strtok` split on spaces and tabs,
 * and `strtoll` in base 10.
 */
module LineText {
  import opened Wrappers

  const NUL: char := '\0'

  /** `isspace` in the C locale: space, \t, \n, \v, \f and \r. */
  predicate IsSpace(c: char) {
    c == ' ' || (9 <= c as int <= 13)
  }

  /** The delimiters handed to `strtok`: space and tab. */
  predicate IsDelim(c: char) {
    c == ' ' || c == '\t'
  }

  predicate IsDigit(c: char) {
    '0' <= c <= '9'
  }

  /** `strlen`: the number of characters before the first NUL (or all of them). */
  function StrLen(s: seq<char>): (n: nat)
    ensures n <= |s|
    ensures forall i :: 0 <= i < n ==> s[i] != NUL
    ensures n < |s| ==> s[n] == NUL
  {
    if s == [] || s[0] == NUL then 0 else 1 + StrLen(s[1..])
  }

  /** A sequence of `n` NUL characters. */
  function Nuls(n: nat): (r: seq<char>)
    ensures |r| == n && forall i :: 0 <= i < n ==> r[i] == NUL
  {
    seq(n, _ => NUL)
  }

  /**
   * How many characters of the C string `s` survive the strip: the trailing run of
   * whitespace goes, except that index 0 is never removed.
   */
  function KeptLength(s: seq<char>): (k: nat)
    requires |s| > 0
    ensures 1 <= k <= |s|
    ensures forall i :: k <= i < |s| ==> IsSpace(s[i])
    ensures k == 1 || !IsSpace(s[k - 1])
  {
    if |s| == 1 || !IsSpace(s[|s| - 1]) then |s| else KeptLength(s[..|s| - 1])
  }

  /** The three facts in KeptLength's contract determine it. */
  lemma KeptLengthUnique(s: seq<char>, k: nat)
    requires 1 <= k <= |s|
    requires forall i :: k <= i < |s| ==> IsSpace(s[i])
    requires k == 1 || !IsSpace(s[k - 1])
    ensures KeptLength(s) == k
  {
  }

  /**
   * The buffer after `__rstrip_line`: with `n` its C-string length, the characters in
   * `[KeptLength, n)` become NUL and every other character is kept, so the C string is
   * now its first KeptLength characters.
   */
  function Stripped(s: seq<char>): (r: seq<char>)
    requires StrLen(s) > 0
    ensures |r| == |s|
    ensures StrLen(r) == KeptLength(s[..StrLen(s)])
    ensures r[..StrLen(r)] == s[..KeptLength(s[..StrLen(s)])]
    ensures r[0] == s[0] && forall i :: StrLen(s) <= i < |s| ==> r[i] == s[i]
  {
    var n := StrLen(s);
    var k := KeptLength(s[..n]);
    var r := s[..k] + Nuls(n - k) + s[n..];
    assert forall i :: 0 <= i < k ==> r[i] == s[i] != NUL;
    assert k < |r| ==> r[k] == NUL;
    r
  }

  /**
   * `__rstrip_line` (src/graph.c:31-41): walks back from the last character of the C string
   * to index 1, overwriting whitespace with NUL, and stops at the first non-space.
   */
  method RStripLine(line: array<char>)
    requires StrLen(line[..]) > 0
    modifies line
    ensures line[..] == Stripped(old(line[..]))
  {
    ghost var s := line[..];
    var n := StrLen(line[..]);
    var i := n - 1;
    while i > 0 && IsSpace(line[i])
      invariant 0 <= i < n
      invariant forall j :: i < j < n ==> IsSpace(s[j]) && line[j] == NUL
      invariant forall j :: 0 <= j <= i || n <= j < line.Length ==> line[j] == s[j]
    {
      line[i] := NUL;
      i := i - 1;
    }
    KeptLengthUnique(s[..n], i + 1);
    assert line[..] == Stripped(s);
  }

  // ---------------------------------------------------------------------------
  // strtok on " \t"

  /** The length of the maximal run of non-delimiters at the front of `s`. */
  function TokenLen(s: seq<char>): (k: nat)
    ensures k <= |s|
    ensures forall i :: 0 <= i < k ==> !IsDelim(s[i])
    ensures k < |s| ==> IsDelim(s[k])
  {
    if s == [] || IsDelim(s[0]) then 0 else 1 + TokenLen(s[1..])
  }

  /** The tokens of `s` separated by runs of spaces and tabs, left to right. */
  function Tokens(s: seq<char>): (ts: seq<seq<char>>)
    ensures forall j :: 0 <= j < |ts| ==> |ts[j]| > 0 && forall c :: c in ts[j] ==> !IsDelim(c)
    decreases |s|
  {
    if s == [] then []
    else if IsDelim(s[0]) then Tokens(s[1..])
    else
      var k := TokenLen(s);
      [s[..k]] + Tokens(s[k..])
  }

  /** A token found by `strtok`: it spans `[start, end)`; the next call resumes at `resume`. */
  datatype Span = Span(start: nat, end: nat, resume: nat)

  /**
   * One `strtok` call that resumes at `i`: skip delimiters; at the end of the string there is
   * no token; otherwise the token runs to the next delimiter, which is consumed.
   */
  function Strtok(s: seq<char>, i: nat): (r: Option<Span>)
    requires i <= |s|
    ensures r.None? ==> forall j :: i <= j < |s| ==> IsDelim(s[j])
    ensures r.Some? ==>
      var sp := r.value;
      && i <= sp.start < sp.end <= sp.resume <= |s|
      && (forall j :: i <= j < sp.start ==> IsDelim(s[j]))
      && (forall j :: sp.start <= j < sp.end ==> !IsDelim(s[j]))
      && (sp.end < |s| ==> IsDelim(s[sp.end]) && sp.resume == sp.end + 1)
      && (sp.end == |s| ==> sp.resume == sp.end)
    decreases |s| - i
  {
    if i == |s| then None
    else if IsDelim(s[i]) then Strtok(s, i + 1)
    else
      var e := i + TokenLen(s[i..]);
      if e < |s| then Some(Span(i, e, e + 1)) else Some(Span(i, e, e))
  }

  /**
   * Successive `strtok` calls find exactly the tokens: from `i` there is none when no token
   * is left, and otherwise the one found is the first token and the rest follow from `resume`.
   */
  lemma {:induction false} StrtokFindsTokens(s: seq<char>, i: nat)
    requires i <= |s|
    ensures Strtok(s, i).None? ==> Tokens(s[i..]) == []
    ensures Strtok(s, i).Some? ==>
      var sp := Strtok(s, i).value;
      Tokens(s[i..]) == [s[sp.start..sp.end]] + Tokens(s[sp.resume..])
    decreases |s| - i
  {
    if i < |s| {
      if IsDelim(s[i]) {
        assert s[i..][1..] == s[i + 1..];
        StrtokFindsTokens(s, i + 1);
      } else {
        var e := i + TokenLen(s[i..]);
        assert s[i..][..e - i] == s[i..e];
        assert s[i..][e - i..] == s[e..];
        if e < |s| {
          assert s[e..][1..] == s[e + 1..];
        }
      }
    }
  }

  /** The counting loop of `__split_line` (src/graph.c:80-85). */
  method CountTokens(s: seq<char>) returns (count: nat)
    ensures count == |Tokens(s)|
  {
    count := 0;
    var pos := 0;
    var ptr := Strtok(s, pos);
    assert s[0..] == s;
    while ptr.Some?
      invariant pos <= |s|
      invariant ptr == Strtok(s, pos)
      invariant count + |Tokens(s[pos..])| == |Tokens(s)|
      decreases |s| - pos
    {
      StrtokFindsTokens(s, pos);
      count := count + 1;
      pos := ptr.value.resume;
      ptr := Strtok(s, pos);
    }
    StrtokFindsTokens(s, pos);
  }

  // ---------------------------------------------------------------------------
  // strtoll in base 10

  /** The base-10 value of a digit string (0 for the empty string). */
  function DecValue(d: seq<char>): nat {
    if d == [] then 0 else 10 * DecValue(d[..|d| - 1]) + ((d[|d| - 1] as int - '0' as int) % 10)
  }

  /** The first position at or after `p` that does not hold whitespace. */
  function SkipSpace(s: seq<char>, p: nat): (q: nat)
    requires p <= |s|
    ensures p <= q <= |s|
    ensures forall j :: p <= j < q ==> IsSpace(s[j])
    ensures q < |s| ==> !IsSpace(s[q])
    decreases |s| - p
  {
    if p == |s| || !IsSpace(s[p]) then p else SkipSpace(s, p + 1)
  }

  lemma SkipSpaceAt(s: seq<char>, p: nat, q: nat)
    requires p <= q <= |s|
    requires forall j :: p <= j < q ==> IsSpace(s[j])
    requires q < |s| ==> !IsSpace(s[q])
    ensures SkipSpace(s, p) == q
  {
  }

  /** The first position at or after `p` that does not hold a digit. */
  function DigitsEnd(s: seq<char>, p: nat): (q: nat)
    requires p <= |s|
    ensures p <= q <= |s|
    ensures forall j :: p <= j < q ==> IsDigit(s[j])
    ensures q < |s| ==> !IsDigit(s[q])
    decreases |s| - p
  {
    if p == |s| || !IsDigit(s[p]) then p else DigitsEnd(s, p + 1)
  }

  lemma DigitsEndAt(s: seq<char>, p: nat, q: nat)
    requires p <= q <= |s|
    requires forall j :: p <= j < q ==> IsDigit(s[j])
    requires q < |s| ==> !IsDigit(s[q])
    ensures DigitsEnd(s, p) == q
  {
  }

  /**
   * `strtoll(s + p, &end, 10)` on unsigned input: leading whitespace is skipped and the
   * longest digit run converted; with no digit the value is 0 and `end` stays at `p`.
   * The result is the value and `end`.
   */
  function Strtoll(s: seq<char>, p: nat): (r: (nat, nat))
    requires p <= |s|
    ensures p <= r.1 <= |s|
  {
    var q := SkipSpace(s, p);
    var e := DigitsEnd(s, q);
    if e == q then (0, p) else (DecValue(s[q..e]), e)
  }

  /**
   * What one `strtoll` call reads: `end` moves past `p` exactly when a digit follows the
   * leading whitespace; then the value is that of the longest digit run there, and
   * otherwise the value is 0 and `end` stays at `p`.
   */
  lemma StrtollReads(s: seq<char>, p: nat)
    requires p <= |s|
    ensures var r := Strtoll(s, p); var q := SkipSpace(s, p);
      && (r.1 == p <==> q == |s| || !IsDigit(s[q]))
      && (r.1 == p ==> r.0 == 0)
      && (r.1 > p ==>
            && q < r.1
            && (forall j :: q <= j < r.1 ==> IsDigit(s[j]))
            && (r.1 < |s| ==> !IsDigit(s[r.1]))
            && r.0 == DecValue(s[q..r.1]))
  {
  }

  /** What `count` consecutive `strtoll` calls starting at `p` return. */
  function ScanValues(s: seq<char>, p: nat, count: nat): (vs: seq<nat>)
    requires p <= |s|
    ensures |vs| == count
    decreases count
  {
    if count == 0 then [] else
      var (v, q) := Strtoll(s, p);
      [v] + ScanValues(s, q, count - 1)
  }

  /** The filling loop of `__split_line` (src/graph.c:88-93). */
  method ParseValues(s: seq<char>, count: nat) returns (arr: array<nat>)
    ensures fresh(arr)
    ensures arr[..] == ScanValues(s, 0, count)
  {
    arr := new nat[count];
    var ptr := 0;
    var i := 0;
    while i < count
      invariant 0 <= i <= count && ptr <= |s|
      invariant arr[..i] + ScanValues(s, ptr, count - i) == ScanValues(s, 0, count)
    {
      var (v, q) := Strtoll(s, ptr);
      assert ScanValues(s, ptr, count - i) == [v] + ScanValues(s, q, count - i - 1);
      arr[i] := v;
      assert arr[..i + 1] == arr[..i] + [v];
      ptr := q;
      i := i + 1;
    }
    assert arr[..] == arr[..count];
  }

  predicate AllDigits(t: seq<char>) {
    forall c :: c in t ==> IsDigit(c)
  }

  /** The base-10 value of every token. */
  function TokenValues(ts: seq<seq<char>>): (vs: seq<nat>)
    ensures |vs| == |ts| && forall j :: 0 <= j < |ts| ==> vs[j] == DecValue(ts[j])
  {
    seq(|ts|, j requires 0 <= j < |ts| => DecValue(ts[j]))
  }

  /** On a digit token found by strtok, one strtoll call reads exactly that token. */
  lemma StrtollReadsToken(s: seq<char>, p: nat, sp: Span)
    requires p <= |s| && Strtok(s, p) == Some(sp)
    requires AllDigits(s[sp.start..sp.end])
    ensures Strtoll(s, p) == (DecValue(s[sp.start..sp.end]), sp.end)
  {
    var tok := s[sp.start..sp.end];
    forall j | sp.start <= j < sp.end ensures IsDigit(s[j]) {
      assert s[j] == tok[j - sp.start];
    }
    SkipSpaceAt(s, p, sp.start);
    DigitsEndAt(s, sp.start, sp.end);
  }

  /** The delimiter that strtok consumes after a token starts no token. */
  lemma TokensAfterEnd(s: seq<char>, p: nat, sp: Span)
    requires p <= |s| && Strtok(s, p) == Some(sp)
    ensures Tokens(s[sp.end..]) == Tokens(s[sp.resume..])
  {
    if sp.end < |s| {
      assert s[sp.end..][1..] == s[sp.resume..];
    }
  }

  /**
   * When every token is a digit string, strtoll called once per token reads exactly the
   * tokens: value i is the base-10 value of token i.
   */
  lemma {:induction false} ScanReadsTokens(s: seq<char>, p: nat)
    requires p <= |s|
    requires forall t :: t in Tokens(s[p..]) ==> AllDigits(t)
    ensures ScanValues(s, p, |Tokens(s[p..])|) == TokenValues(Tokens(s[p..]))
    decreases |s| - p
  {
    StrtokFindsTokens(s, p);
    var r := Strtok(s, p);
    if r.Some? {
      var sp := r.value;
      var tok := s[sp.start..sp.end];
      var rest := Tokens(s[sp.end..]);
      TokensAfterEnd(s, p, sp);
      assert Tokens(s[p..]) == [tok] + rest;
      assert AllDigits(tok) by {
        assert tok in Tokens(s[p..]);
      }
      forall t | t in rest
        ensures AllDigits(t)
      {
        assert t in Tokens(s[p..]);
      }
      ScanReadsTokens(s, sp.end);
      ScanStep(s, p, sp, |rest|);
      TokenValuesCons(tok, rest);
    }
  }

  /** A digit token found by strtok contributes its value and the scan resumes after it. */
  lemma ScanStep(s: seq<char>, p: nat, sp: Span, n: nat)
    requires p <= |s| && Strtok(s, p) == Some(sp)
    requires AllDigits(s[sp.start..sp.end])
    ensures ScanValues(s, p, n + 1) == [DecValue(s[sp.start..sp.end])] + ScanValues(s, sp.end, n)
  {
    StrtollReadsToken(s, p, sp);
  }

  lemma TokenValuesCons(t: seq<char>, ts: seq<seq<char>>)
    ensures TokenValues([t] + ts) == [DecValue(t)] + TokenValues(ts)
  {
    assert forall j :: 0 < j < |ts| + 1 ==> ([t] + ts)[j] == ts[j - 1];
  }
}
