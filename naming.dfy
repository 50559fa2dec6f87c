/**
  Chunk file names and the output name.

  A chunk for the range `(start, end)` is stored as `"{start}-{end}.chunk"`;
  the combiner reads the start back with `int(name.split('-')[0])` and keeps
  only names that end in `.chunk`. The combined file is named after the last
  component of the URL's path (`posixpath.basename`).
 */
module Naming {
  import opened Wrappers
  import opened Ranges

  predicate IsDigit(c: char)
  {
    '0' <= c <= '9'
  }

  predicate AllDigits(s: string)
  {
    forall i :: 0 <= i < |s| ==> IsDigit(s[i])
  }

  function DigitValue(c: char): (d: nat)
    requires IsDigit(c)
    ensures d < 10
  {
    c as int - '0' as int
  }

  function DigitChar(d: int): (c: char)
    requires 0 <= d < 10
    ensures IsDigit(c) && DigitValue(c) == d
  {
    ('0' as int + d) as char
  }

  /** The number a string of decimal digits denotes (leading zeros allowed, as `int()` allows them). */
  function DecimalValue(s: string): nat
    requires AllDigits(s)
  {
    if s == [] then 0 else DecimalValue(s[..|s| - 1]) * 10 + DigitValue(s[|s| - 1])
  }

  /**
    `str(n)` for a natural number: its decimal digits without leading zeros.
    Reading the digits back gives `n`.
   */
  function NatToDecimal(n: nat): (s: string)
    ensures |s| >= 1 && AllDigits(s)
    ensures |s| > 1 ==> s[0] != '0'
    ensures DecimalValue(s) == n
    decreases n
  {
    if n < 10 then [DigitChar(n)]
    else
      var init := NatToDecimal(n / 10);
      var s := init + [DigitChar(n % 10)];
      assert s[..|s| - 1] == init;
      s
  }

  /**
    `int(s)` on the strings this model lets it accept: an optional sign and one
    or more ASCII digits; `None` stands for the `ValueError` of anything else.
   */
  function ParseInt(s: string): (v: Option<int>)
    ensures v.Some? ==> |s| >= 1 && (v.value < 0 ==> s[0] == '-')
    ensures v.Some? && s[0] == '-' ==> v.value <= 0
  {
    if |s| >= 2 && (s[0] == '-' || s[0] == '+') && AllDigits(s[1..]) then
      var magnitude: int := DecimalValue(s[1..]);
      Some(if s[0] == '-' then -magnitude else magnitude)
    else if |s| >= 1 && AllDigits(s) then Some(DecimalValue(s))
    else None
  }

  /** `str(i)` for any integer; `int()` reads it back as `i`. */
  function IntToDecimal(i: int): (s: string)
    ensures |s| >= 1
    ensures ParseInt(s) == Some(i)
    ensures i >= 0 ==> s == NatToDecimal(i)
  {
    if i < 0 then
      var s := "-" + NatToDecimal(-i);
      assert s[1..] == NatToDecimal(-i);
      s
    else NatToDecimal(i)
  }

  /**
    `s.split(sep)[0]`: the longest prefix of `s` without `sep`; it is all of `s`
    when `sep` does not occur, and is followed by `sep` otherwise.
   */
  function SplitHead(s: string, sep: char): (h: string)
    ensures |h| <= |s| && h == s[..|h|]
    ensures sep !in h
    ensures |h| < |s| ==> s[|h|] == sep
  {
    if s == [] then []
    else if s[0] == sep then []
    else [s[0]] + SplitHead(s[1..], sep)
  }

  /** The chunk file name `f'{start}-{end}.chunk'`. */
  function ChunkName(r: ByteRange): (name: string)
    ensures IsChunkFile(name)
  {
    var d, t := IntToDecimal(r.start), EndSuffix(r.end);
    assert (d + t)[|d + t| - 6..] == t[|t| - 6..];
    d + t
  }

  /** What follows the start in a chunk name: `-{end}.chunk`. */
  function EndSuffix(end: int): (t: string)
    ensures |t| >= 7 && t[0] == '-'
    ensures t[|t| - 6..] == ".chunk"
  {
    "-" + IntToDecimal(end) + ".chunk"
  }

  /** `name.endswith('.chunk')`. */
  predicate IsChunkFile(name: string)
  {
    |name| >= 6 && name[|name| - 6..] == ".chunk"
  }

  /**
    `int(name.split('-')[0])`, the sort key of a chunk file. The part before
    the first `-` carries no minus sign, so a start that parses is never
    negative, and a name that begins with `-` has no start at all.
   */
  function ParseStart(name: string): (start: Option<int>)
    ensures start.Some? ==> start.value >= 0
    ensures name != [] && name[0] == '-' ==> start == None
  {
    var h := SplitHead(name, '-');
    assert h != [] ==> h[0] != '-';
    ParseInt(h)
  }

  /** Splitting on `-` stops at the first `-` after a prefix without one. */
  lemma SplitHeadOf(d: string, rest: string)
    requires '-' !in d && |rest| >= 1 && rest[0] == '-'
    ensures SplitHead(d + rest, '-') == d
  {
    var s := d + rest;
    assert s[|d|] == '-' && s[..|d|] == d;
  }

  /**
    Formatting a range with a non-negative start as a chunk name gives a
    `.chunk` name whose parsed start is the range's start.
   */
  lemma ParseStartOfChunkName(r: ByteRange)
    requires r.start >= 0
    ensures IsChunkFile(ChunkName(r))
    ensures ParseStart(ChunkName(r)) == Some(r.start)
  {
    var d := IntToDecimal(r.start);
    SplitHeadOf(d, EndSuffix(r.end));
  }

  /** Dropping the first character of `[c] + m + rest` leaves `m + rest`. */
  lemma DropFirst(c: char, m: string, rest: string)
    ensures ([c] + m + rest)[1..] == m + rest
  {
  }

  /** The part of a chunk name before the first `-` after an optional sign spells the start's magnitude. */
  lemma ChunkNameStart(r: ByteRange)
    ensures var name := ChunkName(r);
      if name[0] == '-' then r.start < 0 && SplitHead(name[1..], '-') == NatToDecimal(-r.start)
      else r.start >= 0 && SplitHead(name, '-') == NatToDecimal(r.start)
  {
    if r.start < 0 {
      NegativeStart(r);
    } else {
      NonNegativeStart(r);
    }
  }

  lemma NegativeStart(r: ByteRange)
    requires r.start < 0
    ensures ChunkName(r)[0] == '-'
    ensures SplitHead(ChunkName(r)[1..], '-') == NatToDecimal(-r.start)
  {
    var m, rest := NatToDecimal(-r.start), EndSuffix(r.end);
    assert ChunkName(r) == ['-'] + m + rest;
    DropFirst('-', m, rest);
    SplitHeadOf(m, rest);
  }

  lemma NonNegativeStart(r: ByteRange)
    requires r.start >= 0
    ensures IsDigit(ChunkName(r)[0])
    ensures SplitHead(ChunkName(r), '-') == NatToDecimal(r.start)
  {
    var d := NatToDecimal(r.start);
    assert ChunkName(r) == d + EndSuffix(r.end);
    assert ChunkName(r)[0] == d[0];
    SplitHeadOf(d, EndSuffix(r.end));
  }

  /** The end can be read back from `-{end}.chunk`. */
  lemma EndSuffixInjective(e1: int, e2: int)
    requires EndSuffix(e1) == EndSuffix(e2)
    ensures e1 == e2
  {
    var t := EndSuffix(e1);
    assert t[1..|t| - 6] == IntToDecimal(e1);
    assert t[1..|t| - 6] == IntToDecimal(e2);
  }

  /** Distinct ranges get distinct chunk names, so no two ranges share a file. */
  lemma ChunkNameInjective(r1: ByteRange, r2: ByteRange)
    requires ChunkName(r1) == ChunkName(r2)
    ensures r1 == r2
  {
    var name := ChunkName(r1);
    ChunkNameStart(r1);
    ChunkNameStart(r2);
    if name[0] == '-' {
      assert NatToDecimal(-r1.start) == NatToDecimal(-r2.start);
    } else {
      assert NatToDecimal(r1.start) == NatToDecimal(r2.start);
    }
    assert r1.start == r2.start;
    var d := IntToDecimal(r1.start);
    assert name[|d|..] == EndSuffix(r1.end);
    assert name[|d|..] == EndSuffix(r2.end);
    EndSuffixInjective(r1.end, r2.end);
  }

  /**
    `posixpath.basename(path)`: what follows the last `/` of `path` (all of
    it when there is none, nothing when it ends in `/`).
   */
  function Basename(path: string): (b: string)
    ensures '/' !in b
    ensures |b| <= |path| && b == path[|path| - |b|..]
    ensures |b| < |path| ==> path[|path| - |b| - 1] == '/'
  {
    if path == [] then []
    else if path[|path| - 1] == '/' then []
    else
      var init := path[..|path| - 1];
      var b := Basename(init);
      assert path[|path| - |b| - 1..] == init[|init| - |b|..] + [path[|path| - 1]];
      b + [path[|path| - 1]]
  }

  /**
    Output names that denote a directory: `downloads/` itself (`""`, `"."`),
    its parent (`".."`), or one of its subdirectories `subdirs`, among them
    the chunk directory. The path exists, so `combine` unlinks it, and
    `unlink` refuses a directory.
   */
  predicate IsDirectoryName(name: string, subdirs: set<string>)
  {
    name == "" || name == "." || name == ".." || name in subdirs
  }
}
