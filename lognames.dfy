/**
 * Log-file naming shared by both workflow compilers: an operation's stdout and
 * stderr files are `<dir>/<id>-<basename>.out` and `<dir>/<id>-<basename>.err`,
 * where the basename is the operation name with every character outside
 * `[A-Za-z0-9_.-]` replaced by `_`, cut to a compiler-specific maximum length.
 */
module LogNames {

  datatype LogFiles = LogFiles(stdout: string, stderr: string)

  predicate IsAllowed(c: char)
  {
    ('A' <= c <= 'Z') || ('a' <= c <= 'z') || ('0' <= c <= '9') || c == '_' || c == '.' || c == '-'
  }

  predicate IsDigit(c: char)
  {
    '0' <= c <= '9'
  }

  function Min(a: int, b: int): int { if a <= b then a else b }

  /** The regular-expression substitution `[^A-Za-z0-9_.-]` -> `_`. */
  function Sanitize(name: string): (r: string)
    ensures |r| == |name|
    ensures forall i :: 0 <= i < |name| ==> r[i] == (if IsAllowed(name[i]) then name[i] else '_')
  {
    if name == [] then []
    else [if IsAllowed(name[0]) then name[0] else '_'] + Sanitize(name[1..])
  }

  /** The sanitised name cut to at most `maxLen` characters. */
  function Basename(name: string, maxLen: nat): (r: string)
    ensures |r| == Min(|name|, maxLen)
    ensures forall i :: 0 <= i < |r| ==> r[i] == (if IsAllowed(name[i]) then name[i] else '_')
    ensures forall i :: 0 <= i < |r| ==> IsAllowed(r[i])
  {
    var s := Sanitize(name);
    if |s| <= maxLen then s else s[..maxLen]
  }

  function DigitChar(d: nat): char
    requires d < 10
  {
    "0123456789"[d]
  }

  /** Decimal rendering of a natural number, as `"%d"`. */
  function NatToString(n: nat): (r: string)
    ensures |r| > 0
    ensures forall i :: 0 <= i < |r| ==> IsDigit(r[i])
  {
    if n < 10 then [DigitChar(n)] else NatToString(n / 10) + [DigitChar(n % 10)]
  }

  /** Value of a string of decimal digits: the inverse of NatToString. */
  function DecimalValue(s: string): nat
    requires forall i :: 0 <= i < |s| ==> IsDigit(s[i])
  {
    if s == [] then 0 else 10 * DecimalValue(s[..|s| - 1]) + DigitValue(s[|s| - 1])
  }

  function DigitValue(c: char): nat
    requires IsDigit(c)
  {
    c as int - '0' as int
  }

  lemma {:induction false} DecimalRoundTrip(n: nat)
    ensures DecimalValue(NatToString(n)) == n
  {
    if n >= 10 {
      var s := NatToString(n);
      assert s[..|s| - 1] == NatToString(n / 10);
      DecimalRoundTrip(n / 10);
    }
  }

  /** `"%d-%s<ext>" % (id, basename)`. */
  function LogName(id: nat, basename: string, ext: string): string
  {
    NatToString(id) + "-" + basename + ext
  }

  /** `os.path.join(dir, file)` for a relative `file`. */
  function PathJoin(dir: string, file: string): (r: string)
    ensures |r| >= |file| && r[|r| - |file|..] == file
    ensures dir == [] ==> r == file
    ensures |r| >= |dir| && r[..|dir|] == dir
    ensures dir != [] && dir[|dir| - 1] != '/' ==> |r| == |dir| + 1 + |file| && r[|dir|] == '/'
    ensures dir == [] || dir[|dir| - 1] == '/' ==> |r| == |dir| + |file|
  {
    if dir == [] || dir[|dir| - 1] == '/' then dir + file else dir + "/" + file
  }

  /** Both log files of an operation with identity `id` and name `name`. */
  function LogFilesFor(logDir: string, id: nat, name: string, maxLen: nat): LogFiles
  {
    var base := Basename(name, maxLen);
    LogFiles(PathJoin(logDir, LogName(id, base, ".out")), PathJoin(logDir, LogName(id, base, ".err")))
  }

  /** The part of `s` before its first `-`, when there is one. */
  function BeforeFirstDash(s: string): (r: string)
    ensures |r| <= |s| && r == s[..|r|]
    ensures forall i :: 0 <= i < |r| ==> s[i] != '-'
    ensures |r| < |s| ==> s[|r|] == '-'
    ensures |r| == |s| ==> forall i :: 0 <= i < |s| ==> s[i] != '-'
  {
    if s == [] || s[0] == '-' then [] else [s[0]] + BeforeFirstDash(s[1..])
  }

  /**
   * Log names identify the operation: two log names with the same extension are
   * equal only when both the identity and the basename are. The identity is read
   * back from the digits before the first `-`.
   */
  lemma LogNameInjective(id1: nat, b1: string, id2: nat, b2: string, ext: string)
    requires LogName(id1, b1, ext) == LogName(id2, b2, ext)
    ensures id1 == id2 && b1 == b2
  {
    var s := LogName(id1, b1, ext);
    DigitsBeforeDash(NatToString(id1), b1 + ext);
    DigitsBeforeDash(NatToString(id2), b2 + ext);
    assert s == NatToString(id1) + "-" + (b1 + ext);
    assert s == LogName(id2, b2, ext) == NatToString(id2) + "-" + (b2 + ext);
    assert NatToString(id1) == BeforeFirstDash(s) == NatToString(id2);
    DecimalRoundTrip(id1);
    DecimalRoundTrip(id2);
    var n := |NatToString(id1)|;
    assert s[n + 1..] == b1 + ext;
    assert s[n + 1..] == b2 + ext;
    assert |b1| == |b2|;
    assert b1 == (b1 + ext)[..|b1|] == (b2 + ext)[..|b2|] == b2;
  }

  lemma DigitsBeforeDash(d: string, rest: string)
    requires forall i :: 0 <= i < |d| ==> IsDigit(d[i])
    ensures BeforeFirstDash(d + "-" + rest) == d
    decreases |d|
  {
    if d != [] {
      assert (d + "-" + rest)[1..] == d[1..] + "-" + rest;
      DigitsBeforeDash(d[1..], rest);
    }
  }
}
