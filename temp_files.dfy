/** Temporary recording file names: `path.join(os.tmpdir(), `wispr-recording-${Date.now()}.<ext>`)`.
    The name carries the millisecond timestamp in decimal; the lemmas show that it can be read
    back, so two recordings started at different milliseconds never share a file. */
module TempFiles {

  predicate IsDigit(c: char)
  {
    '0' <= c <= '9'
  }

  predicate AllDigits(s: string)
  {
    forall i :: 0 <= i < |s| ==> IsDigit(s[i])
  }

  function Digit(d: nat): (c: char)
    requires d < 10
    ensures IsDigit(c) && c as int - '0' as int == d
  {
    ('0' as int + d) as char
  }

  function DigitValue(c: char): (d: nat)
    requires IsDigit(c)
    ensures d < 10 && Digit(d) == c
  {
    c as int - '0' as int
  }

  /** `${n}` for a non-negative integer: its decimal digits, without leading zeros. */
  function Decimal(n: nat): (s: string)
    ensures |s| > 0 && AllDigits(s)
    ensures |s| > 1 ==> s[0] != '0'
    decreases n
  {
    if n < 10 then [Digit(n)] else Decimal(n / 10) + [Digit(n % 10)]
  }

  /** Reads a string of decimal digits back as a number. */
  function ParseDecimal(s: string): nat
    requires AllDigits(s)
  {
    if s == [] then 0 else 10 * ParseDecimal(s[..|s| - 1]) + DigitValue(s[|s| - 1])
  }

  lemma {:induction false} ParseDecimalOfDecimal(n: nat)
    ensures ParseDecimal(Decimal(n)) == n
    decreases n
  {
    if n >= 10 {
      var s := Decimal(n);
      assert s[..|s| - 1] == Decimal(n / 10);
      ParseDecimalOfDecimal(n / 10);
    }
  }

  lemma DecimalInjective(a: nat, b: nat)
    ensures Decimal(a) == Decimal(b) ==> a == b
  {
    ParseDecimalOfDecimal(a);
    ParseDecimalOfDecimal(b);
  }

  /** The length of the run of digits at the start of `r`. */
  function DigitRun(r: string): (n: nat)
    ensures n <= |r|
    ensures AllDigits(r[..n])
    ensures n < |r| ==> !IsDigit(r[n])
  {
    if r == [] || !IsDigit(r[0]) then 0 else 1 + DigitRun(r[1..])
  }

  lemma {:induction false} DigitRunStopsAtDot(s: string, e: string)
    requires AllDigits(s)
    ensures DigitRun(s + "." + e) == |s|
  {
    if s != [] {
      assert (s + "." + e)[1..] == s[1..] + "." + e;
      DigitRunStopsAtDot(s[1..], e);
    }
  }

  const RecordingPrefix := "wispr-recording-"

  /** `path.join(dir, name)` for a directory without a trailing separator. */
  function Join(dir: string, name: string): (p: string)
    ensures |p| == |dir| + 1 + |name| && p[..|dir|] == dir && p[|dir|] == '/' && p[|dir| + 1..] == name
  {
    dir + "/" + name
  }

  /** The temporary file of a recording started (web: saved) at millisecond `now`, with
      extension `wav` (native capture) or `webm` (web capture). */
  function TempFilePath(dir: string, now: nat, ext: string): (p: string)
    ensures |p| == |dir| + 1 + |RecordingPrefix| + |Decimal(now)| + 1 + |ext|
    ensures p[..|dir| + 1] == dir + "/"
    ensures p[|p| - |ext| - 1..] == "." + ext
  {
    Join(dir, RecordingPrefix + (Decimal(now) + "." + ext))
  }

  /** The timestamp and the extension can be read back from the path. */
  lemma TempFilePathParts(dir: string, now: nat, ext: string)
    ensures var p := TempFilePath(dir, now, ext);
            var k := |dir| + 1 + |RecordingPrefix|;
            var rest := p[k..];
            k <= |p| && p[..k] == dir + "/" + RecordingPrefix
            && DigitRun(rest) == |Decimal(now)|
            && ParseDecimal(rest[..DigitRun(rest)]) == now
            && rest[DigitRun(rest) + 1..] == ext
  {
    var s := Decimal(now);
    var p := TempFilePath(dir, now, ext);
    var k := |dir| + 1 + |RecordingPrefix|;
    var rest := s + "." + ext;
    assert p == (dir + "/" + RecordingPrefix) + rest;
    assert p[k..] == rest;
    DigitRunStopsAtDot(s, ext);
    assert rest[..|s|] == s;
    ParseDecimalOfDecimal(now);
    assert rest[|s| + 1..] == ext;
  }

  /** Different timestamps or different extensions give different files in the same directory. */
  lemma TempFilePathInjective(dir: string, t1: nat, e1: string, t2: nat, e2: string)
    ensures TempFilePath(dir, t1, e1) == TempFilePath(dir, t2, e2) ==> t1 == t2 && e1 == e2
  {
    TempFilePathParts(dir, t1, e1);
    TempFilePathParts(dir, t2, e2);
  }

  /** A native (`wav`) and a web (`webm`) recording never share a file. */
  lemma WavAndWebmDiffer(dir: string, t1: nat, t2: nat)
    ensures TempFilePath(dir, t1, "wav") != TempFilePath(dir, t2, "webm")
  {
    TempFilePathInjective(dir, t1, "wav", t2, "webm");
  }
}
