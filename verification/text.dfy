/** String helpers shared by the advisory store and the normaliser: the
    last-separator split used for Redis keys and file paths, the base name
    and stem of a feed file, and the decimal rendering of integers. */
module Text {

  datatype Option<+T> = None | Some(value: T) {
    function GetOr(default: T): T {
      match this
      case Some(v) => v
      case None => default
    }
  }

  predicate StartsWith(s: string, prefix: string) {
    |prefix| <= |s| && s[..|prefix|] == prefix
  }

  /** Index of the last occurrence of `c` in `s`, or -1 (a `str.rfind`). */
  function LastIndexOf(s: string, c: char): (r: int)
    ensures -1 <= r < |s|
    ensures r == -1 <==> c !in s
    ensures r >= 0 ==> s[r] == c
    ensures forall j :: r < j < |s| ==> s[j] != c
  {
    if s == [] then -1
    else if s[|s| - 1] == c then |s| - 1
    else LastIndexOf(s[..|s| - 1], c)
  }

  /** The part of `s` after its last '/', or all of `s` when it has none:
      `s.rsplit('/', maxsplit=1)[-1]`, and also `Path.name` of a path. */
  function LastSegment(s: string): (r: string)
    ensures '/' !in r
    ensures |r| <= |s| && s[|s| - |r|..] == r
    ensures '/' !in s ==> r == s
  {
    s[LastIndexOf(s, '/') + 1..]
  }

  /** The segment starts right after the last '/' of `s`. */
  lemma LastSegmentAfterLastSlash(s: string)
    requires '/' in s
    ensures var r := LastSegment(s); |r| < |s| && s[|s| - |r| - 1] == '/'
  {
  }

  /** A key built as `prefix + "/" + oid` splits back to `oid` whenever
      `oid` holds no '/'; otherwise only its last segment comes back. */
  lemma LastSegmentOfJoin(prefix: string, oid: string)
    requires '/' !in oid
    ensures LastSegment(prefix + "/" + oid) == oid
  {
    var s := prefix + "/" + oid;
    var i := LastIndexOf(s, '/');
    assert s[|prefix|] == '/';
    assert forall j :: |prefix| < j < |s| ==> s[j] == oid[j - |prefix| - 1];
    assert i == |prefix|;
    assert s[i + 1..] == oid;
  }

  /** An oid holding a '/' is not given back whole by the split: only its
      own last segment comes back. */
  lemma LastSegmentLosesSlashedOid(prefix: string, oid: string)
    requires '/' in oid
    ensures LastSegment(prefix + "/" + oid) == LastSegment(oid) != oid
  {
    var s := prefix + "/" + oid;
    var k := |prefix| + 1;
    assert forall j :: 0 <= j < |oid| ==> s[k + j] == oid[j];
    var io := LastIndexOf(oid, '/');
    assert s[k + io] == '/';
    assert forall j :: k + io < j < |s| ==> s[j] != '/' by {
      forall j | k + io < j < |s| ensures s[j] != '/' {
        assert s[j] == oid[j - k];
      }
    }
    assert LastIndexOf(s, '/') == k + io;
    assert s[k + io + 1..] == oid[io + 1..];
  }

  /** `Path.stem` of a base name: drop the last suffix, which starts at the
      last '.' when that dot is neither the first nor the last character. */
  function Stem(name: string): (r: string)
    ensures |r| <= |name| && name[..|r|] == r
    ensures var i := LastIndexOf(name, '.');
      (0 < i < |name| - 1 ==> |r| == i) && (!(0 < i < |name| - 1) ==> r == name)
  {
    var i := LastIndexOf(name, '.');
    if 0 < i < |name| - 1 then name[..i] else name
  }

  lemma StemOfFeedFile(base: string)
    requires base != []
    ensures Stem(base + ".notus") == base
  {
    var name := base + ".notus";
    assert name[|base|] == '.';
    var i := LastIndexOf(name, '.');
    assert forall j :: |base| < j < |name| ==> name[j] == ".notus"[j - |base|];
    assert i == |base|;
    assert name[..|base|] == base;
  }

  function DigitChar(d: nat): (c: char)
    requires d < 10
    ensures '0' <= c <= '9' && c as int - '0' as int == d
  {
    ('0' as int + d) as char
  }

  /** The number a string of decimal digits denotes. */
  function DecimalValue(s: string): nat
    requires forall j :: 0 <= j < |s| ==> '0' <= s[j] <= '9'
  {
    if s == [] then 0 else DecimalValue(s[..|s| - 1]) * 10 + (s[|s| - 1] as int - '0' as int)
  }

  function NatToDecimal(n: nat): (r: string)
    ensures r != []
    ensures forall j :: 0 <= j < |r| ==> '0' <= r[j] <= '9'
  {
    if n < 10 then [DigitChar(n)] else NatToDecimal(n / 10) + [DigitChar(n % 10)]
  }

  /** The decimal rendering of a natural number denotes it, and starts with
      '0' only when it is "0" itself. */
  lemma {:induction false} NatToDecimalDenotes(n: nat)
    ensures DecimalValue(NatToDecimal(n)) == n
    ensures NatToDecimal(n)[0] == '0' <==> n == 0
    ensures n == 0 ==> NatToDecimal(n) == "0"
  {
    if n >= 10 {
      NatToDecimalDenotes(n / 10);
      var r := NatToDecimal(n);
      assert r[..|r| - 1] == NatToDecimal(n / 10);
    }
  }

  /** The integer a rendering with an optional leading '-' denotes. */
  function IntValue(s: string): int
    requires s != [] && s[0] == '-' ==> forall j :: 1 <= j < |s| ==> '0' <= s[j] <= '9'
    requires !(s != [] && s[0] == '-') ==> forall j :: 0 <= j < |s| ==> '0' <= s[j] <= '9'
  {
    if s != [] && s[0] == '-' then -(DecimalValue(s[1..]) as int) else DecimalValue(s)
  }

  /** Python's `str()` of an integer. */
  function IntToDecimal(n: int): (r: string)
    ensures r != []
    ensures (r[0] == '-') <==> n < 0
  {
    if n < 0 then "-" + NatToDecimal(-n) else NatToDecimal(n)
  }

  /** `str()` of an integer denotes it: a '-' before the digits of its
      magnitude, with no leading zero. */
  lemma IntToDecimalDenotes(n: int)
    ensures var r := IntToDecimal(n);
      (r[0] == '-' ==> forall j :: 1 <= j < |r| ==> '0' <= r[j] <= '9')
      && (r[0] != '-' ==> forall j :: 0 <= j < |r| ==> '0' <= r[j] <= '9')
      && IntValue(r) == n
      && (|r| > 1 && r[0] != '-' ==> r[0] != '0')
      && (r[0] == '-' ==> |r| > 1 && r[1] != '0')
  {
    var m := if n < 0 then -n else n;
    NatToDecimalDenotes(m);
    if n < 0 {
      assert IntToDecimal(n)[1..] == NatToDecimal(m);
    }
  }
}
