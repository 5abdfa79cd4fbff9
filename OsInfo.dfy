/** The operating-system version line of the System panel: from the platform
    version that User-Agent Client Hints report, `getOSInfo` reads a Windows build
    number and appends the Windows family it belongs to. */
module OsInfo {
  import opened JsText

  /** A piece of text that was found, or nothing. */
  datatype Found = Absent | Present(text: string)

  /** The number of decimal digits at the end of `s`. */
  function TrailingDigitCount(s: string): (k: nat)
    ensures k <= |s| && AllDigits(s[|s| - k..])
    ensures k == |s| || !IsDigit(s[|s| - k - 1])
  {
    if s != [] && IsDigit(s[|s| - 1]) then
      var p := s[..|s| - 1];
      var k := TrailingDigitCount(p);
      assert forall i :: |s| - 1 - k <= i < |s| - 1 ==> s[i] == p[|p| - k..][i - (|s| - 1 - k)];
      k + 1
    else 0
  }

  /** The group `/\.([0-9]+)$/` captures: the digits after a dot that only
      digits follow, up to the end of the text. */
  function DotDigitsSuffix(s: string): (r: Found)
    ensures r.Present? ==>
      r.text != [] && AllDigits(r.text) && |r.text| < |s| &&
      s == s[..|s| - |r.text| - 1] + "." + r.text
  {
    var k := TrailingDigitCount(s);
    if 0 < k < |s| && s[|s| - k - 1] == '.' then
      assert s == s[..|s| - k - 1] + "." + s[|s| - k..];
      Present(s[|s| - k..])
    else Absent
  }

  /** The regular expression finds exactly the digit run a dot introduces at
      the end. */
  lemma DotDigitsSuffixOf(prefix: string, digits: string)
    requires digits != [] && AllDigits(digits)
    ensures DotDigitsSuffix(prefix + "." + digits) == Present(digits)
  {
    var s := prefix + "." + digits;
    TrailingDigitsOf(prefix + ".", digits);
    assert s[|s| - |digits|..] == digits;
    assert s[|s| - |digits| - 1] == '.';
  }

  lemma {:induction false} TrailingDigitsOf(head: string, digits: string)
    requires AllDigits(digits)
    requires head == [] || !IsDigit(head[|head| - 1])
    ensures TrailingDigitCount(head + digits) == |digits|
    decreases |digits|
  {
    if digits != [] {
      var s := head + digits;
      assert s[..|s| - 1] == head + digits[..|digits| - 1];
      TrailingDigitsOf(head, digits[..|digits| - 1]);
    } else {
      assert head + digits == head;
    }
  }

  /** The index of the first dot in `s`, or `|s|` if there is none. */
  function DotIndex(s: string): (i: nat)
    ensures i <= |s| && '.' !in s[..i]
    ensures i < |s| ==> s[i] == '.'
  {
    if s == [] then 0
    else if s[0] == '.' then 0
    else
      var i := DotIndex(s[1..]) + 1;
      assert s[..i] == [s[0]] + s[1..][..i - 1];
      i
  }

  /** `s.split('.')[n]`: the `n`-th dot-separated field, or nothing when `s`
      has fewer fields. */
  function Field(s: string, n: nat): (r: Found)
    ensures r.Present? ==> '.' !in r.text
    decreases n
  {
    var i := DotIndex(s);
    if n == 0 then Present(s[..i])
    else if i == |s| then Absent
    else Field(s[i + 1..], n - 1)
  }

  /** The build number as `getOSInfo` reads it: `parseInt` of the digits after
      the last dot when the version ends in them, else of the third field, else
      of `undefined` (NaN). */
  function Build(osVer: string): Parsed
  {
    match DotDigitsSuffix(osVer)
    case Present(d) => ParseInt(d)
    case Absent =>
      match Field(osVer, 2)
      case Present(f) => ParseInt(f)
      case Absent => NaN
  }

  /** The Windows family a build number belongs to. */
  function WindowsName(build: Parsed): (r: string)
    ensures r == "Windows 11 Family" <==> build.Num? && build.n >= 22000
    ensures r == "Windows 10 Family" <==> build.Num? && 10240 <= build.n < 22000
    ensures r == "Windows" <==> build.NaN? || build.n < 10240
  {
    assert "Windows 11 Family"[9] != "Windows 10 Family"[9];
    assert |"Windows"| != |"Windows 10 Family"|;
    if build.Num? && build.n >= 22000 then "Windows 11 Family"
    else if build.Num? && build.n >= 10240 then "Windows 10 Family"
    else "Windows"
  }

  /** The version line shown for `navigator.userAgentData`: on Windows a
      non-empty platform version gets the family of its build appended in
      parentheses; an empty one reads "N/A". */
  function VersionText(platform: string, platformVersion: string): (r: string)
    ensures platformVersion == "" ==> r == "N/A"
    ensures platform != "Windows" && platformVersion != "" ==> r == platformVersion
    ensures platform == "Windows" && platformVersion != "" ==>
      r == Parenthesised(platformVersion, WindowsName(Build(platformVersion)))
  {
    var osVer := platformVersion;
    var shown :=
      if platform == "Windows" && osVer != "" then Parenthesised(osVer, WindowsName(Build(osVer)))
      else osVer;
    if shown != "" then shown else if platformVersion != "" then platformVersion else "N/A"
  }

  /** `${text} (${note})`. */
  function Parenthesised(text: string, note: string): (r: string)
    ensures |r| == |text| + |note| + 3 && r[..|text|] == text
    ensures r[|text|..|text| + 2] == " (" && r[|text| + 2..|r| - 1] == note && r[|r| - 1] == ')'
  {
    var r := text + " (" + note + ")";
    assert r[..|text|] == text;
    assert r[|text|..|text| + 2] == " (";
    assert r[|text| + 2..|r| - 1] == note;
    r
  }

  /** Text without a dot has its first dot at its end. */
  lemma DotIndexOfDotFree(a: string)
    requires '.' !in a
    ensures DotIndex(a) == |a|
  {
  }

  /** The first dot of `a + "." + b`, for a dot-free `a`, is the one after `a`. */
  lemma DotIndexOfDotted(a: string, b: string)
    requires '.' !in a
    ensures DotIndex(a + "." + b) == |a|
  {
    var s := a + "." + b;
    assert forall k :: 0 <= k < |a| ==> s[k] == a[k];
    assert s[|a|] == '.';
  }

  /** A dot-free text is a single field: field 0 is the whole text and every
      later field is absent. */
  lemma FieldOfDotFree(a: string, n: nat)
    requires '.' !in a
    ensures Field(a, 0) == Present(a)
    ensures Field(a, n + 1) == Absent
  {
    DotIndexOfDotFree(a);
    assert a[..|a|] == a;
  }

  /** `(a + "." + b).split('.')`, for a dot-free `a`, is `a` followed by the
      fields of `b`. */
  lemma FieldOfDotted(a: string, b: string, n: nat)
    requires '.' !in a
    ensures Field(a + "." + b, 0) == Present(a)
    ensures Field(a + "." + b, n + 1) == Field(b, n)
  {
    var s := a + "." + b;
    DotIndexOfDotted(a, b);
    assert s[..|a|] == a;
    assert s[|a| + 1..] == b;
  }

  /** A version ending in `.<digits>` has the build those digits write. */
  lemma BuildOfDotDigits(prefix: string, build: nat)
    ensures Build(prefix + "." + NatText(build)) == Num(build)
  {
    DotDigitsSuffixOf(prefix, NatText(build));
    ParseIntOfNatText(build, []);
    assert NatText(build) + [] == NatText(build);
  }

  /** When the version does not end in digits, the build is read from the third
      dot-separated field, which may carry text after its number. */
  lemma BuildOfThirdField(a: string, b: string, build: nat, tail: string)
    requires '.' !in a && '.' !in b && '.' !in tail
    requires tail != [] && !IsDigit(tail[0]) && !IsDigit(tail[|tail| - 1])
    requires build > 0 || (tail[0] != 'x' && tail[0] != 'X')
    ensures Build(a + "." + b + "." + (NatText(build) + tail)) == Num(build)
  {
    var f := NatText(build) + tail;
    var s := a + "." + b + "." + f;
    assert s[|s| - 1] == tail[|tail| - 1];
    NoTrailingDigits(s);
    DigitsThenDotFree(NatText(build), tail);
    ThirdField(a, b, f);
    ParseIntOfNatText(build, tail);
  }

  /** Text that does not end in a digit has no `.<digits>` ending. */
  lemma NoTrailingDigits(s: string)
    requires s != [] && !IsDigit(s[|s| - 1])
    ensures DotDigitsSuffix(s) == Absent
  {
  }

  lemma DigitsThenDotFree(d: string, tail: string)
    requires AllDigits(d) && '.' !in tail
    ensures '.' !in d + tail
  {
    forall j | 0 <= j < |d + tail| ensures (d + tail)[j] != '.' {
      if j >= |d| {
        assert (d + tail)[j] == tail[j - |d|];
      }
    }
  }

  /** The third field of `a.b.f`, for dot-free `a`, `b` and `f`, is `f`. */
  lemma ThirdField(a: string, b: string, f: string)
    requires '.' !in a && '.' !in b && '.' !in f
    ensures Field(a + "." + b + "." + f, 2) == Present(f)
  {
    assert a + "." + b + "." + f == a + "." + (b + "." + f);
    FieldOfDotted(a, b + "." + f, 1);
    FieldOfDotted(b, f, 0);
    FieldOfDotFree(f, 0);
  }

  /** A Windows version ending in `.<build>` is labelled with the family of that
      build. */
  lemma WindowsBuildLabel(prefix: string, build: nat)
    ensures VersionText("Windows", prefix + "." + NatText(build)) ==
      Parenthesised(prefix + "." + NatText(build), WindowsName(Num(build)))
  {
    BuildOfDotDigits(prefix, build);
  }
}
