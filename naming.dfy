/** The names the recorder gives to time stamps, session folders and
    artifacts, with the facts that keep those names apart. */
module Naming {
  import opened Values

  predicate IsDigit(c: char) {
    '0' <= c <= '9'
  }

  function DigitChar(d: nat): (c: char)
    requires d < 10
    ensures IsDigit(c) && c as int - '0' as int == d
  {
    ('0' as int + d) as char
  }

  function DigitValue(c: char): (d: nat)
    requires IsDigit(c)
    ensures d < 10 && DigitChar(d) == c
  {
    c as int - '0' as int
  }

  /** A non-negative integer as JavaScript writes it when it is added to a
      string: decimal, no sign, no padding. */
  function NatToString(n: nat): (s: string)
    ensures |s| > 0
    ensures forall i :: 0 <= i < |s| ==> IsDigit(s[i])
    ensures n < 10 <==> |s| == 1
    ensures |s| == 1 || s[0] != '0'
  {
    if n < 10 then [DigitChar(n)] else NatToString(n / 10) + [DigitChar(n % 10)]
  }

  /** Reads a string of decimal digits back as a number; the inverse that
      shows `NatToString` loses nothing. */
  function ParseDigits(s: string): (r: Option<nat>)
    ensures r.Some? <==> |s| > 0 && forall i :: 0 <= i < |s| ==> IsDigit(s[i])
  {
    if |s| == 0 || !IsDigit(s[|s| - 1]) then None
    else if |s| == 1 then Some(DigitValue(s[0]))
    else match ParseDigits(s[..|s| - 1])
      case None => None
      case Some(v) => Some(10 * v + DigitValue(s[|s| - 1]))
  }

  lemma {:induction false} ParseNatToString(n: nat)
    ensures ParseDigits(NatToString(n)) == Some(n)
  {
    if n >= 10 {
      var s := NatToString(n);
      assert s[..|s| - 1] == NatToString(n / 10);
      ParseNatToString(n / 10);
    }
  }

  lemma NatToStringInjective(a: nat, b: nat)
    ensures NatToString(a) == NatToString(b) <==> a == b
  {
    if NatToString(a) == NatToString(b) {
      ParseNatToString(a);
      ParseNatToString(b);
    }
  }

  /** `getTime`: hours, minutes and seconds joined by dashes. */
  function GetTime(c: Clock): (r: string)
    ensures |r| >= 5
    ensures IsDigit(r[0]) && IsDigit(r[|r| - 1])
    ensures forall i :: 0 <= i < |r| ==> IsDigit(r[i]) || r[i] == '-'
  {
    NatToString(c.hours) + "-" + NatToString(c.minutes) + "-" + NatToString(c.seconds)
  }

  /** The part of a session folder's name after `Tracked Data/`:
      year, one-based month, day, then `getTime`. */
  function DateStamp(c: Clock): string {
    NatToString(c.year) + "-" + NatToString(c.month + 1) + "-" + NatToString(c.day) + "-" + GetTime(c)
  }

  const TrackedData := "Tracked Data/"

  /** `generateUniqueFolder`'s choice of `directory`. */
  function SessionFolder(c: Clock): string {
    TrackedData + DateStamp(c)
  }

  /** `createFileAndWrite`'s path for a file name under a directory. */
  function ArtifactPath(directory: string, name: string): string {
    directory + "/" + name
  }

  const DeckName := "deck"
  const ResultName := "Game Result"
  const SamplesFolder := "Card Positions"
  const SamplePrefix := SamplesFolder + "/"

  /** The name a board sample taken at clock `c` is stored under. */
  function SampleName(c: Clock): string {
    SamplePrefix + GetTime(c)
  }

  /** The shape of every session folder: the fixed prefix, then one path
      segment with no further slash. */
  predicate IsSessionFolder(f: string) {
    TrackedData <= f && '/' !in f[|TrackedData|..]
  }

  /** Same wall-clock second (as the folder name sees it). */
  predicate SameSecond(a: Clock, b: Clock) {
    a.year == b.year && a.month == b.month && a.day == b.day &&
    a.hours == b.hours && a.minutes == b.minutes && a.seconds == b.seconds
  }

  /** Cutting a string at its first separator is unambiguous. */
  lemma SplitAtSeparator(a: string, b: string, c: string, d: string, sep: char)
    requires sep !in a && sep !in c
    requires a + [sep] + b == c + [sep] + d
    ensures a == c && b == d
  {
    var s := a + [sep] + b;
    assert s[|a|] == sep;
    assert (c + [sep] + d)[|c|] == sep;
    assert forall i :: 0 <= i < |a| ==> s[i] == a[i];
    assert forall i :: 0 <= i < |c| ==> s[i] == c[i];
    assert |a| == |c|;
    assert a == s[..|a|] && c == s[..|c|];
    assert b == s[|a| + 1..] && d == (c + [sep] + d)[|c| + 1..];
  }

  lemma JoinAssoc(x: string, y: string, z: string, sep: char)
    ensures x + [sep] + y + [sep] + z == x + [sep] + (y + [sep] + z)
  {
  }

  lemma JoinAssoc4(w: string, x: string, y: string, z: string, sep: char)
    ensures w + [sep] + x + [sep] + y + [sep] + z == w + [sep] + (x + [sep] + (y + [sep] + z))
  {
  }

  lemma DigitsHaveNo(n: nat, x: char)
    requires !IsDigit(x)
    ensures x !in NatToString(n)
  {
  }

  /** `getTime` names are in one-to-one correspondence with the time of day:
      the missing zero padding never makes two times collide. */
  lemma GetTimeInjective(a: Clock, b: Clock)
    ensures GetTime(a) == GetTime(b) <==>
            a.hours == b.hours && a.minutes == b.minutes && a.seconds == b.seconds
  {
    if GetTime(a) == GetTime(b) {
      var ha, ma, sa := NatToString(a.hours), NatToString(a.minutes), NatToString(a.seconds);
      var hb, mb, sb := NatToString(b.hours), NatToString(b.minutes), NatToString(b.seconds);
      DigitsHaveNo(a.hours, '-'); DigitsHaveNo(b.hours, '-');
      DigitsHaveNo(a.minutes, '-'); DigitsHaveNo(b.minutes, '-');
      JoinAssoc(ha, ma, sa, '-');
      JoinAssoc(hb, mb, sb, '-');
      SplitAtSeparator(ha, ma + ['-'] + sa, hb, mb + ['-'] + sb, '-');
      SplitAtSeparator(ma, sa, mb, sb, '-');
      NatToStringInjective(a.hours, b.hours);
      NatToStringInjective(a.minutes, b.minutes);
      NatToStringInjective(a.seconds, b.seconds);
    }
  }

  /** Two sessions share a folder exactly when they start in the same
      second: distinct seconds never collide, the same second always does. */
  lemma SessionFolderInjective(a: Clock, b: Clock)
    ensures SessionFolder(a) == SessionFolder(b) <==> SameSecond(a, b)
  {
    if SessionFolder(a) == SessionFolder(b) {
      var ya, moa, da := NatToString(a.year), NatToString(a.month + 1), NatToString(a.day);
      var yb, mob, db := NatToString(b.year), NatToString(b.month + 1), NatToString(b.day);
      assert DateStamp(a) == SessionFolder(a)[|TrackedData|..];
      assert DateStamp(a) == DateStamp(b);
      DigitsHaveNo(a.year, '-'); DigitsHaveNo(b.year, '-');
      DigitsHaveNo(a.month + 1, '-'); DigitsHaveNo(b.month + 1, '-');
      DigitsHaveNo(a.day, '-'); DigitsHaveNo(b.day, '-');
      JoinAssoc4(ya, moa, da, GetTime(a), '-');
      JoinAssoc4(yb, mob, db, GetTime(b), '-');
      SplitAtSeparator(ya, moa + ['-'] + (da + ['-'] + GetTime(a)), yb, mob + ['-'] + (db + ['-'] + GetTime(b)), '-');
      SplitAtSeparator(moa, da + ['-'] + GetTime(a), mob, db + ['-'] + GetTime(b), '-');
      SplitAtSeparator(da, GetTime(a), db, GetTime(b), '-');
      NatToStringInjective(a.year, b.year);
      NatToStringInjective(a.month + 1, b.month + 1);
      NatToStringInjective(a.day, b.day);
      GetTimeInjective(a, b);
    }
  }

  lemma SessionFolderShape(c: Clock)
    ensures IsSessionFolder(SessionFolder(c))
  {
    var f := SessionFolder(c);
    assert f[|TrackedData|..] == DateStamp(c);
    DigitsHaveNo(c.year, '/');
    DigitsHaveNo(c.month + 1, '/');
    DigitsHaveNo(c.day, '/');
    DigitsHaveNo(c.hours, '/');
    DigitsHaveNo(c.minutes, '/');
    DigitsHaveNo(c.seconds, '/');
  }

  /** Artifacts of two different session folders never share a path, so a
      write for one session never replaces a file of another. */
  lemma SessionArtifactsDisjoint(f: string, g: string, m: string, n: string)
    requires IsSessionFolder(f) && IsSessionFolder(g) && f != g
    ensures ArtifactPath(f, m) != ArtifactPath(g, n)
  {
    var k := |TrackedData|;
    if ArtifactPath(f, m) == ArtifactPath(g, n) {
      var x, y := f[k..], g[k..];
      assert f == TrackedData + x && g == TrackedData + y;
      var p := ArtifactPath(f, m);
      assert p == TrackedData + (x + ['/'] + m);
      assert p == TrackedData + (y + ['/'] + n);
      assert x + ['/'] + m == p[k..] == y + ['/'] + n;
      SplitAtSeparator(x, m, y, n, '/');
    }
  }

  /** Within one folder, distinct names give distinct paths. */
  lemma ArtifactPathInjective(f: string, m: string, n: string)
    ensures ArtifactPath(f, m) == ArtifactPath(f, n) <==> m == n
  {
    if ArtifactPath(f, m) == ArtifactPath(f, n) {
      assert m == ArtifactPath(f, m)[|f| + 1..];
      assert n == ArtifactPath(f, n)[|f| + 1..];
    }
  }

  /** The deck, the result and the samples of one session occupy three
      different kinds of name; only sample names carry the sample prefix. */
  lemma ArtifactNamesDistinct(c: Clock)
    ensures SamplePrefix <= SampleName(c)
    ensures !(SamplePrefix <= DeckName) && !(SamplePrefix <= ResultName)
    ensures DeckName != ResultName
  {
  }

  /** `getTime` writes no leading zeros: 9:05:03 is "9-5-3". */
  lemma GetTimeUnpadded()
    ensures GetTime(Clock(2021, 0, 7, 9, 5, 3)) == "9-5-3"
    ensures SessionFolder(Clock(2021, 0, 7, 9, 5, 3)) == "Tracked Data/2021-1-7-9-5-3"
  {
    assert NatToString(2021) == "2021" by {
      assert NatToString(202) == "202" by {
        assert NatToString(20) == "20";
      }
    }
  }
}
