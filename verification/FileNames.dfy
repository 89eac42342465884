/** The names of recordings (internal/radio/recorder.go), and when two of them collide. */
module FileNames {
  function Digits(n: nat): (r: string)
    ensures r != [] && IsNumeral(r)
  {
    if n < 10 then [(n + '0' as int) as char] else Digits(n / 10) + [(n % 10 + '0' as int) as char]
  }

  predicate IsNumeral(s: string) {
    forall i :: 0 <= i < |s| ==> '0' <= s[i] <= '9'
  }

  function Decimal(n: int): string {
    if n < 0 then "-" + Digits(-n) else Digits(n)
  }

  /** The verb %02d. */
  function TwoDigits(n: int): string {
    if 0 <= n < 10 then "0" + Decimal(n) else Decimal(n)
  }

  function Seconds(now: nat): nat {
    now / 1_000_000_000
  }

  function FileName(channelID: int, callsign: string, now: nat): string {
    "CH" + TwoDigits(channelID) + "_" + callsign + "_" + Decimal(Seconds(now)) + ".wav"
  }

  const URL_PREFIX := "/recordings/"

  /** filepath.Base of a path that does not end in a separator: what follows the last one. */
  function Base(path: string): (r: string)
    ensures '/' !in r && |r| <= |path|
  {
    if path == "" then ""
    else if path[|path| - 1] == '/' then ""
    else Base(path[..|path| - 1]) + [path[|path| - 1]]
  }

  lemma {:induction false} BaseOfPlain(name: string)
    requires '/' !in name
    ensures Base(name) == name
  {
    if name != "" {
      BaseOfPlain(name[..|name| - 1]);
      assert name == name[..|name| - 1] + [name[|name| - 1]];
    }
  }

  lemma {:induction false} BaseAfterSeparator(dir: string, name: string)
    requires dir != "" && dir[|dir| - 1] == '/'
    ensures Base(dir + name) == Base(name)
  {
    var path := dir + name;
    if name == "" {
      assert path == dir;
    } else {
      assert path[..|path| - 1] == dir + name[..|name| - 1];
      BaseAfterSeparator(dir, name[..|name| - 1]);
    }
  }

  lemma BaseOfUrl(name: string)
    ensures Base(URL_PREFIX + name) == Base(name)
  {
    BaseAfterSeparator(URL_PREFIX, name);
  }

  // ---- Where a name leads ----

  /** filepath.Clean's next path element: empty ones and "." are dropped, ".." takes back the one before. */
  function Pushed(elements: seq<string>, e: string): seq<string> {
    if e == "" || e == "." then elements
    else if e == ".." && elements != [] && elements[|elements| - 1] != ".." then elements[..|elements| - 1]
    else elements + [e]
  }

  function Cleaned(path: string): seq<string> {
    var last := Base(path);
    Pushed(if |last| == |path| then [] else Cleaned(path[..|path| - |last| - 1]), last)
  }

  function Joined(elements: seq<string>): string {
    if elements == [] then "."
    else if |elements| == 1 then elements[0]
    else Joined(elements[..|elements| - 1]) + "/" + elements[|elements| - 1]
  }

  /** Where filepath.Join puts a name, seen from the storage directory. */
  function Landing(name: string): string {
    Joined(Cleaned(name))
  }

  /** The file of a recording comes to lie in the storage directory itself. */
  predicate LandsInside(channelID: int, callsign: string, now: nat) {
    '/' !in Landing(FileName(channelID, callsign, now))
  }

  lemma BaseKeepsLast(name: string)
    requires name != "" && name[|name| - 1] != '/'
    ensures Base(name) != "" && Base(name)[|Base(name)| - 1] == name[|name| - 1]
  {
  }

  lemma LastElement(ch: int, callsign: string, now: nat)
    ensures var last := Base(FileName(ch, callsign, now)); last != "" && last != "." && last != ".."
  {
    var name := FileName(ch, callsign, now);
    assert name[|name| - 1] == 'v';
    BaseKeepsLast(name);
  }

  /** A file lies in the storage directory exactly if it lies where its URL says. */
  lemma LandsInsideIffUnderItsName(ch: int, callsign: string, now: nat)
    ensures LandsInside(ch, callsign, now) <==>
              Landing(FileName(ch, callsign, now)) == Base(URL_PREFIX + FileName(ch, callsign, now))
  {
    var name := FileName(ch, callsign, now);
    LastElement(ch, callsign, now);
    BaseOfUrl(name);
    var elements := Cleaned(name);
    assert elements != [] && elements[|elements| - 1] == Base(name);
  }

  /** A callsign without a separator keeps its file in the directory. */
  lemma PlainCallsignLandsInside(ch: int, callsign: string, now: nat)
    requires '/' !in callsign
    ensures Landing(FileName(ch, callsign, now)) == FileName(ch, callsign, now) && LandsInside(ch, callsign, now)
  {
    var name := FileName(ch, callsign, now);
    NameIsSeparatorFree(ch, callsign, now);
    BaseOfPlain(name);
    LastElement(ch, callsign, now);
    assert Cleaned(name) == [name];
  }

  predicate IsOrdinary(e: string) {
    '/' !in e && e != "" && e != "." && e != ".."
  }

  lemma CleanedPlain(e: string)
    requires IsOrdinary(e)
    ensures Cleaned(e) == [e]
  {
    BaseOfPlain(e);
  }

  lemma CleanedMore(dir: string, last: string)
    requires IsOrdinary(last)
    ensures Cleaned(dir + "/" + last) == Cleaned(dir) + [last]
  {
    var name := dir + "/" + last;
    assert name == (dir + "/") + last;
    BaseAfterSeparator(dir + "/", last);
    BaseOfPlain(last);
    assert name[..|name| - |last| - 1] == dir;
  }

  lemma JoinedPair(dir: string, last: string)
    ensures Joined([dir, last]) == dir + "/" + last
  {
    assert [dir, last][..1] == [dir];
    assert Joined([dir]) == dir;
  }

  lemma TwoElements(dir: string, last: string)
    requires IsOrdinary(dir) && IsOrdinary(last)
    ensures Landing(dir + "/" + last) == dir + "/" + last
  {
    assert Cleaned(dir + "/" + last) == [dir, last] by {
      CleanedPlain(dir);
      CleanedMore(dir, last);
      assert [dir] + [last] == [dir, last];
    }
    JoinedPair(dir, last);
  }

  lemma SplitAtSeparator(ch: int, x: string, y: string, now: nat) returns (dir: string, last: string)
    requires '/' !in x && '/' !in y
    ensures FileName(ch, x + "/" + y, now) == dir + "/" + last && IsOrdinary(dir) && IsOrdinary(last)
  {
    dir, last := "CH" + TwoDigits(ch) + "_" + x, y + "_" + Decimal(Seconds(now)) + ".wav";
    TwoDigitsDiffer(ch, ch);
    assert dir[0] == 'C' && last[|last| - 1] == 'v';
    assert forall i :: 0 <= i < |Decimal(Seconds(now))| ==> Decimal(Seconds(now))[i] != '/';
  }

  /** A callsign with one separator, as in "Unit 1/2", does not. */
  lemma OneSeparatorLandsElsewhere(ch: int, x: string, y: string, now: nat)
    requires '/' !in x && '/' !in y
    ensures !LandsInside(ch, x + "/" + y, now)
  {
    var dir, last := SplitAtSeparator(ch, x, y, now);
    TwoElements(dir, last);
    assert (dir + "/" + last)[|dir|] == '/';
  }

  // ---- Reading a name back ----

  /** The number a numeral stands for; leading zeros do not matter. */
  function Value(s: string): int {
    if s == [] then 0 else Value(s[..|s| - 1]) * 10 + (s[|s| - 1] as int - '0' as int)
  }

  lemma {:induction false} ValueOfDigits(n: nat)
    ensures Value(Digits(n)) == n
  {
    if n >= 10 {
      ValueOfDigits(n / 10);
      assert Digits(n)[..|Digits(n)| - 1] == Digits(n / 10);
    }
  }

  lemma {:induction false} LeadingZero(s: string)
    ensures Value("0" + s) == Value(s)
  {
    if s == [] {
      assert "0" + s == "0" && "0"[..0] == [];
    } else {
      var t := "0" + s;
      assert t[..|t| - 1] == "0" + s[..|s| - 1];
      LeadingZero(s[..|s| - 1]);
    }
  }

  lemma TwoDigitsDiffer(m: int, n: int)
    ensures TwoDigits(m) == TwoDigits(n) ==> m == n
    ensures '_' !in TwoDigits(n) && '/' !in TwoDigits(n)
  {
    ValueOfTwoDigits(m);
    ValueOfTwoDigits(n);
  }

  /** A sign tells negative numbers apart, the numeral all others. */
  lemma ValueOfTwoDigits(n: int)
    ensures if n < 0 then TwoDigits(n)[0] == '-' && Value(TwoDigits(n)[1..]) == -n
            else IsNumeral(TwoDigits(n)) && Value(TwoDigits(n)) == n
  {
    if n < 0 {
      ValueOfDigits(-n);
      assert TwoDigits(n)[1..] == Digits(-n);
    } else {
      ValueOfDigits(n);
      if n < 10 {
        assert TwoDigits(n) == "0" + Digits(n);
        LeadingZero(Digits(n));
      }
    }
  }

  /** The first underscore splits a string in one way only, and so does the last. */
  lemma FirstUnderscore(a: string, b: string, c: string, d: string)
    requires a + "_" + b == c + "_" + d && '_' !in a && '_' !in c
    ensures a == c && b == d
  {
    var s := a + "_" + b;
    assert |a| == |c| by {
      assert s[|a|] == '_' && s[|c|] == '_';
      assert forall i :: 0 <= i < |a| ==> s[i] == a[i];
      assert forall i :: 0 <= i < |c| ==> s[i] == c[i];
    }
    assert a == s[..|a|] == c && b == s[|a| + 1..] == d;
  }

  lemma LastUnderscore(a: string, b: string, c: string, d: string)
    requires a + "_" + b == c + "_" + d && '_' !in b && '_' !in d
    ensures a == c && b == d
  {
    var s := a + "_" + b;
    assert |a| == |c| by {
      assert s[|a|] == '_' && s[|c|] == '_';
      assert forall i :: |a| < i < |s| ==> s[i] == b[i - |a| - 1];
      assert forall i :: |c| < i < |s| ==> s[i] == d[i - |c| - 1];
    }
    assert a == s[..|a|] == c && b == s[|a| + 1..] == d;
  }

  /**
   Two recordings share a file name exactly if channel, callsign and second agree, whatever the callsigns look like.
   */
  lemma NamesCollideIff(ch: int, callsign: string, now: nat, ch2: int, callsign2: string, now2: nat)
    ensures FileName(ch, callsign, now) == FileName(ch2, callsign2, now2)
            <==> ch == ch2 && callsign == callsign2 && Seconds(now) == Seconds(now2)
  {
    if FileName(ch, callsign, now) == FileName(ch2, callsign2, now2) {
      SplitName(ch, callsign, now);
      SplitName(ch2, callsign2, now2);
      var a, b := TwoDigits(ch), callsign + "_" + Decimal(Seconds(now));
      var c, d := TwoDigits(ch2), callsign2 + "_" + Decimal(Seconds(now2));
      SameEnds("CH", a + "_" + b, c + "_" + d, ".wav");
      TwoDigitsDiffer(ch, ch2);
      TwoDigitsDiffer(ch2, ch);
      FirstUnderscore(a, b, c, d);
      LastUnderscore(callsign, Decimal(Seconds(now)), callsign2, Decimal(Seconds(now2)));
      ValueOfDigits(Seconds(now));
      ValueOfDigits(Seconds(now2));
    }
  }

  lemma SplitName(ch: int, callsign: string, now: nat)
    ensures FileName(ch, callsign, now) ==
            "CH" + (TwoDigits(ch) + "_" + (callsign + "_" + Decimal(Seconds(now)))) + ".wav"
  {
  }

  lemma SameEnds(a: string, b: string, c: string, d: string)
    requires a + b + d == a + c + d
    ensures b == c
  {
    var s := a + b + d;
    assert b == s[|a|..|s| - |d|] == c;
  }

  /** A name holds a separator exactly if the callsign does. */
  lemma NameIsSeparatorFree(ch: int, callsign: string, now: nat)
    ensures '/' in FileName(ch, callsign, now) <==> '/' in callsign
  {
    TwoDigitsDiffer(ch, ch);
    SplitName(ch, callsign, now);
    assert forall i :: 0 <= i < |Decimal(Seconds(now))| ==> Decimal(Seconds(now))[i] != '/';
  }
}
