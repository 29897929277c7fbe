/** The operating-system classifier of src/user_agent_parser.py: five regular
    expressions tried in a fixed order; the first one found anywhere in the
    User-Agent string names the system, and "Unknown" is the answer when none
    is found. Each expression is written out by hand as a predicate on the
    string. */
module UserAgentParser {
  import opened Text

  /** The five patterns, in the words of their regular expressions:
      - WindowsNt: "Windows NT ", then digits, a dot, digits;
      - MacOsX: "Mac OS X ", then either three or two digit groups
        separated by a dot or an underscore;
      - IPhoneOs: "iPhone OS ", then two digit groups separated by a dot or
        an underscore;
      - AndroidVersion: "Android ", then digits, an optional dot and
        optional digits;
      - LinuxWord: the word "Linux". */
  datatype Pattern = WindowsNt | MacOsX | IPhoneOs | AndroidVersion | LinuxWord

  /** The fixed text each pattern starts with. */
  function Literal(p: Pattern): (w: string)
    ensures |w| >= 5
  {
    match p
    case WindowsNt => "Windows NT "
    case MacOsX => "Mac OS X "
    case IPhoneOs => "iPhone OS "
    case AndroidVersion => "Android "
    case LinuxWord => "Linux"
  }

  /** `\d+` matches exactly `s[j..k]`. Only ASCII digits are modelled. */
  predicate DigitRun(s: string, j: int, k: int)
  {
    0 <= j < k <= |s| && forall t | j <= t < k :: IsDigit(s[t])
  }

  /** `\d+` matches some non-empty run starting at `j`. */
  predicate RunFrom(s: string, j: int)
  {
    exists k | j < k <= |s| :: DigitRun(s, j, k)
  }

  const Separators: set<char> := {'.', '_'}

  /** `\d+`, one separator out of `seps`, `\d+`, starting at `j`. */
  predicate VersionFrom(s: string, j: int, seps: set<char>)
  {
    exists k | j < k < |s| :: DigitRun(s, j, k) && s[k] in seps && RunFrom(s, k + 1)
  }

  /** Three digit groups with separators, starting at `j`. */
  predicate ThreePartFrom(s: string, j: int)
  {
    exists k | j < k < |s| :: DigitRun(s, j, k) && s[k] in Separators && VersionFrom(s, k + 1, Separators)
  }

  /** What the pattern demands after its literal, which ends at `j`: every
      pattern but the Linux one needs a digit right there. */
  predicate Tail(p: Pattern, s: string, j: int)
    ensures Tail(p, s, j) && p != LinuxWord ==> 0 <= j < |s| && IsDigit(s[j])
  {
    match p
    case WindowsNt => VersionFrom(s, j, {'.'})
    case MacOsX => ThreePartFrom(s, j) || VersionFrom(s, j, Separators)
    case IPhoneOs => VersionFrom(s, j, Separators)
    // the optional dot and the trailing digits may match nothing
    case AndroidVersion => RunFrom(s, j)
    case LinuxWord => true
  }

  /** The pattern matches at index `i` (case-sensitively). */
  predicate MatchesAt(p: Pattern, s: string, i: int)
  {
    OccursAt(s, Literal(p), i) && Tail(p, s, i + |Literal(p)|)
  }

  /** `re.search(pattern, s)` found a match; the pattern's literal then
      occurs in `s`. */
  predicate Search(p: Pattern, s: string)
    ensures Search(p, s) ==> Contains(s, Literal(p))
  {
    exists i | 0 <= i <= |s| :: MatchesAt(p, s, i)
  }

  /** The pattern table, in the order the loop visits it. */
  const OsPatterns: seq<(string, Pattern)> :=
    [("Windows", WindowsNt), ("MacOS", MacOsX), ("iOS", IPhoneOs), ("Android", AndroidVersion), ("Linux", LinuxWord)]

  /** The loop over the table: the name of the first entry whose pattern is
      found, or "Unknown". `found` stands for `re.search` on the string. */
  function FirstMatch(table: seq<(string, Pattern)>, found: Pattern -> bool): (name: string)
    ensures name == "Unknown" || exists k | 0 <= k < |table| :: name == table[k].0 && found(table[k].1)
  {
    if table == [] then "Unknown"
    else if found(table[0].1) then table[0].0
    else
      var r := FirstMatch(table[1..], found);
      assert r != "Unknown" ==> exists k | 0 <= k < |table| :: r == table[k].0 && found(table[k].1) by {
        if r != "Unknown" {
          var k :| 0 <= k < |table[1..]| && r == table[1..][k].0 && found(table[1..][k].1);
          assert table[k + 1] == table[1..][k];
        }
      }
      r
  }

  /** `re.search` of each pattern on `ua`. */
  function SearchIn(ua: string): (found: Pattern -> bool)
    ensures forall p :: found(p) == Search(p, ua)
  {
    p => Search(p, ua)
  }

  /** `parse_os_from_user_agent` */
  function ParseOs(ua: string): (os: string)
    ensures os != "Unknown" ==> exists k | 0 <= k < |OsPatterns| :: os == OsPatterns[k].0 && Search(OsPatterns[k].1, ua)
  {
    FirstMatch(OsPatterns, SearchIn(ua))
  }

  /** The names of a table are distinct and none of them is "Unknown". */
  predicate WellNamed(table: seq<(string, Pattern)>)
  {
    && (forall i, j | 0 <= i < j < |table| :: table[i].0 != table[j].0)
    && (forall i | 0 <= i < |table| :: table[i].0 != "Unknown")
  }

  lemma WellNamedRest(table: seq<(string, Pattern)>)
    requires WellNamed(table) && table != []
    ensures WellNamed(table[1..])
  {
    var rest := table[1..];
    forall i, j | 0 <= i < j < |rest| ensures rest[i].0 != rest[j].0 {
      assert rest[i] == table[i + 1] && rest[j] == table[j + 1];
    }
  }

  /** An entry wins exactly when its pattern is found and no earlier pattern is. */
  lemma {:induction false} FirstMatchWins(table: seq<(string, Pattern)>, found: Pattern -> bool, k: int)
    requires WellNamed(table) && 0 <= k < |table|
    ensures FirstMatch(table, found) == table[k].0
        <==> found(table[k].1) && forall j | 0 <= j < k :: !found(table[j].1)
    decreases k
  {
    if k > 0 && !found(table[0].1) {
      var rest := table[1..];
      WellNamedRest(table);
      FirstMatchWins(rest, found, k - 1);
      assert rest[k - 1] == table[k];
      if found(table[k].1) && forall j | 0 <= j < k :: !found(table[j].1) {
        forall j | 0 <= j < k - 1 ensures !found(rest[j].1) {
          assert rest[j] == table[j + 1];
        }
      } else if FirstMatch(table, found) == table[k].0 {
        forall j | 0 <= j < k ensures !found(table[j].1) {
          if j > 0 {
            assert rest[j - 1] == table[j];
          }
        }
      }
    } else if k > 0 {
      assert table[0].0 != table[k].0;
    }
  }

  /** "Unknown" exactly when no pattern of the table is found. */
  lemma {:induction false} FirstMatchUnknown(table: seq<(string, Pattern)>, found: Pattern -> bool)
    requires WellNamed(table)
    ensures FirstMatch(table, found) == "Unknown" <==> forall k | 0 <= k < |table| :: !found(table[k].1)
  {
    if table != [] && !found(table[0].1) {
      var rest := table[1..];
      WellNamedRest(table);
      FirstMatchUnknown(rest, found);
      forall k | 1 <= k < |table| ensures table[k] == rest[k - 1] { }
    }
  }

  /** "Unknown" is returned exactly when none of the five patterns is found. */
  lemma ParseOsUnknown(ua: string)
    ensures ParseOs(ua) == "Unknown" <==> forall k | 0 <= k < |OsPatterns| :: !Search(OsPatterns[k].1, ua)
  {
    FirstMatchUnknown(OsPatterns, SearchIn(ua));
  }

  /** The five patterns decide in the order Windows, MacOS, iOS, Android, Linux. */
  lemma ParseOsOrder(ua: string)
    ensures ParseOs(ua)
         == if Search(WindowsNt, ua) then "Windows"
            else if Search(MacOsX, ua) then "MacOS"
            else if Search(IPhoneOs, ua) then "iOS"
            else if Search(AndroidVersion, ua) then "Android"
            else if Search(LinuxWord, ua) then "Linux"
            else "Unknown"
  {
    var t := OsPatterns;
    var found := SearchIn(ua);
    assert t[1..][1..][1..][1..][1..] == [];
    assert FirstMatch(t[1..][1..][1..][1..], found) == if Search(LinuxWord, ua) then "Linux" else "Unknown";
    assert FirstMatch(t[1..][1..][1..], found) == if Search(AndroidVersion, ua) then "Android" else FirstMatch(t[1..][1..][1..][1..], found);
    assert FirstMatch(t[1..][1..], found) == if Search(IPhoneOs, ua) then "iOS" else FirstMatch(t[1..][1..][1..], found);
    assert FirstMatch(t[1..], found) == if Search(MacOsX, ua) then "MacOS" else FirstMatch(t[1..][1..], found);
  }

  /** The result is always one of six names. */
  lemma ParseOsNames(ua: string)
    ensures ParseOs(ua) in {"Windows", "MacOS", "iOS", "Android", "Linux", "Unknown"}
  {
    ParseOsOrder(ua);
  }

  /** A string containing "Linux" is never classified "Unknown". */
  lemma LinuxNeverUnknown(ua: string)
    requires Contains(ua, "Linux")
    ensures ParseOs(ua) != "Unknown"
  {
    var i :| 0 <= i <= |ua| - 5 && OccursAt(ua, "Linux", i);
    assert MatchesAt(LinuxWord, ua, i);
    ParseOsUnknown(ua);
    assert OsPatterns[4].1 == LinuxWord;
  }

  /** Android is tried before Linux: a string classified "Linux" carries no
      Android version, and one with an Android version but no Windows, macOS
      or iPhone version is "Android" whether or not it also says "Linux". */
  lemma AndroidBeforeLinux(ua: string)
    ensures ParseOs(ua) == "Linux" ==> !Search(AndroidVersion, ua)
    ensures Search(AndroidVersion, ua) && !Search(WindowsNt, ua) && !Search(MacOsX, ua) && !Search(IPhoneOs, ua)
        ==> ParseOs(ua) == "Android"
  {
    ParseOsOrder(ua);
  }

  // ---- matching and not matching ----

  /** A pattern whose literal holds a character the string lacks is not found. */
  lemma AbsentChar(p: Pattern, s: string, c: char)
    requires c in Literal(p) && c !in s
    ensures !Search(p, s)
  {
    var w := Literal(p);
    forall i | 0 <= i <= |s| ensures !MatchesAt(p, s, i) {
    }
  }

  /** A pattern whose literal has `c` followed by something other than `d` is
      not found in `x + [c, d] + y` when that is the only `c` in the string. */
  lemma LoneChar(p: Pattern, x: string, c: char, d: char, y: string, j: int)
    requires c !in x && c !in y && c != d
    requires 0 <= j < |Literal(p)| - 1 && Literal(p)[j] == c && Literal(p)[j + 1] != d
    ensures !Search(p, x + [c, d] + y)
  {
    var s := x + [c, d] + y;
    var w := Literal(p);
    forall q | 0 <= q < |s| && q != |x| ensures s[q] != c {
      if q < |x| {
        assert s[q] == x[q];
      } else if q > |x| + 1 {
        assert s[q] == y[q - |x| - 2];
      }
    }
    forall i | 0 <= i <= |s| ensures !MatchesAt(p, s, i) {
      if 0 <= i <= |s| - |w| {
        assert s[i..i + |w|][j] == s[i + j] && s[i..i + |w|][j + 1] == s[i + j + 1];
      }
    }
  }

  /** Any version written as "Windows NT <digits>.<digits>" is Windows,
      whatever surrounds it. */
  lemma WindowsVersion(pre: string, major: string, minor: string, post: string)
    requires |major| >= 1 && AllDigits(major) && |minor| >= 1 && AllDigits(minor)
    ensures ParseOs(pre + "Windows NT " + major + "." + minor + post) == "Windows"
  {
    var s := pre + "Windows NT " + major + "." + minor + post;
    var i := |pre|;
    var j := i + 11;
    var k := j + |major|;
    assert s[i..j] == "Windows NT ";
    assert DigitRun(s, j, k) by {
      forall t | j <= t < k ensures IsDigit(s[t]) {
        assert s[t] == major[t - j];
      }
    }
    assert s[k] == '.';
    assert DigitRun(s, k + 1, k + 2) by {
      assert s[k + 1] == minor[0];
    }
    assert MatchesAt(WindowsNt, s, i);
    ParseOsOrder(s);
  }

  // ---- the sample strings of src/user_agent_parser.py ----
  // (written in short pieces, which keeps the verifier's work on them small)

  /** Line 54: an Android phone (the string also says "Linux"). */
  const AndroidAgent: string :=
    "Mozilla/5.0 " + "(Linux; " + "Android 11; " + "SM-G991B) " + "AppleWebKit/" + "537.36 " + "(KHTML, "
    + "like Gecko) " + "Chrome/" + "91.0.4472.120 " + "Mobile " + "Safari/" + "537.36"

  /** Line 61: an iPad, whose only system token is "like Mac OS X)". */
  const IPadHead: string := "Mozilla/5.0 " + "(iPad; " + "CPU OS " + "16_0 " + "like Mac OS "
  const IPadTail: string := "pleWebKit/" + "605.1.15 " + "(KHTML, " + "like Gecko) " + "Version/" + "16.0 "
    + "Mobile/" + "15E148 " + "Safari/" + "605.1.15"
  const IPadAgent: string := IPadHead + "X)" + " " + "Ap" + IPadTail

  /** Line 64: an iPhone, which also says "like Mac OS X)". */
  const IPhoneHead: string := "Mozilla/5.0 " + "(iPhone; " + "CPU " + "iPhone OS " + "16_0 " + "like Mac OS "
  const IPhoneTail: string := " AppleWebKit/" + "605.1.15 " + "(KHTML, " + "like Gecko) " + "Version/" + "16.0 "
    + "Mobile/" + "15E148 " + "Safari/" + "604.1"
  const IPhoneAgent: string := IPhoneHead + "X)" + IPhoneTail

  // Which characters the samples lack, one fact per lemma so that each
  // proof stays small.
  lemma AndroidAgentLacksN() ensures 'N' !in AndroidAgent {}
  lemma AndroidAgentLacksX() ensures 'X' !in AndroidAgent {}
  lemma AndroidAgentLacksP() ensures 'P' !in AndroidAgent {}
  lemma IPadAgentLacksN() ensures 'N' !in IPadAgent {}
  lemma IPadAgentLacksH() ensures 'h' !in IPadAgent {}
  lemma IPadAgentLacksU() ensures 'u' !in IPadAgent {}
  lemma IPadHeadLacksX() ensures 'X' !in IPadHead {}
  lemma IPadHeadLacksA() ensures 'A' !in IPadHead {}
  lemma IPadTailLacksX() ensures 'X' !in IPadTail {}
  lemma IPadTailLacksA() ensures 'A' !in IPadTail {}
  lemma IPhoneAgentLacksN() ensures 'N' !in IPhoneAgent {}
  lemma IPhoneHeadLacksX() ensures 'X' !in IPhoneHead {}
  lemma IPhoneTailLacksX() ensures 'X' !in IPhoneTail {}

  lemma AndroidAgentMatches()
    ensures Search(AndroidVersion, AndroidAgent) && Contains(AndroidAgent, "Linux")
  {
    var s := AndroidAgent;
    var i := |"Mozilla/5.0 (Linux; "|;
    assert s[i..i + 8] == "Android ";
    assert DigitRun(s, i + 8, i + 9);
    assert MatchesAt(AndroidVersion, s, i);
    assert OccursAt(s, "Linux", 13);
  }

  /** The Android sample says "Linux" too, and is classified "Android". */
  lemma AndroidAgentIsAndroid()
    ensures ParseOs(AndroidAgent) == "Android"
    ensures Contains(AndroidAgent, "Linux")
  {
    AndroidAgentLacksN();
    AndroidAgentLacksX();
    AndroidAgentLacksP();
    AbsentChar(WindowsNt, AndroidAgent, 'N');
    AbsentChar(MacOsX, AndroidAgent, 'X');
    AbsentChar(IPhoneOs, AndroidAgent, 'P');
    AndroidAgentMatches();
    AndroidBeforeLinux(AndroidAgent);
  }

  /** "Mac OS X" followed by ')' in the iPad sample is not a macOS version,
      and its only 'A' starts "AppleWebKit", not "Android". */
  lemma IPadAgentNoVersion()
    ensures !Search(MacOsX, IPadAgent) && !Search(AndroidVersion, IPadAgent)
  {
    IPadHeadLacksX();
    IPadTailLacksX();
    IPadHeadLacksA();
    IPadTailLacksA();
    assert IPadAgent == IPadHead + ['X', ')'] + (" " + "Ap" + IPadTail);
    LoneChar(MacOsX, IPadHead, 'X', ')', " " + "Ap" + IPadTail, 7);
    assert IPadAgent == (IPadHead + "X)" + " ") + ['A', 'p'] + IPadTail;
    LoneChar(AndroidVersion, IPadHead + "X)" + " ", 'A', 'p', IPadTail, 0);
  }

  /** The iPad sample matches no pattern and is classified "Unknown". */
  lemma IPadAgentIsUnknown()
    ensures ParseOs(IPadAgent) == "Unknown"
  {
    IPadAgentLacksN();
    IPadAgentLacksH();
    IPadAgentLacksU();
    AbsentChar(WindowsNt, IPadAgent, 'N');
    AbsentChar(IPhoneOs, IPadAgent, 'h');
    AbsentChar(LinuxWord, IPadAgent, 'u');
    IPadAgentNoVersion();
    ParseOsOrder(IPadAgent);
  }

  lemma IPhoneAgentMatches()
    ensures Search(IPhoneOs, IPhoneAgent)
  {
    var s := IPhoneAgent;
    var i := |"Mozilla/5.0 (iPhone; CPU "|;
    assert s[i..i + 10] == "iPhone OS ";
    assert DigitRun(s, i + 10, i + 12) && s[i + 12] == '_' && DigitRun(s, i + 13, i + 14);
    assert MatchesAt(IPhoneOs, s, i);
  }

  /** The iPhone sample is classified "iOS" through "iPhone OS 16_0"; its
      "Mac OS X)" is not a macOS version. */
  lemma IPhoneAgentIsIOS()
    ensures ParseOs(IPhoneAgent) == "iOS"
  {
    IPhoneAgentLacksN();
    IPhoneHeadLacksX();
    IPhoneTailLacksX();
    AbsentChar(WindowsNt, IPhoneAgent, 'N');
    LoneChar(MacOsX, IPhoneHead, 'X', ')', IPhoneTail, 7);
    IPhoneAgentMatches();
    ParseOsOrder(IPhoneAgent);
  }
}
