/** The regular expressions the conversation engines apply to a message,
    each written out as a matcher at a position, together with the
    leftmost-match search `String.prototype.match` performs. Only the first
    match is ever used by the source, so only the first is modelled. */
module Patterns {
  import opened Wrappers
  import opened Text

  /** The part `s[start..end]` of a string a pattern matched. */
  datatype Span = Span(start: nat, end: nat)

  datatype Pattern =
    | IsoDate          // \d{4}-\d{2}-\d{2}
    | SlashDate        // \d{1,2}\/\d{1,2}\/\d{4}
    | Digits(n: nat)   // \d{n}
    | DigitRun(min: nat) // \d{min,}
    | NameRun          // [ء-ي\s]{3,}
    | Email            // [a-zA-Z0-9._%+-]+@[a-zA-Z0-9.-]+\.[a-zA-Z]{2,}

  predicate IsNameChar(c: char) { IsArabicLetter(c) || IsJsSpace(c) }

  predicate IsEmailLocalChar(c: char) {
    IsAsciiLetter(c) || IsDigit(c) || c == '.' || c == '_' || c == '%' || c == '+' || c == '-'
  }

  predicate IsEmailDomainChar(c: char) {
    IsAsciiLetter(c) || IsDigit(c) || c == '.' || c == '-'
  }

  /** The end of the longest run of `p`-characters starting at `i`. */
  function RunEnd(s: string, i: nat, p: char -> bool): (e: nat)
    requires i <= |s|
    ensures i <= e <= |s|
    ensures forall k :: i <= k < e ==> p(s[k])
    ensures e == |s| || !p(s[e])
    decreases |s| - i
  {
    if i < |s| && p(s[i]) then RunEnd(s, i + 1, p) else i
  }

  /** `\d{4}-\d{2}-\d{2}` at position `i`. */
  predicate IsoShapeAt(s: string, i: nat) {
    i + 10 <= |s|
    && IsDigit(s[i]) && IsDigit(s[i + 1]) && IsDigit(s[i + 2]) && IsDigit(s[i + 3])
    && s[i + 4] == '-' && IsDigit(s[i + 5]) && IsDigit(s[i + 6])
    && s[i + 7] == '-' && IsDigit(s[i + 8]) && IsDigit(s[i + 9])
  }

  /** `^\d{4}-\d{2}-\d{2}$`: the whole string has the ISO date shape. */
  predicate IsIsoDateString(s: string) {
    |s| == 10 && IsoShapeAt(s, 0)
  }

  /** `\d{1,2}\/` at position `i`: the position after the slash. The greedy
      two-digit try and the one-digit retry exclude each other, since the
      second character is either a digit or the slash. */
  function ShortNumberSlashAt(s: string, i: nat): (r: Option<nat>)
    ensures r.Some? ==> i + 2 <= r.value <= i + 3 && r.value <= |s|
  {
    if i + 3 <= |s| && IsDigit(s[i]) && IsDigit(s[i + 1]) && s[i + 2] == '/' then Some(i + 3)
    else if i + 2 <= |s| && IsDigit(s[i]) && s[i + 1] == '/' then Some(i + 2)
    else None
  }

  predicate DigitsAt(s: string, i: nat, n: nat) {
    i + n <= |s| && forall k :: i <= k < i + n ==> IsDigit(s[k])
  }

  function SlashDateAt(s: string, i: nat): (r: Option<nat>)
    ensures r.Some? ==> i <= r.value <= |s|
  {
    match ShortNumberSlashAt(s, i)
    case None => None
    case Some(j) =>
      match ShortNumberSlashAt(s, j)
      case None => None
      case Some(k) => if DigitsAt(s, k, 4) then Some(k + 4) else None
  }

  /** A `.` at `k` followed by two ASCII letters. */
  predicate TldDotAt(s: string, k: nat) {
    k + 2 < |s| && s[k] == '.' && IsAsciiLetter(s[k + 1]) && IsAsciiLetter(s[k + 2])
  }

  /** The greedy domain part backtracks from its longest extent: the last
      dot, strictly after the domain's first character and no later than
      `k`, that is followed by two letters. */
  function LastTldDot(s: string, domainStart: nat, k: nat): (r: Option<nat>)
    ensures r.Some? ==> domainStart < r.value <= k && TldDotAt(s, r.value)
    ensures r.Some? ==> forall k' :: r.value < k' <= k ==> !TldDotAt(s, k')
    ensures r.None? ==> forall k' :: domainStart < k' <= k ==> !TldDotAt(s, k')
    decreases k
  {
    if k <= domainStart then None
    else if TldDotAt(s, k) then Some(k)
    else LastTldDot(s, domainStart, k - 1)
  }

  function EmailAt(s: string, i: nat): (r: Option<nat>)
    ensures r.Some? ==> i <= r.value <= |s|
  {
    if i > |s| then None
    else
      var localEnd := RunEnd(s, i, IsEmailLocalChar);
      if localEnd == i || localEnd == |s| || s[localEnd] != '@' then None
      else
        var domainStart := localEnd + 1;
        var domainEnd := RunEnd(s, domainStart, IsEmailDomainChar);
        match LastTldDot(s, domainStart, domainEnd)
        case None => None
        case Some(dot) => Some(RunEnd(s, dot + 1, IsAsciiLetter))
  }

  /** Where a match of `p` that starts at `i` ends, if one does. */
  function MatchAt(p: Pattern, s: string, i: nat): (r: Option<nat>)
    ensures r.Some? ==> i <= r.value <= |s|
  {
    if i > |s| then None
    else
      match p
      case IsoDate => if IsoShapeAt(s, i) then Some(i + 10) else None
      case SlashDate => SlashDateAt(s, i)
      case Digits(n) => if DigitsAt(s, i, n) then Some(i + n) else None
      case DigitRun(min) =>
        var e := RunEnd(s, i, IsDigit);
        if e - i >= min then Some(e) else None
      case NameRun =>
        var e := RunEnd(s, i, IsNameChar);
        if e - i >= 3 then Some(e) else None
      case Email => EmailAt(s, i)
  }

  /** The leftmost match starting at or after `from`. */
  function FindFrom(p: Pattern, s: string, from: nat): (r: Option<Span>)
    requires from <= |s|
    ensures r.Some? ==> from <= r.value.start <= r.value.end <= |s|
                        && MatchAt(p, s, r.value.start) == Some(r.value.end)
    ensures r.Some? ==> forall j :: from <= j < r.value.start ==> MatchAt(p, s, j).None?
    ensures r.None? ==> forall j :: from <= j <= |s| ==> MatchAt(p, s, j).None?
    decreases |s| - from
  {
    match MatchAt(p, s, from)
    case Some(e) => Some(Span(from, e))
    case None => if from == |s| then None else FindFrom(p, s, from + 1)
  }

  function Find(p: Pattern, s: string): Option<Span> {
    FindFrom(p, s, 0)
  }

  /** `s.match(p)?.[0]`: the text of the leftmost match. */
  function Match(p: Pattern, s: string): (r: Option<string>)
    ensures r.Some? <==> exists j: nat | j <= |s| :: MatchAt(p, s, j).Some?
    ensures r.Some? ==> exists j: nat | j <= |s| :: MatchAt(p, s, j).Some?
                           && r.value == s[j..MatchAt(p, s, j).value]
                           && forall j' :: 0 <= j' < j ==> MatchAt(p, s, j').None?
  {
    match Find(p, s)
    case None => None
    case Some(sp) => Some(s[sp.start..sp.end])
  }

  // ---------------------------------------------------------------------
  // What a match looks like

  /** A `\d{n}` match is n digits. */
  lemma DigitsMatchShape(n: nat, s: string)
    requires Match(Digits(n), s).Some?
    ensures |Match(Digits(n), s).value| == n && AllDigits(Match(Digits(n), s).value)
  {
    var sp := Find(Digits(n), s).value;
    assert DigitsAt(s, sp.start, n);
    var m := s[sp.start..sp.end];
    forall k | 0 <= k < |m| ensures IsDigit(m[k]) {
      assert m[k] == s[sp.start + k];
    }
  }

  /** A `\d{4}-\d{2}-\d{2}` match is a whole ISO-shaped date. */
  lemma IsoMatchShape(s: string)
    requires Match(IsoDate, s).Some?
    ensures IsIsoDateString(Match(IsoDate, s).value)
  {
    var sp := Find(IsoDate, s).value;
    assert IsoShapeAt(s, sp.start);
  }

  /** A `\d{10,}` match is at least ten digits and is the whole digit run. */
  lemma DigitRunMatchShape(s: string)
    requires Match(DigitRun(10), s).Some?
    ensures |Match(DigitRun(10), s).value| >= 10 && AllDigits(Match(DigitRun(10), s).value)
  {
    var sp := Find(DigitRun(10), s).value;
    var m := s[sp.start..sp.end];
    forall k | 0 <= k < |m| ensures IsDigit(m[k]) {
      assert m[k] == s[sp.start + k];
    }
  }

  /** An e-mail match holds an `@` with a non-empty local part before it. */
  lemma EmailMatchHasAt(s: string)
    requires Match(Email, s).Some?
    ensures exists k :: 0 < k < |Match(Email, s).value| && Match(Email, s).value[k] == '@'
  {
    var sp := Find(Email, s).value;
    assert Match(Email, s) == Some(s[sp.start..sp.end]);
    assert EmailAt(s, sp.start) == Some(sp.end);
    var at := EmailAtHasAt(s, sp.start);
    SliceHasChar(s, sp.start, sp.end, at, '@');
  }

  /** Where the `@` of an e-mail match starting at `i` is. */
  lemma EmailAtHasAt(s: string, i: nat) returns (at: nat)
    requires EmailAt(s, i).Some?
    ensures i < at < EmailAt(s, i).value && s[at] == '@'
  {
    at := RunEnd(s, i, IsEmailLocalChar);
  }

  /** A character strictly inside `s[a..b]`, after its first, is found
      there. */
  lemma SliceHasChar(s: string, a: nat, b: nat, at: nat, c: char)
    requires a < at < b <= |s| && s[at] == c
    ensures exists k :: 0 < k < |s[a..b]| && s[a..b][k] == c
  {
    assert s[a..b][at - a] == c;
  }

  /** A string that is exactly n digits matches `\d{n}` as a whole: a code
      read back from a message that holds only the code is the code. */
  lemma DigitsMatchItself(code: string)
    requires AllDigits(code)
    ensures Match(Digits(|code|), code) == Some(code)
  {
    assert MatchAt(Digits(|code|), code, 0) == Some(|code|);
    assert Find(Digits(|code|), code) == Some(Span(0, |code|));
    assert code[0..|code|] == code;
  }

  /** The first n-digit run follows a digit-free prefix. */
  lemma DigitsMatchAfterPrefix(prefix: string, code: string, rest: string)
    requires AllDigits(code) && |code| >= 1
    requires forall k :: 0 <= k < |prefix| ==> !IsDigit(prefix[k])
    ensures Match(Digits(|code|), prefix + code + rest) == Some(code)
  {
    var s := prefix + code + rest;
    var n := |code|;
    forall j | 0 <= j < |prefix| ensures MatchAt(Digits(n), s, j).None? {
      assert !IsDigit(s[j]);
    }
    assert DigitsAt(s, |prefix|, n) by {
      forall k | |prefix| <= k < |prefix| + n ensures IsDigit(s[k]) {
        assert s[k] == code[k - |prefix|];
      }
    }
    assert MatchAt(Digits(n), s, |prefix|) == Some(|prefix| + n);
    var r := Find(Digits(n), s);
    assert r.Some?;
    assert r.value.start == |prefix|;
    assert s[|prefix|..|prefix| + n] == code;
  }

  // ---------------------------------------------------------------------
  // d/m/yyyy to yyyy-mm-dd

  /** The rewrite of a `d/m/yyyy` match into `yyyy-mm-dd`: split at the
      slashes, year first, month and day padded to two digits with zeros. */
  function SlashToIso(m: string): (r: string)
  {
    var parts := Split(m, '/');
    if |parts| < 3 then m
    else parts[2] + "-" + PadStart(parts[1], 2, '0') + "-" + PadStart(parts[0], 2, '0')
  }

  lemma AllDigitsHasNoSlash(a: string)
    requires AllDigits(a)
    ensures '/' !in a
  {
    forall k | 0 <= k < |a| ensures a[k] != '/' {
      assert IsDigit(a[k]);
    }
  }

  lemma PadTwoDigits(a: string)
    requires AllDigits(a) && 1 <= |a| <= 2
    ensures |PadStart(a, 2, '0')| == 2 && AllDigits(PadStart(a, 2, '0'))
  {
  }

  /** Three separator-free parts joined by the separator split back apart. */
  lemma SplitThree(a: string, b: string, c: string, sep: char)
    requires sep !in a && sep !in b && sep !in c
    ensures Split(a + [sep] + b + [sep] + c, sep) == [a, b, c]
  {
    assert a + [sep] + b + [sep] + c == a + [sep] + (b + [sep] + c);
    SplitPrefix(a, sep, b + [sep] + c);
    SplitPrefix(b, sep, c);
    SplitNone(c, sep);
  }

  /** Four digits, two digits and two digits joined by dashes have the ISO shape. */
  lemma IsoFromParts(year: string, month: string, day: string)
    requires |year| == 4 && |month| == 2 && |day| == 2
    requires AllDigits(year) && AllDigits(month) && AllDigits(day)
    ensures IsIsoDateString(year + "-" + month + "-" + day)
  {
    var r := year + "-" + month + "-" + day;
    assert r[0] == year[0] && r[1] == year[1] && r[2] == year[2] && r[3] == year[3];
    assert r[5] == month[0] && r[6] == month[1] && r[8] == day[0] && r[9] == day[1];
  }

  /** The pieces of a `d/m/yyyy` match at `i`: a day and a month of one or
      two digits and a year of four, between two slashes. */
  lemma SlashMatchParts(s: string, i: nat)
    requires MatchAt(SlashDate, s, i).Some?
    ensures var j := ShortNumberSlashAt(s, i).value;
            var k := ShortNumberSlashAt(s, j).value;
            && MatchAt(SlashDate, s, i) == Some(k + 4)
            && i + 2 <= j && j + 2 <= k && k + 4 <= |s|
            && s[i..k + 4] == s[i..j - 1] + "/" + s[j..k - 1] + "/" + s[k..k + 4]
            && 1 <= |s[i..j - 1]| <= 2 && AllDigits(s[i..j - 1])
            && 1 <= |s[j..k - 1]| <= 2 && AllDigits(s[j..k - 1])
            && AllDigits(s[k..k + 4])
  {
    var j := ShortNumberSlashAt(s, i).value;
    var k := ShortNumberSlashAt(s, j).value;
    ShortNumberSlashPiece(s, i);
    ShortNumberSlashPiece(s, j);
    assert DigitsAt(s, k, 4);
    SliceDigits(s, k, k + 4);
    SliceAtSlashes(s, i, j, k, k + 4);
  }

  /** A `\d{1,2}\/` at `i` is one or two digits and the slash. */
  lemma ShortNumberSlashPiece(s: string, i: nat)
    requires ShortNumberSlashAt(s, i).Some?
    ensures var j := ShortNumberSlashAt(s, i).value;
            s[j - 1] == '/' && AllDigits(s[i..j - 1])
  {
    var j := ShortNumberSlashAt(s, i).value;
    assert forall t :: i <= t < j - 1 ==> IsDigit(s[t]);
    SliceDigits(s, i, j - 1);
  }

  /** A stretch of digits read out of a string is all digits. */
  lemma SliceDigits(s: string, a: nat, b: nat)
    requires a <= b <= |s|
    requires forall t :: a <= t < b ==> IsDigit(s[t])
    ensures AllDigits(s[a..b])
  {
    forall t | 0 <= t < b - a ensures IsDigit(s[a..b][t]) {
      assert s[a..b][t] == s[a + t];
    }
  }

  /** A stretch cut at two slashes is its three pieces joined by slashes. */
  lemma SliceAtSlashes(s: string, i: nat, j: nat, k: nat, e: nat)
    requires i < j <= k <= e <= |s| && s[j - 1] == '/' && s[k - 1] == '/' && i <= j - 1 && j <= k - 1
    ensures s[i..e] == s[i..j - 1] + "/" + s[j..k - 1] + "/" + s[k..e]
  {
    assert s[i..e] == s[i..j - 1] + [s[j - 1]] + s[j..k - 1] + [s[k - 1]] + s[k..e];
  }

  /** Pieces free of slashes, joined by slashes, are rearranged year first
      with month and day padded to two characters. */
  lemma SlashToIsoRearranges(day: string, month: string, year: string)
    requires '/' !in day && '/' !in month && '/' !in year
    ensures SlashToIso(day + "/" + month + "/" + year)
            == year + "-" + PadStart(month, 2, '0') + "-" + PadStart(day, 2, '0')
  {
    SplitThree(day, month, year, '/');
    assert day + "/" + month + "/" + year == day + ['/'] + month + ['/'] + year;
  }

  /** A `d/m/yyyy` match contains a slash. */
  lemma SlashMatchHasSlash(s: string, i: nat)
    requires MatchAt(SlashDate, s, i).Some?
    ensures '/' in s[i..MatchAt(SlashDate, s, i).value]
  {
    SlashMatchParts(s, i);
    var j := ShortNumberSlashAt(s, i).value;
    var m := s[i..MatchAt(SlashDate, s, i).value];
    assert m[|s[i..j - 1]|] == '/';
  }

  /** A whole string of the ISO date shape is its own first match. */
  lemma IsoStringMatchesItself(s: string)
    requires IsIsoDateString(s)
    ensures Match(IsoDate, s) == Some(s)
  {
    assert MatchAt(IsoDate, s, 0) == Some(10);
    assert FindFrom(IsoDate, s, 0) == Some(Span(0, 10));
    assert s[0..10] == s;
  }

  /** A string of the ISO date shape contains no slash. */
  lemma IsoHasNoSlash(m: string)
    requires IsIsoDateString(m)
    ensures '/' !in m
  {
    forall k | 0 <= k < |m| ensures m[k] != '/' {
      assert k == 4 || k == 7 || IsDigit(m[k]) by {
        assert k == 0 || k == 1 || k == 2 || k == 3 || k == 4 || k == 5 || k == 6 || k == 7 || k == 8 || k == 9;
      }
    }
  }

  /** Day, month and year joined by slashes split back into themselves and
      are rewritten year first with month and day padded. */
  lemma SlashPieces(day: string, month: string, year: string)
    requires AllDigits(day) && AllDigits(month) && AllDigits(year)
    ensures var parts := Split(day + "/" + month + "/" + year, '/');
            parts == [day, month, year]
            && SlashToIso(day + "/" + month + "/" + year)
               == year + "-" + PadStart(month, 2, '0') + "-" + PadStart(day, 2, '0')
  {
    AllDigitsHasNoSlash(day);
    AllDigitsHasNoSlash(month);
    AllDigitsHasNoSlash(year);
    SplitThree(day, month, year, '/');
    assert day + "/" + month + "/" + year == day + ['/'] + month + ['/'] + year;
    SlashToIsoRearranges(day, month, year);
  }

  /** A `d/m/yyyy` match splits at its slashes into a day, a month and a
      year, and is rewritten year first with month and day padded. */
  lemma SlashMatchSplits(s: string, i: nat)
    requires MatchAt(SlashDate, s, i).Some?
    ensures SlashShaped(s[i..MatchAt(SlashDate, s, i).value])
  {
    SlashMatchParts(s, i);
    var j := ShortNumberSlashAt(s, i).value;
    var k := ShortNumberSlashAt(s, j).value;
    PiecesAreSlashShaped(s[i..j - 1], s[j..k - 1], s[k..k + 4]);
  }

  /** What a `d/m/yyyy` match looks like once split at its slashes. */
  predicate SlashShaped(m: string) {
    var parts := Split(m, '/');
    && |parts| == 3
    && m == parts[0] + "/" + parts[1] + "/" + parts[2]
    && 1 <= |parts[0]| <= 2 && AllDigits(parts[0])
    && 1 <= |parts[1]| <= 2 && AllDigits(parts[1])
    && |parts[2]| == 4 && AllDigits(parts[2])
    && SlashToIso(m) == parts[2] + "-" + PadStart(parts[1], 2, '0') + "-" + PadStart(parts[0], 2, '0')
  }

  lemma PiecesAreSlashShaped(day: string, month: string, year: string)
    requires 1 <= |day| <= 2 && AllDigits(day)
    requires 1 <= |month| <= 2 && AllDigits(month)
    requires |year| == 4 && AllDigits(year)
    ensures SlashShaped(day + "/" + month + "/" + year)
  {
    SlashPieces(day, month, year);
  }

  /** Every `d/m/yyyy` match normalises to a string of the ISO date shape. */
  lemma SlashMatchNormalises(s: string, i: nat)
    requires MatchAt(SlashDate, s, i).Some?
    ensures IsIsoDateString(SlashToIso(s[i..MatchAt(SlashDate, s, i).value]))
  {
    SlashMatchSplits(s, i);
    var parts := Split(s[i..MatchAt(SlashDate, s, i).value], '/');
    PadTwoDigits(parts[1]);
    PadTwoDigits(parts[0]);
    IsoFromParts(parts[2], PadStart(parts[1], 2, '0'), PadStart(parts[0], 2, '0'));
  }
}
