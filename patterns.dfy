/** The two regular expressions of the descriptors, URL_RE of `AVMURL` and
    EMAIL_RE of `AVMEmail`, both compiled with IGNORECASE and applied with
    `re.search`. Each is written here as a recogniser over the whole string;
    every place where the pattern could backtrack is resolved by a character
    the preceding part cannot consume, noted where it happens. */
module Patterns {
  import opened Values
  import opened Text

  // ---- The domain part shared by both patterns ----

  /** `[A-Z0-9-]` under IGNORECASE. */
  predicate IsLabelChar(c: char) { IsLetter(c) || IsDigit(c) || c == '-' }

  predicate IsLabel(s: string) {
    |s| > 0 && forall i :: 0 <= i < |s| ==> IsLabelChar(s[i])
  }

  /** `[A-Z]{2,6}` under IGNORECASE. */
  predicate IsTld(s: string) {
    2 <= |s| <= 6 && forall i :: 0 <= i < |s| ==> IsLetter(s[i])
  }

  /** `(?:[A-Z0-9-]+\.)+[A-Z]{2,6}` against the whole of `s`. Neither a label
      nor the top-level domain holds a dot, so the match splits `s` at its dots. */
  predicate DomainMatch(s: string)
    decreases |s|
  {
    var i := IndexOf(s, '.');
    i < |s| && IsLabel(s[..i]) &&
    var rest := s[i + 1..];
    if IndexOf(rest, '.') < |rest| then DomainMatch(rest) else IsTld(rest)
  }

  /** Every character of a matched domain is a label character or a dot. */
  lemma {:induction false} DomainChars(s: string)
    requires DomainMatch(s)
    ensures forall j :: 0 <= j < |s| ==> IsLabelChar(s[j]) || s[j] == '.'
    decreases |s|
  {
    var i := IndexOf(s, '.');
    var rest := s[i + 1..];
    if IndexOf(rest, '.') < |rest| { DomainChars(rest); }
    forall j | 0 <= j < |s| ensures IsLabelChar(s[j]) || s[j] == '.' {
      if j < i { assert s[j] == s[..i][j]; }
      else if j > i { assert s[j] == rest[j - i - 1]; }
    }
  }

  // ---- URL_RE ----

  /** `^https?://` under IGNORECASE: how many characters the scheme takes, 0
      when there is none. The fifth character is either `:` or `s`, never both. */
  function SchemeLength(s: string): (n: nat)
    ensures n == 0 || n == 7 || n == 8
    ensures n <= |s|
  {
    if |s| >= 7 && Lower(s[..4]) == "http" && s[4..7] == "://" then 7
    else if |s| >= 8 && Lower(s[..5]) == "https" && s[5..8] == "://" then 8
    else 0
  }

  /** `localhost` under IGNORECASE. */
  predicate IsLocalhost(s: string) { Lower(s) == "localhost" }

  /** `n` groups of `\d{1,3}` separated by dots, against the whole of `s`. */
  predicate DigitGroups(s: string, n: nat)
    decreases n
  {
    var i := IndexOf(s, '.');
    n >= 1 && 1 <= i <= 3 && AllDigits(s[..i]) &&
    if n == 1 then i == |s| else i < |s| && DigitGroups(s[i + 1..], n - 1)
  }

  /** `\d{1,3}\.\d{1,3}\.\d{1,3}\.\d{1,3}`; the groups are not range-checked. */
  predicate DottedQuad(s: string) { DigitGroups(s, 4) }

  predicate HostMatch(s: string) {
    DomainMatch(s) || IsLocalhost(s) || DottedQuad(s)
  }

  /** Index of the first `:` or `/` in `s`, or `|s|`. No host alternative can
      consume either, and one of them or the end must follow the host. */
  function HostEnd(s: string): (i: nat)
    ensures i <= |s|
    ensures forall j :: 0 <= j < i ==> s[j] != ':' && s[j] != '/'
  {
    if s == [] || s[0] == ':' || s[0] == '/' then 0 else 1 + HostEnd(s[1..])
  }

  /** Length of the run of digits that starts `s`. */
  function DigitRun(s: string): (n: nat)
    ensures n <= |s| && AllDigits(s[..n])
  {
    if s != [] && IsDigit(s[0]) then
      var n := 1 + DigitRun(s[1..]);
      assert s[..n] == [s[0]] + s[1..][..n - 1];
      n
    else 0
  }

  /** `(?:/?|/\S+)$`: nothing, or a slash followed by non-blank characters. */
  predicate PathMatch(s: string) {
    s == [] || (s[0] == '/' && forall i :: 1 <= i < |s| ==> !IsSpace(s[i]))
  }

  /** `(?::\d+)?(?:/?|/\S+)$`. A path cannot start with a digit, so the port
      takes the whole run of digits. */
  predicate PortPathMatch(s: string) {
    if |s| > 0 && s[0] == ':' then
      var j := 1 + DigitRun(s[1..]);
      j > 1 && PathMatch(s[j..])
    else PathMatch(s)
  }

  /** URL_RE (datatypes.py:209-215) against the whole of `s`. */
  predicate UrlMatch(s: string) {
    var n := SchemeLength(s);
    n > 0 &&
    var rest := s[n..];
    var h := HostEnd(rest);
    HostMatch(rest[..h]) && PortPathMatch(rest[h..])
  }

  /** `'://' in s`. */
  predicate HasSchemeSeparator(s: string) {
    |s| >= 3 && (s[..3] == "://" || HasSchemeSeparator(s[1..]))
  }

  lemma {:induction false} SeparatorAt(s: string, k: nat)
    requires k + 3 <= |s| && s[k..k + 3] == "://"
    ensures HasSchemeSeparator(s)
  {
    if k > 0 {
      assert s[1..][k - 1..k + 2] == s[k..k + 3];
      SeparatorAt(s[1..], k - 1);
    }
  }

  /** A string URL_RE accepts contains `://`. */
  lemma UrlHasSeparator(s: string)
    requires UrlMatch(s)
    ensures HasSchemeSeparator(s)
  {
    if SchemeLength(s) == 7 { SeparatorAt(s, 4); } else { SeparatorAt(s, 5); }
  }

  // ---- EMAIL_RE ----

  /** The `atext` characters of section 3.2.3 of RFC 5322, as the class
      ``[-!#$%&'*+/=?^_`{}|~0-9A-Z]`` under IGNORECASE. */
  predicate IsAtext(c: char) {
    IsLetter(c) || IsDigit(c) ||
    c == '-' || c == '!' || c == '#' || c == '$' || c == '%' || c == '&' || c == '\'' ||
    c == '*' || c == '+' || c == '/' || c == '=' || c == '?' || c == '^' || c == '_' ||
    c == '`' || c == '{' || c == '}' || c == '|' || c == '~'
  }

  predicate IsAtomRun(s: string) {
    |s| > 0 && forall i :: 0 <= i < |s| ==> IsAtext(s[i])
  }

  /** The dot-atom branch `[atext]+(\.[atext]+)*` against the whole of `s`. */
  predicate DotAtomMatch(s: string)
    decreases |s|
  {
    var i := IndexOf(s, '.');
    IsAtomRun(s[..i]) && (i == |s| || DotAtomMatch(s[i + 1..]))
  }

  /** `dot-atom-text = 1*atext *("." 1*atext)` (section 3.2.3 of RFC 5322),
      stated on characters: non-empty, only atext and dots, and no dot at
      either end or next to another dot. */
  predicate IsDotAtomText(s: string) {
    |s| > 0 && s[0] != '.' && s[|s| - 1] != '.' &&
    (forall i :: 0 <= i < |s| ==> IsAtext(s[i]) || s[i] == '.') &&
    (forall i :: 0 <= i < |s| - 1 ==> s[i] == '.' ==> s[i + 1] != '.')
  }

  /** The dot-atom branch of EMAIL_RE accepts exactly RFC 5322 dot-atom-text. */
  lemma {:induction false} DotAtomIsRfc(s: string)
    ensures DotAtomMatch(s) <==> IsDotAtomText(s)
    decreases |s|
  {
    var i := IndexOf(s, '.');
    assert !IsAtext('.');
    if i == |s| {
      assert s[..i] == s;
    } else {
      var head, rest := s[..i], s[i + 1..];
      DotAtomIsRfc(rest);
      if DotAtomMatch(s) {
        forall j | 0 <= j < |s| ensures IsAtext(s[j]) || s[j] == '.' {
          if j < i { assert s[j] == head[j]; } else if j > i { assert s[j] == rest[j - i - 1]; }
        }
        forall j | 0 <= j < |s| - 1 && s[j] == '.' ensures s[j + 1] != '.' {
          if j == i { assert s[j + 1] == rest[0]; }
          else if j > i { assert s[j] == rest[j - i - 1] && s[j + 1] == rest[j - i]; }
        }
        assert s[0] == head[0];
        assert s[|s| - 1] == rest[|rest| - 1];
      }
      if IsDotAtomText(s) {
        assert i > 0;
        assert i + 1 < |s|;
        forall j | 0 <= j < |head| ensures IsAtext(head[j]) { assert head[j] == s[j]; }
        assert rest[0] == s[i + 1];
        assert rest[|rest| - 1] == s[|s| - 1];
        forall j | 0 <= j < |rest| ensures IsAtext(rest[j]) || rest[j] == '.' { assert rest[j] == s[j + i + 1]; }
        forall j | 0 <= j < |rest| - 1 && rest[j] == '.' ensures rest[j + 1] != '.' {
          assert rest[j] == s[j + i + 1] && rest[j + 1] == s[j + i + 2];
        }
      }
    }
  }

  /** Which class follows a backslash in the quoted-string branch. */
  datatype Escapes = AsWritten | Intended

  /** The quoted-string's ordinary characters, `[\001-\010\013\014\016-\037!#-\[\]-\177]`:
      every character from 1 to 127 except tab, line feed, carriage return,
      space, `"` and backslash. */
  predicate IsQtext(c: char) {
    (1 <= c as int <= 8) || c as int == 11 || c as int == 12 || (14 <= c as int <= 31) ||
    c == '!' || ('#' <= c <= '[') || (']' <= c <= '\U{7F}')
  }

  /** The class after a backslash. As written, `[\001-011\013\014\016-\177]`:
      `\001-0` runs up to the digit zero, so every character from 1 to 127
      passes. As intended, `[\001-\011\013\014\016-\177]`: the same range
      without line feed and carriage return, like the ordinary characters. */
  predicate IsPairChar(esc: Escapes, c: char) {
    match esc
    case AsWritten =>
      (1 <= c as int <= '0' as int) || c == '1' || c as int == 11 || c as int == 12 ||
      (14 <= c as int <= 127)
    case Intended =>
      (1 <= c as int <= 9) || c as int == 11 || c as int == 12 || (14 <= c as int <= 127)
  }

  /** Scans `([qtext]|\\[pair])*"` from index `i`: the index just past the
      closing quote. Neither `"` nor backslash is qtext, so each character has
      one reading and the body ends at the first unescaped quote. */
  function QuotedEnd(s: string, i: nat, esc: Escapes): (r: Option<nat>)
    requires i <= |s|
    ensures r.Some? ==> i < r.value <= |s|
    decreases |s| - i
  {
    if i == |s| then None
    else if s[i] == '"' then Some(i + 1)
    else if IsQtext(s[i]) then QuotedEnd(s, i + 1, esc)
    else if s[i] == '\\' && i + 1 < |s| && IsPairChar(esc, s[i + 1]) then QuotedEnd(s, i + 2, esc)
    else None
  }

  /** EMAIL_RE (datatypes.py:250-254),
      `(^dot-atom|^"quoted-string")@(?:[A-Z0-9-]+\.)+[A-Z]{2,6}$`, against the
      whole of `s`. A dot-atom holds no `@`, so it ends at the first one. */
  predicate EmailMatchWith(s: string, esc: Escapes) {
    var at := IndexOf(s, '@');
    (at < |s| && DotAtomMatch(s[..at]) && DomainMatch(s[at + 1..])) ||
    (|s| > 0 && s[0] == '"' &&
      match QuotedEnd(s, 1, esc)
      case None => false
      case Some(e) => e < |s| && s[e] == '@' && DomainMatch(s[e + 1..]))
  }

  /** The email pattern the model uses: the quoted-pair class as intended. */
  predicate EmailMatch(s: string) { EmailMatchWith(s, Intended) }

  /** A local part that opens with a quote is not a dot-atom. */
  lemma QuotedNotDotAtom(l: string)
    requires |l| > 0 && l[0] == '"'
    ensures !DotAtomMatch(l)
  {
    var i := IndexOf(l, '.');
    if i > 0 { assert l[..i][0] == '"'; }
  }

  lemma EsoDomain()
    ensures DomainMatch("eso.org")
  {
    var d := "eso.org";
    assert IndexOf(d, '.') == 3;
    assert d[..3] == "eso" && d[4..] == "org";
    assert IndexOf("org", '.') == 3;
  }

  /** As written, a backslash-escaped line feed passes inside a quoted local
      part. */
  lemma EscapedLineFeedAccepted(s: string)
    requires s == "\"a\\\nb\"@eso.org"
    ensures EmailMatchWith(s, AsWritten)
  {
    assert QuotedEnd(s, 5, AsWritten) == Some(6);
    assert QuotedEnd(s, 1, AsWritten) == QuotedEnd(s, 2, AsWritten) == QuotedEnd(s, 4, AsWritten);
    assert s[6] == '@' && s[7..] == "eso.org";
    EsoDomain();
  }

  /** The intended class refuses the same address. */
  lemma EscapedLineFeedRefused(s: string)
    requires s == "\"a\\\nb\"@eso.org"
    ensures !EmailMatchWith(s, Intended)
  {
    var at := IndexOf(s, '@');
    if at < |s| {
      assert at > 0;
      QuotedNotDotAtom(s[..at]);
    }
    assert QuotedEnd(s, 2, Intended) == None;
  }

  lemma {:induction false} QuotedBodyClean(s: string, i: nat)
    requires i <= |s| && QuotedEnd(s, i, Intended).Some?
    ensures forall j :: i <= j < QuotedEnd(s, i, Intended).value ==> s[j] != '\n' && s[j] != '\r'
    decreases |s| - i
  {
    if s[i] != '"' {
      if IsQtext(s[i]) { QuotedBodyClean(s, i + 1); } else { QuotedBodyClean(s, i + 2); }
    }
  }

  /** Neither a domain nor a dot-atom holds a line feed or a carriage return. */
  lemma CleanAround(s: string, at: nat)
    requires at < |s| && s[at] == '@'
    requires DomainMatch(s[at + 1..])
    requires forall j :: 0 <= j < at ==> s[j] != '\n' && s[j] != '\r'
    ensures forall j :: 0 <= j < |s| ==> s[j] != '\n' && s[j] != '\r'
  {
    var d := s[at + 1..];
    DomainChars(d);
    forall j | at < j < |s| ensures s[j] != '\n' && s[j] != '\r' {
      assert s[j] == d[j - at - 1];
    }
  }

  /** With the intended class, no address that passes holds a line feed or a
      carriage return. */
  lemma NoLineBreaks(s: string)
    requires EmailMatch(s)
    ensures forall j :: 0 <= j < |s| ==> s[j] != '\n' && s[j] != '\r'
  {
    var at := IndexOf(s, '@');
    if at < |s| && DotAtomMatch(s[..at]) && DomainMatch(s[at + 1..]) {
      var local := s[..at];
      DotAtomIsRfc(local);
      forall j | 0 <= j < at ensures s[j] != '\n' && s[j] != '\r' {
        assert s[j] == local[j];
        assert IsAtext(local[j]) || local[j] == '.';
      }
      CleanAround(s, at);
    } else {
      var e := QuotedEnd(s, 1, Intended).value;
      QuotedBodyClean(s, 1);
      CleanAround(s, e);
    }
  }
}
