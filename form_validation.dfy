/**
 * The browser's constraint validation of the forms that carry it: a form
 * whose `required` input is empty, or whose `type="email"` input does not
 * hold a valid e-mail address, is not submitted, so its `onSubmit` handler
 * never runs. The e-mail grammar is the one of the HTML standard's "valid
 * e-mail address" (section 4.10.5.1.5 of the HTML Living Standard).
 */
module FormValidation {

  import opened Text

  // ------------------------------------------------------------ value cleanup

  predicate IsNewline(c: char)
  {
    c == '\n' || c == '\r'
  }

  /** The HTML standard's ASCII whitespace: tab, line feed, form feed, carriage return, space. */
  predicate IsAsciiWhitespace(c: char)
  {
    c == '\t' || c == '\n' || c == '\U{C}' || c == '\r' || c == ' '
  }

  /** The text without its line feeds and carriage returns, the rest in order. */
  function StripNewlines(s: string): (r: string)
    ensures |r| <= |s|
    ensures forall i :: 0 <= i < |r| ==> !IsNewline(r[i])
    ensures (forall i :: 0 <= i < |s| ==> !IsNewline(s[i])) ==> r == s
  {
    if s == [] then []
    else if IsNewline(s[0]) then StripNewlines(s[1..])
    else [s[0]] + StripNewlines(s[1..])
  }

  /** The text after its leading ASCII whitespace. */
  function StripLeading(s: string): (r: string)
    ensures |r| <= |s| && r == s[|s| - |r|..]
    ensures forall i :: 0 <= i < |s| - |r| ==> IsAsciiWhitespace(s[i])
    ensures r != [] ==> !IsAsciiWhitespace(r[0])
  {
    if s == [] || !IsAsciiWhitespace(s[0]) then s else StripLeading(s[1..])
  }

  /** The text before its trailing ASCII whitespace. */
  function StripTrailing(s: string): (r: string)
    ensures |r| <= |s| && r == s[..|r|]
    ensures forall i :: |r| <= i < |s| ==> IsAsciiWhitespace(s[i])
    ensures r != [] ==> !IsAsciiWhitespace(r[|r| - 1])
  {
    if s == [] || !IsAsciiWhitespace(s[|s| - 1]) then s else StripTrailing(s[..|s| - 1])
  }

  /** An e-mail value as the browser keeps it: no line breaks and no surrounding whitespace. */
  predicate IsCleanEmailValue(s: string)
  {
    (forall i :: 0 <= i < |s| ==> !IsNewline(s[i]))
    && (s != [] ==> !IsAsciiWhitespace(s[0]) && !IsAsciiWhitespace(s[|s| - 1]))
  }

  /**
   * The value sanitisation of an e-mail input: line breaks are removed, then
   * the surrounding ASCII whitespace, so the page's `e.target.value` is the
   * cleaned text.
   */
  function SanitizeEmail(value: string): (r: string)
    ensures IsCleanEmailValue(r)
    ensures |r| <= |value|
  {
    var s := StripTrailing(StripLeading(StripNewlines(value)));
    assert forall i :: 0 <= i < |s| ==> s[i] in StripNewlines(value);
    s
  }

  /** A value that is already clean is kept as it is. */
  lemma CleanValueKept(value: string)
    requires IsCleanEmailValue(value)
    ensures SanitizeEmail(value) == value
  {
    assert StripNewlines(value) == value;
  }

  /** Cleaning twice is cleaning once. */
  lemma SanitizeIdempotent(value: string)
    ensures SanitizeEmail(SanitizeEmail(value)) == SanitizeEmail(value)
  {
    CleanValueKept(SanitizeEmail(value));
  }

  /** The value sanitisation of a password input: line breaks are removed. */
  function SanitizePassword(value: string): (r: string)
    ensures forall i :: 0 <= i < |r| ==> !IsNewline(r[i])
    ensures (forall i :: 0 <= i < |value| ==> !IsNewline(value[i])) ==> r == value
  {
    StripNewlines(value)
  }

  // ------------------------------------------------------------ e-mail grammar

  predicate IsLetterOrDigit(c: char)
  {
    'a' <= c <= 'z' || 'A' <= c <= 'Z' || '0' <= c <= '9'
  }

  /** A character allowed before the `@`: a letter, a digit, a dot or one of the atext symbols. */
  predicate IsLocalChar(c: char)
  {
    IsLetterOrDigit(c) || c in ".!#$%&'*+/=?^_`{|}~-"
  }

  /**
   * Where a left-to-right reading of an address is: in the part before the
   * `@` (with its length so far), in a domain label (with its length and
   * whether it ends in a hyphen so far), or past an error.
   */
  datatype EmailScan =
    | LocalPart(length: nat)
    | DomainLabel(length: nat, endsWithHyphen: bool)
    | Invalid

  /** The longest domain label the grammar admits. */
  const MaxLabelLength := 63

  /** Reads one character. */
  function Step(st: EmailScan, c: char): EmailScan
  {
    match st
    case Invalid => Invalid
    case LocalPart(n) =>
      if c == '@' then (if n > 0 then DomainLabel(0, false) else Invalid)
      else if IsLocalChar(c) then LocalPart(n + 1)
      else Invalid
    case DomainLabel(n, hyphen) =>
      if c == '.' then (if n > 0 && !hyphen then DomainLabel(0, false) else Invalid)
      else if IsLetterOrDigit(c) then (if n < MaxLabelLength then DomainLabel(n + 1, false) else Invalid)
      else if c == '-' then (if 0 < n < MaxLabelLength then DomainLabel(n + 1, true) else Invalid)
      else Invalid
  }

  /** Reads a whole text. */
  function Scan(st: EmailScan, s: string): EmailScan
    decreases |s|
  {
    if s == [] then st else Scan(Step(st, s[0]), s[1..])
  }

  /**
   * A valid e-mail address: a non-empty run of local characters, an `@`, and
   * dot-separated labels of 1 to 63 letters, digits and hyphens that neither
   * start nor end with a hyphen.
   */
  predicate IsValidEmail(s: string)
  {
    var end := Scan(LocalPart(0), s);
    end.DomainLabel? && end.length > 0 && !end.endsWithHyphen
  }

  /** Reading a text in two pieces is reading it at once. */
  lemma {:induction false} ScanConcat(st: EmailScan, a: string, b: string)
    ensures Scan(st, a + b) == Scan(Scan(st, a), b)
    decreases |a|
  {
    if a == [] {
      assert a + b == b;
    } else {
      assert (a + b)[0] == a[0] && (a + b)[1..] == a[1..] + b;
      ScanConcat(Step(st, a[0]), a[1..], b);
    }
  }

  lemma {:induction false} ScanLocalRun(n: nat, w: string)
    requires forall i :: 0 <= i < |w| ==> IsLetterOrDigit(w[i])
    ensures Scan(LocalPart(n), w) == LocalPart(n + |w|)
    decreases |w|
  {
    if w != [] {
      ScanLocalRun(n + 1, w[1..]);
    }
  }

  lemma {:induction false} ScanLabelRun(n: nat, hyphen: bool, w: string)
    requires w != [] && n + |w| <= MaxLabelLength
    requires forall i :: 0 <= i < |w| ==> IsLetterOrDigit(w[i])
    ensures Scan(DomainLabel(n, hyphen), w) == DomainLabel(n + |w|, false)
    decreases |w|
  {
    if |w| > 1 {
      ScanLabelRun(n + 1, false, w[1..]);
    }
  }

  /**
   * `name@host.tld` with a non-empty alphanumeric name and two alphanumeric
   * labels of 1 to 63 characters is a valid address.
   */
  lemma SimpleAddressValid(name: string, host: string, tld: string)
    requires name != [] && forall i :: 0 <= i < |name| ==> IsLetterOrDigit(name[i])
    requires 0 < |host| <= MaxLabelLength && forall i :: 0 <= i < |host| ==> IsLetterOrDigit(host[i])
    requires 0 < |tld| <= MaxLabelLength && forall i :: 0 <= i < |tld| ==> IsLetterOrDigit(tld[i])
    ensures IsValidEmail(name + "@" + host + "." + tld)
  {
    var tail := "." + tld;
    var domain := host + tail;
    var rest := "@" + domain;
    assert name + "@" + host + "." + tld == name + rest;
    ScanLocalRun(0, name);
    ScanConcat(LocalPart(0), name, rest);
    assert rest[0] == '@' && rest[1..] == domain;
    assert Scan(LocalPart(|name|), rest) == Scan(DomainLabel(0, false), domain);
    ScanLabelRun(0, false, host);
    ScanConcat(DomainLabel(0, false), host, tail);
    assert tail[0] == '.' && tail[1..] == tld;
    assert Scan(DomainLabel(|host|, false), tail) == Scan(DomainLabel(0, false), tld);
    ScanLabelRun(0, false, tld);
  }

  lemma {:induction false} ScanWithoutAt(st: EmailScan, s: string)
    requires st.LocalPart? || st.Invalid?
    requires forall i :: 0 <= i < |s| ==> s[i] != '@'
    ensures Scan(st, s).LocalPart? || Scan(st, s).Invalid?
    decreases |s|
  {
    if s != [] {
      ScanWithoutAt(Step(st, s[0]), s[1..]);
    }
  }

  /** Text without an `@` is never an address; in particular the empty text is not. */
  lemma NoAtSignInvalid(s: string)
    requires forall i :: 0 <= i < |s| ==> s[i] != '@'
    ensures !IsValidEmail(s)
  {
    ScanWithoutAt(LocalPart(0), s);
  }

  lemma {:induction false} ScanIgnoresCase(st: EmailScan, s: string)
    ensures Scan(st, Lower(s)) == Scan(st, s)
    decreases |s|
  {
    if s != [] {
      assert Lower(s)[1..] == Lower(s[1..]);
      assert Step(st, Lower(s)[0]) == Step(st, s[0]);
      ScanIgnoresCase(Step(st, s[0]), s[1..]);
    }
  }

  /** Validity does not depend on letter case. */
  lemma ValidEmailIgnoresCase(s: string)
    ensures IsValidEmail(Lower(s)) == IsValidEmail(s)
  {
    ScanIgnoresCase(LocalPart(0), s);
  }

  /** A valid address has no line breaks or surrounding whitespace, so cleaning keeps it. */
  lemma {:induction false} ValidEmailIsClean(s: string)
    requires IsValidEmail(s)
    ensures SanitizeEmail(s) == s
  {
    ScanKeepsToGrammar(LocalPart(0), s);
    forall i | 0 <= i < |s|
      ensures !IsNewline(s[i]) && !IsAsciiWhitespace(s[i])
    {
      GrammarCharIsVisible(s[i]);
    }
    CleanValueKept(s);
  }

  /** No character of the grammar is a line break or whitespace. */
  lemma GrammarCharIsVisible(c: char)
    requires IsLocalChar(c) || c == '@'
    ensures !IsNewline(c) && !IsAsciiWhitespace(c)
  {
  }

  /** Every character read without an error is a letter, a digit, `@` or a local symbol. */
  lemma {:induction false} ScanKeepsToGrammar(st: EmailScan, s: string)
    requires !Scan(st, s).Invalid?
    ensures forall i :: 0 <= i < |s| ==> IsLocalChar(s[i]) || s[i] == '@'
    decreases |s|
  {
    if s != [] {
      if Step(st, s[0]).Invalid? {
        InvalidStays(s[1..]);
        assert false;
      }
      ScanKeepsToGrammar(Step(st, s[0]), s[1..]);
      assert forall i :: 1 <= i < |s| ==> s[i] == s[1..][i - 1];
    }
  }

  lemma {:induction false} InvalidStays(s: string)
    ensures Scan(Invalid, s) == Invalid
    decreases |s|
  {
    if s != [] {
      InvalidStays(s[1..]);
    }
  }
}
