/** The string rules of the landing page: the contact and newsletter email
    check, the Indian mobile number check, the product pre-fill search, and
    the stats counter's suffix and target. */
module FormRules {
  import opened ShopTypes

  /** JavaScript's `\s`: the ECMAScript white space and line terminators. */
  predicate IsSpace(c: char)
  {
    || c == ' ' || c == '\t' || c == '\n' || c == '\r'
    || c == '\U{000B}' || c == '\U{000C}' || c == '\U{00A0}' || c == '\U{1680}'
    || ('\U{2000}' <= c <= '\U{200A}')
    || c == '\U{2028}' || c == '\U{2029}' || c == '\U{202F}' || c == '\U{205F}'
    || c == '\U{3000}' || c == '\U{FEFF}'
  }

  /** The class `[^\s@]`. */
  predicate IsEmailChar(c: char)
  {
    !IsSpace(c) && c != '@'
  }

  /** The class `\d`: ASCII digits only. */
  predicate IsDigit(c: char)
  {
    '0' <= c <= '9'
  }

  // ---------------------------------------------------------------------------
  // email

  /** `/^[^\s@]+@[^\s@]+\.[^\s@]+$/.test(s)`: `s` splits as a, '@', b, '.', c
      with a, b and c non-empty runs of `[^\s@]` (the '.' is one of them too). */
  predicate EmailAccepted(s: string)
    ensures EmailAccepted(s) ==> |s| >= 5 && '@' in s && s[0] != '@' && s[|s| - 1] != '@'
  {
    exists i, j | 0 < i && i + 1 < j < |s| - 1 ::
      s[i] == '@' && s[j] == '.' && forall k | 0 <= k < |s| && k != i :: IsEmailChar(s[k])
  }

  function CountChar(s: string, c: char): nat
  {
    if s == [] then 0 else (if s[0] == c then 1 else 0) + CountChar(s[1..], c)
  }

  function IndexOfChar(s: string, c: char): (i: nat)
    ensures i <= |s|
    ensures i < |s| ==> s[i] == c
    ensures forall k :: 0 <= k < i ==> s[k] != c
  {
    if s == [] then 0 else if s[0] == c then 0 else 1 + IndexOfChar(s[1..], c)
  }

  /** The email rule in words: no white space, exactly one '@', a non-empty
      local part, and a domain holding a '.' that is neither its first nor its
      last character. */
  predicate WellFormedEmail(s: string)
  {
    && (forall k | 0 <= k < |s| :: !IsSpace(s[k]))
    && CountChar(s, '@') == 1
    && var at := IndexOfChar(s, '@');
       at > 0 && exists k | at + 1 < k < |s| - 1 :: s[k] == '.'
  }

  lemma {:induction false} CountCharZero(s: string, c: char)
    ensures CountChar(s, c) == 0 <==> forall k | 0 <= k < |s| :: s[k] != c
  {
    if s != [] {
      CountCharZero(s[1..], c);
      assert forall k | 1 <= k < |s| :: s[k] == s[1..][k - 1];
    }
  }

  /** With `c` at `i`, `c` occurs once iff it occurs nowhere else. */
  lemma {:induction false} CountCharOne(s: string, c: char, i: int)
    requires 0 <= i < |s| && s[i] == c
    ensures CountChar(s, c) == 1 <==> forall k | 0 <= k < |s| && k != i :: s[k] != c
  {
    assert forall k | 1 <= k < |s| :: s[k] == s[1..][k - 1];
    if i == 0 {
      CountCharZero(s[1..], c);
    } else {
      CountCharZero(s[1..], c);
      CountCharOne(s[1..], c, i - 1);
    }
  }

  /** The regular expression accepts exactly the addresses the rule in words
      describes. */
  lemma EmailRule(s: string)
    ensures EmailAccepted(s) <==> WellFormedEmail(s)
  {
    if EmailAccepted(s) {
      var i, j :| 0 < i && i + 1 < j < |s| - 1 && s[i] == '@' && s[j] == '.'
        && forall k | 0 <= k < |s| && k != i :: IsEmailChar(s[k]);
      CountCharOne(s, '@', i);
      FirstIndexOfChar(s, '@', i);
      assert s[j] == '.';
    }
    if WellFormedEmail(s) {
      var at := IndexOfChar(s, '@');
      CountCharZero(s, '@');
      assert at < |s|;
      CountCharOne(s, '@', at);
      var j :| at + 1 < j < |s| - 1 && s[j] == '.';
      assert forall k | 0 <= k < |s| && k != at :: IsEmailChar(s[k]);
    }
  }

  lemma FirstIndexOfChar(s: string, c: char, i: int)
    requires 0 <= i < |s| && s[i] == c
    requires forall k | 0 <= k < |s| && k != i :: s[k] != c
    ensures IndexOfChar(s, c) == i
  {
  }

  // ---------------------------------------------------------------------------
  // phone

  /** `s.replace(/\D/g, '')`: the digits of `s`, in order. */
  function Digits(s: string): (d: string)
    ensures |d| <= |s|
    ensures forall k | 0 <= k < |d| :: IsDigit(d[k])
  {
    if s == [] then [] else (if IsDigit(s[0]) then [s[0]] else []) + Digits(s[1..])
  }

  /** `/^[6-9]\d{9}$/.test(t)`. */
  predicate MatchesIndianMobile(t: string)
    ensures MatchesIndianMobile(t) ==> |t| == 10 && IsDigit(t[0]) && t[0] !in "012345"
  {
    |t| == 10 && '6' <= t[0] <= '9' && forall k | 1 <= k < 10 :: IsDigit(t[k])
  }

  /** The contact form's phone check on the cleaned number. */
  predicate PhoneAccepted(phone: string)
    ensures PhoneAccepted(phone) ==> |phone| >= 10
  {
    var clean := Digits(phone);
    |clean| == 10 && MatchesIndianMobile(clean)
  }

  /** A phone is accepted iff it has exactly ten digits, the first one 6-9,
      whatever else it contains. */
  lemma PhoneRule(phone: string)
    ensures PhoneAccepted(phone) <==> |Digits(phone)| == 10 && '6' <= Digits(phone)[0] <= '9'
  {
  }

  lemma {:induction false} DigitsAppend(a: string, b: string)
    ensures Digits(a + b) == Digits(a) + Digits(b)
  {
    if a == [] {
      assert a + b == b;
    } else {
      assert (a + b)[0] == a[0] && (a + b)[1..] == a[1..] + b;
      DigitsAppend(a[1..], b);
    }
  }

  /** Spaces, dashes and other non-digits between the digits do not matter. */
  lemma SeparatorIgnored(a: string, sep: char, b: string)
    requires !IsDigit(sep)
    ensures PhoneAccepted(a + [sep] + b) <==> PhoneAccepted(a + b)
  {
    DigitsAppend(a + [sep], b);
    DigitsAppend(a, [sep]);
    DigitsAppend(a, b);
    assert Digits([sep]) == [];
  }

  /** Writing an accepted number with the +91 country code makes it twelve
      digits long, and the form refuses it. */
  lemma CountryCodeRejected(phone: string)
    requires PhoneAccepted(phone)
    ensures !PhoneAccepted("+91" + phone)
  {
    DigitsAppend("+91", phone);
    assert Digits("+91") == "91" by {
      assert "+91"[1..] == "91" && "91"[1..] == "1" && "1"[1..] == [];
    }
  }

  // ---------------------------------------------------------------------------
  // form submission

  datatype Submission = InvalidEmail | InvalidPhone | Submit

  /** The contact form: the email is checked first, then the phone; either
      failure stops before anything is sent. */
  function ContactSubmission(email: string, phone: string): (r: Submission)
    ensures r == Submit <==> EmailAccepted(email) && PhoneAccepted(phone)
    ensures r == InvalidEmail <==> !EmailAccepted(email)
    ensures r == InvalidPhone <==> EmailAccepted(email) && !PhoneAccepted(phone)
  {
    if !EmailAccepted(email) then InvalidEmail
    else if !PhoneAccepted(phone) then InvalidPhone
    else Submit
  }

  /** The newsletter form: the same email rule, and no phone. */
  function NewsletterSubmission(email: string): (r: Submission)
    ensures r != InvalidPhone
    ensures r == Submit <==> WellFormedEmail(email)
  {
    EmailRule(email);
    if !EmailAccepted(email) then InvalidEmail else Submit
  }

  /** Both forms refuse exactly the same email addresses. */
  lemma SameEmailRule(email: string, phone: string)
    ensures NewsletterSubmission(email) == InvalidEmail <==> ContactSubmission(email, phone) == InvalidEmail
  {
    EmailRule(email);
  }

  // ---------------------------------------------------------------------------
  // product pre-fill

  /** The product button's pre-fill: select the first option whose value is
      the button's `data-product`; with no match (or no attribute) keep the
      current selection. */
  method SelectProductOption(options: seq<string>, productName: Option<string>, selected: int)
    returns (r: int)
    ensures productName.Some? && productName.value in options ==>
      0 <= r < |options| && options[r] == productName.value && productName.value !in options[..r]
    ensures productName.None? || productName.value !in options ==> r == selected
  {
    r := selected;
    for i := 0 to |options|
      invariant productName.Some? ==> productName.value !in options[..i]
      invariant r == selected
    {
      assert options[..i + 1] == options[..i] + [options[i]];
      if productName.Some? && options[i] == productName.value {
        r := i;
        return;
      }
    }
    assert options[..|options|] == options;
  }

  // ---------------------------------------------------------------------------
  // stats counter

  /** `animateCounter`'s suffix: '%' wins over '+', otherwise none. */
  function CounterSuffix(text: string): (suffix: string)
    ensures '%' in text ==> suffix == "%"
    ensures '%' !in text && '+' in text ==> suffix == "+"
    ensures '%' !in text && '+' !in text ==> suffix == ""
    ensures forall k | 0 <= k < |suffix| :: suffix[k] in text && !IsDigit(suffix[k])
  {
    if '%' in text then "%" else if '+' in text then "+" else ""
  }

  function DigitValue(c: char): nat
    requires IsDigit(c)
  {
    c as int - '0' as int
  }

  function DigitChar(d: nat): (c: char)
    requires d < 10
    ensures IsDigit(c) && DigitValue(c) == d
  {
    ('0' as int + d) as char
  }

  /** The number a run of decimal digits denotes (leading zeros allowed). */
  function DecimalValue(ds: string): nat
    requires forall k | 0 <= k < |ds| :: IsDigit(ds[k])
  {
    if ds == [] then 0 else DecimalValue(ds[..|ds| - 1]) * 10 + DigitValue(ds[|ds| - 1])
  }

  /** `parseInt(text.replace(/\D/g, ''))`; `None` stands for NaN. */
  function StatTarget(text: string): (r: Option<nat>)
    ensures r.None? <==> forall k | 0 <= k < |text| :: !IsDigit(text[k])
  {
    DigitsNone(text);
    var ds := Digits(text);
    if ds == [] then None else Some(DecimalValue(ds))
  }

  /** A text has no digits to extract iff none of its characters is one. */
  lemma {:induction false} DigitsNone(s: string)
    ensures Digits(s) == [] <==> forall k | 0 <= k < |s| :: !IsDigit(s[k])
  {
    if s != [] {
      DigitsNone(s[1..]);
      assert forall k | 1 <= k < |s| :: s[k] == s[1..][k - 1];
    }
  }

  /** How a non-negative integer prints. */
  function NatToDecimal(n: nat): (s: string)
    ensures |s| > 0
    ensures forall k | 0 <= k < |s| :: IsDigit(s[k])
  {
    if n < 10 then [DigitChar(n)] else NatToDecimal(n / 10) + [DigitChar(n % 10)]
  }

  lemma {:induction false} DecimalRoundTrip(n: nat)
    ensures DecimalValue(NatToDecimal(n)) == n
  {
    var s := NatToDecimal(n);
    if n < 10 {
      assert s[..0] == [];
    } else {
      DecimalRoundTrip(n / 10);
      assert s[..|s| - 1] == NatToDecimal(n / 10);
    }
  }

  lemma {:induction false} DigitsOfDigits(s: string)
    requires forall k | 0 <= k < |s| :: IsDigit(s[k])
    ensures Digits(s) == s
  {
    if s != [] {
      DigitsOfDigits(s[1..]);
      assert s == [s[0]] + s[1..];
    }
  }

  /** The counter's end text `target + suffix` reads back as the target: the
      stats extraction and the counter display are inverse. */
  lemma StatRoundTrip(n: nat, text: string)
    ensures StatTarget(NatToDecimal(n) + CounterSuffix(text)) == Some(n)
  {
    var shown := NatToDecimal(n);
    var suffix := CounterSuffix(text);
    DigitsAppend(shown, suffix);
    DigitsOfDigits(shown);
    assert Digits(suffix) == [] by {
      if suffix != [] {
        assert suffix[1..] == [];
        assert !IsDigit(suffix[0]);
      }
    }
    assert Digits(shown + suffix) == shown;
    DecimalRoundTrip(n);
    assert StatTarget(shown + suffix) == Some(DecimalValue(shown));
  }
}
