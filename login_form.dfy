/** The login form's two inputs: their sanitisers, the demo and clear buttons,
    and the four-dot PIN indicator. */
module LoginForm {

  const MobileLength := 10
  const PinLength := 4
  const DemoMobile := "8888098647"
  const DemoPin := "1234"

  predicate IsDigit(c: char) {
    '0' <= c <= '9'
  }

  predicate AllDigits(s: string) {
    forall i :: 0 <= i < |s| ==> IsDigit(s[i])
  }

  /** `s.replace(/\D/g, "")`: the digits of `s`, in order. */
  function DigitsOf(s: string): (r: string)
    ensures AllDigits(r)
    ensures |r| <= |s|
    decreases |s|
  {
    if s == [] then []
    else (if IsDigit(s[0]) then [s[0]] else []) + DigitsOf(s[1..])
  }

  /** `s.replace(/\D/g, "").slice(0, limit)`. */
  function Sanitize(s: string, limit: nat): (r: string)
    ensures AllDigits(r)
    ensures |r| == if |DigitsOf(s)| <= limit then |DigitsOf(s)| else limit
    ensures |r| <= limit && r == DigitsOf(s)[..|r|]
  {
    var digits := DigitsOf(s);
    if |digits| <= limit then digits else digits[..limit]
  }

  /** The mobile-number input keeps at most 10 digits. */
  function SanitizeMobile(s: string): string {
    Sanitize(s, MobileLength)
  }

  /** The PIN input keeps at most 4 digits. */
  function SanitizePin(s: string): string {
    Sanitize(s, PinLength)
  }

  /** A value the input can hold: digits only, within the limit. */
  predicate IsSanitized(s: string, limit: nat) {
    AllDigits(s) && |s| <= limit
  }

  /** A string of digits is its own digit string. */
  lemma {:induction false} DigitsOfAllDigits(s: string)
    requires AllDigits(s)
    ensures DigitsOf(s) == s
    decreases |s|
  {
    if s != [] {
      DigitsOfAllDigits(s[1..]);
    }
  }

  /** A value already within the limit and made of digits is returned unchanged,
      so sanitising twice is sanitising once. */
  lemma SanitizeIdempotent(s: string, limit: nat)
    ensures IsSanitized(s, limit) ==> Sanitize(s, limit) == s
    ensures Sanitize(Sanitize(s, limit), limit) == Sanitize(s, limit)
  {
    DigitsOfAllDigits(Sanitize(s, limit));
    if AllDigits(s) {
      DigitsOfAllDigits(s);
    }
  }

  /** Digit extraction distributes over concatenation. */
  lemma {:induction false} DigitsOfAppend(a: string, b: string)
    ensures DigitsOf(a + b) == DigitsOf(a) + DigitsOf(b)
    decreases |a|
  {
    if a == [] {
      assert a + b == b;
    } else {
      var head := if IsDigit(a[0]) then [a[0]] else [];
      assert (a + b)[0] == a[0] && (a + b)[1..] == a[1..] + b;
      DigitsOfAppend(a[1..], b);
      assert head + (DigitsOf(a[1..]) + DigitsOf(b)) == head + DigitsOf(a[1..]) + DigitsOf(b);
    }
  }

  /** Typing one character into a sanitised field appends it when it is a digit
      and the field is not full, and otherwise leaves the field as it was. */
  lemma TypingOneCharacter(value: string, c: char, limit: nat)
    requires IsSanitized(value, limit)
    ensures Sanitize(value + [c], limit) == if IsDigit(c) && |value| < limit then value + [c] else value
  {
    DigitsOfAppend(value, [c]);
    DigitsOfAllDigits(value);
    assert DigitsOf([c]) == if IsDigit(c) then [c] else [];
  }

  /** The form's state: the two controlled inputs. */
  class LoginFormState {
    var mobileNo: string
    var loginPin: string

    /** Both fields hold what their inputs can produce. */
    ghost predicate Valid()
      reads this
    {
      IsSanitized(mobileNo, MobileLength) && IsSanitized(loginPin, PinLength)
    }

    /** The fields start out holding the demo credentials. */
    constructor ()
      ensures Valid() && mobileNo == DemoMobile && loginPin == DemoPin
    {
      mobileNo := DemoMobile;
      loginPin := DemoPin;
    }

    /** `fillDemoData`: back to the initial values. */
    method FillDemoData()
      modifies this
      ensures Valid() && mobileNo == DemoMobile && loginPin == DemoPin
    {
      mobileNo := DemoMobile;
      loginPin := DemoPin;
    }

    /** `clearForm`. */
    method ClearForm()
      modifies this
      ensures Valid() && mobileNo == "" && loginPin == ""
    {
      mobileNo := "";
      loginPin := "";
    }

    /** The mobile input's `onChange` with the raw input value. */
    method OnMobileChange(value: string)
      requires Valid()
      modifies this`mobileNo
      ensures Valid() && mobileNo == SanitizeMobile(value)
    {
      mobileNo := SanitizeMobile(value);
    }

    /** The PIN input's `onChange` with the raw input value. */
    method OnPinChange(value: string)
      requires Valid()
      modifies this`loginPin
      ensures Valid() && loginPin == SanitizePin(value)
    {
      loginPin := SanitizePin(value);
    }

    /** The four indicator dots, `true` where the dot is filled. */
    function PinIndicator(): seq<bool>
      reads this
    {
      PinDots(loginPin)
    }
  }

  /** Dot `i` of the four is filled iff `i < pin.length`. */
  function PinDots(pin: string): seq<bool> {
    seq(PinLength, i => i < |pin|)
  }

  /** The number of filled dots. */
  function FilledCount(dots: seq<bool>): nat
    decreases |dots|
  {
    if dots == [] then 0 else FilledCount(dots[..|dots| - 1]) + (if dots[|dots| - 1] then 1 else 0)
  }

  /** The indicator fills one dot per PIN character, at most four; a sanitised
      PIN fills exactly as many dots as it has digits. */
  lemma PinDotsCountDigits(pin: string)
    ensures FilledCount(PinDots(pin)) == if |pin| <= PinLength then |pin| else PinLength
    ensures IsSanitized(pin, PinLength) ==> FilledCount(PinDots(pin)) == |pin|
  {
    FilledPrefix(pin, PinLength);
    assert PinDots(pin)[..PinLength] == PinDots(pin);
  }

  lemma {:induction false} FilledPrefix(pin: string, n: nat)
    requires n <= PinLength
    ensures FilledCount(PinDots(pin)[..n]) == if |pin| <= n then |pin| else n
    decreases n
  {
    if n > 0 {
      var dots := PinDots(pin);
      assert dots[..n][..n - 1] == dots[..n - 1];
      FilledPrefix(pin, n - 1);
    }
  }
}
