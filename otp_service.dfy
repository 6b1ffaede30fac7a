/**
 * The one-time-password store (src/services/otp_service.rs): a process-wide
 * map from email address to the last OTP generated for it. The random
 * number drawn by `generate_otp` is a parameter here.
 */
module OtpService {
  import opened Wrappers

  predicate IsDigit(c: char)
  {
    '0' <= c <= '9'
  }

  predicate IsDecimalText(s: string)
  {
    forall i :: 0 <= i < |s| ==> IsDigit(s[i])
  }

  function DigitChar(d: int): (c: char)
    requires 0 <= d < 10
    ensures IsDigit(c)
  {
    ('0' as int + d) as char
  }

  function DigitValue(c: char): (d: int)
    requires IsDigit(c)
    ensures 0 <= d < 10 && DigitChar(d) == c
  {
    c as int - '0' as int
  }

  /** `to_string` of a non-negative integer: its decimal digits, without leading zeros. */
  function DecimalString(n: nat): (s: string)
    ensures 1 <= |s| && IsDecimalText(s)
    ensures |s| == 1 <==> n < 10
    ensures |s| > 1 ==> s[0] != '0'
  {
    if n < 10 then [DigitChar(n)] else DecimalString(n / 10) + [DigitChar(n % 10)]
  }

  /** The number a string of decimal digits denotes. */
  function DecimalValue(s: string): nat
    requires IsDecimalText(s)
  {
    if s == [] then 0 else 10 * DecimalValue(s[..|s| - 1]) + DigitValue(s[|s| - 1])
  }

  lemma {:induction false} DecimalRoundTrip(n: nat)
    ensures DecimalValue(DecimalString(n)) == n
  {
    if n >= 10 {
      var s := DecimalString(n);
      assert s[..|s| - 1] == DecimalString(n / 10);
      DecimalRoundTrip(n / 10);
    }
  }

  function Pow10(k: nat): nat
  {
    if k == 0 then 1 else 10 * Pow10(k - 1)
  }

  /** A number with `k + 1` digits is written with `k + 1` characters. */
  lemma {:induction false} DecimalLength(n: nat, k: nat)
    requires Pow10(k) <= n < 10 * Pow10(k)
    ensures |DecimalString(n)| == k + 1
  {
    if k > 0 {
      DecimalLength(n / 10, k - 1);
    }
  }

  /** `gen_range(100000..999999)` excludes its upper bound, so every OTP has six digits and 999999 is never produced. */
  lemma OtpShape(random: int)
    requires 100000 <= random < 999999
    ensures |DecimalString(random)| == 6 && DecimalValue(DecimalString(random)) == random
    ensures DecimalString(random) != DecimalString(999999)
  {
    assert Pow10(5) == 100000;
    DecimalLength(random, 5);
    DecimalRoundTrip(random);
    DecimalRoundTrip(999999);
  }

  /** The check of `verify_otp`: a stored entry that equals the candidate exactly. */
  function Verify(storage: map<string, string>, email: string, otp: string): (ok: bool)
    ensures ok <==> email in storage && storage[email] == otp
  {
    match Get(storage, email)
    case None => false
    case Some(stored) => stored == otp
  }

  /** Generating a second OTP for an email revokes the first, unless the two random draws coincide. */
  lemma RegenerateRevokes(storage: map<string, string>, email: string, first: int, second: int)
    requires 100000 <= first < 999999 && 100000 <= second < 999999
    ensures Verify(storage[email := DecimalString(first)][email := DecimalString(second)], email, DecimalString(first))
            <==> first == second
  {
    DecimalRoundTrip(first);
    DecimalRoundTrip(second);
  }

  /** `OTP_STORAGE`, the map behind its lock. */
  class OtpStorage {
    var entries: map<string, string>

    constructor ()
      ensures entries == map[]
    {
      entries := map[];
    }

    /** `generate_otp`: renders the random draw and stores it for `email`, replacing any earlier OTP. */
    method GenerateOtp(email: string, random: int) returns (otp: string)
      requires 100000 <= random < 999999
      modifies this
      ensures otp == DecimalString(random)
      ensures |otp| == 6 && IsDecimalText(otp) && 100000 <= DecimalValue(otp) < 999999
      ensures entries == old(entries)[email := otp]
      ensures VerifyOtp(email, otp)
    {
      otp := DecimalString(random);
      OtpShape(random);
      entries := entries[email := otp];
    }

    /** `verify_otp`: reads the store and never changes it, so OTPs are not consumed. */
    function VerifyOtp(email: string, otp: string): (ok: bool)
      reads this
      ensures ok <==> email in entries && entries[email] == otp
    {
      Verify(entries, email, otp)
    }
  }
}
