/**
 * Tracking ids are `"ETU-" + Date.now().toString(36).toUpperCase()`: the clock in
 * milliseconds written in base 36 with digits 0-9 and A-Z, most significant first.
 * The decoder is the partner that shows distinct clock readings give distinct ids.
 */
module Tracking {

  predicate IsDigit(c: char)
  {
    ('0' <= c <= '9') || ('A' <= c <= 'Z')
  }

  predicate AllDigits(s: string)
  {
    forall i :: 0 <= i < |s| ==> IsDigit(s[i])
  }

  /** The upper-cased base-36 digit for `d`. */
  function DigitChar(d: nat): (c: char)
    requires d < 36
    ensures IsDigit(c)
  {
    if d < 10 then ('0' as int + d) as char else ('A' as int + d - 10) as char
  }

  /** The value of a base-36 digit. */
  function DigitValue(c: char): (d: nat)
    requires IsDigit(c)
    ensures d < 36
  {
    if c <= '9' then c as int - '0' as int else c as int - 'A' as int + 10
  }

  lemma DigitRoundTrip(d: nat)
    requires d < 36
    ensures DigitValue(DigitChar(d)) == d
  {
  }

  /** `n.toString(36).toUpperCase()` for a non-negative integer `n`. */
  function Base36(n: nat): (s: string)
    ensures |s| >= 1 && AllDigits(s)
    ensures n >= 36 ==> s[0] != '0'
    decreases n
  {
    if n < 36 then [DigitChar(n)] else Base36(n / 36) + [DigitChar(n % 36)]
  }

  /** Reads a string of base-36 digits back into a number. */
  function Decode(s: string): nat
    requires AllDigits(s)
    decreases |s|
  {
    if s == [] then 0 else Decode(s[..|s| - 1]) * 36 + DigitValue(s[|s| - 1])
  }

  /** Decoding the base-36 rendering of a clock reading gives that reading back. */
  lemma {:induction false} DecodeBase36(n: nat)
    ensures Decode(Base36(n)) == n
    decreases n
  {
    var s := Base36(n);
    if n < 36 {
      DigitRoundTrip(n);
      assert s[..0] == [];
    } else {
      DecodeBase36(n / 36);
      DigitRoundTrip(n % 36);
      assert s[..|s| - 1] == Base36(n / 36);
    }
  }

  /** The tracking id issued at clock reading `now` (index.js:535). */
  function TrackingId(now: nat): (id: string)
    ensures |id| > 4 && id[..4] == "ETU-" && AllDigits(id[4..])
  {
    "ETU-" + Base36(now)
  }

  /** Two settlements at different clock readings get different tracking ids. */
  lemma TrackingIdInjective(a: nat, b: nat)
    ensures TrackingId(a) == TrackingId(b) <==> a == b
  {
    if TrackingId(a) == TrackingId(b) {
      assert TrackingId(a)[4..] == Base36(a);
      assert TrackingId(b)[4..] == Base36(b);
      DecodeBase36(a);
      DecodeBase36(b);
    }
  }
}
