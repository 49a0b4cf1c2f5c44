/** The phone normaliser `formatPhoneNumber` (utils.js). */
module Phone {
  import opened Text

  /** Kenya's country calling code, which every normalised number starts with. */
  const CountryCode: string := "254"

  /**
   * `formatPhoneNumber`: drop every non-digit; a leading trunk `0` becomes `254`;
   * a digit string not already starting with `254` gets `254` prepended.
   */
  function FormatPhoneNumber(raw: string): (r: string)
    ensures AllDigits(r)
    ensures StartsWith(r, CountryCode)
  {
    var d := Digits(raw);
    if StartsWith(d, "0") then CountryCode + d[1..]
    else if !StartsWith(d, CountryCode) then CountryCode + d
    else d
  }

  /** The three cases of the normaliser, stated on the digits of the input. */
  lemma FormatCases(raw: string)
    ensures var d := Digits(raw);
      && (|d| > 0 && d[0] == '0' ==> FormatPhoneNumber(raw) == "254" + d[1..])
      && (StartsWith(d, "254") ==> FormatPhoneNumber(raw) == d)
      && (!StartsWith(d, "0") && !StartsWith(d, "254") ==> FormatPhoneNumber(raw) == "254" + d)
  {
  }

  /** A string of digits already starting with `254` is returned unchanged. */
  lemma FormatKeepsCanonical(s: string)
    requires AllDigits(s) && StartsWith(s, CountryCode)
    ensures FormatPhoneNumber(s) == s
  {
    DigitsOfDigits(s);
  }

  /** Normalising twice is the same as normalising once. */
  lemma FormatIdempotent(raw: string)
    ensures FormatPhoneNumber(FormatPhoneNumber(raw)) == FormatPhoneNumber(raw)
  {
    FormatKeepsCanonical(FormatPhoneNumber(raw));
  }

  /** The output only ever grows: at most three digits are added to the digits of the input. */
  lemma FormatLength(raw: string)
    ensures |Digits(raw)| <= |FormatPhoneNumber(raw)| <= |Digits(raw)| + 3
  {
  }

  /** A local number with the trunk prefix `0`: the `0` becomes the country code (`0712345678` gives `254712345678`). */
  lemma FormatTrunkPrefix(subscriber: string)
    requires AllDigits(subscriber)
    ensures FormatPhoneNumber(['0'] + subscriber) == CountryCode + subscriber
  {
    DigitsOfDigits(['0'] + subscriber);
    assert (['0'] + subscriber)[1..] == subscriber;
  }

  /** Non-digit characters such as `+`, spaces or dashes do not affect the result (`+254712345678` gives `254712345678`). */
  lemma FormatIgnoresNonDigit(c: char, s: string)
    requires !IsDigit(c)
    ensures FormatPhoneNumber([c] + s) == FormatPhoneNumber(s)
  {
    assert ([c] + s)[1..] == s;
  }

  /** A bare subscriber number gets the country code prepended (`712345678` gives `254712345678`). */
  lemma FormatBareNumber(s: string)
    requires AllDigits(s) && !StartsWith(s, "0") && !StartsWith(s, CountryCode)
    ensures FormatPhoneNumber(s) == CountryCode + s
  {
    DigitsOfDigits(s);
  }

  /** The empty string is not rejected: it becomes the bare country code. */
  lemma FormatEmpty()
    ensures FormatPhoneNumber("") == "254"
  {
  }
}
