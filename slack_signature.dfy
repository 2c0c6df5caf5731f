/**
 * Slack request authentication (`verifySlackSignature`, api/slack-events.js):
 * a replay window on the timestamp header, then a comparison of the
 * signature header with `v0=` followed by the hex HMAC-SHA256 of
 * `v0:<timestamp>:<body>` under the signing secret.
 *
 * HMAC-SHA256 is the parameter `hmac`, the clock the parameter `nowMillis`
 * (what `Date.now()` returns). `crypto.timingSafeEqual` is byte equality of
 * the two UTF-8 encodings, which throws when their lengths differ; UTF-8 is
 * injective, so equal encodings are equal strings.
 */
module SlackSignature {
  import opened Wrappers
  import opened Text

  newtype Byte = x: int | 0 <= x < 256

  /** An HMAC-SHA256 digest: 32 bytes. */
  type Digest = d: seq<Byte> | |d| == 32 witness seq(32, _ => 0 as Byte)

  const ReplayWindowSeconds := 300
  const SignatureVersion := "v0"

  // ---------------------------------------------------------------------------
  // Hex digests
  // ---------------------------------------------------------------------------

  /** A lower-case hex digit. */
  predicate IsHexChar(c: char) {
    '0' <= c <= '9' || 'a' <= c <= 'f'
  }

  function HexDigit(v: nat): (c: char)
    requires v < 16
    ensures IsHexChar(c)
  {
    if v < 10 then ('0' as int + v) as char else ('a' as int + v - 10) as char
  }

  function HexDigitValue(c: char): (v: nat)
    requires IsHexChar(c)
    ensures v < 16 && HexDigit(v) == c
  {
    if '0' <= c <= '9' then c as int - '0' as int else c as int - 'a' as int + 10
  }

  /** The two lower-case hex digits of a byte, high nibble first. */
  function ByteHex(b: Byte): string {
    [HexDigit(b as int / 16), HexDigit(b as int % 16)]
  }

  function HexByte(high: char, low: char): Byte
    requires IsHexChar(high) && IsHexChar(low)
  {
    (16 * HexDigitValue(high) + HexDigitValue(low)) as Byte
  }

  lemma ByteHexRoundTrip(b: Byte)
    ensures var s := ByteHex(b); HexByte(s[0], s[1]) == b
  {
    var n := b as int;
    assert HexDigitValue(HexDigit(n / 16)) == n / 16;
    assert HexDigitValue(HexDigit(n % 16)) == n % 16;
    assert 16 * (n / 16) + n % 16 == n;
  }

  /** `digest('hex')`: two lower-case hex digits per byte. */
  function Hex(bytes: seq<Byte>): (s: string)
    ensures |s| == 2 * |bytes|
    ensures forall i :: 0 <= i < |s| ==> IsHexChar(s[i])
  {
    if bytes == [] then "" else ByteHex(bytes[0]) + Hex(bytes[1..])
  }

  /** Reading a hex string back into bytes. */
  function Unhex(s: string): seq<Byte>
    requires |s| % 2 == 0
    requires forall i :: 0 <= i < |s| ==> IsHexChar(s[i])
  {
    if s == [] then []
    else [HexByte(s[0], s[1])] + Unhex(s[2..])
  }

  /** Hex encoding loses nothing: the digest reads back from its hex form. */
  lemma {:induction false} HexRoundTrip(bytes: seq<Byte>)
    ensures Unhex(Hex(bytes)) == bytes
  {
    if bytes != [] {
      var b := bytes[0];
      var s := Hex(bytes);
      assert s[0] == ByteHex(b)[0] && s[1] == ByteHex(b)[1] && s[2..] == Hex(bytes[1..]);
      ByteHexRoundTrip(b);
      HexRoundTrip(bytes[1..]);
    }
  }

  // ---------------------------------------------------------------------------
  // UTF-8 lengths, as `Buffer.from(string)` counts them
  // ---------------------------------------------------------------------------

  function Utf8Units(c: char): nat {
    if c as int < 0x80 then 1 else if c as int < 0x800 then 2 else if c as int < 0x1_0000 then 3 else 4
  }

  function Utf8Length(s: string): nat {
    if s == [] then 0 else Utf8Units(s[0]) + Utf8Length(s[1..])
  }

  lemma {:induction false} AsciiUtf8Length(s: string)
    requires IsAscii(s)
    ensures Utf8Length(s) == |s|
  {
    if s != [] {
      assert s[0] as int < 0x80;
      assert IsAscii(s[1..]) by {
        forall i | 0 <= i < |s[1..]| ensures s[1..][i] as int < 0x80 {
          assert s[1..][i] == s[i + 1];
        }
      }
      AsciiUtf8Length(s[1..]);
    }
  }

  // ---------------------------------------------------------------------------
  // The timestamp header as a number
  // ---------------------------------------------------------------------------

  /**
   * The header after JavaScript's numeric coercion in `currentTime -
   * timestamp`: a missing header is `undefined` and becomes NaN (`None`), the
   * empty string becomes 0, and an optional sign followed by decimal digits
   * becomes its value. Any other text is read as NaN.
   */
  function JsNumber(header: Option<string>): Option<int> {
    if header.None? then None
    else
      var s := header.value;
      if s == "" then Some(0)
      else if AllDigits(s) then Some(DecimalValue(s))
      else if |s| > 1 && (s[0] == '+' || s[0] == '-') && AllDigits(s[1..]) then
        var magnitude: int := DecimalValue(s[1..]);
        Some(if s[0] == '-' then -magnitude else magnitude)
      else None
  }

  /** A header holding the decimal rendering of `n` reads back as `n`. */
  lemma TimestampReadsBack(n: nat)
    ensures JsNumber(Some(NatToDecimal(n))) == Some(n)
  {
    DecimalRoundTrip(n);
  }

  function Abs(x: int): nat {
    if x < 0 then -x else x
  }

  /**
   * `Math.abs(currentTime - timestamp) > 300` is false, with `currentTime`
   * the clock in whole seconds. NaN compares false, so a timestamp that is
   * not a number passes.
   */
  predicate WithinReplayWindow(nowMillis: nat, timestamp: Option<string>) {
    var ts := JsNumber(timestamp);
    ts.None? || Abs(nowMillis / 1000 - ts.value) <= ReplayWindowSeconds
  }

  // ---------------------------------------------------------------------------
  // The signature
  // ---------------------------------------------------------------------------

  /** `${timestamp}` in the template: the header, or `undefined` when it is missing. */
  function TemplateText(value: Option<string>): string {
    if value.Some? then value.value else "undefined"
  }

  /** `v0:${timestamp}:${body}`. */
  function BaseString(body: string, timestamp: Option<string>): string {
    SignatureVersion + ":" + TemplateText(timestamp) + ":" + body
  }

  /** `'v0=' + hex(HMAC-SHA256(signingSecret, baseString))`. */
  function ExpectedSignature(body: string, timestamp: Option<string>, signingSecret: string,
                             hmac: (string, string) -> Digest): (expected: string)
    ensures |expected| == 67
  {
    SignatureVersion + "=" + Hex(hmac(signingSecret, BaseString(body, timestamp)))
  }

  /** What `verifySlackSignature` does: return true, return false, or throw. */
  datatype Verdict = Accepted | Rejected | Throws

  /**
   * `verifySlackSignature(body, signature, timestamp, signingSecret)`.
   * `Buffer.from(undefined)` throws, and `timingSafeEqual` throws on buffers
   * of different lengths.
   */
  function VerifySlackSignature(body: string, signature: Option<string>, timestamp: Option<string>,
                                signingSecret: string, nowMillis: nat,
                                hmac: (string, string) -> Digest): (v: Verdict)
    ensures !WithinReplayWindow(nowMillis, timestamp) ==> v == Rejected
    ensures v == Accepted <==>
      WithinReplayWindow(nowMillis, timestamp)
      && signature == Some(ExpectedSignature(body, timestamp, signingSecret, hmac))
    ensures v == Throws <==>
      WithinReplayWindow(nowMillis, timestamp) && (signature.None? || Utf8Length(signature.value) != 67)
  {
    if !WithinReplayWindow(nowMillis, timestamp) then Rejected
    else
      var expected := ExpectedSignature(body, timestamp, signingSecret, hmac);
      ExpectedSignatureShape(body, timestamp, signingSecret, hmac);
      if signature.None? || Utf8Length(signature.value) != Utf8Length(expected) then Throws
      else if signature.value == expected then Accepted
      else Rejected
  }

  // ---------------------------------------------------------------------------
  // What the check promises
  // ---------------------------------------------------------------------------

  /**
   * The expected signature is `v0=` and 64 lower-case hex digits, 67 bytes
   * in UTF-8, and the digest can be read back from it.
   */
  lemma ExpectedSignatureShape(body: string, timestamp: Option<string>, signingSecret: string,
                               hmac: (string, string) -> Digest)
    ensures var expected := ExpectedSignature(body, timestamp, signingSecret, hmac);
      && |expected| == 67
      && expected[..3] == "v0="
      && (forall i :: 3 <= i < 67 ==> IsHexChar(expected[i]))
      && Utf8Length(expected) == 67
      && Unhex(expected[3..]) == hmac(signingSecret, BaseString(body, timestamp))
  {
    var digest := hmac(signingSecret, BaseString(body, timestamp));
    var expected := ExpectedSignature(body, timestamp, signingSecret, hmac);
    assert expected[3..] == Hex(digest);
    assert IsAscii(expected) by {
      forall i | 0 <= i < |expected| ensures expected[i] as int < 0x80 {
        if i >= 3 {
          assert IsHexChar(expected[3..][i - 3]);
        }
      }
    }
    AsciiUtf8Length(expected);
    HexRoundTrip(digest);
  }

  /** A timestamp more than 300 seconds from the clock is refused, whatever the signature. */
  lemma StaleRequestRejected(body: string, signature: Option<string>, ts: int, signingSecret: string,
                             nowMillis: nat, hmac: (string, string) -> Digest)
    requires 0 <= ts
    requires Abs(nowMillis / 1000 - ts) > ReplayWindowSeconds
    ensures VerifySlackSignature(body, signature, Some(NatToDecimal(ts)), signingSecret, nowMillis, hmac) == Rejected
  {
    TimestampReadsBack(ts);
  }

  /** A skew of exactly 300 seconds, either way, is still inside the window. */
  lemma WindowBoundaryPasses(nowMillis: nat, ts: nat)
    requires Abs(nowMillis / 1000 - ts) == ReplayWindowSeconds
    ensures WithinReplayWindow(nowMillis, Some(NatToDecimal(ts)))
  {
    TimestampReadsBack(ts);
  }

  /**
   * A character that no text `Number()` reads as a number can contain: ASCII
   * punctuation other than the sign and the decimal point, and the letters
   * that belong neither to a hex, octal or binary literal, nor to an
   * exponent, nor to `Infinity`.
   */
  predicate NeverInNumber(c: char) {
    || ('!' <= c <= '*') || c == ',' || c == '/' || (':' <= c <= '@')
    || ('[' <= c <= '`') || ('{' <= c <= '~')
    || ('g' <= c <= 'h') || ('j' <= c <= 'm') || ('p' <= c <= 's') || ('u' <= c <= 'w') || c == 'z'
    || ('G' <= c <= 'H') || ('J' <= c <= 'N') || ('P' <= c <= 'W') || ('Y' <= c <= 'Z')
  }

  /**
   * A missing timestamp, or one holding a character that never occurs in a
   * JavaScript number, is NaN, and NaN never fails the window check.
   */
  lemma NaNTimestampPassesWindow(nowMillis: nat, header: Option<string>)
    requires header.None? || exists i :: 0 <= i < |header.value| && NeverInNumber(header.value[i])
    ensures WithinReplayWindow(nowMillis, header)
  {
    if header.Some? {
      var s := header.value;
      var i :| 0 <= i < |s| && NeverInNumber(s[i]);
      assert !IsDigit(s[i]);
      assert s[i] != '+' && s[i] != '-';
      if i > 0 {
        assert s[1..][i - 1] == s[i];
      }
    }
  }

  /**
   * A signed request with a fresh timestamp is accepted exactly when the
   * signature header is the expected one; a header of the right length that
   * differs is refused, and any other header throws.
   */
  lemma FreshRequestVerdicts(body: string, signature: Option<string>, ts: nat, signingSecret: string,
                             nowMillis: nat, hmac: (string, string) -> Digest)
    requires Abs(nowMillis / 1000 - ts) <= ReplayWindowSeconds
    ensures var timestamp := Some(NatToDecimal(ts));
      var v := VerifySlackSignature(body, signature, timestamp, signingSecret, nowMillis, hmac);
      var expected := ExpectedSignature(body, timestamp, signingSecret, hmac);
      && (v == Accepted <==> signature == Some(expected))
      && (v == Rejected <==> signature.Some? && signature.value != expected && Utf8Length(signature.value) == 67)
      && (v == Throws <==> signature.None? || Utf8Length(signature.value) != 67)
  {
    TimestampReadsBack(ts);
    ExpectedSignatureShape(body, Some(NatToDecimal(ts)), signingSecret, hmac);
  }

  /** The signed text names the timestamp header and the body, so a signature for one request does not fit another timestamp. */
  lemma BaseStringSeparatesTimestamps(body: string, a: nat, b: nat)
    requires a != b
    ensures BaseString(body, Some(NatToDecimal(a))) != BaseString(body, Some(NatToDecimal(b)))
  {
    var sa := BaseString(body, Some(NatToDecimal(a)));
    var sb := BaseString(body, Some(NatToDecimal(b)));
    if sa == sb {
      var da, db := NatToDecimal(a), NatToDecimal(b);
      assert sa == "v0:" + da + ":" + body && sb == "v0:" + db + ":" + body;
      assert |da| == |db|;
      assert da == sa[3..3 + |da|] == sb[3..3 + |db|] == db;
      DecimalRoundTrip(a);
      DecimalRoundTrip(b);
    }
  }
}
