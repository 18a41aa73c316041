/** Time-based one-time passwords (section 5.3 of RFC 4226, section 5.2 of RFC 6238), as
    packages/shared/src/totp.ts generates and checks them. HMAC-SHA1 is any function with
    digests of twenty bytes. */
module Totp {
  import opened Base32
  import opened Text

  const TOTP_STEP_SECONDS := 30
  const TOTP_DIGITS := 6
  const COUNTERS: int := 0x1_0000_0000_0000_0000

  type Digest = d: seq<byte> | |d| == 20 witness seq(20, _ => 0)

  /** The digest of a 64-bit counter under a key. */
  type Hmac = (seq<byte>, nat) -> Digest

  datatype Outcome<T> = Ok(value: T) | Thrown

  /** A read past the end gives 0. */
  function ByteAt(d: seq<byte>, i: nat): byte {
    if i < |d| then d[i] else 0
  }

  /** Dynamic truncation: 31 bits at an offset the last byte chooses. */
  function Truncate(d: seq<byte>): nat {
    var offset := (if d == [] then 0 else d[|d| - 1]) % 16;
    ByteAt(d, offset) % 128 * 0x100_0000 + ByteAt(d, offset + 1) * 0x1_0000 + ByteAt(d, offset + 2) * 0x100
        + ByteAt(d, offset + 3)
  }

  function PadStart(s: string, width: nat): string
    decreases width - |s|
  {
    if |s| < width then PadStart("0" + s, width) else s
  }

  /** The code of one time step. */
  function CodeOf(hmac: Hmac, key: seq<byte>, counter: nat): string {
    PadStart(Decimal(Truncate(hmac(key, counter)) % 1000000), TOTP_DIGITS)
  }

  function Generate(hmac: Hmac, secret: string, now: int): Outcome<string> {
    var counter := now / TOTP_STEP_SECONDS;
    if !(0 <= counter < COUNTERS) then Thrown
    else
      var key := Decode(secret);
      if key.None? then Thrown else Ok(CodeOf(hmac, key.value, counter))
  }

  predicate WellFormed(code: string) {
    |code| == TOTP_DIGITS && Digits(code)
  }

  // ---------- Six digits ----------

  lemma {:induction false} LeadingZero(s: string)
    ensures Value("0" + s) == Value(s)
  {
    if s == "" {
      assert ("0" + s)[..0] == "";
    } else {
      LeadingZero(s[..|s| - 1]);
      assert ("0" + s)[..|s|] == "0" + s[..|s| - 1];
    }
  }

  lemma {:induction false} PadMeans(s: string, width: nat)
    requires |s| <= width && Digits(s)
    ensures var p := PadStart(s, width);
            |p| == width && Value(p) == Value(s) && Digits(p)
    decreases width - |s|
  {
    if |s| < width {
      LeadingZero(s);
      PadMeans("0" + s, width);
    }
  }

  /** Every read of a digest is in bounds, the truncated number fits 31 bits, and a code has
      exactly six digits, whose value is that number modulo a million. */
  lemma SixDigits(hmac: Hmac, key: seq<byte>, counter: nat)
    ensures var d := hmac(key, counter);
            && d[19] % 16 + 3 < |d| && Truncate(d) < 0x8000_0000
            && WellFormed(CodeOf(hmac, key, counter)) && Value(CodeOf(hmac, key, counter)) == Truncate(d) % 1000000
  {
    var n := Truncate(hmac(key, counter)) % 1000000;
    assert Pow10(6) == 1000000;
    DecimalMeans(n);
    DecimalLength(n, 6);
    PadMeans(Decimal(n), 6);
  }

  /** The number some bytes stand for, the most significant first. */
  function BigEndian(bytes: seq<byte>): nat {
    if bytes == [] then 0 else BigEndian(bytes[..|bytes| - 1]) * 256 + bytes[|bytes| - 1]
  }

  /** The truncated number is that of the four bytes from the offset on, without its top bit. */
  lemma TruncateMeans(d: Digest)
    ensures var offset := d[19] % 16;
            Truncate(d) == BigEndian(d[offset..offset + 4]) % 0x8000_0000
  {
    var offset := d[19] % 16;
    var a: nat, b: nat, c: nat, e: nat := d[offset], d[offset + 1], d[offset + 2], d[offset + 3];
    FourBytes(d[offset..offset + 4]);
    TopBitOff(a, b * 0x1_0000 + c * 0x100 + e);
  }

  lemma FourBytes(four: seq<byte>)
    requires |four| == 4
    ensures BigEndian(four) == four[0] as int * 0x100_0000 + four[1] as int * 0x1_0000 + four[2] as int * 0x100
                               + four[3] as int
  {
    assert four[..3][..2] == four[..2] && four[..2][..1] == four[..1] && four[..1][..0] == [];
    assert BigEndian(four[..1]) == BigEndian([]) * 256 + four[0];
    assert BigEndian(four[..2]) == BigEndian(four[..1]) * 256 + four[1];
    assert BigEndian(four[..3]) == BigEndian(four[..2]) * 256 + four[2];
  }

  lemma TopBitOff(a: nat, rest: nat)
    requires a < 256 && rest < 0x100_0000
    ensures (a * 0x100_0000 + rest) % 0x8000_0000 == a % 128 * 0x100_0000 + rest
  {
    assert a == a / 128 * 128 + a % 128;
    assert a * 0x100_0000 + rest == a / 128 * 0x8000_0000 + (a % 128 * 0x100_0000 + rest);
  }

  // ---------- Checking a code ----------

  /** The steps from `offset` to `window` in turn, until one matches or throws. */
  function Scan(hmac: Hmac, secret: string, code: string, now: int, offset: int, window: int): Outcome<bool>
    decreases window - offset
  {
    if offset > window then Ok(false)
    else
      match Generate(hmac, secret, now + offset * TOTP_STEP_SECONDS)
      case Thrown => Thrown
      case Ok(expected) => if expected == code then Ok(true) else Scan(hmac, secret, code, now, offset + 1, window)
  }

  function Verify(hmac: Hmac, secret: string, code: string, now: int, window: nat): Outcome<bool> {
    if WellFormed(code) then Scan(hmac, secret, code, now, 0 - window, window) else Ok(false)
  }

  lemma GeneratesSix(hmac: Hmac, secret: string, now: int)
    ensures var code := Generate(hmac, secret, now); code.Ok? ==> WellFormed(code.value)
  {
    if Generate(hmac, secret, now).Ok? {
      SixDigits(hmac, Decode(secret).value, now / TOTP_STEP_SECONDS);
    }
  }

  /** The comparison demands buffers of equal length, which they always have. */
  method VerifyTotp(hmac: Hmac, secret: string, code: string, now: int, window: nat) returns (accepted: Outcome<bool>)
    ensures accepted == Verify(hmac, secret, code, now, window)
  {
    if !WellFormed(code) {
      return Ok(false);
    }
    var offset: int := 0 - window;
    ghost var verdict := Scan(hmac, secret, code, now, offset, window);
    while offset <= window
      invariant 0 - window <= offset <= window + 1
      invariant verdict == Scan(hmac, secret, code, now, offset, window)
    {
      var expected := Generate(hmac, secret, now + offset * TOTP_STEP_SECONDS);
      ScanStep(hmac, secret, code, now, offset, window, expected);
      if expected.Thrown? {
        return Thrown;
      }
      assert |expected.value| == |code|;
      if expected.value == code {
        return Ok(true);
      }
      offset := offset + 1;
    }
    return Ok(false);
  }

  lemma ScanStep(hmac: Hmac, secret: string, code: string, now: int, offset: int, window: int,
                 expected: Outcome<string>)
    requires offset <= window && expected == Generate(hmac, secret, now + offset * TOTP_STEP_SECONDS)
    ensures Scan(hmac, secret, code, now, offset, window)
         == if expected.Thrown? then Thrown else if expected.value == code then Ok(true)
            else Scan(hmac, secret, code, now, offset + 1, window)
    ensures expected.Ok? ==> |expected.value| == TOTP_DIGITS
  {
    GeneratesSix(hmac, secret, now + offset * TOTP_STEP_SECONDS);
  }

  /** The code belongs to a step of the window that can be computed. */
  ghost predicate Matches(hmac: Hmac, key: seq<byte>, code: string, now: int, from: int, to: int) {
    exists c: nat :: now / TOTP_STEP_SECONDS + from <= c <= now / TOTP_STEP_SECONDS + to && c < COUNTERS
        && code == CodeOf(hmac, key, c)
  }

  /** What a scan answers when no step of it is negative. */
  lemma {:induction false} ScanMeans(hmac: Hmac, secret: string, code: string, now: int, offset: int, window: int)
    requires Decode(secret).Some? && now / TOTP_STEP_SECONDS + offset >= 0
    ensures var r := Scan(hmac, secret, code, now, offset, window);
            && (r == Ok(true) <==> Matches(hmac, Decode(secret).value, code, now, offset, window))
            && (r == Thrown ==> now / TOTP_STEP_SECONDS + window >= COUNTERS)
    decreases window - offset
  {
    if offset <= window {
      var key := Decode(secret).value;
      FirstStep(hmac, secret, code, now, offset, window);
      MatchesFirst(hmac, key, code, now, offset, window);
      var step := now / TOTP_STEP_SECONDS + offset;
      if step < COUNTERS && code != CodeOf(hmac, key, step) {
        ScanMeans(hmac, secret, code, now, offset + 1, window);
      }
    }
  }

  lemma FirstStep(hmac: Hmac, secret: string, code: string, now: int, offset: int, window: int)
    requires Decode(secret).Some? && now / TOTP_STEP_SECONDS + offset >= 0 && offset <= window
    ensures var step: nat := now / TOTP_STEP_SECONDS + offset;
            Scan(hmac, secret, code, now, offset, window)
            == (if step >= COUNTERS then Thrown
                else if code == CodeOf(hmac, Decode(secret).value, step) then Ok(true)
                else Scan(hmac, secret, code, now, offset + 1, window))
  {
    StepOf(now, offset);
  }

  lemma MatchesFirst(hmac: Hmac, key: seq<byte>, code: string, now: int, offset: int, window: int)
    requires now / TOTP_STEP_SECONDS + offset >= 0 && offset <= window
    ensures var step: nat := now / TOTP_STEP_SECONDS + offset;
            Matches(hmac, key, code, now, offset, window) <==>
            (step < COUNTERS && (code == CodeOf(hmac, key, step) || Matches(hmac, key, code, now, offset + 1, window)))
  {
  }

  lemma StepOf(now: int, offset: int)
    ensures (now + offset * TOTP_STEP_SECONDS) / TOTP_STEP_SECONDS == now / TOTP_STEP_SECONDS + offset
  {
  }

  /** The window the source uses. From 30 seconds after the epoch on, exactly the codes of the
      three adjacent steps are accepted; in the first 30 seconds any six digits make it throw. */
  lemma ThreeSteps(hmac: Hmac, secret: string, code: string, now: int)
    requires now / 30 + 1 < COUNTERS
    ensures Verify(hmac, secret, code, now, 1) == Thrown <==>
        WellFormed(code) && (Decode(secret).None? || now < 30)
    ensures Decode(secret).Some? && now >= 30 ==>
              var step, key := now / 30, Decode(secret).value;
              (Verify(hmac, secret, code, now, 1) == Ok(true) <==>
                 code == CodeOf(hmac, key, step - 1) || code == CodeOf(hmac, key, step)
                     || code == CodeOf(hmac, key, step + 1))
  {
    if WellFormed(code) && (Decode(secret).None? || now < TOTP_STEP_SECONDS) {
      FirstStepThrows(hmac, secret, code, now);
    } else if Decode(secret).Some? && now >= TOTP_STEP_SECONDS {
      var key := Decode(secret).value;
      ScanMeans(hmac, secret, code, now, -1, 1);
      MatchesThree(hmac, key, code, now);
      MatchWellFormed(hmac, key, code, now);
    }
  }

  lemma FirstStepThrows(hmac: Hmac, secret: string, code: string, now: int)
    requires Decode(secret).None? || now < TOTP_STEP_SECONDS
    ensures Scan(hmac, secret, code, now, -1, 1) == Thrown
  {
    StepOf(now, -1);
  }

  lemma MatchesThree(hmac: Hmac, key: seq<byte>, code: string, now: int)
    requires now >= TOTP_STEP_SECONDS && now / TOTP_STEP_SECONDS + 1 < COUNTERS
    ensures var step := now / TOTP_STEP_SECONDS;
            Matches(hmac, key, code, now, -1, 1) <==>
            code == CodeOf(hmac, key, step - 1) || code == CodeOf(hmac, key, step)
                || code == CodeOf(hmac, key, step + 1)
  {
    var step := now / TOTP_STEP_SECONDS;
    assert step - 1 >= 0 && step + 1 < COUNTERS;
  }

  lemma MatchWellFormed(hmac: Hmac, key: seq<byte>, code: string, now: int)
    ensures Matches(hmac, key, code, now, -1, 1) ==> WellFormed(code)
  {
    if Matches(hmac, key, code, now, -1, 1) {
      var c: nat :| code == CodeOf(hmac, key, c);
      SixDigits(hmac, key, c);
    }
  }

  /** A code made anywhere within 30 seconds of the check, before or after, is accepted. */
  lemma CodesNearbyAccepted(hmac: Hmac, secret: string, now: int, made: int)
    requires now >= 30 && now / 30 + 1 < COUNTERS && Decode(secret).Some?
    requires now - 30 <= made <= now + 30
    ensures var code := Generate(hmac, secret, made);
            code.Ok? && Verify(hmac, secret, code.value, now, 1) == Ok(true)
  {
    var step := made / TOTP_STEP_SECONDS;
    assert now / TOTP_STEP_SECONDS - 1 <= step <= now / TOTP_STEP_SECONDS + 1;
    SixDigits(hmac, Decode(secret).value, step);
    ThreeSteps(hmac, secret, CodeOf(hmac, Decode(secret).value, step), now);
  }
}
