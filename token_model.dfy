/** The confirmation `Token` schema and the 6-digit codes it carries.

    The schema declares `createdAt: { default: Date.now(), expires: '10m' }`.
    `Date.now()` is called once, when the schema is defined, so every token
    receives the same `createdAt`: the instant the server loaded the schema.
    The store's time-to-live index removes a token once `createdAt` is ten
    minutes old, which here means ten minutes after that one instant. */
module TokenModel {
  import opened Base

  /** `expires: '10m'`, in milliseconds. */
  const TenMinutes: int := 10 * 60 * 1000

  datatype Token = Token(token: string, user: ObjectId, createdAt: Date)

  /** The time-to-live index has removed the token: `createdAt` is ten
      minutes old. */
  predicate Expired(t: Token, now: Date) {
    now >= t.createdAt + TenMinutes
  }

  /** `new Token({token, user})`: `createdAt` takes the default computed when
      the schema was defined (`schemaLoadedAt`), not the current time. */
  function New(code: string, user: ObjectId, schemaLoadedAt: Date): (t: Token)
    ensures t.token == code && t.user == user
    ensures forall now :: Expired(t, now) <==> now >= schemaLoadedAt + TenMinutes
  {
    Token(code, user, schemaLoadedAt)
  }

  // ---------------------------------------------------------------------
  // Codes: `Math.floor(100000 + Math.random() * 900000).toString()`

  /** The number of distinct values `Math.floor(Math.random() * 900000)` can take. */
  const CodeRange: nat := 900000

  function DigitChar(d: nat): (c: char)
    requires d < 10
  {
    ('0' as int + d) as char
  }

  predicate IsDigitChar(c: char) {
    '0' <= c <= '9'
  }

  function DigitValue(c: char): nat
    requires IsDigitChar(c)
  {
    (c as int - '0' as int)
  }

  /** `Number.prototype.toString()` for a natural number. */
  function DecimalString(n: nat): (r: string)
    ensures |r| >= 1
    ensures forall i :: 0 <= i < |r| ==> IsDigitChar(r[i])
    ensures n >= 10 ==> r[0] != '0'
  {
    if n < 10 then [DigitChar(n)] else DecimalString(n / 10) + [DigitChar(n % 10)]
  }

  /** Reads a string of decimal digits back as a number. */
  function ParseDecimal(s: string): nat
    requires forall i :: 0 <= i < |s| ==> IsDigitChar(s[i])
  {
    if s == [] then 0 else 10 * ParseDecimal(s[..|s| - 1]) + DigitValue(s[|s| - 1])
  }

  /** Printing a number in decimal loses nothing. */
  lemma {:induction false} ParseDecimalString(n: nat)
    ensures ParseDecimal(DecimalString(n)) == n
  {
    var r := DecimalString(n);
    if n >= 10 {
      ParseDecimalString(n / 10);
      assert r[..|r| - 1] == DecimalString(n / 10);
    }
  }

  function Pow10(k: nat): (p: nat)
    ensures p >= 1
  {
    if k == 0 then 1 else 10 * Pow10(k - 1)
  }

  /** A number with k digits prints as k characters. */
  lemma {:induction false} DecimalLength(n: nat, k: nat)
    requires k >= 1 && Pow10(k - 1) <= n < Pow10(k)
    ensures |DecimalString(n)| == k
  {
    if k > 1 {
      assert Pow10(k - 2) <= n / 10 < Pow10(k - 1);
      DecimalLength(n / 10, k - 1);
    } else {
      assert n < 10;
    }
  }

  /** `generateToken()`, given the value `Math.floor(Math.random() * 900000)` drew. */
  function GenerateCode(draw: nat): string
    requires draw < CodeRange
  {
    DecimalString(100000 + draw)
  }

  predicate IsSixDigitCode(code: string) {
    |code| == 6 && (forall i :: 0 <= i < 6 ==> IsDigitChar(code[i])) && code[0] != '0'
  }

  /** Every generated code is six decimal digits without a leading zero, and
      different draws give different codes (so the code determines the draw). */
  lemma GeneratedCode(draw: nat)
    requires draw < CodeRange
    ensures IsSixDigitCode(GenerateCode(draw))
    ensures ParseDecimal(GenerateCode(draw)) == 100000 + draw
  {
    assert Pow10(5) == 100000 && Pow10(6) == 1000000;
    DecimalLength(100000 + draw, 6);
    ParseDecimalString(100000 + draw);
  }
}
