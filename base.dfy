/** Shared vocabulary of the helpdesk backend: optional values, identifiers,
    instants, the JavaScript notion of a "truthy" request field, the string
    setters the schemas apply (`trim`, `lowercase`) and the HTTP reply a
    controller sends. */
module Base {

  datatype Option<+T> = None | Some(value: T)

  /** A MongoDB identifier as it arrives in a URL parameter or a stored reference. */
  type ObjectId = string

  /** An instant, in milliseconds since the epoch (JavaScript `Date.now()`). */
  type Date = int

  /** The status code and `message` of a JSON reply `{response, message}`. */
  datatype Reply = Reply(status: nat, message: string)

  /** A read that either finds its document or answers with an error reply. */
  datatype Result<+T> = Ok(value: T) | Err(reply: Reply)

  const ServerError := "Error del servidor"
  const InvalidId := "ID no válido"

  predicate IsHexDigit(c: char) {
    '0' <= c <= '9' || 'a' <= c <= 'f' || 'A' <= c <= 'F'
  }

  /** `Types.ObjectId.isValid`: the shape of an identifier written as text,
      24 hexadecimal digits in either letter case. */
  predicate IsValidId(id: string) {
    |id| == 24 && forall i :: 0 <= i < |id| ==> IsHexDigit(id[i])
  }

  predicate IsLowerHexDigit(c: char) {
    '0' <= c <= '9' || 'a' <= c <= 'f'
  }

  /** An identifier as an ObjectId prints (`toString()`): 24 lower-case
      hexadecimal digits. Stored documents are keyed by this form. */
  predicate IsStoredId(id: string) {
    |id| == 24 && forall i :: 0 <= i < |id| ==> IsLowerHexDigit(id[i])
  }

  /** The document a valid identifier names. Casting text to an ObjectId
      decodes the hexadecimal digits, which ignores letter case, so the
      identifier is looked up in its lower-case printed form. */
  function IdKey(id: string): (k: ObjectId)
    requires IsValidId(id)
    ensures IsStoredId(k)
    ensures IsStoredId(id) ==> k == id
  {
    var k := ToLower(id);
    assert forall i :: 0 <= i < |k| ==> k[i] == LowerChar(id[i]);
    k
  }

  /** A stored key is itself a valid identifier that names itself. */
  lemma StoredIdKey(id: string)
    requires IsStoredId(id)
    ensures IsValidId(id) && IdKey(id) == id
  {
  }

  /** Identifiers that differ only in letter case name the same document. */
  lemma IdKeyIgnoresCase(a: string, b: string)
    requires IsValidId(a) && IsValidId(b) && ToLower(a) == ToLower(b)
    ensures IdKey(a) == IdKey(b)
  {
  }

  /** `String.prototype.length`: the number of UTF-16 code units, in which a
      character outside the Basic Multilingual Plane takes two. */
  function Utf16Length(s: string): (n: nat)
    ensures |s| <= n <= 2 * |s|
  {
    if s == [] then 0 else (if s[0] as int > 0xFFFF then 2 else 1) + Utf16Length(s[1..])
  }

  /** Within the Basic Multilingual Plane the length is the character count. */
  lemma {:induction false} Utf16LengthBmp(s: string)
    requires forall i :: 0 <= i < |s| ==> s[i] as int <= 0xFFFF
    ensures Utf16Length(s) == |s|
  {
    if s != [] {
      Utf16LengthBmp(s[1..]);
    }
  }

  /** Three emoji have length 6. */
  lemma Utf16LengthAstral()
    ensures Utf16Length("\U{1F600}\U{1F600}\U{1F600}") == 6
  {
  }

  /** A request-body field is truthy in JavaScript when it is present and is
      not the empty string (`!field` rejects `undefined` and `""`). */
  predicate Truthy(field: Option<string>) {
    field.Some? && field.value != ""
  }

  /** `field || fallback` for a string field: the supplied value when it is
      truthy, the fallback otherwise. */
  function OrElse(field: Option<string>, fallback: string): (r: string)
    ensures Truthy(field) ==> r == field.value
    ensures !Truthy(field) ==> r == fallback
  {
    if Truthy(field) then field.value else fallback
  }

  // ---------------------------------------------------------------------
  // The `trim: true` setter

  /** The white-space characters `String.prototype.trim` removes (the ASCII ones). */
  predicate IsSpace(c: char) {
    c == ' ' || c == '\t' || c == '\n' || c == '\r' || c == '\U{B}' || c == '\U{C}'
  }

  predicate AllSpace(s: string) {
    forall i :: 0 <= i < |s| ==> IsSpace(s[i])
  }

  predicate IsTrimmed(s: string) {
    s == [] || (!IsSpace(s[0]) && !IsSpace(s[|s| - 1]))
  }

  function TrimStart(s: string): string {
    if |s| > 0 && IsSpace(s[0]) then TrimStart(s[1..]) else s
  }

  function TrimEnd(s: string): string {
    if |s| > 0 && IsSpace(s[|s| - 1]) then TrimEnd(s[..|s| - 1]) else s
  }

  /** `trimStart` drops a prefix of white space and stops at the first other
      character. */
  lemma {:induction false} TrimStartSlice(s: string)
    ensures |TrimStart(s)| <= |s| && TrimStart(s) == s[|s| - |TrimStart(s)|..]
    ensures AllSpace(s[..|s| - |TrimStart(s)|])
    ensures TrimStart(s) == [] || !IsSpace(TrimStart(s)[0])
  {
    if |s| > 0 && IsSpace(s[0]) {
      TrimStartSlice(s[1..]);
      var r := TrimStart(s[1..]);
      assert s[1..][..|s| - 1 - |r|] == s[1..|s| - |r|];
    }
  }

  /** `trimEnd` drops a suffix of white space and stops at the last other
      character. */
  lemma {:induction false} TrimEndSlice(s: string)
    ensures |TrimEnd(s)| <= |s| && TrimEnd(s) == s[..|TrimEnd(s)|]
    ensures AllSpace(s[|TrimEnd(s)|..])
    ensures TrimEnd(s) == [] || !IsSpace(TrimEnd(s)[|TrimEnd(s)| - 1])
  {
    if |s| > 0 && IsSpace(s[|s| - 1]) {
      TrimEndSlice(s[..|s| - 1]);
      var r := TrimEnd(s[..|s| - 1]);
      assert s[..|s| - 1][|r|..] == s[|r|..|s| - 1];
      assert s[|r|..] == s[|r|..|s| - 1] + [s[|s| - 1]];
    }
  }

  /** `String.prototype.trim`. */
  function Trim(s: string): (r: string)
  {
    TrimEnd(TrimStart(s))
  }

  /** Where the trimmed value starts in the input. */
  function TrimOffset(s: string): (i: nat)
    ensures i <= |s| - |Trim(s)|
  {
    TrimStartSlice(s);
    TrimEndSlice(TrimStart(s));
    |s| - |TrimStart(s)|
  }

  /** What the setter stores is trimmed, is a slice of the input, and drops
      only white space on either side. */
  lemma TrimSlice(s: string)
    ensures IsTrimmed(Trim(s))
    ensures Trim(s) == s[TrimOffset(s)..TrimOffset(s) + |Trim(s)|]
    ensures AllSpace(s[..TrimOffset(s)]) && AllSpace(s[TrimOffset(s) + |Trim(s)|..])
  {
    var a := TrimStart(s);
    var r := TrimEnd(a);
    TrimStartSlice(s);
    TrimEndSlice(a);
    var i := |s| - |a|;
    assert r == s[i..i + |r|];
    assert s[i + |r|..] == a[|r|..];
    if r != [] {
      assert r[0] == a[0];
    }
  }

  /** Trimming an already trimmed value changes nothing, so the setter is idempotent. */
  lemma TrimIdempotent(s: string)
    ensures IsTrimmed(s) ==> Trim(s) == s
    ensures Trim(Trim(s)) == Trim(s)
  {
    TrimSlice(s);
    if IsTrimmed(s) { TrimOfTrimmed(s); }
    TrimOfTrimmed(Trim(s));
  }

  lemma TrimOfTrimmed(s: string)
    requires IsTrimmed(s)
    ensures Trim(s) == s
  {
    if s != [] {
      assert TrimStart(s) == s;
    }
  }

  /** What the setter stores is trimmed, and a value that is truthy before
      the setter runs is empty afterwards exactly when it held only white
      space (`"   "`). */
  lemma TrimEmptyIffAllSpace(s: string)
    ensures IsTrimmed(Trim(s))
    ensures Trim(s) == [] <==> AllSpace(s)
  {
    TrimSlice(s);
    if Trim(s) == [] {
      var i := TrimOffset(s);
      forall k | 0 <= k < |s| ensures IsSpace(s[k]) {
        if k < i {
          assert s[k] == s[..i][k];
        } else {
          assert s[k] == s[i..][k - i];
        }
      }
    }
  }

  /** A supplied value that the `trim` setter empties: truthy, yet only
      white space. */
  predicate Blank(field: Option<string>) {
    Truthy(field) && AllSpace(field.value)
  }

  /** `doc.f = field || doc.f` on a field with the `trim` setter, whose
      current value is required and trimmed: the new value is trimmed, it is
      empty exactly when the supplied value was blank, and a value that is
      not truthy leaves the field as it was. */
  lemma AssignTrimmed(field: Option<string>, current: string)
    requires current != "" && IsTrimmed(current)
    ensures IsTrimmed(Trim(OrElse(field, current)))
    ensures Trim(OrElse(field, current)) == "" <==> Blank(field)
    ensures !Truthy(field) ==> Trim(OrElse(field, current)) == current
  {
    var v := OrElse(field, current);
    TrimSlice(v);
    TrimEmptyIffAllSpace(v);
    TrimOfTrimmed(current);
    if !Truthy(field) {
      assert !IsSpace(current[0]);
    }
  }

  // ---------------------------------------------------------------------
  // The `lowercase: true` setter

  function LowerChar(c: char): (r: char)
    ensures IsSpace(r) <==> IsSpace(c)
    ensures !('A' <= r <= 'Z')
  {
    if 'A' <= c <= 'Z' then (c - 'A' + 'a') as char else c
  }

  /** `String.prototype.toLowerCase` on the ASCII letters. */
  function ToLower(s: string): (r: string)
    ensures |r| == |s|
    ensures forall i :: 0 <= i < |s| ==> r[i] == LowerChar(s[i])
    ensures IsLower(r)
    ensures IsLower(s) ==> r == s
  {
    seq(|s|, i requires 0 <= i < |s| => LowerChar(s[i]))
  }

  /** The value stored in a field declared `lowercase: true, trim: true`. */
  function NormalizeEmail(email: string): (r: string)
  {
    Trim(ToLower(email))
  }

  /** Normalising a normalised address changes nothing: a stored address is
      found again by a lookup that normalises its argument. */
  lemma {:induction false} NormalizeIdempotent(email: string)
    ensures NormalizeEmail(NormalizeEmail(email)) == NormalizeEmail(email)
  {
    var l := ToLower(email);
    var t := Trim(l);
    assert NormalizeEmail(email) == t;
    TrimSlice(l);
    var i := TrimOffset(l);
    assert t == l[i..i + |t|];
    LowerOfSliceOfLower(email, i, i + |t|);
    assert ToLower(t) == t;
    TrimOfTrimmed(t);
  }

  /** No upper-case ASCII letter: what the `lowercase` setter leaves. */
  predicate IsLower(s: string) {
    forall i :: 0 <= i < |s| ==> !('A' <= s[i] <= 'Z')
  }

  /** An address as the `lowercase` and `trim` setters store it. */
  predicate IsNormalized(s: string) {
    IsTrimmed(s) && IsLower(s)
  }

  /** What the setters store is in normal form, and normalising a value in
      normal form changes nothing. */
  lemma NormalizedForm(email: string)
    ensures IsNormalized(NormalizeEmail(email))
    ensures IsNormalized(email) ==> NormalizeEmail(email) == email
  {
    var l := ToLower(email);
    TrimSlice(l);
    var i := TrimOffset(l);
    var t := Trim(l);
    forall k | 0 <= k < |t| ensures !('A' <= t[k] <= 'Z') {
      assert t[k] == l[i + k];
    }
    if IsNormalized(email) {
      assert l == email;
      TrimOfTrimmed(email);
    }
  }

  lemma LowerOfSliceOfLower(s: string, i: nat, j: nat)
    requires i <= j <= |s|
    ensures ToLower(ToLower(s)[i..j]) == ToLower(s)[i..j]
  {
    var t := ToLower(s)[i..j];
    forall k | 0 <= k < |t| ensures ToLower(t)[k] == t[k] {
      assert t[k] == LowerChar(s[i + k]);
    }
  }
}
