/**
 * The file-name validator of the Rust port.  Its rules run in a fixed order
 * and the first one that fails decides the reported reason.
 */
module Filename {
  datatype Rejection = Empty | ReservedName | ForbiddenChar | BadEnd | BadStart | TooLong
  datatype Verdict = Valid | Invalid(reason: Rejection)

  /** Windows device names, compared after ASCII upper-casing. */
  const RESERVED: seq<string> := ["CON", "PRN", "AUX", "NUL",
    "COM1", "COM2", "COM3", "COM4", "COM5", "COM6", "COM7", "COM8", "COM9",
    "LPT1", "LPT2", "LPT3", "LPT4", "LPT5", "LPT6", "LPT7", "LPT8", "LPT9"]

  const FORBIDDEN: set<char> := {'\\', '/', ':', '*', '?', '"', '<', '>', '|'}

  const MAX_BYTES: nat := 255

  function AsciiUpper(c: char): char
  {
    if 'a' <= c <= 'z' then (c as int - 32) as char else c
  }

  function AsciiUpperString(s: string): (r: string)
    ensures |r| == |s|
    ensures forall i | 0 <= i < |s| :: r[i] == AsciiUpper(s[i])
  {
    if |s| == 0 then [] else [AsciiUpper(s[0])] + AsciiUpperString(s[1..])
  }

  /** Unicode's White_Space property, which Rust's `char::is_whitespace` tests. */
  predicate IsUnicodeWhitespace(c: char)
  {
    var n := c as int;
    (0x09 <= n <= 0x0D) || n == 0x20 || n == 0x85 || n == 0xA0 || n == 0x1680
    || (0x2000 <= n <= 0x200A) || n == 0x2028 || n == 0x2029 || n == 0x202F
    || n == 0x205F || n == 0x3000
  }

  /** Bytes of the UTF-8 encoding of one scalar value. */
  function Utf8Width(c: char): (w: nat)
    ensures 1 <= w <= 4
    ensures (c as int < 0x80) <==> w == 1
  {
    if c as int < 0x80 then 1
    else if c as int < 0x800 then 2
    else if c as int < 0x1_0000 then 3
    else 4
  }

  /** `str::len`: the length in bytes of the UTF-8 encoding. */
  function Utf8Length(s: string): (n: nat)
    ensures |s| <= n <= 4 * |s|
  {
    if |s| == 0 then 0 else Utf8Width(s[0]) + Utf8Length(s[1..])
  }

  function HasForbiddenChar(s: string): (b: bool)
    ensures b <==> exists i | 0 <= i < |s| :: s[i] in FORBIDDEN
  {
    if |s| == 0 then false
    else if s[0] in FORBIDDEN then true
    else
      assert forall i | 1 <= i < |s| :: s[i] == s[1..][i - 1];
      HasForbiddenChar(s[1..])
  }

  function IsValidFilename(name: string): (v: Verdict)
    ensures v == Invalid(Empty) <==> |name| == 0
    ensures v.Valid? ==> |name| > 0 && Utf8Length(name) <= MAX_BYTES
    ensures v.Valid? ==> forall i | 0 <= i < |name| :: name[i] !in FORBIDDEN
    ensures v.Valid? ==> name[0] != '.' && !IsUnicodeWhitespace(name[0])
    ensures v.Valid? ==> name[|name| - 1] != '.' && !IsUnicodeWhitespace(name[|name| - 1])
    ensures v.Valid? ==> AsciiUpperString(name) !in RESERVED
  {
    if |name| == 0 then Invalid(Empty)
    else if AsciiUpperString(name) in RESERVED then Invalid(ReservedName)
    else if HasForbiddenChar(name) then Invalid(ForbiddenChar)
    else if IsUnicodeWhitespace(name[|name| - 1]) || name[|name| - 1] == '.' then Invalid(BadEnd)
    else if name[0] == '.' || IsUnicodeWhitespace(name[0]) then Invalid(BadStart)
    else if Utf8Length(name) > MAX_BYTES then Invalid(TooLong)
    else Valid
  }

  /** Every rule, stated declaratively; a name is accepted exactly when all of them hold. */
  predicate Acceptable(name: string)
  {
    && |name| > 0
    && AsciiUpperString(name) !in RESERVED
    && (forall i | 0 <= i < |name| :: name[i] !in FORBIDDEN)
    && name[|name| - 1] != '.' && !IsUnicodeWhitespace(name[|name| - 1])
    && name[0] != '.' && !IsUnicodeWhitespace(name[0])
    && Utf8Length(name) <= MAX_BYTES
  }

  lemma ValidIffAcceptable(name: string)
    ensures IsValidFilename(name).Valid? <==> Acceptable(name)
  {
  }

  /** The rules are ordered: a later reason is reported only when all earlier rules pass. */
  lemma FirstFailingRuleWins(name: string)
    ensures IsValidFilename(name) == Invalid(ReservedName) ==> |name| > 0
    ensures IsValidFilename(name) == Invalid(ForbiddenChar) ==> |name| > 0 && AsciiUpperString(name) !in RESERVED
    ensures IsValidFilename(name) == Invalid(BadEnd) ==>
      |name| > 0 && AsciiUpperString(name) !in RESERVED && (forall i | 0 <= i < |name| :: name[i] !in FORBIDDEN)
    ensures IsValidFilename(name) == Invalid(BadStart) ==>
      && |name| > 0 && AsciiUpperString(name) !in RESERVED && (forall i | 0 <= i < |name| :: name[i] !in FORBIDDEN)
      && name[|name| - 1] != '.' && !IsUnicodeWhitespace(name[|name| - 1])
    ensures IsValidFilename(name) == Invalid(TooLong) ==>
      && |name| > 0 && AsciiUpperString(name) !in RESERVED && (forall i | 0 <= i < |name| :: name[i] !in FORBIDDEN)
      && name[|name| - 1] != '.' && !IsUnicodeWhitespace(name[|name| - 1])
      && name[0] != '.' && !IsUnicodeWhitespace(name[0])
  {
    if |name| == 0 {
    } else if AsciiUpperString(name) in RESERVED {
    } else if HasForbiddenChar(name) {
    } else if IsUnicodeWhitespace(name[|name| - 1]) || name[|name| - 1] == '.' {
    } else if name[0] == '.' || IsUnicodeWhitespace(name[0]) {
    }
  }

  /** Device names are rejected whatever their letter case. */
  lemma ReservedAnyCase()
    ensures IsValidFilename("con") == Invalid(ReservedName)
    ensures IsValidFilename("Lpt7") == Invalid(ReservedName)
  {
    assert AsciiUpperString("con") == "CON" == RESERVED[0];
    assert AsciiUpperString("Lpt7") == "LPT7" == RESERVED[19];
  }

  lemma ReservedAreShort()
    ensures forall s | s in RESERVED :: |s| <= 4
  {
  }

  /** For ASCII text the byte length is the character count. */
  lemma {:induction false} AsciiUtf8Length(s: string)
    requires forall i | 0 <= i < |s| :: s[i] as int < 0x80
    ensures Utf8Length(s) == |s|
  {
    if |s| > 0 {
      assert forall i | 0 <= i < |s[1..]| :: s[1..][i] == s[i + 1];
      AsciiUtf8Length(s[1..]);
    }
  }

  lemma UpperLength(s: string)
    ensures |AsciiUpperString(s)| == |s|
  {
  }

  /** Only the whole name is compared: an extension makes a device name acceptable. */
  lemma ExtensionIsNotReserved(name: string)
    requires name == "con.txt"
    ensures IsValidFilename(name).Valid?
  {
    ConTxtIsNotADevice(name);
    ConTxtHasNoForbiddenChar(name);
    ConTxtBytes(name);
    assert name[0] == 'c' && name[|name| - 1] == 't';
  }

  lemma ConTxtIsNotADevice(name: string)
    requires name == "con.txt"
    ensures AsciiUpperString(name) !in RESERVED
  {
    ReservedAreShort();
    UpperLength(name);
  }

  lemma ConTxtHasNoForbiddenChar(name: string)
    requires name == "con.txt"
    ensures !HasForbiddenChar(name)
  {
    assert forall i | 0 <= i < |name| :: name[i] in "con.txt";
  }

  lemma ConTxtBytes(name: string)
    requires name == "con.txt"
    ensures Utf8Length(name) <= MAX_BYTES
  {
  }
}
