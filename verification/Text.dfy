/** Error texts as the worker stores them: the byte-level helper `safeMessage`
    and what its cut at 300 bytes means for UTF-8 text (RFC 3629, section 4). */
module Text {
  newtype byte = x: int | 0 <= x < 256

  type Bytes = seq<byte>

  const NEWLINE: byte := 10
  const SPACE: byte := 32
  const MAX_MESSAGE := 300

  datatype Option<+T> = None | Some(value: T)

  function Flatten(message: Bytes): Bytes {
    seq(|message|, i requires 0 <= i < |message| => if message[i] == NEWLINE then SPACE else message[i])
  }

  /** The text kept for an error; no error keeps the empty text. */
  function SafeMessage(error: Option<Bytes>): Bytes {
    match error
    case None => []
    case Some(message) =>
      var flat := Flatten(message);
      if |flat| > MAX_MESSAGE then flat[..MAX_MESSAGE] else flat
  }

  lemma SafeMessageShape(message: Bytes)
    ensures var r := SafeMessage(Some(message));
            && |r| == (if |message| <= 300 then |message| else 300)
            && (forall i :: 0 <= i < |r| && message[i] != 10 ==> r[i] == message[i])
            && (forall i :: 0 <= i < |r| && message[i] == 10 ==> r[i] == 32)
            && NEWLINE !in r && 10 !in r
            && (r == [] <==> message == [])
            && SafeMessage(Some(r)) == r
  {
    var r := SafeMessage(Some(message));
    assert Flatten(r) == r;
  }

  predicate Continuation(b: byte) { 0x80 <= b <= 0xBF }

  /** Length of the UTF-8 character that starts at the front of `m`; 0 when there is none. */
  function CharLength(m: Bytes): (n: nat)
    ensures n <= |m|
    ensures n > 0 ==> !Continuation(m[0]) && (forall i :: 1 <= i < n ==> Continuation(m[i]))
  {
    if |m| == 0 then 0
    else if m[0] < 0x80 then 1
    else if 0xC2 <= m[0] <= 0xDF && |m| >= 2 && Continuation(m[1]) then 2
    else if 0xE0 <= m[0] <= 0xEF && |m| >= 3 && Continuation(m[1]) && Continuation(m[2])
         && (m[0] == 0xE0 ==> m[1] >= 0xA0) && (m[0] == 0xED ==> m[1] <= 0x9F) then 3
    else if 0xF0 <= m[0] <= 0xF4 && |m| >= 4 && Continuation(m[1]) && Continuation(m[2]) && Continuation(m[3])
         && (m[0] == 0xF0 ==> m[1] >= 0x90) && (m[0] == 0xF4 ==> m[1] <= 0x8F) then 4
    else 0
  }

  /** The Unicode scalar values: the code points without the surrogates. */
  predicate Scalar(u: int) { 0 <= u <= 0x10FFFF && !(0xD800 <= u <= 0xDFFF) }

  /** Their UTF-8 form: seven bits in one byte, and six bits in every byte after the first of a longer one. */
  function Encoded(u: int): Bytes
    requires Scalar(u)
  {
    if u < 0x80 then [u as byte]
    else if u < 0x800 then [(0xC0 + u / 64) as byte, (0x80 + u % 64) as byte]
    else if u < 0x10000 then [(0xE0 + u / 4096) as byte, (0x80 + u / 64 % 64) as byte, (0x80 + u % 64) as byte]
    else [(0xF0 + u / 262144) as byte, (0x80 + u / 4096 % 64) as byte, (0x80 + u / 64 % 64) as byte,
          (0x80 + u % 64) as byte]
  }

  function EncodedText(us: seq<int>): Bytes
    requires forall i :: 0 <= i < |us| ==> Scalar(us[i])
  {
    if us == [] then [] else Encoded(us[0]) + EncodedText(us[1..])
  }

  lemma EncodedStarts(u: int, rest: Bytes)
    requires Scalar(u)
    ensures CharLength(Encoded(u) + rest) == |Encoded(u)|
  {
  }

  /** The scalar value at the front of a text that starts with a character. */
  function FirstScalar(m: Bytes): int
    requires CharLength(m) > 0
  {
    match CharLength(m)
    case 1 => m[0] as int
    case 2 => (m[0] as int - 0xC0) * 64 + (m[1] as int - 0x80)
    case 3 => (m[0] as int - 0xE0) * 4096 + (m[1] as int - 0x80) * 64 + (m[2] as int - 0x80)
    case _ => (m[0] as int - 0xF0) * 262144 + (m[1] as int - 0x80) * 4096 + (m[2] as int - 0x80) * 64
              + (m[3] as int - 0x80)
  }

  lemma FirstScalarIs(m: Bytes)
    requires CharLength(m) > 0
    ensures Scalar(FirstScalar(m)) && m[..CharLength(m)] == Encoded(FirstScalar(m))
  {
    match CharLength(m)
    case 1 =>
    case 2 => TwoBytes(m[0], m[1]);
    case 3 => ThreeBytes(m[0], m[1], m[2]);
    case _ => FourBytes(m[0], m[1], m[2], m[3]);
  }

  lemma Sixes(a: nat, b: nat)
    requires b < 64
    ensures (a * 64 + b) / 64 == a && (a * 64 + b) % 64 == b
  {
  }

  lemma TwoBytes(a: byte, b: byte)
    requires 0xC2 <= a <= 0xDF && Continuation(b)
    ensures var u := (a as int - 0xC0) * 64 + (b as int - 0x80);
            0x80 <= u < 0x800 && Encoded(u) == [a, b]
  {
    Sixes(a as int - 0xC0, b as int - 0x80);
  }

  lemma ThreeBytes(a: byte, b: byte, c: byte)
    requires 0xE0 <= a <= 0xEF && Continuation(b) && Continuation(c)
    requires (a == 0xE0 ==> b >= 0xA0) && (a == 0xED ==> b <= 0x9F)
    ensures var u := (a as int - 0xE0) * 4096 + (b as int - 0x80) * 64 + (c as int - 0x80);
            0x800 <= u < 0x10000 && Scalar(u) && Encoded(u) == [a, b, c]
  {
    var x, y, z := a as int - 0xE0, b as int - 0x80, c as int - 0x80;
    Sixes(x * 64 + y, z);
    Sixes(x, y);
    var u := x * 4096 + y * 64 + z;
    assert u / 64 == x * 64 + y && u / 4096 == u / 64 / 64;
  }

  lemma FourBytes(a: byte, b: byte, c: byte, d: byte)
    requires 0xF0 <= a <= 0xF4 && Continuation(b) && Continuation(c) && Continuation(d)
    requires (a == 0xF0 ==> b >= 0x90) && (a == 0xF4 ==> b <= 0x8F)
    ensures var u := (a as int - 0xF0) * 262144 + (b as int - 0x80) * 4096 + (c as int - 0x80) * 64 + (d as int - 0x80);
            0x10000 <= u <= 0x10FFFF && Encoded(u) == [a, b, c, d]
  {
    var w, x, y, z := a as int - 0xF0, b as int - 0x80, c as int - 0x80, d as int - 0x80;
    Sixes((w * 64 + x) * 64 + y, z);
    Sixes(w * 64 + x, y);
    Sixes(w, x);
    var u := w * 262144 + x * 4096 + y * 64 + z;
    assert u / 64 == (w * 64 + x) * 64 + y && u / 4096 == u / 64 / 64 && u / 262144 == u / 4096 / 64;
  }

  predicate ValidUtf8(m: Bytes) {
    m == [] || (CharLength(m) > 0 && ValidUtf8(m[CharLength(m)..]))
  }

  lemma {:induction false} EncodedIsValid(us: seq<int>)
    requires forall i :: 0 <= i < |us| ==> Scalar(us[i])
    ensures ValidUtf8(EncodedText(us))
  {
    if us != [] {
      var rest := EncodedText(us[1..]);
      EncodedIsValid(us[1..]);
      EncodedStarts(us[0], rest);
      assert (Encoded(us[0]) + rest)[|Encoded(us[0])|..] == rest;
    }
  }

  lemma {:induction false} ValidIsEncoded(m: Bytes) returns (us: seq<int>)
    requires ValidUtf8(m)
    ensures (forall i :: 0 <= i < |us| ==> Scalar(us[i])) && EncodedText(us) == m
  {
    if m == [] {
      us := [];
    } else {
      var n := CharLength(m);
      var rest := ValidIsEncoded(m[n..]);
      FirstScalarIs(m);
      us := [FirstScalar(m)] + rest;
      assert us[1..] == rest && m == m[..n] + m[n..];
    }
  }

  /** Valid UTF-8 is what some sequence of Unicode scalar values is encoded as, and nothing else. */
  lemma ValidUtf8Iff(m: Bytes)
    ensures ValidUtf8(m) <==> exists us :: (forall i :: 0 <= i < |us| ==> Scalar(us[i])) && EncodedText(us) == m
  {
    if ValidUtf8(m) {
      var us := ValidIsEncoded(m);
    }
    forall us: seq<int> | (forall i :: 0 <= i < |us| ==> Scalar(us[i])) && EncodedText(us) == m
      ensures ValidUtf8(m)
    {
      EncodedIsValid(us);
    }
  }

  lemma {:induction false} FlattenKeepsUtf8(m: Bytes)
    requires ValidUtf8(m)
    ensures ValidUtf8(Flatten(m))
  {
    if m != [] {
      var n := CharLength(m);
      FlattenKeepsUtf8(m[n..]);
      assert Flatten(m)[n..] == Flatten(m[n..]);
      assert forall i :: 0 <= i < |m| && m[i] >= 0x80 ==> Flatten(m)[i] == m[i];
      assert CharLength(Flatten(m)) == n;
    }
  }

  lemma SliceOfSlice(m: Bytes, n: nat, k: nat)
    requires n <= k <= |m|
    ensures m[..k][n..] == m[n..][..k - n]
  {
  }

  /** Valid text cut at `k` stays valid exactly when the cut does not fall inside a character. */
  lemma {:induction false} CutUtf8(m: Bytes, k: nat)
    requires ValidUtf8(m) && k < |m|
    ensures ValidUtf8(m[..k]) <==> !Continuation(m[k])
  {
    var n := CharLength(m);
    if k >= n {
      SliceOfSlice(m, n, k);
      assert CharLength(m[..k]) == n;
      if k > n {
        CutUtf8(m[n..], k - n);
      } else {
        assert m[n..][0] == m[k];
        assert CharLength(m[n..]) > 0;
        assert m[..k][n..] == [];
      }
    } else if k > 0 {
      assert CharLength(m[..k]) == 0;
    }
  }

  /** A valid UTF-8 error text is kept as valid UTF-8 exactly when byte 300, if there is one,
      starts a character. */
  lemma SafeMessageUtf8(message: Bytes)
    requires ValidUtf8(message)
    ensures ValidUtf8(SafeMessage(Some(message))) <==> (|message| <= 300 || !Continuation(message[300]))
  {
    FlattenKeepsUtf8(message);
    if |message| > 300 {
      CutUtf8(Flatten(message), 300);
    }
  }

  /** What PostgreSQL takes as the value of a text column: valid UTF-8 without a zero byte. */
  predicate Storable(text: Bytes) { ValidUtf8(text) && 0 !in text }

  /** The text kept for a valid error can be stored exactly when byte 300, if there is one, starts a character, and
      none of the bytes before it is zero. */
  lemma StorableIff(message: Bytes)
    requires ValidUtf8(message)
    ensures Storable(SafeMessage(Some(message))) <==>
            (|message| <= 300 || !Continuation(message[300]))
            && forall i :: 0 <= i < |message| && i < 300 ==> message[i] != 0
  {
    SafeMessageUtf8(message);
    var r := SafeMessage(Some(message));
    assert forall i :: 0 <= i < |r| ==> (r[i] == 0 <==> message[i] == 0);
  }

  /** Text of 7-bit characters; anything else becomes a question mark. */
  function Ascii(text: string): (r: Bytes)
    ensures |r| == |text| && forall i :: 0 <= i < |r| ==> r[i] < 0x80 && (r[i] == 0 <==> text[i] == '\0')
    ensures forall i :: 0 <= i < |r| && text[i] as int < 128 ==> r[i] as int == text[i] as int
  {
    seq(|text|, i requires 0 <= i < |text| => if text[i] < 128 as char then text[i] as byte else 63)
  }

  lemma {:induction false} AsciiThenValid(a: Bytes, m: Bytes)
    requires (forall i :: 0 <= i < |a| ==> a[i] < 0x80) && ValidUtf8(m)
    ensures ValidUtf8(a + m)
    decreases |a|
  {
    if a == [] {
      assert a + m == m;
    } else {
      AsciiThenValid(a[1..], m);
      assert (a + m)[0] == a[0] && (a + m)[1..] == a[1..] + m;
    }
  }

  const RETRIES_FAILED := "integration failed after retries: "

  lemma RetriesFailedPlain()
    ensures |Ascii(RETRIES_FAILED)| == 34 && 0 !in Ascii(RETRIES_FAILED)
  {
    assert '\0' !in RETRIES_FAILED;
  }

  /** The same for a detail after a plain prefix. */
  lemma PrefixedStorableIff(prefix: Bytes, detail: Bytes)
    requires |prefix| <= 300 && 0 !in prefix && forall i :: 0 <= i < |prefix| ==> prefix[i] < 0x80
    requires ValidUtf8(detail)
    ensures var room := 300 - |prefix|;
            Storable(SafeMessage(Some(prefix + detail))) <==>
            (|detail| <= room || !Continuation(detail[room]))
            && forall i :: 0 <= i < |detail| && i < room ==> detail[i] != 0
  {
    var message := prefix + detail;
    AsciiThenValid(prefix, detail);
    StorableIff(message);
    assert forall i :: 0 <= i < |detail| ==> message[|prefix| + i] == detail[i];
    assert forall i :: |prefix| <= i < |message| ==> message[i] == detail[i - |prefix|];
  }

  function Letters(n: nat): Bytes { seq(n, _ => 97) }

  const CALL_FAILED :=
    "Post \"http://integration-simulator:8082/api/v1/process\": "
    + "net/http: HTTP/1.x transport connection broken: malformed HTTP response \""

  /** The error of a last call that was answered with a long line instead of an HTTP response; byte 265 starts its
      two-byte character. */
  function LongDetail(): Bytes {
    Ascii(CALL_FAILED) + (Letters(265 - |CALL_FAILED|) + ([0xC3, 0xA9] + Ascii("\"")))
  }

  lemma LongDetailValid()
    ensures ValidUtf8(LongDetail()) && |LongDetail()| == 268 && LongDetail()[266] == 0xA9
  {
    var accent: Bytes := [0xC3, 0xA9] + Ascii("\"");
    assert accent[2..] == Ascii("\"") && CharLength(accent) == 2;
    assert Ascii("\"")[1..] == [] && CharLength(Ascii("\"")) == 1;
    AsciiThenValid(Letters(265 - |CALL_FAILED|), accent);
    AsciiThenValid(Ascii(CALL_FAILED), Letters(265 - |CALL_FAILED|) + accent);
  }

  /** An error of the integration client, valid UTF-8, whose kept form is not: byte 300 is the second of a character. */
  lemma SafeMessageSplitsCharacter()
    ensures var message := Ascii(RETRIES_FAILED) + LongDetail();
            ValidUtf8(message) && !ValidUtf8(SafeMessage(Some(message)))
  {
    var message := Ascii(RETRIES_FAILED) + LongDetail();
    LongDetailValid();
    AsciiThenValid(Ascii(RETRIES_FAILED), LongDetail());
    assert |RETRIES_FAILED| == 34 && message[300] == 0xA9;
    SafeMessageUtf8(message);
  }
}
