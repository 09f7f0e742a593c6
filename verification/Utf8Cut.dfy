/**
 `decode` of `review.rs`: a diff read up to a byte cap, as text cut at a character
 boundary. Text is what the encoder of section 3 of RFC 3629 produces; what a byte string
 begins with is told by the grammar of section 4, and the two are proved to agree.
 */
module Utf8Cut {
  import opened Wrappers

  type Byte = b: int | 0 <= b < 256

  type Scalar = c: int | 0 <= c <= 0x10_FFFF && !(0xD800 <= c <= 0xDFFF)

  // -- The encoder -----------------------------------------------------------

  function EncodeOne(c: Scalar): (bytes: seq<Byte>)
    ensures 1 <= |bytes| <= 4
  {
    if c < 0x80 then [c]
    else if c < 0x800 then [0xC0 + c / 64, 0x80 + c % 64]
    else if c < 0x1_0000 then [0xE0 + c / 64 / 64, 0x80 + c / 64 % 64, 0x80 + c % 64]
    else [0xF0 + c / 64 / 64 / 64, 0x80 + c / 64 / 64 % 64, 0x80 + c / 64 % 64, 0x80 + c % 64]
  }

  function Encode(cs: seq<Scalar>): seq<Byte> {
    if cs == [] then [] else EncodeOne(cs[0]) + Encode(cs[1..])
  }

  // -- The grammar -----------------------------------------------------------

  predicate Tail(b: Byte) {
    0x80 <= b <= 0xBF
  }

  /** The second byte a three-byte character may have after `b`. */
  predicate SecondOfThree(b: Byte, t: Byte) {
    if b == 0xE0 then 0xA0 <= t <= 0xBF else if b == 0xED then 0x80 <= t <= 0x9F else Tail(t)
  }

  predicate SecondOfFour(b: Byte, t: Byte) {
    if b == 0xF0 then 0x90 <= t <= 0xBF else if b == 0xF4 then 0x80 <= t <= 0x8F else Tail(t)
  }

  /** The length of the character `s` begins with, or 0 when it begins with none. */
  function CharLength(s: seq<Byte>): (n: nat)
    ensures n <= 4 && n <= |s|
  {
    if |s| >= 1 && s[0] <= 0x7F then 1
    else if |s| >= 2 && 0xC2 <= s[0] <= 0xDF && Tail(s[1]) then 2
    else if |s| >= 3 && 0xE0 <= s[0] <= 0xEF && SecondOfThree(s[0], s[1]) && Tail(s[2]) then 3
    else if |s| >= 4 && 0xF0 <= s[0] <= 0xF4 && SecondOfFour(s[0], s[1]) && Tail(s[2]) && Tail(s[3]) then 4
    else 0
  }

  /** How far `s` reads as whole characters. */
  function ValidUpTo(s: seq<Byte>): (n: nat)
    ensures n <= |s|
    decreases |s|
  {
    var n := CharLength(s);
    if n == 0 then 0 else n + ValidUpTo(s[n..])
  }

  predicate IsText(s: seq<Byte>) {
    ValidUpTo(s) == |s|
  }

  /** The scalar value the first `CharLength(s)` bytes stand for. */
  function DecodeOne(s: seq<Byte>): (c: Scalar)
    requires CharLength(s) > 0
  {
    if CharLength(s) == 1 then s[0]
    else if CharLength(s) == 2 then Join(Low(s, 0, 0xC0), Low(s, 1, 0x80))
    else if CharLength(s) == 3 then Join(Join(Low(s, 0, 0xE0), Low(s, 1, 0x80)), Low(s, 2, 0x80))
    else Join(Join(Join(Low(s, 0, 0xF0), Low(s, 1, 0x80)), Low(s, 2, 0x80)), Low(s, 3, 0x80))
  }

  /** A byte's bits below its marker. */
  function Low(s: seq<Byte>, i: nat, marker: int): int
    requires i < |s|
  {
    s[i] as int - marker
  }

  function Join(hi: int, lo: int): (c: int)
    ensures 0 <= lo < 64 ==> c / 64 == hi && c % 64 == lo
  {
    64 * hi + lo
  }

  /** The characters of the grammar are the encoder's: each is the encoding of its scalar value. */
  lemma DecodedEncodes(s: seq<Byte>)
    requires CharLength(s) > 0
    ensures EncodeOne(DecodeOne(s)) == s[..CharLength(s)]
  {
    var n, c := CharLength(s), DecodeOne(s);
    if n == 4 {
      FourEncode(s, c);
    }
  }

  lemma FourEncode(s: seq<Byte>, c: Scalar)
    requires CharLength(s) == 4 && c == DecodeOne(s)
    ensures EncodeOne(c) == s[..4]
  {
    var top := Join(Low(s, 0, 0xF0), Low(s, 1, 0x80));
    var high := Join(top, Low(s, 2, 0x80));
    assert c == Join(high, Low(s, 3, 0x80));
    assert c >= 0x1_0000;
    assert EncodeOne(c)[0] == s[0];
    assert EncodeOne(c)[1] == s[1];
    assert EncodeOne(c)[2] == s[2];
    assert EncodeOne(c)[3] == s[3];
  }

  /** An encoded scalar is a character of the grammar, whatever follows it. */
  lemma EncodedParses(c: Scalar, rest: seq<Byte>)
    ensures CharLength(EncodeOne(c) + rest) == |EncodeOne(c)|
  {
  }

  // -- Text is what was encoded ----------------------------------------------

  lemma {:induction false} EncodedIsValid(cs: seq<Scalar>, rest: seq<Byte>)
    ensures ValidUpTo(Encode(cs) + rest) == |Encode(cs)| + ValidUpTo(rest)
  {
    if cs == [] {
      assert Encode(cs) + rest == rest;
    } else {
      var first := EncodeOne(cs[0]);
      assert Encode(cs) + rest == first + (Encode(cs[1..]) + rest);
      EncodedParses(cs[0], Encode(cs[1..]) + rest);
      EncodedIsValid(cs[1..], rest);
    }
  }

  function ScalarsOf(s: seq<Byte>): seq<Scalar>
    requires IsText(s)
    decreases |s|
  {
    if s == [] then [] else [DecodeOne(s)] + ScalarsOf(s[CharLength(s)..])
  }

  lemma EncodeCons(c: Scalar, rest: seq<Scalar>)
    ensures Encode([c] + rest) == EncodeOne(c) + Encode(rest)
  {
    assert ([c] + rest)[1..] == rest;
  }

  lemma CutAndJoin(s: seq<Byte>, n: nat)
    requires n <= |s|
    ensures s == s[..n] + s[n..]
  {
  }

  lemma {:induction false} ScalarsEncode(s: seq<Byte>)
    requires IsText(s)
    ensures Encode(ScalarsOf(s)) == s
    decreases |s|
  {
    if s == [] {
    } else {
      var n := CharLength(s);
      EncodeCons(DecodeOne(s), ScalarsOf(s[n..]));
      DecodedEncodes(s);
      ScalarsEncode(s[n..]);
      CutAndJoin(s, n);
    }
  }

  /** A byte string reads through to its end exactly when it encodes some scalar values. */
  lemma TextIffEncoded(s: seq<Byte>)
    ensures IsText(s) <==> exists cs :: Encode(cs) == s
  {
    if IsText(s) {
      ScalarsEncode(s);
    }
    if cs :| Encode(cs) == s {
      EncodedIsValid(cs, []);
      assert Encode(cs) + [] == s;
    }
  }

  /** Cut short, a string begins with the same character or, when that is cut, with none. */
  lemma CharLengthOfPrefix(s: seq<Byte>, k: nat)
    requires k <= |s|
    ensures CharLength(s[..k]) == if CharLength(s) <= k then CharLength(s) else 0
  {
  }

  lemma {:induction false} PrefixValidity(s: seq<Byte>, k: nat)
    requires k <= |s|
    ensures ValidUpTo(s[..k]) <= ValidUpTo(s)
    ensures k == ValidUpTo(s) ==> ValidUpTo(s[..k]) == k
    decreases |s|
  {
    var n := CharLength(s);
    CharLengthOfPrefix(s, k);
    if n > 0 && k >= n {
      assert s[..k][n..] == s[n..][..k - n];
      PrefixValidity(s[n..], k - n);
    }
  }

  /** How far a byte string is valid is the length of its longest prefix that is text. */
  lemma ValidUpToIsLongest(s: seq<Byte>)
    ensures IsText(s[..ValidUpTo(s)])
    ensures forall k :: ValidUpTo(s) < k <= |s| ==> !IsText(s[..k])
  {
    PrefixValidity(s, ValidUpTo(s));
    forall k | ValidUpTo(s) < k <= |s|
      ensures !IsText(s[..k])
    {
      PrefixValidity(s, k);
    }
  }

  // -- The code --------------------------------------------------------------

  datatype Utf8Error = Utf8Error(validUpTo: nat)

  function FromUtf8(bytes: seq<Byte>): Result<seq<Byte>, Utf8Error> {
    if IsText(bytes) then Ok(bytes) else Err(Utf8Error(ValidUpTo(bytes)))
  }

  method Decode(input: seq<Byte>, cap: nat) returns (r: Result<seq<Byte>, string>)
    ensures r == Decoded(input, cap)
  {
    var truncated := |input| == cap;
    var whole := FromUtf8(input);
    if whole.Ok? {
      assert input[..|input|] == input;
      return Ok(whole.value);
    }
    var valid := whole.error.validUpTo;
    var bytes := input;
    if !truncated || |bytes| - valid > 3 {
      return Err("the diff is not UTF-8 text");
    }
    bytes := bytes[..valid];
    var again := FromUtf8(bytes);
    ValidUpToIsLongest(input);
    assert again.Ok?;  // the expectation in the code never fails
    return Ok(again.value);
  }

  /** What the cut keeps, stated through the longest prefix that is text. */
  function Decoded(input: seq<Byte>, cap: nat): Result<seq<Byte>, string> {
    var valid := ValidUpTo(input);
    if valid == |input| || (|input| == cap && |input| - valid <= 3) then Ok(input[..valid])
    else Err("the diff is not UTF-8 text")
  }

  // -- The main results ------------------------------------------------------

  lemma {:induction false} EncodeAppend(cs: seq<Scalar>, ds: seq<Scalar>)
    ensures Encode(cs + ds) == Encode(cs) + Encode(ds)
  {
    if cs == [] {
      assert cs + ds == ds;
    } else {
      assert (cs + ds)[1..] == cs[1..] + ds;
      EncodeAppend(cs[1..], ds);
    }
  }

  lemma ProperPrefixIsNoChar(c: Scalar, k: nat)
    requires k < |EncodeOne(c)|
    ensures CharLength(EncodeOne(c)[..k]) == 0
  {
  }

  /**
   Text cut at any byte: the longest run of whole characters below the cut is what is
   valid of it, and at most three bytes of one more character are left over.
   */
  lemma {:induction false} CutText(cs: seq<Scalar>, k: nat) returns (j: nat)
    requires k <= |Encode(cs)|
    ensures j <= |cs| && |Encode(cs[..j])| <= k <= |Encode(cs[..j])| + 3
    ensures j < |cs| ==> k < |Encode(cs[..j + 1])|
    ensures Encode(cs[..j]) <= Encode(cs)
    ensures ValidUpTo(Encode(cs)[..k]) == |Encode(cs[..j])|
    decreases |cs|
  {
    if cs == [] {
      return 0;
    }
    var first, rest := EncodeOne(cs[0]), Encode(cs[1..]);
    if k < |first| {
      ProperPrefixIsNoChar(cs[0], k);
      assert Encode(cs)[..k] == first[..k];
      assert cs[..1] == [cs[0]];
      assert Encode(cs[..1]) == first + Encode([]);
      return 0;
    }
    var i := CutText(cs[1..], k - |first|);
    j := i + 1;
    assert cs[..j][1..] == cs[1..][..i];
    if j < |cs| {
      assert cs[..j + 1][1..] == cs[1..][..i + 1];
    }
    var cut := rest[..k - |first|];
    assert Encode(cs)[..k] == first + cut;
    EncodedParses(cs[0], cut);
    assert (first + cut)[|first|..] == cut;
  }

  /**
   Every text, read up to any cap within it, decodes to its longest whole-character prefix
   at or below the cap.
   */
  lemma CutTextDecodes(cs: seq<Scalar>, cap: nat) returns (j: nat)
    requires cap <= |Encode(cs)|
    ensures j <= |cs| && Decoded(Encode(cs)[..cap], cap) == Ok(Encode(cs[..j]))
    ensures |Encode(cs[..j])| <= cap <= |Encode(cs[..j])| + 3
    ensures j < |cs| ==> cap < |Encode(cs[..j + 1])|
  {
    j := CutText(cs, cap);
    assert Encode(cs)[..cap][..|Encode(cs[..j])|] == Encode(cs[..j]);
  }

  /**
   Conversely, whatever decodes gives text, a prefix of the input short by at most three
   bytes, and the whole input unless the cap was reached; and an input decodes exactly
   when it is text, or reached the cap and is text but for its last three bytes.
   */
  lemma DecodedIsText(input: seq<Byte>, cap: nat)
    ensures Decoded(input, cap).Ok? ==>
              var t := Decoded(input, cap).value;
              && (exists cs :: Encode(cs) == t)
              && t <= input && |input| - |t| <= 3
              && (t != input ==> |input| == cap)
              && (forall k :: |t| < k <= |input| ==> !IsText(input[..k]))
    ensures Decoded(input, cap).Ok? <==>
              || (exists cs :: Encode(cs) == input)
              || (|input| == cap && exists k :: |input| - 3 <= k <= |input| && k >= 0 && IsText(input[..k]))
  {
    var valid := ValidUpTo(input);
    ValidUpToIsLongest(input);
    TextIffEncoded(input);
    TextIffEncoded(input[..valid]);
    assert input[..|input|] == input;
    if k :| |input| - 3 <= k <= |input| && k >= 0 && IsText(input[..k]) {
      assert k <= valid;
    }
  }

  lemma CutLeavesCharPrefix(cs: seq<Scalar>, input: seq<Byte>) returns (c: Scalar)
    requires input <= Encode(cs)
    ensures input[ValidUpTo(input)..] <= EncodeOne(c)
  {
    assert Encode(cs)[..|input|] == input;
    var j := CutText(cs, |input|);
    if j == |cs| {
      assert cs[..j] == cs;
      return 0;
    }
    c := cs[j];
    assert cs[..j + 1] == cs[..j] + [c] && cs == cs[..j + 1] + cs[j + 1..];
    EncodeAppend(cs[..j], [c]);
    EncodeAppend(cs[..j + 1], cs[j + 1..]);
    assert Encode([c]) == EncodeOne(c);
  }

  lemma PrefixAfterText(ds: seq<Scalar>, c: Scalar, tail: seq<Byte>)
    requires tail <= EncodeOne(c)
    ensures Encode(ds) + tail <= Encode(ds + [c])
  {
    EncodeAppend(ds, [c]);
    assert Encode([c]) == EncodeOne(c);
  }

  lemma TextAndPrefix(text: seq<Byte>, tail: seq<Byte>, c: Scalar) returns (cs: seq<Scalar>)
    requires IsText(text) && tail <= EncodeOne(c)
    ensures text + tail <= Encode(cs)
  {
    ScalarsEncode(text);
    PrefixAfterText(ScalarsOf(text), c, tail);
    cs := ScalarsOf(text) + [c];
  }

  lemma CharPrefixBeginsText(input: seq<Byte>, c: Scalar) returns (cs: seq<Scalar>)
    requires input[ValidUpTo(input)..] <= EncodeOne(c)
    ensures input <= Encode(cs)
  {
    ValidUpToIsLongest(input);
    cs := TextAndPrefix(input[..ValidUpTo(input)], input[ValidUpTo(input)..], c);
    assert input == input[..ValidUpTo(input)] + input[ValidUpTo(input)..];
  }

  ghost predicate BeginsText(s: seq<Byte>) {
    exists cs :: s <= Encode(cs)
  }

  /** A byte string begins some text exactly when what is left of it begins a character. */
  lemma BeginsTextIff(input: seq<Byte>)
    ensures BeginsText(input) <==> exists c :: input[ValidUpTo(input)..] <= EncodeOne(c)
  {
    if cs :| input <= Encode(cs) {
      var c := CutLeavesCharPrefix(cs, input);
    }
    if c :| input[ValidUpTo(input)..] <= EncodeOne(c) {
      var cs := CharPrefixBeginsText(input, c);
    }
  }

  lemma NoCharAhead(s: seq<Byte>)
    requires forall c :: !(EncodeOne(c) <= s)
    ensures ValidUpTo(s) == 0
  {
    if CharLength(s) > 0 {
      DecodedEncodes(s);
      assert EncodeOne(DecodeOne(s)) <= s;
    }
  }

  /** At the cap a tail of up to three bytes is taken and cut to whole characters. */
  lemma ShortTailCut(text: seq<Byte>, stray: seq<Byte>)
    requires |stray| <= 3 && ValidUpTo(text + stray) == |text| + ValidUpTo(stray)
    ensures Decoded(text + stray, |text + stray|) == Ok(text + stray[..ValidUpTo(stray)])
  {
    var valid := ValidUpTo(stray);
    assert (text + stray)[..|text| + valid] == text + stray[..valid];
  }

  /** Text before a tail does not change whether it begins some text. */
  lemma TailDecides(text: seq<Byte>, stray: seq<Byte>)
    requires ValidUpTo(text + stray) == |text| + ValidUpTo(stray)
    ensures BeginsText(text + stray) <==> BeginsText(stray)
  {
    var valid := ValidUpTo(stray);
    assert (text + stray)[|text| + valid..] == stray[valid..];
    BeginsTextIff(text + stray);
    BeginsTextIff(stray);
  }

  /** A tail that begins no character, and that no character begins. */
  ghost predicate IsStray(stray: seq<Byte>) {
    forall c :: !(stray <= EncodeOne(c)) && !(EncodeOne(c) <= stray)
  }

  lemma StrayBeginsNothing(stray: seq<Byte>)
    requires IsStray(stray)
    ensures ValidUpTo(stray) == 0 && !BeginsText(stray)
  {
    NoCharAhead(stray);
    BeginsTextIff(stray);
    assert stray[0..] == stray;
  }

  /**
   The promise that only text is taken at the cap holds for every input that begins some
   text, and no further: at the cap a text with any tail of up to three bytes is taken and
   cut to whole characters, and it begins some text only when the tail does. A tail that
   begins no character, and that no character begins, is dropped whole.
   */
  lemma StrayTailAccepted(cs: seq<Scalar>, stray: seq<Byte>)
    requires |stray| <= 3
    ensures var input := Encode(cs) + stray;
            && Decoded(input, |input|) == Ok(Encode(cs) + stray[..ValidUpTo(stray)])
            && (BeginsText(input) <==> BeginsText(stray))
            && (IsStray(stray) ==> Decoded(input, |input|) == Ok(Encode(cs)) && !BeginsText(input))
  {
    EncodedIsValid(cs, stray);
    ShortTailCut(Encode(cs), stray);
    TailDecides(Encode(cs), stray);
    if IsStray(stray) {
      StrayBeginsNothing(stray);
      assert Encode(cs) + stray[..0] == Encode(cs);
    }
  }

  /** Such tails there are: any that starts with a byte no text holds. */
  lemma StrayByteExists(stray: seq<Byte>)
    requires stray != [] && stray[0] == 0xFF
    ensures IsStray(stray)
  {
    forall c
      ensures EncodeOne(c)[0] != 0xFF
    {
      EncodedParses(c, []);
    }
  }
}
