/** Base64 as Go's StdEncoding and RawStdEncoding decode it: section 4 of RFC 4648, with and
    without the padding of its section 3.2, carriage returns and newlines ignored, and unused
    trailing bits not required to be zero. */
module Base64 {
  import opened Base

  type Byte = b: nat | b < 256
  type Sextet = v: nat | v < 64

  function CharOf(v: Sextet): char {
    if v < 26 then ('A' as int + v) as char
    else if v < 52 then ('a' as int + (v - 26)) as char
    else if v < 62 then ('0' as int + (v - 52)) as char
    else if v == 62 then '+'
    else '/'
  }

  function SextetOf(c: char): Option<Sextet> {
    if 'A' <= c <= 'Z' then Some(c as int - 'A' as int)
    else if 'a' <= c <= 'z' then Some(c as int - 'a' as int + 26)
    else if '0' <= c <= '9' then Some(c as int - '0' as int + 52)
    else if c == '+' then Some(62)
    else if c == '/' then Some(63)
    else None
  }

  lemma CharRoundTrip(v: Sextet)
    ensures SextetOf(CharOf(v)) == Some(v)
    ensures CharOf(v) !in {'=', ',', '\r', '\n'}
  {
  }

  function EncodeOne(x: Byte): string {
    [CharOf(x / 4), CharOf(x % 4 * 16)]
  }

  function EncodeTwo(x: Byte, y: Byte): string {
    [CharOf(x / 4), CharOf(x % 4 * 16 + y / 16), CharOf(y % 16 * 4)]
  }

  function EncodeThree(x: Byte, y: Byte, z: Byte): string {
    [CharOf(x / 4), CharOf(x % 4 * 16 + y / 16), CharOf(y % 16 * 4 + z / 64), CharOf(z % 64)]
  }

  /** The encoding of whole three-byte groups, then of the one or two bytes left over. */
  function Encode(data: seq<Byte>, padded: bool): string {
    if data == [] then ""
    else if |data| == 1 then EncodeOne(data[0]) + (if padded then "==" else "")
    else if |data| == 2 then EncodeTwo(data[0], data[1]) + (if padded then "=" else "")
    else EncodeThree(data[0], data[1], data[2]) + Encode(data[3..], padded)
  }

  /** Carriage returns and newlines are skipped wherever they stand. */
  function StripNewlines(s: string): string {
    if s == "" then ""
    else (if s[0] in {'\r', '\n'} then "" else [s[0]]) + StripNewlines(s[1..])
  }

  function FirstByte(a: Sextet, b: Sextet): Byte {
    a * 4 + b / 16
  }

  function SecondByte(b: Sextet, c: Sextet): Byte {
    b % 16 * 16 + c / 4
  }

  function ThirdByte(c: Sextet, d: Sextet): Byte {
    c % 4 * 64 + d
  }

  function DecodeGroups(s: string, padded: bool): Option<seq<Byte>> {
    if s == "" then Some([])
    else if |s| == 1 || SextetOf(s[0]) == None || SextetOf(s[1]) == None then None
    else
      var a, b := SextetOf(s[0]).value, SextetOf(s[1]).value;
      var first := FirstByte(a, b);
      if |s| == 2 then (if padded then None else Some([first]))
      else if padded && s[2] == '=' then (if |s| == 4 && s[3] == '=' then Some([first]) else None)
      else if SextetOf(s[2]) == None then None
      else
        var c := SextetOf(s[2]).value;
        var second := SecondByte(b, c);
        if |s| == 3 then (if padded then None else Some([first, second]))
        else if padded && s[3] == '=' then (if |s| == 4 then Some([first, second]) else None)
        else if SextetOf(s[3]) == None then None
        else
          match DecodeGroups(s[4..], padded)
          case None => None
          case Some(rest) => Some([first, second, ThirdByte(c, SextetOf(s[3]).value)] + rest)
  }

  /** StdEncoding when `padded`, RawStdEncoding otherwise. */
  function Decode(s: string, padded: bool): Option<seq<Byte>> {
    DecodeGroups(StripNewlines(s), padded)
  }

  /** Regrouping eight-bit bytes into six-bit values and back. */
  lemma RegroupingRoundTrip(x: Byte, y: Byte, z: Byte)
    ensures FirstByte(x / 4, x % 4 * 16 + y / 16) == x
    ensures SecondByte(x % 4 * 16 + y / 16, y % 16 * 4 + z / 64) == y
    ensures ThirdByte(y % 16 * 4 + z / 64, z % 64) == z
  {
  }

  lemma RegroupOne(x: Byte)
    ensures FirstByte(x / 4, x % 4 * 16) == x
  {
    RegroupingRoundTrip(x, 0, 0);
  }

  lemma RegroupTwo(x: Byte, y: Byte)
    ensures FirstByte(x / 4, x % 4 * 16 + y / 16) == x && SecondByte(x % 4 * 16 + y / 16, y % 16 * 4) == y
  {
    RegroupingRoundTrip(x, y, 0);
  }

  lemma PairGroup(a: Sextet, b: Sextet, padded: bool)
    ensures DecodeGroups([CharOf(a), CharOf(b)], padded) == if padded then None else Some([FirstByte(a, b)])
    ensures DecodeGroups([CharOf(a), CharOf(b)] + "==", true) == Some([FirstByte(a, b)])
  {
    CharRoundTrip(a);
    CharRoundTrip(b);
  }

  lemma TripleGroup(a: Sextet, b: Sextet, c: Sextet, padded: bool)
    ensures DecodeGroups([CharOf(a), CharOf(b), CharOf(c)], padded)
         == if padded then None else Some([FirstByte(a, b), SecondByte(b, c)])
    ensures DecodeGroups([CharOf(a), CharOf(b), CharOf(c)] + "=", true) == Some([FirstByte(a, b), SecondByte(b, c)])
  {
    CharRoundTrip(a);
    CharRoundTrip(b);
    CharRoundTrip(c);
  }

  lemma OneByteGroup(x: Byte, padded: bool)
    ensures DecodeGroups(EncodeOne(x), padded) == if padded then None else Some([x])
    ensures DecodeGroups(EncodeOne(x) + "==", true) == Some([x])
  {
    RegroupOne(x);
    PairGroup(x / 4, x % 4 * 16, padded);
  }

  lemma TwoByteGroup(x: Byte, y: Byte, padded: bool)
    ensures DecodeGroups(EncodeTwo(x, y), padded) == if padded then None else Some([x, y])
    ensures DecodeGroups(EncodeTwo(x, y) + "=", true) == Some([x, y])
  {
    RegroupTwo(x, y);
    TripleGroup(x / 4, x % 4 * 16 + y / 16, y % 16 * 4, padded);
  }

  /** Four characters for four sextets, then the rest. */
  lemma FullGroup(a: Sextet, b: Sextet, c: Sextet, d: Sextet, rest: string, padded: bool)
    ensures
      var tail := DecodeGroups(rest, padded);
      DecodeGroups([CharOf(a), CharOf(b), CharOf(c), CharOf(d)] + rest, padded)
      == if tail == None then None
         else Some([FirstByte(a, b), SecondByte(b, c), ThirdByte(c, d)] + tail.value)
  {
    CharRoundTrip(a);
    CharRoundTrip(b);
    CharRoundTrip(c);
    CharRoundTrip(d);
    var s := [CharOf(a), CharOf(b), CharOf(c), CharOf(d)] + rest;
    assert s[4..] == rest;
  }

  lemma ThreeByteGroup(x: Byte, y: Byte, z: Byte, rest: string, padded: bool)
    ensures
      var tail := DecodeGroups(rest, padded);
      DecodeGroups(EncodeThree(x, y, z) + rest, padded) == if tail == None then None else Some([x, y, z] + tail.value)
  {
    RegroupingRoundTrip(x, y, z);
    FullGroup(x / 4, x % 4 * 16 + y / 16, y % 16 * 4 + z / 64, z % 64, rest, padded);
  }

  lemma {:induction false} GroupsRoundTrip(data: seq<Byte>, padded: bool)
    ensures DecodeGroups(Encode(data, padded), padded) == Some(data)
  {
    if |data| > 2 {
      ThreeByteGroup(data[0], data[1], data[2], Encode(data[3..], padded), padded);
      GroupsRoundTrip(data[3..], padded);
      assert data == [data[0], data[1], data[2]] + data[3..];
    } else {
      LastGroup(data, padded);
    }
  }

  lemma LastGroup(data: seq<Byte>, padded: bool)
    requires |data| <= 2
    ensures DecodeGroups(Encode(data, padded), padded) == Some(data)
    ensures data != [] ==> DecodeGroups(Encode(data, false), true) == None
  {
    if |data| == 1 {
      assert data == [data[0]];
      OneByteGroup(data[0], true);
      OneByteGroup(data[0], false);
      assert Encode(data, false) == EncodeOne(data[0]);
      assert Encode(data, true) == EncodeOne(data[0]) + "==";
    } else if |data| == 2 {
      assert data == [data[0], data[1]];
      TwoByteGroup(data[0], data[1], true);
      TwoByteGroup(data[0], data[1], false);
      assert Encode(data, false) == EncodeTwo(data[0], data[1]);
      assert Encode(data, true) == EncodeTwo(data[0], data[1]) + "=";
    }
  }

  predicate IsClean(s: string) {
    ',' !in s && '\r' !in s && '\n' !in s
  }

  /** Encodings hold neither commas nor line breaks. */
  lemma {:induction false} EncodingIsClean(data: seq<Byte>, padded: bool)
    ensures IsClean(Encode(data, padded))
  {
    if |data| > 2 {
      ThreeAreClean(data[0], data[1], data[2]);
      EncodingIsClean(data[3..], padded);
    }
  }

  lemma ThreeAreClean(x: Byte, y: Byte, z: Byte)
    ensures IsClean(EncodeThree(x, y, z))
  {
  }

  /** The alphabet: a character stands for a value exactly if it is that value's character. */
  lemma AlphabetIsExact(c: char)
    ensures SextetOf(c).Some? <==> exists v: Sextet :: CharOf(v) == c
    ensures SextetOf(c).Some? ==> CharOf(SextetOf(c).value) == c
  {
    forall v: Sextet {
      CharRoundTrip(v);
    }
    if SextetOf(c).Some? {
      assert CharOf(SextetOf(c).value) == c;
    }
  }

  predicate InAlphabet(s: string) {
    forall c :: c in s ==> SextetOf(c).Some?
  }

  /** A text the padded decoder can read: whole groups of four from the alphabet, the last of which may
      end in one or two padding characters. */
  predicate WellPadded(s: string) {
    || (|s| % 4 == 0 && InAlphabet(s))
    || (|s| % 4 == 0 && |s| > 0 && s[|s| - 1] == '=' && InAlphabet(s[..|s| - 1]))
    || (|s| % 4 == 0 && |s| > 0 && s[|s| - 2..] == "==" && InAlphabet(s[..|s| - 2]))
  }

  lemma InAlphabetSplits(s: string, n: nat)
    requires n <= |s|
    ensures InAlphabet(s) <==> InAlphabet(s[..n]) && InAlphabet(s[n..])
  {
    forall c | c in s ensures c in s[..n] || c in s[n..] {
      assert s == s[..n] + s[n..];
    }
  }

  /** Without padding exactly the texts over the alphabet that leave no lone character decode. */
  lemma {:induction false} UnpaddedDecodes(s: string)
    ensures DecodeGroups(s, false).Some? <==> InAlphabet(s) && |s| % 4 != 1
    decreases |s|
  {
    if |s| >= 4 {
      assert s[..4] == [s[0], s[1], s[2], s[3]];
      InAlphabetSplits(s, 4);
      UnpaddedDecodes(s[4..]);
    } else {
      assert forall i :: 0 <= i < |s| ==> s[i] in s;
    }
  }

  /** Past the first group, being well padded is a matter of the rest. */
  lemma PaddingIsAtTheEnd(s: string)
    requires |s| > 4
    ensures WellPadded(s) <==> InAlphabet(s[..4]) && WellPadded(s[4..])
  {
    InAlphabetSplits(s, 4);
    if |s| % 4 == 0 {
      InAlphabetSplits(s[..|s| - 1], 4);
      InAlphabetSplits(s[..|s| - 2], 4);
      assert s[..|s| - 1][..4] == s[..4] && s[..|s| - 1][4..] == s[4..][..|s| - 5];
      assert s[..|s| - 2][..4] == s[..4] && s[..|s| - 2][4..] == s[4..][..|s| - 6];
      assert s[4..][|s| - 6..] == s[|s| - 2..];
    }
  }

  lemma InAlphabetIndexed(s: string)
    ensures InAlphabet(s) <==> forall i :: 0 <= i < |s| ==> SextetOf(s[i]).Some?
  {
    assert forall i :: 0 <= i < |s| ==> s[i] in s;
  }

  lemma FourWellPadded(s: string)
    requires |s| == 4
    ensures
      var two, three := SextetOf(s[0]).Some? && SextetOf(s[1]).Some?, SextetOf(s[2]).Some?;
      WellPadded(s) <==> two && ((s[2] == '=' && s[3] == '=') || (three && (s[3] == '=' || SextetOf(s[3]).Some?)))
  {
    InAlphabetIndexed(s);
    InAlphabetIndexed(s[..3]);
    InAlphabetIndexed(s[..2]);
    assert s[2..] == [s[2], s[3]];
  }

  /** A single group, padded or not. */
  lemma OneGroupDecodes(s: string)
    requires |s| <= 4
    ensures DecodeGroups(s, true).Some? <==> WellPadded(s)
  {
    if |s| == 4 {
      FourWellPadded(s);
      assert s[4..] == "";
    }
  }

  lemma GroupDecodes(s: string)
    requires |s| > 4
    ensures DecodeGroups(s, true).Some? <==> InAlphabet(s[..4]) && DecodeGroups(s[4..], true).Some?
  {
    assert s[..4] == [s[0], s[1], s[2], s[3]];
    assert s[0] in s[..4] && s[1] in s[..4] && s[2] in s[..4] && s[3] in s[..4];
  }

  /** With padding exactly the well padded ones do; anything else makes the decoder fail. */
  lemma {:induction false} PaddedDecodes(s: string)
    ensures DecodeGroups(s, true).Some? <==> WellPadded(s)
    decreases |s|
  {
    if |s| > 4 {
      GroupDecodes(s);
      PaddedDecodes(s[4..]);
      PaddingIsAtTheEnd(s);
    } else {
      OneGroupDecodes(s);
    }
  }

  /** Where both decoders succeed they agree. */
  lemma {:induction false} DecodersAgree(s: string)
    requires DecodeGroups(s, true).Some? && DecodeGroups(s, false).Some?
    ensures DecodeGroups(s, true) == DecodeGroups(s, false)
    decreases |s|
  {
    if |s| >= 4 {
      DecodersAgree(s[4..]);
    }
  }

  /** The padded decoder reads an unpadded encoding made of whole groups ... */
  lemma {:induction false} PaddedReadsWholeGroups(data: seq<Byte>, groups: nat)
    requires |data| == 3 * groups
    ensures DecodeGroups(Encode(data, false), true) == Some(data)
  {
    if groups > 0 {
      PaddedReadsWholeGroups(data[3..], groups - 1);
      WholeGroupStep(data, false, true);
      assert data == data[..3] + data[3..];
    }
  }

  /** ... and no other. */
  lemma {:induction false} PaddedRejectsCutGroup(data: seq<Byte>, groups: nat)
    requires 3 * groups < |data| < 3 * groups + 3
    ensures DecodeGroups(Encode(data, false), true) == None
  {
    if groups > 0 {
      PaddedRejectsCutGroup(data[3..], groups - 1);
      WholeGroupStep(data, false, true);
    } else {
      LastGroup(data, false);
    }
  }

  lemma WholeGroupStep(data: seq<Byte>, encoded: bool, decoded: bool)
    requires |data| > 2
    ensures
      var tail := DecodeGroups(Encode(data[3..], encoded), decoded);
      DecodeGroups(Encode(data, encoded), decoded) == if tail == None then None else Some(data[..3] + tail.value)
  {
    ThreeByteGroup(data[0], data[1], data[2], Encode(data[3..], encoded), decoded);
    assert data[..3] == [data[0], data[1], data[2]];
  }

  /** Carriage returns and newlines go, every other character stays where it is. */
  lemma {:induction false} StripsExactlyNewlines(before: string, c: char, after: string)
    ensures StripNewlines(before + [c] + after)
         == StripNewlines(before) + (if c in {'\r', '\n'} then "" else [c]) + StripNewlines(after)
  {
    var s := before + [c] + after;
    if before == "" {
      assert s[0] == c && s[1..] == after;
    } else {
      assert s[0] == before[0] && s[1..] == before[1..] + [c] + after;
      StripsExactlyNewlines(before[1..], c, after);
    }
  }

  lemma {:induction false} StripKeepsClean(s: string)
    requires IsClean(s)
    ensures StripNewlines(s) == s
  {
    if s != "" {
      assert s == [s[0]] + s[1..];
      StripKeepsClean(s[1..]);
    }
  }

  lemma {:induction false} StripKeepsOthers(s: string, c: char)
    requires c in s && c !in {'\r', '\n'}
    ensures c in StripNewlines(s)
  {
    if s[0] != c {
      StripKeepsOthers(s[1..], c);
    }
  }
}

/** Saving a screenshot: strip a data-URL prefix, decode with a fallback, write the file. */
module Screenshots {
  import opened Base
  import opened Base64

  function IndexOfComma(s: string): (i: nat)
    ensures i <= |s| && ',' !in s[..i]
    ensures i < |s| ==> s[i] == ','
  {
    if s == "" || s[0] == ',' then 0
    else
      var i := IndexOfComma(s[1..]);
      assert s[..1 + i] == [s[0]] + s[1..][..i];
      1 + i
  }

  function AfterComma(s: string): string {
    var i := IndexOfComma(s);
    if i == |s| then s else s[i + 1..]
  }

  function DecodeImage(s: string): Option<seq<Byte>> {
    var data := AfterComma(s);
    if Decode(data, true).Some? then Decode(data, true) else Decode(data, false)
  }

  /** A prefix as in a data URL: any text without a comma, then a comma. */
  function WithPrefix(prefix: Option<string>, data: string): string {
    if prefix == None then data else prefix.value + "," + data
  }

  lemma PrefixIsStripped(prefix: Option<string>, data: string)
    requires ',' !in data
    requires prefix.Some? ==> ',' !in prefix.value
    ensures AfterComma(WithPrefix(prefix, data)) == data
  {
    var s := WithPrefix(prefix, data);
    if prefix.Some? {
      assert s[|prefix.value|] == ',' && s[..|prefix.value|] == prefix.value;
      CommaIsAt(s, |prefix.value|);
      assert s[|prefix.value| + 1..] == data;
    } else {
      CommaIsAt(s, |s|);
    }
  }

  lemma {:induction false} CommaIsAt(s: string, n: nat)
    requires n <= |s| && ',' !in s[..n] && (n < |s| ==> s[n] == ',')
    ensures IndexOfComma(s) == n
  {
    if n > 0 {
      assert s[0] in s[..n];
      assert s[..n][1..] == s[1..][..n - 1];
      CommaIsAt(s[1..], n - 1);
    }
  }

  /** The round trip: any bytes, encoded with or without padding, wrapped into lines or not, with or
      without a comma-free prefix, are decoded to exactly those bytes. */
  lemma ScreenshotRoundTrip(data: seq<Byte>, padded: bool, text: string, prefix: Option<string>)
    requires StripNewlines(text) == Encode(data, padded)
    requires prefix.Some? ==> ',' !in prefix.value
    ensures DecodeImage(WithPrefix(prefix, text)) == Some(data)
  {
    EncodingIsClean(data, padded);
    if ',' in text {
      StripKeepsOthers(text, ',');
    }
    PrefixIsStripped(prefix, text);
    GroupsRoundTrip(data, padded);
    if Decode(text, true).Some? && Decode(text, false).Some? {
      DecodersAgree(StripNewlines(text));
    }
  }

  /** A text can be saved exactly if what follows its first comma, line breaks aside, is well padded
      base64 or unpadded base64 without a lone character; any character outside the alphabet spoils it. */
  lemma ImageDecodes(s: string)
    ensures
      var data := StripNewlines(AfterComma(s));
      DecodeImage(s).Some? <==> WellPadded(data) || (InAlphabet(data) && |data| % 4 != 1)
  {
    PaddedDecodes(StripNewlines(AfterComma(s)));
    UnpaddedDecodes(StripNewlines(AfterComma(s)));
  }

  /** A mirror frame is decoded by the padded decoder alone, which reads an unpadded frame exactly
      when its length is a whole number of three-byte groups. */
  lemma UnpaddedFrameDecodes(data: seq<Byte>)
    ensures Decode(Encode(data, false), true).Some? <==> |data| % 3 == 0
    ensures Decode(Encode(data, true), true) == Some(data)
  {
    EncodingIsClean(data, false);
    EncodingIsClean(data, true);
    StripKeepsClean(Encode(data, false));
    StripKeepsClean(Encode(data, true));
    if |data| % 3 == 0 {
      PaddedReadsWholeGroups(data, |data| / 3);
    } else {
      PaddedRejectsCutGroup(data, |data| / 3);
    }
    GroupsRoundTrip(data, true);
  }

  class ScreenshotService {
    var files: map<DeviceId, seq<Byte>>

    constructor ()
      ensures files == map[]
    {
      files := map[];
    }

    /** `writeOk` is whether the file write succeeds; a failed write says nothing about what is left
        of the device's own file. */
    method SaveScreenshot(device: DeviceId, text: string, writeOk: bool) returns (ok: bool)
      modifies this
      ensures ok <==> DecodeImage(text).Some? && writeOk
      ensures ok ==> files == old(files)[device := DecodeImage(text).value]
      ensures DecodeImage(text) == None ==> files == old(files)
      ensures files - {device} == old(files) - {device}
    {
      var base64Data := text;
      var i := IndexOfComma(base64Data);
      if i < |base64Data| {
        base64Data := base64Data[i + 1..];
      }
      var data := Decode(base64Data, true);
      if data == None {
        data := Decode(base64Data, false);
        if data == None {
          return false;
        }
      }
      if !writeOk {
        var leftover: Option<seq<Byte>> := *;
        files := if leftover.Some? then files[device := leftover.value] else files - {device};
        return false;
      }
      files := files[device := data.value];
      return true;
    }
  }
}
