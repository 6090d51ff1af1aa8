/** src/anycorn/utils.py, `decode_asgi_path`, and the quoting of
    src/anycorn/middleware/http_to_https.py: what a percent-encoded path means. */
module Paths {
  import opened Common
  import opened Utf8

  const PERCENT: byte := 37

  predicate EscapeAt(raw: Bytes, i: nat) { i + 2 < |raw| && IsHexDigit(raw[i + 1]) && IsHexDigit(raw[i + 2]) }

  function Escape(raw: Bytes, i: nat): byte
    requires EscapeAt(raw, i)
  {
    16 * HexDigitValue(raw[i + 1]) + HexDigitValue(raw[i + 2])
  }

  predicate WellEscaped(raw: Bytes) { forall i :: 0 <= i < |raw| && raw[i] == PERCENT ==> EscapeAt(raw, i) }

  /** `bytes.find`. */
  function Find(raw: Bytes, from: nat): (r: Option<nat>)
    requires from <= |raw|
    ensures r.Some? ==> from <= r.value < |raw| && raw[r.value] == PERCENT
    ensures forall i :: from <= i < (if r.Some? then r.value else |raw|) ==> raw[i] != PERCENT
    decreases |raw| - from
  {
    if from == |raw| then None else if raw[from] == PERCENT then Some(from) else Find(raw, from + 1)
  }

  /** The loop of `decode_asgi_path`: the offset of the first escape that is malformed, None if there
      is none. Having seen an escape it goes on behind it. */
  method FirstMalformed(raw: Bytes) returns (r: Option<nat>)
    ensures r.None? <==> WellEscaped(raw)
    ensures r.Some? ==> r.value < |raw| && raw[r.value] == PERCENT && !EscapeAt(raw, r.value)
    ensures r.Some? ==> forall i :: 0 <= i < r.value && raw[i] == PERCENT ==> EscapeAt(raw, i)
  {
    var index := 0;
    while true
      invariant 0 <= index <= |raw|
      invariant forall i :: 0 <= i < index && raw[i] == PERCENT ==> EscapeAt(raw, i)
      decreases |raw| - index
    {
      var found := Find(raw, index);
      if found.None? {
        return None;
      }
      index := found.value;
      if index + 2 >= |raw| || !IsHexDigit(raw[index + 1]) || !IsHexDigit(raw[index + 2]) {
        return Some(index);
      }
      index := index + 3;
    }
  }

  // ---- two ways to decode the escapes ---------------------------------------------------------------

  /** Section 2.1 of RFC 3986, from left to right; None for a percent sign that begins no escape. */
  function Strict(raw: Bytes): Option<Bytes> {
    if raw == [] then Some([])
    else if raw[0] != PERCENT then
      var rest := Strict(raw[1..]);
      if rest.None? then None else Some([raw[0]] + rest.value)
    else if !EscapeAt(raw, 0) then None
    else
      var rest := Strict(raw[3..]);
      if rest.None? then None else Some([Escape(raw, 0)] + rest.value)
  }

  /** `raw.split(b"%")`. */
  function Split(raw: Bytes): (bits: seq<Bytes>)
    ensures bits != []
  {
    if raw == [] then [[]]
    else
      var rest := Split(raw[1..]);
      if raw[0] == PERCENT then [[]] + rest else [[raw[0]] + rest[0]] + rest[1..]
  }

  /** One piece behind a percent sign: an escape and what follows it, or left as it is. */
  function Piece(bit: Bytes): Bytes {
    if |bit| >= 2 && IsHexDigit(bit[0]) && IsHexDigit(bit[1])
    then [16 * HexDigitValue(bit[0]) + HexDigitValue(bit[1])] + bit[2..]
    else [PERCENT] + bit
  }

  function Pieces(bits: seq<Bytes>): Bytes {
    if bits == [] then [] else Piece(bits[0]) + Pieces(bits[1..])
  }

  /** `urllib.parse.unquote_to_bytes`, which passes malformed escapes through. */
  function Unquote(raw: Bytes): Bytes { Split(raw)[0] + Pieces(Split(raw)[1..]) }

  lemma SplitPlain(raw: Bytes)
    requires raw != [] && raw[0] != PERCENT
    ensures Split(raw)[0] == [raw[0]] + Split(raw[1..])[0] && Split(raw)[1..] == Split(raw[1..])[1..]
  {
  }

  lemma UnquotePlain(raw: Bytes)
    requires raw != [] && raw[0] != PERCENT
    ensures Unquote(raw) == [raw[0]] + Unquote(raw[1..])
  {
    SplitPlain(raw);
    var bits := Split(raw[1..]);
    Associate([raw[0]], bits[0], Pieces(bits[1..]));
  }

  lemma UnquotePercent(raw: Bytes)
    requires raw != [] && raw[0] == PERCENT
    ensures Unquote(raw) == Piece(Split(raw[1..])[0]) + Pieces(Split(raw[1..])[1..])
  {
    assert Split(raw)[0] == [] && Split(raw)[1..] == Split(raw[1..]);
  }

  lemma SplitTwoPlain(raw: Bytes)
    requires |raw| >= 2 && raw[0] != PERCENT && raw[1] != PERCENT
    ensures Split(raw)[0] == [raw[0], raw[1]] + Split(raw[2..])[0] && Split(raw)[1..] == Split(raw[2..])[1..]
  {
    SplitPlain(raw);
    SplitPlain(raw[1..]);
    assert raw[1..][1..] == raw[2..];
  }

  lemma UnquoteEscape(raw: Bytes)
    requires raw != [] && raw[0] == PERCENT && EscapeAt(raw, 0)
    ensures Unquote(raw) == [Escape(raw, 0)] + Unquote(raw[3..])
  {
    UnquotePercent(raw);
    SplitTwoPlain(raw[1..]);
    assert raw[1..][2..] == raw[3..];
    var bits := Split(raw[3..]);
    PieceOfEscape(raw, bits[0]);
    Associate([Escape(raw, 0)], bits[0], Pieces(bits[1..]));
  }

  lemma PieceOfEscape(raw: Bytes, bit: Bytes)
    requires EscapeAt(raw, 0)
    ensures Piece([raw[1], raw[2]] + bit) == [Escape(raw, 0)] + bit
  {
    assert ([raw[1], raw[2]] + bit)[2..] == bit;
  }

  lemma EscapesShift(raw: Bytes, n: nat)
    requires n <= |raw|
    ensures forall i :: 0 <= i < |raw| - n ==> raw[n..][i] == raw[n + i]
    ensures forall i :: 0 <= i < |raw| - n ==> (EscapeAt(raw[n..], i) <==> EscapeAt(raw, n + i))
  {
  }

  /** The scan accepts exactly what strict decoding accepts, and there the two ways agree. */
  lemma {:induction false} StrictMeansScanned(raw: Bytes)
    ensures Strict(raw).Some? <==> WellEscaped(raw)
    ensures Strict(raw).Some? ==> Strict(raw).value == Unquote(raw)
    decreases |raw|
  {
    if raw == [] {
      assert Split(raw)[1..] == [];
    } else if raw[0] != PERCENT {
      StrictMeansScanned(raw[1..]);
      EscapesShift(raw, 1);
      assert WellEscaped(raw) <==> WellEscaped(raw[1..]) by {
        assert forall i :: 0 < i < |raw| ==> raw[i] == raw[1..][i - 1];
      }
      UnquotePlain(raw);
    } else if EscapeAt(raw, 0) {
      StrictMeansScanned(raw[3..]);
      EscapesShift(raw, 3);
      assert WellEscaped(raw) <==> WellEscaped(raw[3..]) by {
        assert forall i :: 2 < i < |raw| ==> raw[i] == raw[3..][i - 3];
      }
      UnquoteEscape(raw);
    }
  }

  // ---- the path of a request ------------------------------------------------------------------------

  datatype PathResult = Path(text: seq<Scalar>) | MalformedEscape | NotUtf8

  function DecodeAsgiPath(raw: Bytes): PathResult {
    if !WellEscaped(raw) then MalformedEscape
    else
      var text := Decode(Unquote(raw));
      if text.Some? then Path(text.value) else NotUtf8
  }

  /** `decode_asgi_path`. */
  method DecodePath(raw: Bytes) returns (r: PathResult)
    ensures r == DecodeAsgiPath(raw)
  {
    var malformed := FirstMalformed(raw);
    if malformed.Some? {
      return MalformedEscape;
    }
    var text := Decode(Unquote(raw));
    return if text.Some? then Path(text.value) else NotUtf8;
  }

  /** Two requests have the same path exactly if they decode to the same bytes. */
  lemma PathsAreInjective(a: Bytes, b: Bytes)
    requires DecodeAsgiPath(a).Path? && DecodeAsgiPath(b).Path?
    ensures DecodeAsgiPath(a) == DecodeAsgiPath(b) <==> Strict(a) == Strict(b)
  {
    StrictMeansScanned(a);
    StrictMeansScanned(b);
    EncodeDecode(Unquote(a));
    EncodeDecode(Unquote(b));
  }

  /** The path is the text whose UTF-8 form the escapes spell. */
  lemma PathSpellsItsBytes(raw: Bytes)
    ensures DecodeAsgiPath(raw).Path? ==> Strict(raw) == Some(Encode(DecodeAsgiPath(raw).text))
    ensures DecodeAsgiPath(raw).MalformedEscape? <==> Strict(raw).None?
    ensures DecodeAsgiPath(raw).NotUtf8? ==> Strict(raw).Some? && forall text :: Encode(text) != Strict(raw).value
  {
    StrictMeansScanned(raw);
    if DecodeAsgiPath(raw).Path? {
      EncodeDecode(Unquote(raw));
    } else if DecodeAsgiPath(raw).NotUtf8? {
      forall text: seq<Scalar> ensures Encode(text) != Unquote(raw) {
        DecodeEncode(text);
      }
    }
  }

  // ---- quoting for a redirect -----------------------------------------------------------------------

  /** Letters, digits and what `_PATH_SAFE` lists: / % : @ ! $ & ' ( ) * + , ; = ~ - . _ */
  predicate IsSafe(b: byte) {
    || 48 <= b < 58 || 65 <= b < 91 || 97 <= b < 123
    || b in {47, 37, 58, 64, 33, 36, 38, 39, 40, 41, 42, 43, 44, 59, 61, 126, 45, 46, 95}
  }

  /** `_PATH_SAFE`. */
  const PATH_SAFE: string := "/%:@!$&'()*+,;=~-._"

  /** Exactly the letters, the digits and those are left alone, in any path; anything else becomes its
      escape. */
  lemma QuoteEscapesTheRest(b: byte)
    ensures
      var c := b as char;
      if 'a' <= c <= 'z' || 'A' <= c <= 'Z' || '0' <= c <= '9' || c in PATH_SAFE then Quote([b]) == [b]
      else |Quote([b])| == 3 && EscapeAt(Quote([b]), 0) && Escape(Quote([b]), 0) == b
  {
    assert [b][1..] == [];
    assert Quote([b]) == QuoteByte(b);
  }

  /** And every byte on its own. */
  lemma {:induction false} QuoteConcat(a: Bytes, b: Bytes)
    ensures Quote(a + b) == Quote(a) + Quote(b)
    decreases |a|
  {
    if a == [] {
      assert a + b == b;
    } else {
      assert (a + b)[1..] == a[1..] + b;
      QuoteConcat(a[1..], b);
      Associate(QuoteByte(a[0]), Quote(a[1..]), Quote(b));
    }
  }

  function UpperDigit(d: nat): byte
    requires d < 16
  {
    if d < 10 then 48 + d else 55 + d
  }

  function QuoteByte(b: byte): Bytes {
    if IsSafe(b) then [b] else [PERCENT, UpperDigit(b / 16), UpperDigit(b % 16)]
  }

  /** `urllib.parse.quote`. */
  function Quote(raw: Bytes): Bytes {
    if raw == [] then [] else QuoteByte(raw[0]) + Quote(raw[1..])
  }

  lemma {:induction false} QuotedIsSafe(raw: Bytes)
    ensures forall i :: 0 <= i < |Quote(raw)| ==> IsSafe(Quote(raw)[i])
  {
    if raw != [] {
      QuotedIsSafe(raw[1..]);
    }
  }

  lemma {:induction false} SafeStays(raw: Bytes)
    requires forall i :: 0 <= i < |raw| ==> IsSafe(raw[i])
    ensures Quote(raw) == raw
  {
    if raw != [] {
      SafeStays(raw[1..]);
    }
  }

  /** A path that was quoted before passes through untouched. */
  lemma QuoteIsIdempotent(raw: Bytes)
    ensures Quote(Quote(raw)) == Quote(raw)
  {
    QuotedIsSafe(raw);
    SafeStays(Quote(raw));
  }

  /** And so does exactly every path of characters that RFC 3986 allows. */
  lemma QuoteLeavesValidPaths(raw: Bytes)
    ensures Quote(raw) == raw <==> forall i :: 0 <= i < |raw| ==> IsSafe(raw[i])
  {
    QuotedIsSafe(raw);
    if forall i :: 0 <= i < |raw| ==> IsSafe(raw[i]) {
      SafeStays(raw);
    }
  }

  lemma QuoteUnfolds(raw: Bytes)
    requires raw != []
    ensures Quote(raw) != [] && Quote(raw)[0] == (if IsSafe(raw[0]) then raw[0] else PERCENT)
    ensures IsSafe(raw[0]) ==> Quote(raw)[1..] == Quote(raw[1..])
    ensures !IsSafe(raw[0]) ==>
      EscapeAt(Quote(raw), 0) && Escape(Quote(raw), 0) == raw[0] && Quote(raw)[3..] == Quote(raw[1..])
  {
  }

  /** A percent sign begins an escape after quoting exactly if it did before, and the same one. */
  lemma QuoteKeepsEscapes(raw: Bytes)
    requires raw != [] && raw[0] == PERCENT
    ensures EscapeAt(Quote(raw), 0) <==> EscapeAt(raw, 0)
    ensures EscapeAt(raw, 0) ==> Escape(Quote(raw), 0) == Escape(raw, 0) && Quote(raw)[3..] == Quote(raw[3..])
  {
    QuoteUnfolds(raw);
    assert Quote(raw) == [PERCENT] + Quote(raw[1..]);
    if |raw| > 1 {
      QuoteUnfolds(raw[1..]);
      assert raw[1..][1..] == raw[2..];
      if IsHexDigit(raw[1]) {
        assert Quote(raw[1..]) == [raw[1]] + Quote(raw[2..]);
        if |raw| > 2 {
          QuoteUnfolds(raw[2..]);
          assert raw[2..][1..] == raw[3..];
          if IsHexDigit(raw[2]) {
            assert Quote(raw[2..]) == [raw[2]] + Quote(raw[3..]);
          }
        }
      }
    }
  }

  lemma {:induction false} QuoteDecodesAlike(raw: Bytes)
    ensures Strict(Quote(raw)) == Strict(raw)
    decreases |raw|
  {
    if raw != [] {
      QuoteUnfolds(raw);
      if raw[0] == PERCENT {
        QuoteKeepsEscapes(raw);
        if EscapeAt(raw, 0) {
          QuoteDecodesAlike(raw[3..]);
        }
      } else {
        QuoteDecodesAlike(raw[1..]);
      }
    }
  }

  /** Behind a prefix that is not quoted, too. */
  lemma {:induction false} PrefixDecodesAlike(prefix: Bytes, raw: Bytes)
    ensures Strict(prefix + Quote(raw)) == Strict(prefix + raw)
    decreases |prefix|
  {
    var quoted, plain := prefix + Quote(raw), prefix + raw;
    if prefix == [] {
      assert quoted == Quote(raw) && plain == raw;
      QuoteDecodesAlike(raw);
    } else if prefix[0] != PERCENT {
      PrefixDecodesAlike(prefix[1..], raw);
      assert quoted[1..] == prefix[1..] + Quote(raw) && plain[1..] == prefix[1..] + raw;
    } else if |prefix| >= 3 {
      PrefixDecodesAlike(prefix[3..], raw);
      assert quoted[3..] == prefix[3..] + Quote(raw) && plain[3..] == prefix[3..] + raw;
    } else if |prefix| == 1 || IsHexDigit(prefix[1]) {
      SafePrefix(prefix, raw);
      QuoteDecodesAlike(plain);
    }
  }

  lemma {:induction false} SafePrefix(prefix: Bytes, raw: Bytes)
    requires forall i :: 0 <= i < |prefix| ==> IsSafe(prefix[i])
    ensures prefix + Quote(raw) == Quote(prefix + raw)
    decreases |prefix|
  {
    if prefix == [] {
      assert prefix + raw == raw;
    } else {
      SafePrefix(prefix[1..], raw);
      assert (prefix + raw)[1..] == prefix[1..] + raw;
      assert prefix == [prefix[0]] + prefix[1..];
    }
  }

  /** The redirect to root_path and the quoted target leads to the same path as root_path and the target
      themselves, or to the same refusal. */
  lemma RedirectKeepsThePath(root: Bytes, raw: Bytes)
    ensures DecodeAsgiPath(root + Quote(raw)) == DecodeAsgiPath(root + raw)
  {
    PrefixDecodesAlike(root, raw);
    StrictMeansScanned(root + raw);
    StrictMeansScanned(root + Quote(raw));
  }
}
