/**
 * The signed-request pipeline shared by both client revisions: the canonical
 * request string (base URL, endpoint, `game_id` and the caller's queries in
 * order), the lowercase hexadecimal rendering of the MD5 digest, and the
 * `&signature=` suffix. MD5 itself is a parameter of type `Md5`.
 */
module Signing {
  import opened Wrappers
  import opened Text

  type byte = x: int | 0 <= x < 256

  /** An MD5 digest: sixteen bytes. */
  type Digest = d: seq<byte> | |d| == 16 witness [0, 0, 0, 0, 0, 0, 0, 0, 0, 0, 0, 0, 0, 0, 0, 0]

  /** UTF-8 encoding followed by MD5, the library computation the signer calls. */
  type Md5 = string -> Digest

  /** The base URL of version 1.2 of the game API, the only version either revision supports. */
  const V1_2BaseURL := "https://api.gamejolt.com/api/game/v1_2/"

  // ---------------------------------------------------------------- hexadecimal

  predicate IsLowerHex(c: char)
  {
    '0' <= c <= '9' || 'a' <= c <= 'f'
  }

  function HexDigit(d: nat): (c: char)
    requires d < 16
    ensures IsLowerHex(c)
  {
    if d < 10 then ('0' as int + d) as char else ('a' as int + d - 10) as char
  }

  function HexValue(c: char): Option<nat>
  {
    if '0' <= c <= '9' then Some(c as int - '0' as int)
    else if 'a' <= c <= 'f' then Some(c as int - 'a' as int + 10)
    else None
  }

  /** `Convert.ToString(n, 16)`: lowercase digits, no leading zeros, "0" for zero. */
  function ToBase16(n: nat): string
  {
    if n < 16 then [HexDigit(n)] else ToBase16(n / 16) + [HexDigit(n % 16)]
  }

  /** The two-digit lowercase rendering of one byte, high nibble first. */
  function ByteHex(b: byte): (s: string)
    ensures |s| == 2 && IsLowerHex(s[0]) && IsLowerHex(s[1])
  {
    [HexDigit(b / 16), HexDigit(b % 16)]
  }

  /** `Convert.ToString(b, 16).PadLeft(2, '0')` is the two-digit rendering of `b`. */
  lemma PaddedByteHex(b: byte)
    ensures PadLeft(ToBase16(b), 2, '0') == ByteHex(b)
  {
    if b < 16 {
      assert ToBase16(b) == [HexDigit(b)];
      assert HexDigit(b / 16) == '0';
    } else {
      assert ToBase16(b / 16) == [HexDigit(b / 16)];
    }
  }

  /** The rendering of a byte sequence: two lowercase hex digits per byte, in order. */
  function HexString(d: seq<byte>): (s: string)
    ensures |s| == 2 * |d|
    ensures forall i :: 0 <= i < |s| ==> IsLowerHex(s[i])
  {
    if d == [] then "" else ByteHex(d[0]) + HexString(d[1..])
  }

  lemma {:induction false} HexStringSnoc(d: seq<byte>, b: byte)
    ensures HexString(d + [b]) == HexString(d) + ByteHex(b)
  {
    if d == [] {
      assert [b][1..] == [];
    } else {
      assert (d + [b])[1..] == d[1..] + [b];
      HexStringSnoc(d[1..], b);
    }
  }

  /** Reads pairs of lowercase hex digits back into bytes. */
  function HexDecode(s: string): Option<seq<byte>>
  {
    if s == [] then Some([])
    else if |s| == 1 then None
    else match (HexValue(s[0]), HexValue(s[1]), HexDecode(s[2..]))
      case (Some(hi), Some(lo), Some(rest)) =>
        if hi < 16 && lo < 16 then Some([hi * 16 + lo] + rest) else None
      case _ => None
  }

  /** The hex rendering loses nothing: decoding it gives back the digest bytes. */
  lemma {:induction false} HexRoundTrip(d: seq<byte>)
    ensures HexDecode(HexString(d)) == Some(d)
  {
    if d != [] {
      var s := HexString(d);
      assert s == ByteHex(d[0]) + HexString(d[1..]);
      assert s[2..] == HexString(d[1..]);
      HexRoundTrip(d[1..]);
      assert d == [d[0] / 16 * 16 + d[0] % 16] + d[1..];
    }
  }

  /** `Md5Sum`: the digest of `strToEncrypt`, rendered byte by byte as two hex digits and padded to 32. */
  method Md5Sum(md5: Md5, strToEncrypt: string) returns (hashString: string)
    ensures hashString == HexString(md5(strToEncrypt))
    ensures |hashString| == 32
  {
    var hashBytes := md5(strToEncrypt);
    hashString := "";
    for i := 0 to |hashBytes|
      invariant hashString == HexString(hashBytes[..i])
    {
      PaddedByteHex(hashBytes[i]);
      HexStringSnoc(hashBytes[..i], hashBytes[i]);
      assert hashBytes[..i + 1] == hashBytes[..i] + [hashBytes[i]];
      hashString := hashString + PadLeft(ToBase16(hashBytes[i]), 2, '0');
    }
    assert hashBytes[..|hashBytes|] == hashBytes;
    hashString := PadLeft(hashString, 32, '0');
  }

  // ---------------------------------------------------------------- request string

  /** `"&" + q` for every query, in the order given. */
  function QuerySuffix(queries: seq<string>): string
  {
    if queries == [] then "" else "&" + queries[0] + QuerySuffix(queries[1..])
  }

  /** Everything after the `?`: `game_id` first, then the caller's queries. */
  function QueryString(gameID: string, queries: seq<string>): string
  {
    "game_id=" + gameID + QuerySuffix(queries)
  }

  /** The string that is signed and sent, before its signature is appended. */
  function CanonicalRequest(baseURL: string, endpoint: string, gameID: string, queries: seq<string>): string
  {
    baseURL + endpoint + "?" + QueryString(gameID, queries)
  }

  lemma {:induction false} QuerySuffixSnoc(queries: seq<string>, q: string)
    ensures QuerySuffix(queries + [q]) == QuerySuffix(queries) + "&" + q
  {
    if queries == [] {
      assert [q][1..] == [];
    } else {
      assert (queries + [q])[1..] == queries[1..] + [q];
      QuerySuffixSnoc(queries[1..], q);
    }
  }

  lemma {:induction false} QuerySuffixJoin(first: string, queries: seq<string>)
    ensures first + QuerySuffix(queries) == Join([first] + queries, '&')
    decreases queries
  {
    if queries != [] {
      QuerySuffixJoin(queries[0], queries[1..]);
      assert [queries[0]] + queries[1..] == queries;
      assert ([first] + queries)[1..] == queries;
    }
  }

  /**
   * The query string lists `game_id` first and then exactly the caller's queries,
   * in order: splitting it at `&` recovers them when no value contains `&`.
   */
  lemma QueryStringLayout(gameID: string, queries: seq<string>)
    requires '&' !in gameID
    requires forall i :: 0 <= i < |queries| ==> '&' !in queries[i]
    ensures Split(QueryString(gameID, queries), '&') == ["game_id=" + gameID] + queries
  {
    var parts := ["game_id=" + gameID] + queries;
    QuerySuffixJoin("game_id=" + gameID, queries);
    forall i | 0 <= i < |parts| ensures '&' !in parts[i] {
      if i > 0 { assert parts[i] == queries[i - 1]; }
    }
    SplitJoin(parts, '&');
  }

  /** `APIRequest`'s URL loop: base, endpoint, `?game_id=`, then `&` and each query in turn. */
  method BuildRequest(baseURL: string, endpoint: string, gameID: string, queries: seq<string>)
    returns (request: string)
    ensures request == CanonicalRequest(baseURL, endpoint, gameID, queries)
  {
    request := baseURL + endpoint + "?";
    request := request + "game_id=" + gameID;
    for i := 0 to |queries|
      invariant request == baseURL + endpoint + "?" + "game_id=" + gameID + QuerySuffix(queries[..i])
    {
      QuerySuffixSnoc(queries[..i], queries[i]);
      assert queries[..i + 1] == queries[..i] + [queries[i]];
      request := request + "&" + queries[i];
    }
    assert queries[..|queries|] == queries;
  }

  // ---------------------------------------------------------------- signature

  /** The request with `&signature=` and the hex digest of the request followed by the key. */
  function SignedURL(md5: Md5, key: string, request: string): (url: string)
    ensures |url| == |request| + 43
    ensures url[..|request|] == request
  {
    request + "&signature=" + HexString(md5(request + key))
  }

  /** `AddSignature`: appends the signature computed by `Md5Sum`. */
  method AddSignature(md5: Md5, key: string, strToSign: string) returns (url: string)
    ensures url == SignedURL(md5, key, strToSign)
  {
    var hash := Md5Sum(md5, strToSign + key);
    url := strToSign + "&signature=" + hash;
  }

  /** What a receiver reads from a signed URL: the signed request and the digest bytes. */
  function SplitSignature(url: string): Option<(string, seq<byte>)>
  {
    if |url| < 43 || url[|url| - 43..|url| - 32] != "&signature=" then None
    else match HexDecode(url[|url| - 32..])
      case Some(digest) => Some((url[..|url| - 43], digest))
      case None => None
  }

  /** A signed URL carries its request unchanged and exactly the digest of request plus key. */
  lemma SignatureRoundTrip(md5: Md5, key: string, request: string)
    ensures SplitSignature(SignedURL(md5, key, request)) == Some((request, md5(request + key)))
  {
    var url := SignedURL(md5, key, request);
    var hex := HexString(md5(request + key));
    assert url[|url| - 43..|url| - 32] == "&signature=";
    assert url[|url| - 32..] == hex;
    assert url[..|url| - 43] == request;
    HexRoundTrip(md5(request + key));
  }

  /** Whatever the key, the URL up to the 32 digest characters is the same. */
  lemma SignedPrefixIndependentOfKey(md5: Md5, key1: string, key2: string, request: string)
    ensures SignedURL(md5, key1, request)[..|request| + 11] == SignedURL(md5, key2, request)[..|request| + 11]
  {
    assert SignedURL(md5, key1, request)[..|request| + 11] == request + "&signature=";
    assert SignedURL(md5, key2, request)[..|request| + 11] == request + "&signature=";
  }
}
