/**
 * Query keys and request URLs of the two fetch functions `get_block` and
 * `get_state`: a root is written as "0x" followed by the lower-case hex of its
 * bytes (Python's `bytes.hex()`), and that key is spliced into the URL of the
 * beacon node's HTTP API.
 */
module QueryKey {
  import opened Wrappers

  type Byte = x: int | 0 <= x < 256

  /** A content hash (a 32-byte `Root` in `websocket.py`; any length here). */
  type Root = seq<Byte>

  /** The beacon node's HTTP endpoint, `BEACON_NODE` in `websocket.py`. */
  const BeaconNode: string := "localhost:5052"

  /** What precedes the key in the block request and in the state request. */
  const BlockPath: string := "http://" + BeaconNode + "/beacon/block?root="
  const StatePath: string := "http://" + BeaconNode + "/beacon/state?root="

  predicate IsHexDigit(c: char) {
    '0' <= c <= '9' || 'a' <= c <= 'f'
  }

  /** The lower-case hex digit of a nibble. */
  function HexDigit(n: int): (c: char)
    requires 0 <= n < 16
    ensures IsHexDigit(c)
  {
    if n < 10 then ('0' as int + n) as char else ('a' as int + n - 10) as char
  }

  /** The nibble a lower-case hex digit stands for; None for any other character. */
  function DigitValue(c: char): (r: Option<int>)
    ensures r.Some? <==> IsHexDigit(c)
    ensures r.Some? ==> 0 <= r.value < 16 && HexDigit(r.value) == c
  {
    if '0' <= c <= '9' then Some(c as int - '0' as int)
    else if 'a' <= c <= 'f' then Some(c as int - 'a' as int + 10)
    else None
  }

  lemma DigitRoundTrip(n: int)
    requires 0 <= n < 16
    ensures DigitValue(HexDigit(n)) == Some(n)
  {
  }

  /** `bytes.hex()`: two lower-case digits per byte, high nibble first. */
  function Hex(b: Root): (r: string)
    ensures |r| == 2 * |b|
    ensures forall i :: 0 <= i < |r| ==> IsHexDigit(r[i])
    decreases |b|
  {
    if b == [] then [] else [HexDigit(b[0] / 16), HexDigit(b[0] % 16)] + Hex(b[1..])
  }

  /** The inverse of `Hex`: None unless the text is an even number of lower-case hex digits. */
  function Unhex(s: string): (r: Option<Root>)
    ensures r.Some? ==> |s| == 2 * |r.value|
    decreases |s|
  {
    if |s| == 0 then Some([])
    else if |s| == 1 then None
    else
      var hi, lo := DigitValue(s[0]), DigitValue(s[1]);
      if hi.None? || lo.None? then None
      else match Unhex(s[2..])
        case None => None
        case Some(rest) => Some([hi.value * 16 + lo.value] + rest)
  }

  /** Decoding the hex of a root gives the root back. */
  lemma {:induction false} UnhexHex(b: Root)
    ensures Unhex(Hex(b)) == Some(b)
    decreases |b|
  {
    if b != [] {
      var h := Hex(b);
      assert h[2..] == Hex(b[1..]);
      UnhexHex(b[1..]);
      DigitRoundTrip(b[0] / 16);
      DigitRoundTrip(b[0] % 16);
      assert [b[0] / 16 * 16 + b[0] % 16] + b[1..] == b;
    }
  }

  /** An unhexed text is the hex of its result: `Hex` is onto the well-formed texts. */
  lemma {:induction false} HexUnhex(s: string)
    requires Unhex(s).Some?
    ensures Hex(Unhex(s).value) == s
    decreases |s|
  {
    if |s| >= 2 {
      var hi, lo := DigitValue(s[0]).value, DigitValue(s[1]).value;
      HexUnhex(s[2..]);
      var b := Unhex(s).value;
      assert b[0] == hi * 16 + lo && b[1..] == Unhex(s[2..]).value;
      assert b[0] / 16 == hi && b[0] % 16 == lo;
      assert s == [s[0], s[1]] + s[2..];
    }
  }

  /** The query key of a root: `"0x{}".format(root.hex())`. */
  function Key(root: Root): (k: string)
    ensures |k| == 2 + 2 * |root|
    ensures k[..2] == "0x" && forall i :: 2 <= i < |k| ==> IsHexDigit(k[i])
  {
    "0x" + Hex(root)
  }

  /** Reads a root back from a query key; None unless it is "0x" and hex digits. */
  function KeyRoot(key: string): (r: Option<Root>)
    ensures r.Some? ==> |key| == 2 + 2 * |r.value|
  {
    if |key| >= 2 && key[..2] == "0x" then Unhex(key[2..]) else None
  }

  /** A key names exactly its root. */
  lemma KeyRoundTrip(root: Root)
    ensures KeyRoot(Key(root)) == Some(root)
  {
    assert Key(root)[2..] == Hex(root);
    UnhexHex(root);
  }

  /** Two roots have the same key only if they are the same root. */
  lemma KeyInjective(r1: Root, r2: Root)
    ensures Key(r1) == Key(r2) <==> r1 == r2
  {
    KeyRoundTrip(r1);
    KeyRoundTrip(r2);
  }

  /** A second "0x" in front of a key makes a text that is not a key of any root. */
  lemma DoubledPrefixIsNoKey(root: Root)
    ensures KeyRoot("0x" + Key(root)) == None
  {
  }

  /** The block request: the key appears once, as `root=0x<hex>`. */
  function BlockUrl(root: Root): (url: string)
    ensures |url| == |BlockPath| + 2 + 2 * |root| && url[..|BlockPath|] == BlockPath
    ensures KeyRoot(url[|BlockPath|..]) == Some(root)
  {
    var url := BlockPath + Key(root);
    assert url[|BlockPath|..] == Key(root);
    KeyRoundTrip(root);
    url
  }

  /**
   * The state request: the format string already holds "0x" before the key,
   * so the query value is `0x0x<hex>`, which is not the key of any root;
   * only after dropping one more "0x" does it name the root.
   */
  function StateUrl(root: Root): (url: string)
    ensures |url| == |StatePath| + 4 + 2 * |root| && url[..|StatePath|] == StatePath
    ensures KeyRoot(url[|StatePath|..]) == None
    ensures url[|StatePath|..|StatePath| + 2] == "0x"
    ensures KeyRoot(url[|StatePath| + 2..]) == Some(root)
  {
    var url := StatePath + "0x" + Key(root);
    assert url[|StatePath|..] == "0x" + Key(root);
    assert url[|StatePath| + 2..] == Key(root);
    DoubledPrefixIsNoKey(root);
    KeyRoundTrip(root);
    url
  }

  /** Block requests for different roots go to different URLs. */
  lemma BlockUrlInjective(r1: Root, r2: Root)
    ensures BlockUrl(r1) == BlockUrl(r2) <==> r1 == r2
  {
  }

  /** State requests for different roots go to different URLs. */
  lemma StateUrlInjective(r1: Root, r2: Root)
    ensures StateUrl(r1) == StateUrl(r2) <==> r1 == r2
  {
  }

  /** A block request and a state request are never the same URL. */
  lemma BlockAndStateUrlsDiffer(r1: Root, r2: Root)
    ensures BlockUrl(r1) != StateUrl(r2)
  {
  }
}
