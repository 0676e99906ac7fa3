/** The per-user burn history store. The contract writes a user's records
    under the bytes of the address STRING and reads them back under the
    CANONICAL address bytes; the two key functions below keep that apart. */
module History {
  import opened Types

  /** UTF-8 encoding of one Unicode scalar value. */
  function Utf8(c: char): (b: seq<Byte>)
    ensures 1 <= |b| <= 4
    ensures |b| == 1 <==> c as int < 0x80
    ensures |b| == 1 ==> b[0] == c as int
  {
    var n := c as int;
    if n < 0x80 then [n]
    else if n < 0x800 then [0xC0 + n / 0x40, 0x80 + n % 0x40]
    else if n < 0x1_0000 then [0xE0 + n / 0x1000, 0x80 + (n / 0x40) % 0x40, 0x80 + n % 0x40]
    else [0xF0 + n / 0x4_0000, 0x80 + (n / 0x1000) % 0x40, 0x80 + (n / 0x40) % 0x40, 0x80 + n % 0x40]
  }

  predicate IsAscii(a: string) {
    forall i :: 0 <= i < |a| ==> a[i] as int < 0x80
  }

  /** The key a burn is written under: the bytes of the address string. */
  function HumanKey(a: Addr): (k: HistoryKey)
    ensures |k| >= |a|
    ensures IsAscii(a) ==> |k| == |a| && forall i :: 0 <= i < |a| ==> k[i] == a[i] as int
  {
    if a == [] then [] else Utf8(a[0]) + HumanKey(a[1..])
  }

  /** The key a history query reads under: the canonical address bytes, as they are. */
  function CanonicalKey(c: CanonicalAddr): (k: HistoryKey)
    ensures |k| == |c| && forall i :: 0 <= i < |c| ==> k[i] == c[i]
  {
    c
  }

  /** A canonical address shorter than an address string never reads the
      partition that string's burns are written to. */
  lemma KeysDiffer(a: Addr, c: CanonicalAddr)
    requires |c| < |a|
    ensures HumanKey(a) != CanonicalKey(c)
  {
  }

  /** The records stored under `k`; a key never written holds none. */
  function Records(h: map<HistoryKey, seq<HistoryToken>>, k: HistoryKey): seq<HistoryToken> {
    if k in h then h[k] else []
  }

  /** The history after pushing `t` onto the partition under `k`. */
  function Append(h: map<HistoryKey, seq<HistoryToken>>, k: HistoryKey, t: HistoryToken)
    : (h': map<HistoryKey, seq<HistoryToken>>)
    ensures h'.Keys == h.Keys + {k}
    ensures Records(h', k) == Records(h, k) + [t]
    ensures forall k' :: k' != k ==> Records(h', k') == Records(h, k')
  {
    h[k := Records(h, k) + [t]]
  }
}
