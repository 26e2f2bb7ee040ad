/** The flat key space of the x/wasm store. Every record and index entry lives under
    one byte-string key; Enc builds the keys and Parse reads them back. */
module Keys {
  import opened Bytes

  /** AbsoluteTxPosition */
  datatype Pos = Pos(height: U64, index: U64)

  function PosBytes(p: Pos): (r: Bytes)
    ensures |r| == 16
  {
    U64Bytes(p.height) + U64Bytes(p.index)
  }

  datatype Key =
    | CodeKey(id: U64)
    | ContractKey(addr: Addr)
    | StateKey(path: Bytes)
    | CodeSequence
    | InstanceSequence
    | HistoryKey(addr: Addr, nr: U64)
    | ByCodeKey(id: U64, at: Pos, addr: Addr)
    | PinnedKey(id: U64)
    | ByCreatorKey(creator: Addr, at: Pos, addr: Addr)
    | ParamsKey
    | Malformed
    | Foreign

  const LAST_CODE_ID: Bytes := [108, 97, 115, 116, 67, 111, 100, 101, 73, 100]
  const LAST_CONTRACT_ID: Bytes := [108, 97, 115, 116, 67, 111, 110, 116, 114, 97, 99, 116, 73, 100]

  predicate Proper(k: Key) {
    !k.Malformed? && !k.Foreign? && (k.ByCreatorKey? ==> |k.creator| <= 255)
  }

  function HistoryPrefix(a: Addr): Bytes { [5] + a }

  function ByCodePrefix(id: U64): Bytes { [6] + U64Bytes(id) }

  function ByCreatorPrefix(creator: Addr): Bytes
    requires |creator| <= 255
  {
    [9] + ([|creator|] + creator)
  }

  function Enc(k: Key): (r: Bytes)
    requires Proper(k)
    ensures r != []
  {
    match k
    case CodeKey(id) => [1] + U64Bytes(id)
    case ContractKey(a) => [2] + a
    case StateKey(p) => [3] + p
    case CodeSequence => [4] + LAST_CODE_ID
    case InstanceSequence => [4] + LAST_CONTRACT_ID
    case HistoryKey(a, nr) => HistoryPrefix(a) + U64Bytes(nr)
    case ByCodeKey(id, at, a) => ByCodePrefix(id) + PosBytes(at) + a
    case PinnedKey(id) => [7] + U64Bytes(id)
    case ByCreatorKey(c, at, a) => ByCreatorPrefix(c) + PosBytes(at) + a
    case ParamsKey => [16]
  }

  function U64At(b: Bytes, i: nat): U64
    requires i + 8 <= |b|
  {
    FromBigEndianRoundTrip(b[i..i + 8]);
    Pow256Eight();
    FromBigEndian(b[i..i + 8])
  }

  function Parse(raw: Bytes): Key {
    if raw == [] then Foreign
    else
      var n, rest := |raw| - 1, raw[1..];
      match raw[0]
      case 1 => if n == 8 then CodeKey(U64At(rest, 0)) else Malformed
      case 2 => ContractKey(rest)
      case 3 => StateKey(rest)
      case 4 =>
        if rest == LAST_CODE_ID then CodeSequence else if rest == LAST_CONTRACT_ID then InstanceSequence else Malformed
      case 5 => if n >= 8 then HistoryKey(rest[..n - 8], U64At(rest, n - 8)) else Malformed
      case 6 =>
        if n >= 24 then ByCodeKey(U64At(rest, 0), Pos(U64At(rest, 8), U64At(rest, 16)), rest[24..]) else Malformed
      case 7 => if n == 8 then PinnedKey(U64At(rest, 0)) else Malformed
      case 9 =>
        var len: int := if n >= 1 then rest[0] else 0;
        if n >= 17 + len then
          var c := 1 + len;
          ByCreatorKey(rest[1..c], Pos(U64At(rest, c), U64At(rest, c + 8)), rest[c + 16..])
        else Malformed
      case 16 => if n == 0 then ParamsKey else Malformed
      case _ => Foreign
  }

  lemma U64AtIs(b: Bytes, i: nat, n: U64)
    requires i + 8 <= |b| && b[i..i + 8] == U64Bytes(n)
    ensures U64At(b, i) == n
  {
    U64BytesInjective(n, n);
  }

  lemma U64AtBack(b: Bytes, i: nat)
    requires i + 8 <= |b|
    ensures U64Bytes(U64At(b, i)) == b[i..i + 8]
  {
    FromBigEndianRoundTrip(b[i..i + 8]);
  }

  lemma Cut4(p: Bytes, i: Bytes, h: Bytes, x: Bytes, a: Bytes)
    ensures var r := p + i + (h + x) + a;
      var n, m, l := |p| + |i|, |p| + |i| + |h|, |p| + |i| + |h| + |x|;
      r[|p|..n] == i && r[n..m] == h && r[m..l] == x && r[l..] == a
  {
  }

  /** Reading back a built key: no two records share a key, even when addresses
      have different lengths and one is a prefix of the other. */
  lemma ParseEnc(k: Key)
    requires Proper(k)
    ensures Parse(Enc(k)) == k
  {
    match k
    case CodeKey(id) => Cut4([1], U64Bytes(id), [], [], []); U64AtIs(Enc(k)[1..], 0, id);
    case PinnedKey(id) => Cut4([7], U64Bytes(id), [], [], []); U64AtIs(Enc(k)[1..], 0, id);
    case HistoryKey(a, nr) => ParseEncHistory(a, nr);
    case ByCodeKey(id, at, a) => ParseEncByCode(id, at, a);
    case ByCreatorKey(c, at, a) => ParseEncByCreator(c, at, a);
    case _ =>
  }

  lemma ParseEncHistory(a: Addr, nr: U64)
    ensures Parse(Enc(HistoryKey(a, nr))) == HistoryKey(a, nr)
  {
    var raw, n := Enc(HistoryKey(a, nr)), |a|;
    Cut4([5], a, U64Bytes(nr), [], []);
    assert raw == [5] + a + (U64Bytes(nr) + []) + [];
    assert raw[1..][..n] == raw[1..1 + n] && raw[1..][n..n + 8] == raw[1 + n..9 + n];
    U64AtIs(raw[1..], n, nr);
  }

  lemma ParseEncByCode(id: U64, at: Pos, a: Addr)
    ensures Parse(Enc(ByCodeKey(id, at, a))) == ByCodeKey(id, at, a)
  {
    var raw := Enc(ByCodeKey(id, at, a));
    Cut4([6], U64Bytes(id), U64Bytes(at.height), U64Bytes(at.index), a);
    var rest := raw[1..];
    assert rest[0..8] == raw[1..9] && rest[8..16] == raw[9..17] && rest[16..24] == raw[17..25] && rest[24..] == raw[25..];
    U64AtIs(rest, 0, id);
    U64AtIs(rest, 8, at.height);
    U64AtIs(rest, 16, at.index);
  }

  lemma ParseEncByCreator(c: Addr, at: Pos, a: Addr)
    requires |c| <= 255
    ensures Parse(Enc(ByCreatorKey(c, at, a))) == ByCreatorKey(c, at, a)
  {
    var raw, n := Enc(ByCreatorKey(c, at, a)), 1 + |c|;
    Cut4([9, |c|], c, U64Bytes(at.height), U64Bytes(at.index), a);
    assert raw == [9, |c|] + c + PosBytes(at) + a;
    var rest := raw[1..];
    assert rest[1..n] == raw[2..1 + n] && rest[n..n + 8] == raw[1 + n..9 + n];
    assert rest[n + 8..n + 16] == raw[9 + n..17 + n] && rest[n + 16..] == raw[17 + n..];
    U64AtIs(rest, n, at.height);
    U64AtIs(rest, n + 8, at.index);
  }

  /** And every key that parses is the one its record builds. */
  lemma EncParse(raw: Bytes)
    requires var k := Parse(raw); !k.Malformed? && !k.Foreign?
    ensures Proper(Parse(raw)) && Enc(Parse(raw)) == raw
  {
    var n, rest := |raw| - 1, raw[1..];
    assert raw == [raw[0]] + rest;
    if raw[0] == 1 || raw[0] == 7 { U64AtBack(rest, 0); assert rest[0..8] == rest; }
    if raw[0] == 5 { U64AtBack(rest, n - 8); assert rest == rest[..n - 8] + rest[n - 8..n]; }
    if raw[0] == 6 { EncParseByCode(raw); }
    if raw[0] == 9 { EncParseByCreator(raw); }
  }

  lemma EncParseByCode(raw: Bytes)
    requires Parse(raw).ByCodeKey?
    ensures Enc(Parse(raw)) == raw
  {
    var rest := raw[1..];
    U64AtBack(rest, 0);
    U64AtBack(rest, 8);
    U64AtBack(rest, 16);
    Glue([6], rest[0..8], rest[8..16], rest[16..24], rest[24..], raw);
  }

  lemma EncParseByCreator(raw: Bytes)
    requires Parse(raw).ByCreatorKey?
    ensures Proper(Parse(raw)) && Enc(Parse(raw)) == raw
  {
    var rest := raw[1..];
    var len: int := rest[0];
    var c := 1 + len;
    U64AtBack(rest, c);
    U64AtBack(rest, c + 8);
    var k := Parse(raw);
    assert ByCreatorPrefix(k.creator) == [9, rest[0]] + rest[1..c];
    Shifted(raw, rest, 1, c);
    Shifted(raw, rest, c, c + 8);
    Shifted(raw, rest, c + 8, c + 16);
    Shifted(raw, rest, c + 16, |rest|);
    Glue([9, rest[0]], rest[1..c], rest[c..c + 8], rest[c + 8..c + 16], rest[c + 16..], raw);
  }

  lemma Shifted(raw: Bytes, rest: Bytes, i: nat, j: nat)
    requires raw != [] && rest == raw[1..] && i <= j <= |rest|
    ensures raw[1 + i..1 + j] == rest[i..j]
  {
    var x, y := raw[1 + i..1 + j], rest[i..j];
    assert |x| == |y| && forall l | 0 <= l < |x| :: x[l] == y[l];
  }

  lemma Glue(p: Bytes, i: Bytes, h: Bytes, x: Bytes, a: Bytes, r: Bytes)
    requires |r| == |p| + |i| + |h| + |x| + |a|
    requires var n, m, l := |p| + |i|, |p| + |i| + |h|, |p| + |i| + |h| + |x|;
      r[..|p|] == p && r[|p|..n] == i && r[n..m] == h && r[m..l] == x && r[l..] == a
    ensures p + i + (h + x) + a == r
  {
  }

  /** A history scan under one address sees exactly that address's entries among the
      keys whose remainder is eight bytes long. */
  lemma HistoryPrefixExact(raw: Bytes, a: Addr)
    ensures HistoryPrefix(a) <= raw && |raw| - |HistoryPrefix(a)| == 8
      <==> Parse(raw).HistoryKey? && Parse(raw).addr == a
  {
  }

  /** A by-code scan sees exactly the index entries of that code. */
  lemma ByCodePrefixExact(raw: Bytes, id: U64)
    requires !Parse(raw).Malformed?
    ensures ByCodePrefix(id) <= raw <==> Parse(raw).ByCodeKey? && Parse(raw).id == id
    ensures ByCodePrefix(id) <= raw ==> raw[|ByCodePrefix(id)| + 16..] == Parse(raw).addr
  {
    if Parse(raw).ByCodeKey? {
      EncParse(raw);
      var k := Parse(raw);
      assert raw[..9] == ByCodePrefix(k.id);
      if ByCodePrefix(id) <= raw {
        assert raw[..9] == ByCodePrefix(id) && raw[1..9] == U64Bytes(id) && raw[1..9] == U64Bytes(k.id);
        U64BytesInjective(id, k.id);
      }
    }
  }

  /** A by-creator scan sees exactly the index entries of that creator. */
  lemma ByCreatorPrefixExact(raw: Bytes, creator: Addr)
    requires !Parse(raw).Malformed? && |creator| <= 255
    ensures ByCreatorPrefix(creator) <= raw <==> Parse(raw).ByCreatorKey? && Parse(raw).creator == creator
  {
    var p := ByCreatorPrefix(creator);
    if p <= raw {
      assert raw[..|p|] == p && raw[1] == p[1] == |creator| && raw[2..|p|] == p[2..] == creator;
      assert raw[1..][1..1 + |creator|] == raw[2..|p|];
    }
    if Parse(raw).ByCreatorKey? && Parse(raw).creator == creator {
      EncParse(raw);
      assert raw[..|p|] == p;
    }
  }

  /** Big-endian numbers order the history of one contract. */
  lemma HistoryKeyOrder(a: Addr, m: U64, n: U64)
    requires m < n
    ensures Less(Enc(HistoryKey(a, m)), Enc(HistoryKey(a, n)))
  {
    U64BytesInjective(m, n);
    LessUnderPrefix(HistoryPrefix(a), U64Bytes(m), U64Bytes(n));
  }
}
