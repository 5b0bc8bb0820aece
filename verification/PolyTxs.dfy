/**
 Rows of the relay queue (db/models.go): transactions from Poly to be executed on Starcoin, and the
 rows taken out of the queue. Hexadecimal columns are kept as the bytes they encode.
 */
module PolyTxs {
  import opened Bytes
  import opened Wrappers
  import opened SparseMerkle

  datatype Status =
    | Created
    | Processing
    | Failed
    | Processed
    | Confirmed
    | TimedOut
    | ToBeRemoved
    | ToBePushedBack
    | UnknownError

  datatype Key = Key(fromChainId: nat, txHash: Bytes)

  /**
   `root` is the non-membership root, empty when it must be derived again; `sideNodes` is absent until first
   derived.
   */
  datatype PolyTx = PolyTx(
    txIndex: nat,
    key: Key,
    payload: string,
    smtTxPath: Bytes,
    root: Bytes,
    sideNodes: Option<seq<Bytes>>,
    leafData: Bytes,
    status: Status,
    starcoinTxHash: string,
    updatedAt: nat,
    retryCount: nat)

  datatype RemovedPolyTx = RemovedPolyTx(
    id: nat,
    originTxIndex: nat,
    key: Key,
    payload: string,
    smtTxPath: Bytes,
    root: Bytes,
    sideNodes: Option<seq<Bytes>>,
    leafData: Bytes,
    status: Status,
    starcoinTxHash: string,
    retryCount: nat)

  function ToRemovedPolyTx(o: PolyTx, id: nat): RemovedPolyTx {
    RemovedPolyTx(id, o.txIndex, o.key, o.payload, o.smtTxPath, o.root, o.sideNodes, o.leafData,
                  o.status, o.starcoinTxHash, o.retryCount)
  }

  /** A pushed-back row has no index yet, no root and no stamp. */
  function ToPolyTx(o: RemovedPolyTx): PolyTx {
    PolyTx(0, o.key, o.payload, o.smtTxPath, [], o.sideNodes, o.leafData, o.status, o.starcoinTxHash, 0, o.retryCount)
  }

  /** A row comes back as it was taken out, but for its place, its root and its stamp. */
  lemma ReturnedRow(o: PolyTx, id: nat)
    ensures ToPolyTx(ToRemovedPolyTx(o, id)) == o.(txIndex := 0, root := [], updatedAt := 0)
    ensures ToRemovedPolyTx(o, id).originTxIndex == o.txIndex && ToRemovedPolyTx(o, id).root == o.root
  {
  }

  // ---------- keys and paths ----------

  /** `n` as `width` little-endian bytes. */
  function LittleEndian(n: nat, width: nat): (r: Bytes)
    ensures |r| == width
  {
    if width == 0 then [] else [(n % 256) as byte] + LittleEndian(n / 256, width - 1)
  }

  /** Length prefix of variable-length bytes in the Poly serialisation. */
  function VarUint(n: nat): Bytes {
    if n < 0xFD then [n as byte]
    else if n <= 0xFFFF then [0xFD] + LittleEndian(n, 2)
    else if n <= 0xFFFF_FFFF then [0xFE] + LittleEndian(n, 4)
    else [0xFF] + LittleEndian(n, 8)
  }

  /** `concatFromChainIDAndTxHash`. */
  function ConcatKey(k: Key): Bytes {
    LittleEndian(k.fromChainId, 8) + VarUint(|k.txHash|) + k.txHash
  }

  /** Keys the columns can hold. */
  predicate Storable(k: Key) {
    k.fromChainId < UINT64_SIZE && |k.txHash| < UINT64_SIZE
  }

  function PathOf(h: Hasher, k: Key): Bytes {
    h.sum(ConcatKey(k))
  }

  /** A row as it is to be put: what came from Poly, and nothing done about it yet. */
  function NewPolyTx(h: Hasher, key: Key, payload: string): (r: PolyTx)
    ensures r.key == key && r.payload == payload && r.smtTxPath == PathOf(h, key)
    ensures r.status == Created && r.root == [] && r.starcoinTxHash == "" && r.retryCount == 0
  {
    PolyTx(0, key, payload, PathOf(h, key), [], None, [], Created, "", 0, 0)
  }

  lemma {:induction false} LittleEndianInjective(m: nat, n: nat, width: nat)
    requires m < Pow256(width) && n < Pow256(width)
    requires LittleEndian(m, width) == LittleEndian(n, width)
    ensures m == n
  {
    if width > 0 {
      var a, b := LittleEndian(m, width), LittleEndian(n, width);
      assert a[0] == (m % 256) as byte && b[0] == (n % 256) as byte;
      assert a[1..] == LittleEndian(m / 256, width - 1) && b[1..] == LittleEndian(n / 256, width - 1);
      LittleEndianInjective(m / 256, n / 256, width - 1);
    }
  }

  lemma VarUintPrefixFree(m: nat, n: nat, x: Bytes, y: Bytes)
    requires m < UINT64_SIZE && n < UINT64_SIZE
    requires VarUint(m) + x == VarUint(n) + y
    ensures m == n
  {
    var a := VarUint(m) + x;
    assert a[0] == VarUint(m)[0] && a[0] == VarUint(n)[0];
    assert VarUint(m) == a[..|VarUint(m)|] && VarUint(n) == a[..|VarUint(n)|];
    assert Pow256(2) == 0x1_0000 && Pow256(4) == 0x1_0000_0000 && Pow256(8) == UINT64_SIZE;
    if m >= 0xFD {
      var width := |VarUint(m)| - 1;
      assert VarUint(m)[1..] == LittleEndian(m, width) && VarUint(n)[1..] == LittleEndian(n, width);
      LittleEndianInjective(m, n, width);
    }
  }

  /** What is hashed into a path identifies the key, so equal paths of different keys collide in the digest. */
  lemma ConcatKeyInjective(k1: Key, k2: Key)
    requires Storable(k1) && Storable(k2)
    ensures ConcatKey(k1) == ConcatKey(k2) <==> k1 == k2
  {
    if ConcatKey(k1) == ConcatKey(k2) {
      var a, b := ConcatKey(k1), ConcatKey(k2);
      assert a[..8] == LittleEndian(k1.fromChainId, 8) && b[..8] == LittleEndian(k2.fromChainId, 8);
      assert Pow256(8) == UINT64_SIZE;
      LittleEndianInjective(k1.fromChainId, k2.fromChainId, 8);
      assert a[8..] == VarUint(|k1.txHash|) + k1.txHash && b[8..] == VarUint(|k2.txHash|) + k2.txHash;
      VarUintPrefixFree(|k1.txHash|, |k2.txHash|, k1.txHash, k2.txHash);
      assert a[8 + |VarUint(|k1.txHash|)|..] == k1.txHash && b[8 + |VarUint(|k1.txHash|)|..] == k2.txHash;
    }
  }

  // ---------- reading keys back ----------

  /** The number that bytes stand for, least significant first. */
  function Number(data: Bytes): nat {
    if data == [] then 0 else data[0] as nat + 256 * Number(data[1..])
  }

  /** Numbers below this one have a shorter form. */
  function Least(width: nat): nat {
    match width case 2 => 0xFD case 4 => 0x1_0000 case _ => 0x1_0000_0000
  }

  /** The length at the front of `data`, in the shortest form there is for it, and what follows it. */
  function ReadVarUint(data: Bytes): Option<(nat, Bytes)> {
    if data == [] then None
    else
      var width := match data[0] case 0xFD => 2 case 0xFE => 4 case 0xFF => 8 case _ => 0;
      if |data| < 1 + width then None
      else if width == 0 then Some((data[0] as nat, data[1..]))
      else if Number(data[1..1 + width]) < Least(width) then None
      else Some((Number(data[1..1 + width]), data[1 + width..]))
  }

  /** Chain id in eight bytes, length of the hash, hash. */
  function ReadKey(data: Bytes): Option<Key> {
    if |data| < 8 then None
    else
      var id, hash := Number(data[..8]), ReadVarUint(data[8..]);
      if hash == None || hash.value.0 != |hash.value.1| then None
      else Some(Key(id, hash.value.1))
  }

  lemma {:induction false} NumberOfLittleEndian(n: nat, width: nat)
    requires n < Pow256(width)
    ensures Number(LittleEndian(n, width)) == n
  {
    if width > 0 {
      NumberOfLittleEndian(n / 256, width - 1);
      assert LittleEndian(n, width)[1..] == LittleEndian(n / 256, width - 1);
    }
  }

  lemma VarUintRead(n: nat, rest: Bytes)
    requires n < UINT64_SIZE
    ensures ReadVarUint(VarUint(n) + rest) == Some((n, rest))
  {
    var data := VarUint(n) + rest;
    assert Pow256(2) == 0x1_0000 && Pow256(4) == 0x1_0000_0000 && Pow256(8) == UINT64_SIZE;
    if n >= 0xFD {
      var width := |VarUint(n)| - 1;
      assert data[1..1 + width] == LittleEndian(n, width) && data[1 + width..] == rest;
      NumberOfLittleEndian(n, width);
    } else {
      assert data[1..] == rest;
    }
  }

  /** What is hashed into a path can be read back: eight bytes and a length, each least significant byte first. */
  lemma ConcatKeyRead(k: Key)
    requires Storable(k)
    ensures ReadKey(ConcatKey(k)) == Some(k)
  {
    hide LittleEndian, VarUint, Number, ReadVarUint, Pow256;
    var data := ConcatKey(k);
    EightBytes();
    NumberOfLittleEndian(k.fromChainId, 8);
    VarUintRead(|k.txHash|, k.txHash);
    assert data[..8] == LittleEndian(k.fromChainId, 8);
    assert data[8..] == VarUint(|k.txHash|) + k.txHash;
  }
}
