/** Storage keys: two hashed names, then every argument hashed the way the runtime says. */
module StorageKeys {
  import opened Wrappers
  import opened RpcFrames

  type Byte = x: int | 0 <= x < 256
  type Bytes = seq<Byte>

  // The libraries: 64-bit xxHash with a seed, Blake2b of 16 or 32 bytes, the runtime's encoding
  // of an argument of a type, and the bytes of a string.
  datatype Codec = Codec(
    xx64: (Bytes, nat) -> Bytes,
    blake: (Bytes, nat) -> Bytes,
    encode: (string, string) -> Bytes,
    utf8: string -> Bytes)

  ghost predicate Sized(c: Codec) {
    && (forall data, seed :: |c.xx64(data, seed)| == 8)
    && (forall data, size :: |c.blake(data, size)| == size)
  }

  function Twox(c: Codec, data: Bytes, n: nat): Bytes {
    if n == 0 then [] else Twox(c, data, n - 1) + c.xx64(data, n - 1)
  }

  lemma {:induction false} TwoxSize(c: Codec, data: Bytes, n: nat)
    requires Sized(c)
    ensures |Twox(c, data, n)| == 8 * n
  {
    if n > 0 { TwoxSize(c, data, n - 1); }
  }

  function Zeros(n: nat): Bytes { seq(n, _ => 0) }

  // A buffer of bitLen / 8 bytes filled block by block; a part of a block stays zero.
  method TwoxHash(c: Codec, data: Bytes, bitLen: nat) returns (hash: array<Byte>)
    requires Sized(c)
    ensures fresh(hash) && hash[..] == Twox(c, data, bitLen / 64) + Zeros(bitLen % 64 / 8)
  {
    var iterations := bitLen / 64;
    hash := new Byte[bitLen / 8](_ => 0);
    assert hash.Length == 8 * iterations + bitLen % 64 / 8;
    TwoxSize(c, data, 0);
    for seed := 0 to iterations
      invariant |Twox(c, data, seed)| == 8 * seed
      invariant hash[..8 * seed] == Twox(c, data, seed)
      invariant forall i :: 8 * seed <= i < hash.Length ==> hash[i] == 0
    {
      var digest := c.xx64(data, seed);
      ghost var before := hash[..];
      forall j | 0 <= j < 8 { hash[8 * seed + j] := digest[j]; }
      assert hash[..8 * seed] == before[..8 * seed];
      assert hash[8 * seed..8 * (seed + 1)] == digest;
      assert hash[..8 * (seed + 1)] == hash[..8 * seed] + hash[8 * seed..8 * (seed + 1)];
    }
    assert hash[8 * iterations..] == Zeros(bitLen % 64 / 8);
    assert hash[..] == hash[..8 * iterations] + hash[8 * iterations..];
  }

  lemma WholeBlocks(c: Codec, data: Bytes)
    ensures Twox(c, data, 128 / 64) + Zeros(128 % 64 / 8) == Twox(c, data, 2)
  {
    assert Zeros(0) == [];
  }

  function Blake2Hash(c: Codec, data: Bytes, bitLen: nat): Bytes { c.blake(data, if bitLen == 256 then 32 else 16) }

  function DoHash(c: Codec, data: Bytes, hasher: string): Bytes {
    match hasher
    case "Blake2_128" => Blake2Hash(c, data, 128)
    case "Blake2_256" => Blake2Hash(c, data, 256)
    case "Twox128" => Twox(c, data, 2)
    case "Twox256" => Twox(c, data, 4)
    case "Identity" => data
    case "Blake2_128Concat" => Blake2Hash(c, data, 128) + data
    case _ => Twox(c, data, 1) + data
  }

  // Whether the hash carries its argument.
  predicate Transparent(hasher: string) { hasher !in {"Blake2_128", "Blake2_256", "Twox128", "Twox256"} }

  function DigestSize(hasher: string): nat {
    match hasher
    case "Blake2_128" => 16
    case "Blake2_256" => 32
    case "Twox128" => 16
    case "Twox256" => 32
    case "Identity" => 0
    case "Blake2_128Concat" => 16
    case _ => 8
  }

  // Which digests a hasher takes, and whether the data follow.
  lemma HashIs(c: Codec, data: Bytes)
    ensures DoHash(c, data, "Blake2_128") == c.blake(data, 16)
    ensures DoHash(c, data, "Blake2_256") == c.blake(data, 32)
    ensures DoHash(c, data, "Twox128") == c.xx64(data, 0) + c.xx64(data, 1)
    ensures DoHash(c, data, "Twox256") == c.xx64(data, 0) + c.xx64(data, 1) + c.xx64(data, 2) + c.xx64(data, 3)
    ensures DoHash(c, data, "Identity") == data
    ensures DoHash(c, data, "Blake2_128Concat") == c.blake(data, 16) + data
    ensures DoHash(c, data, "Twox64Concat") == c.xx64(data, 0) + data
  {
    TwoxUpTo4(c, data);
  }

  lemma TwoxUpTo4(c: Codec, data: Bytes)
    ensures Twox(c, data, 1) == c.xx64(data, 0)
    ensures Twox(c, data, 2) == c.xx64(data, 0) + c.xx64(data, 1)
    ensures Twox(c, data, 4) == c.xx64(data, 0) + c.xx64(data, 1) + c.xx64(data, 2) + c.xx64(data, 3)
  {
    assert Twox(c, data, 0) + c.xx64(data, 0) == c.xx64(data, 0);
    assert Twox(c, data, 3) == Twox(c, data, 2) + c.xx64(data, 2);
  }

  // A digest of a size the hasher fixes, followed by the data itself if the hasher is transparent.
  lemma HashLayout(c: Codec, data: Bytes, hasher: string)
    requires Sized(c)
    ensures var h, n := DoHash(c, data, hasher), DigestSize(hasher);
      n <= |h| && h[n..] == if Transparent(hasher) then data else []
  {
    TwoxSize(c, data, 1);
    TwoxSize(c, data, 2);
    TwoxSize(c, data, 4);
  }

  /* ---------- the key of an entry ---------- */

  datatype Kind =
    | Map(value: string, keyVec: seq<string>, hashers: seq<string>)
    | Plain(ty: string)
    | Other

  datatype Entry = Entry(name: string, kind: Kind)
  datatype Pallet = Pallet(name: string, storage: seq<Entry>)

  // Metadata names a hasher for every argument; without one the code would index out of range.
  predicate WellFormed(kind: Kind) { kind.Map? ==> |kind.keyVec| <= |kind.hashers| }

  function Part(c: Codec, kind: Kind, args: seq<string>, i: nat): Bytes
    requires kind.Map? && WellFormed(kind) && i < |args| <= |kind.keyVec|
  {
    DoHash(c, c.encode(kind.keyVec[i], args[i]), kind.hashers[i])
  }

  // The hashed arguments number `lo` to `hi`.
  function Parts(c: Codec, kind: Kind, args: seq<string>, lo: nat, hi: nat): Bytes
    requires kind.Map? && WellFormed(kind) && lo <= hi <= |args| <= |kind.keyVec|
    decreases hi - lo
  {
    if lo == hi then [] else Part(c, kind, args, lo) + Parts(c, kind, args, lo + 1, hi)
  }

  lemma {:induction false} PartsSplit(c: Codec, kind: Kind, args: seq<string>, lo: nat, mid: nat, hi: nat)
    requires kind.Map? && WellFormed(kind) && lo <= mid <= hi <= |args| <= |kind.keyVec|
    ensures Parts(c, kind, args, lo, hi) == Parts(c, kind, args, lo, mid) + Parts(c, kind, args, mid, hi)
    decreases mid - lo
  {
    if lo < mid {
      PartsSplit(c, kind, args, lo + 1, mid, hi);
    }
  }

  function Names(c: Codec, pallet: string, entry: string): Bytes {
    Twox(c, c.utf8(pallet), 2) + Twox(c, c.utf8(entry), 2)
  }

  function HexDigit(n: nat): char
    requires n < 16
  {
    if n < 10 then (n + '0' as int) as char else (n - 10 + 'a' as int) as char
  }

  function Hex(bytes: Bytes): (s: string)
    ensures |s| == 2 * |bytes|
  {
    if bytes == [] then [] else Hex(bytes[..|bytes| - 1]) + HexByte(bytes[|bytes| - 1])
  }

  function HexByte(b: Byte): string { [HexDigit(b / 16), HexDigit(b % 16)] }

  // Two lower-case digits for every byte, the higher one first.
  lemma {:induction false} HexAt(bytes: Bytes, i: nat)
    requires i < |bytes|
    ensures Hex(bytes)[2 * i] == "0123456789abcdef"[bytes[i] / 16]
    ensures Hex(bytes)[2 * i + 1] == "0123456789abcdef"[bytes[i] % 16]
  {
    var n := |bytes| - 1;
    if i < n {
      HexAt(bytes[..n], i);
    } else {
      HexDigitIs(bytes[n] / 16);
      HexDigitIs(bytes[n] % 16);
    }
  }

  lemma HexDigitIs(n: nat)
    requires n < 16
    ensures HexDigit(n) == "0123456789abcdef"[n]
  {
  }

  lemma {:induction false} HexInjective(a: Bytes, b: Bytes)
    requires Hex(a) == Hex(b)
    ensures a == b
    decreases |a|
  {
    if a != [] {
      var n := |a| - 1;
      assert Hex(a)[..2 * n] == Hex(a[..n]) && Hex(b)[..2 * n] == Hex(b[..n]);
      HexInjective(a[..n], b[..n]);
      assert Hex(a)[2 * n] == HexDigit(a[n] / 16) && Hex(a)[2 * n + 1] == HexDigit(a[n] % 16);
      assert Hex(b)[2 * n] == HexDigit(b[n] / 16) && Hex(b)[2 * n + 1] == HexDigit(b[n] % 16);
      assert a[n] / 16 == b[n] / 16 && a[n] % 16 == b[n] % 16;
      assert a == a[..n] + [a[n]] && b == b[..n] + [b[n]];
    }
  }

  lemma {:induction false} HexAppend(a: Bytes, b: Bytes)
    ensures Hex(a + b) == Hex(a) + Hex(b)
    decreases |b|
  {
    if b == [] {
      assert a + b == a;
    } else {
      var n := |b| - 1;
      assert (a + b)[..|a + b| - 1] == a + b[..n];
      HexAppend(a, b[..n]);
    }
  }

  datatype StorageRequest = StorageRequest(pallet: string, entry: string, storageKey: string, storedType: string)
  datatype KeyError = TooManyArguments | NotFound

  function Key(c: Codec, pallet: string, entry: Entry, args: seq<string>): string
    requires WellFormed(entry.kind) && (entry.kind.Map? ==> |args| <= |entry.kind.keyVec|)
  {
    "0x" + Hex(Names(c, pallet, entry.name) + if entry.kind.Map? then Parts(c, entry.kind, args, 0, |args|) else [])
  }

  // What an entry of the metadata yields; arguments of a plain value are ignored.
  function ForEntry(c: Codec, pallet: string, entry: Entry, args: seq<string>): Result<StorageRequest, KeyError>
    requires WellFormed(entry.kind)
  {
    match entry.kind
    case Map(value, keyVec, _) =>
      if |args| > |keyVec| then Failure(TooManyArguments)
      else Success(StorageRequest(pallet, entry.name, Key(c, pallet, entry, args), value))
    case Plain(ty) => Success(StorageRequest(pallet, entry.name, Key(c, pallet, entry, args), ty))
    case Other => Success(StorageRequest(pallet, entry.name, Key(c, pallet, entry, args), ""))
  }

  // The key begins with the digests of the two names as the metadata spells them, the pallet
  // first, and goes on with the hashed arguments in order.
  lemma KeyIs(c: Codec, pallet: string, entry: Entry, args: seq<string>)
    requires WellFormed(entry.kind)
    ensures match ForEntry(c, pallet, entry, args)
      case Failure(e) => e == TooManyArguments && entry.kind.Map? && |args| > |entry.kind.keyVec|
      case Success(r) =>
        var p, e := c.utf8(pallet), c.utf8(entry.name);
        && r.pallet == pallet && r.entry == entry.name && (entry.kind.Map? ==> |args| <= |entry.kind.keyVec|)
        && r.storageKey == "0x" + Hex(c.xx64(p, 0) + c.xx64(p, 1) + (c.xx64(e, 0) + c.xx64(e, 1)) +
                                      if entry.kind.Map? then Parts(c, entry.kind, args, 0, |args|) else [])
        && r.storedType == if entry.kind.Map? then entry.kind.value else if entry.kind.Plain? then entry.kind.ty else ""
  {
    TwoxUpTo4(c, c.utf8(pallet));
    TwoxUpTo4(c, c.utf8(entry.name));
  }

  predicate Matches(metadata: seq<Pallet>, pallet: string, entry: string, i: nat, j: nat) {
    && i < |metadata| && EqualFold(metadata[i].name, pallet)
    && j < |metadata[i].storage| && EqualFold(metadata[i].storage[j].name, entry)
  }

  // The entry found: the first match, with pallets before entries.
  ghost predicate FirstMatch(metadata: seq<Pallet>, pallet: string, entry: string, i: nat, j: nat) {
    && Matches(metadata, pallet, entry, i, j)
    && forall k, l :: Matches(metadata, pallet, entry, k, l) ==> i < k || (i == k && j <= l)
  }

  method NewStorageRequest(c: Codec, metadata: seq<Pallet>, pallet: string, entry: string, args: seq<string>)
    returns (r: Result<StorageRequest, KeyError>, ghost at: (nat, nat))
    requires Sized(c)
    requires forall i, j :: 0 <= i < |metadata| && 0 <= j < |metadata[i].storage| ==>
        WellFormed(metadata[i].storage[j].kind)
    ensures r == Failure(NotFound) <==> forall i, j :: !Matches(metadata, pallet, entry, i, j)
    ensures r != Failure(NotFound) ==> FirstMatch(metadata, pallet, entry, at.0, at.1)
    ensures r != Failure(NotFound) ==> r == ForEntry(c, metadata[at.0].name, metadata[at.0].storage[at.1], args)
  {
    for i := 0 to |metadata|
      invariant forall k: nat, l: nat :: k < i ==> !Matches(metadata, pallet, entry, k, l)
    {
      if EqualFold(metadata[i].name, pallet) {
        var storage := metadata[i].storage;
        for j := 0 to |storage|
          invariant forall l: nat :: l < j ==> !Matches(metadata, pallet, entry, i, l)
        {
          if EqualFold(storage[j].name, entry) {
            assert Matches(metadata, pallet, entry, i, j);
            at := (i, j);
            r := BuildKey(c, metadata[i].name, storage[j], args);
            return;
          }
        }
      }
    }
    r, at := Failure(NotFound), (0, 0);
  }

  method BuildKey(c: Codec, pallet: string, entry: Entry, args: seq<string>)
    returns (r: Result<StorageRequest, KeyError>)
    requires Sized(c) && WellFormed(entry.kind)
    ensures r == ForEntry(c, pallet, entry, args)
  {
    var storageKey := HashNames(c, pallet, entry.name);
    assert storageKey + [] == storageKey;
    match entry.kind
    case Map(value, keyVec, _) =>
      if |args| > |keyVec| {
        return Failure(TooManyArguments);
      }
      storageKey := HashArguments(c, entry.kind, args, storageKey);
      return Success(StorageRequest(pallet, entry.name, "0x" + Hex(storageKey), value));
    case Plain(ty) =>
      return Success(StorageRequest(pallet, entry.name, "0x" + Hex(storageKey), ty));
    case Other =>
      return Success(StorageRequest(pallet, entry.name, "0x" + Hex(storageKey), ""));
  }

  method HashNames(c: Codec, pallet: string, entry: string) returns (key: Bytes)
    requires Sized(c)
    ensures key == Names(c, pallet, entry)
  {
    var first := TwoxHash(c, c.utf8(pallet), 128);
    var second := TwoxHash(c, c.utf8(entry), 128);
    WholeBlocks(c, c.utf8(pallet));
    WholeBlocks(c, c.utf8(entry));
    key := first[..] + second[..];
  }

  method HashArguments(c: Codec, kind: Kind, args: seq<string>, names: Bytes) returns (key: Bytes)
    requires Sized(c) && kind.Map? && WellFormed(kind) && |args| <= |kind.keyVec|
    ensures key == names + Parts(c, kind, args, 0, |args|)
  {
    key := names;
    for i := 0 to |args|
      invariant key == names + Parts(c, kind, args, 0, i)
    {
      PartsSplit(c, kind, args, 0, i, i + 1);
      var part := DoHash(c, c.encode(kind.keyVec[i], args[i]), kind.hashers[i]);
      assert part == Part(c, kind, args, i) == Parts(c, kind, args, i, i + 1);
      assert names + (Parts(c, kind, args, 0, i) + part) == key + part;
      key := key + part;
    }
  }

  /* ---------- what a key says about its arguments ---------- */

  // A key with fewer arguments is a prefix of the key with more.
  lemma FewerArgumentsPrefix(c: Codec, pallet: string, entry: Entry, args: seq<string>, n: nat)
    requires WellFormed(entry.kind) && entry.kind.Map? && n <= |args| <= |entry.kind.keyVec|
    ensures Key(c, pallet, entry, args[..n]) <= Key(c, pallet, entry, args)
  {
    var names := Names(c, pallet, entry.name);
    PartsSplit(c, entry.kind, args, 0, n, |args|);
    PartsOfPrefix(c, entry.kind, args, 0, n);
    var short, rest := Parts(c, entry.kind, args[..n], 0, n), Parts(c, entry.kind, args, n, |args|);
    assert names + (short + rest) == names + short + rest;
    HexAppend(names + short, rest);
  }

  lemma {:induction false} PartsOfPrefix(c: Codec, kind: Kind, args: seq<string>, from: nat, n: nat)
    requires kind.Map? && WellFormed(kind) && from <= n <= |args| <= |kind.keyVec|
    ensures Parts(c, kind, args[..n], from, n) == Parts(c, kind, args, from, n)
    decreases n - from
  {
    if from < n {
      PartsOfPrefix(c, kind, args, from + 1, n);
    }
  }

  // No encoding continues another one with the same digest.  Without a digest, as for Identity,
  // this is prefix-freeness.
  ghost predicate Separated(c: Codec, ty: string, hasher: string) {
    forall a, b :: c.encode(ty, a) <= c.encode(ty, b) && SameDigest(c, c.encode(ty, a), c.encode(ty, b), hasher)
      ==> c.encode(ty, a) == c.encode(ty, b)
  }

  ghost predicate AllSeparated(c: Codec, kind: Kind, n: int)
    requires kind.Map? && WellFormed(kind) && n <= |kind.keyVec|
  {
    forall k :: 0 <= k < n && Transparent(kind.hashers[k]) ==> Separated(c, kind.keyVec[k], kind.hashers[k])
  }

  predicate SameDigest(c: Codec, x: Bytes, y: Bytes, hasher: string) {
    var n, p, q := DigestSize(hasher), DoHash(c, x, hasher), DoHash(c, y, hasher);
    n <= |p| && n <= |q| && p[..n] == q[..n]
  }

  // All that the key can tell about an argument: itself, or at least its digest.
  ghost predicate Agree(c: Codec, kind: Kind, args: seq<string>, args': seq<string>, i: nat)
    requires kind.Map? && WellFormed(kind) && i < |args| == |args'| <= |kind.keyVec|
  {
    var x, y := c.encode(kind.keyVec[i], args[i]), c.encode(kind.keyVec[i], args'[i]);
    SameDigest(c, x, y, kind.hashers[i]) && (Transparent(kind.hashers[i]) ==> x == y)
  }

  // Equal keys of an entry with equally many arguments agree on every argument, whatever follows
  // a transparent one, if its encodings are separated; the last one needs no such condition.
  lemma KeyDeterminesArguments(c: Codec, pallet: string, entry: Entry, args: seq<string>, args': seq<string>, i: nat)
    requires Sized(c) && WellFormed(entry.kind) && entry.kind.Map? && i < |args| == |args'| <= |entry.kind.keyVec|
    requires AllSeparated(c, entry.kind, |args| - 1)
    requires Key(c, pallet, entry, args) == Key(c, pallet, entry, args')
    ensures Agree(c, entry.kind, args, args', i)
  {
    var names := Names(c, pallet, entry.name);
    var parts, parts' := Parts(c, entry.kind, args, 0, |args|), Parts(c, entry.kind, args', 0, |args|);
    assert Hex(names + parts) == Key(c, pallet, entry, args)[2..] == Hex(names + parts');
    HexInjective(names + parts, names + parts');
    assert parts == (names + parts)[|names|..] == parts';
    PartsAgree(c, entry.kind, args, args', 0, i);
  }

  lemma {:induction false} PartsAgree(c: Codec, kind: Kind, args: seq<string>, args': seq<string>, from: nat, i: nat)
    requires Sized(c) && WellFormed(kind) && kind.Map? && from <= i < |args| == |args'| <= |kind.keyVec|
    requires AllSeparated(c, kind, |args| - 1)
    requires Parts(c, kind, args, from, |args|) == Parts(c, kind, args', from, |args|)
    ensures Agree(c, kind, args, args', i)
    decreases i - from
  {
    var rest, rest' := Parts(c, kind, args, from + 1, |args|), Parts(c, kind, args', from + 1, |args|);
    FirstPartAgrees(c, kind, args, args', from, rest, rest');
    if from < i {
      PartsAgree(c, kind, args, args', from + 1, i);
    }
  }

  lemma FirstPartAgrees(c: Codec, kind: Kind, args: seq<string>, args': seq<string>, i: nat, rest: Bytes, rest': Bytes)
    requires Sized(c) && WellFormed(kind) && kind.Map? && i < |args| == |args'| <= |kind.keyVec|
    requires Part(c, kind, args, i) + rest == Part(c, kind, args', i) + rest'
    requires i == |args| - 1 ==> rest == rest' == []
    requires i < |args| - 1 && Transparent(kind.hashers[i]) ==> Separated(c, kind.keyVec[i], kind.hashers[i])
    ensures Agree(c, kind, args, args', i) && rest == rest'
  {
    var hasher := kind.hashers[i];
    var x, y := c.encode(kind.keyVec[i], args[i]), c.encode(kind.keyVec[i], args'[i]);
    var p, q, n := DoHash(c, x, hasher), DoHash(c, y, hasher), DigestSize(hasher);
    HashLayout(c, x, hasher);
    HashLayout(c, y, hasher);
    assert p[..n] == (p + rest)[..n] == (q + rest')[..n] == q[..n];
    assert p[n..] + rest == (p + rest)[n..] == (q + rest')[n..] == q[n..] + rest';
    if Transparent(hasher) {
      OneContinuesTheOther(x, rest, y, rest');
    }
    assert |p| == |q|;
    assert rest == (p + rest)[|p|..] == (q + rest')[|q|..] == rest';
  }

  lemma OneContinuesTheOther(x: Bytes, rest: Bytes, y: Bytes, rest': Bytes)
    requires x + rest == y + rest'
    ensures x <= y || y <= x
  {
    if |x| <= |y| {
      assert x == (x + rest)[..|x|] == (y + rest')[..|x|] == y[..|x|];
    } else {
      assert y == (y + rest')[..|y|] == (x + rest)[..|y|] == x[..|y|];
    }
  }

  // The condition cannot be dropped: with Identity hashers and encodings that continue one
  // another, different arguments get the same key.
  lemma KeysCanCollide(c: Codec, pallet: string)
    requires c.encode("t", "a") == [1] && c.encode("t", "b") == [1, 1]
    ensures var entry := Entry("e", Map("v", ["t", "t"], ["Identity", "Identity"]));
      && Key(c, pallet, entry, ["a", "b"]) == Key(c, pallet, entry, ["b", "a"])
      && !Agree(c, entry.kind, ["a", "b"], ["b", "a"], 0)
  {
    var kind := Map("v", ["t", "t"], ["Identity", "Identity"]);
    var ab, ba := ["a", "b"], ["b", "a"];
    assert Parts(c, kind, ab, 2, 2) == [] == Parts(c, kind, ba, 2, 2);
    assert Parts(c, kind, ab, 1, 2) == [1, 1] && Parts(c, kind, ba, 1, 2) == [1];
    assert Parts(c, kind, ab, 0, 2) == [1, 1, 1] == Parts(c, kind, ba, 0, 2);
  }
}
