/** The identity of an Orleans grain: a 16-byte primary key and the grain it
    names. Identity is the key alone. */
module Grains {
  import opened Common

  /** A `System.Guid`, as the 16 bytes it is built from. Two Guids are equal
      exactly when their bytes are. */
  type Guid = b: seq<byte> | |b| == 16 witness seq(16, _ => 0 as byte)

  /** 256 to the power n. */
  function Pow256(n: nat): (p: nat)
    ensures p > 0
  {
    if n == 0 then 1 else 256 * Pow256(n - 1)
  }

  /** The n low-order bytes of u, least significant first. */
  function LittleEndian(u: nat, n: nat): (b: seq<byte>)
    ensures |b| == n
  {
    if n == 0 then [] else [(u % 256) as byte] + LittleEndian(u / 256, n - 1)
  }

  /** The unsigned number whose bytes, least significant first, are b. */
  function FromLittleEndian(b: seq<byte>): (u: nat)
    ensures u < Pow256(|b|)
  {
    if b == [] then 0 else b[0] as nat + 256 * FromLittleEndian(b[1..])
  }

  /** Reading back the bytes written for a number that fits gives the number. */
  lemma {:induction false} LittleEndianRoundTrip(u: nat, n: nat)
    requires u < Pow256(n)
    ensures FromLittleEndian(LittleEndian(u, n)) == u
  {
    if n > 0 {
      var q, r := u / 256, u % 256;
      assert u == 256 * q + r && 0 <= r < 256;
      assert q < Pow256(n - 1);
      var b := LittleEndian(u, n);
      assert b[0] as nat == r;
      assert b[1..] == LittleEndian(q, n - 1);
      LittleEndianRoundTrip(q, n - 1);
      assert FromLittleEndian(b) == r + 256 * q;
    }
  }

  /** `BitConverter.GetBytes(long)` on a little-endian machine: the eight
      two's-complement bytes of v, least significant first. */
  function GetBytes(v: int64): (b: seq<byte>)
    ensures |b| == 8
    ensures FromLittleEndian(b) == if v < 0 then v as int + 0x1_0000_0000_0000_0000 else v as int
  {
    assert Pow256(8) == 0x1_0000_0000_0000_0000;
    var u := if v < 0 then v as int + Pow256(8) else v as int;
    LittleEndianRoundTrip(u, 8);
    LittleEndian(u, 8)
  }

  /** `BitConverter.ToInt64`: the long whose two's-complement bytes are b. */
  function ToInt64(b: seq<byte>): (v: int64)
    requires |b| == 8
  {
    assert Pow256(8) == 0x1_0000_0000_0000_0000;
    var u := FromLittleEndian(b);
    if u < 0x8000_0000_0000_0000 then u as int64 else (u - Pow256(8)) as int64
  }

  /** Every long survives the trip through its eight bytes. */
  lemma GetBytesRoundTrip(v: int64)
    ensures ToInt64(GetBytes(v)) == v
  {
    assert Pow256(8) == 0x1_0000_0000_0000_0000;
    LittleEndianRoundTrip(if v < 0 then v as int + Pow256(8) else v as int, 8);
  }

  /** `CreateGuid(long)`: a zeroed 16-byte buffer whose first eight bytes are
      overwritten by the bytes of `value`. */
  function CreateGuid(value: int64): (g: Guid)
    ensures g[..8] == GetBytes(value)
    ensures forall i :: 8 <= i < 16 ==> g[i] == 0
  {
    GetBytes(value) + seq(8, _ => 0 as byte)
  }

  /** The long a Guid made by CreateGuid was made from. */
  function LongOfGuid(g: Guid): (v: int64)
  {
    ToInt64(g[..8])
  }

  /** CreateGuid loses nothing: its first half gives the long back. */
  lemma CreateGuidRoundTrip(value: int64)
    ensures LongOfGuid(CreateGuid(value)) == value
  {
    GetBytesRoundTrip(value);
  }

  /** Distinct longs give distinct Guids. */
  lemma CreateGuidInjective(a: int64, b: int64)
    requires a != b
    ensures CreateGuid(a) != CreateGuid(b)
  {
    CreateGuidRoundTrip(a);
    CreateGuidRoundTrip(b);
  }

  /** An opaque reference to a grain object. */
  datatype GrainRef = GrainRef(address: nat)

  /** The argument of `Equals(object)`: null, a GrainId, or any other object. */
  datatype ObjectRef = NullRef | GrainIdRef(id: GrainId) | OtherRef(typeName: string)

  /** A grain id: its primary key and a grain reference, which may be null. */
  datatype GrainId = GrainId(primaryKey: Guid, grain: Option<GrainRef>)
  {
    /** The source's constructor `GrainId(primaryKey, grain)`: it stores both
        fields as they are given, and the new id equals every id with that key. */
    static function New(primaryKey: Guid, grain: Option<GrainRef>): (g: GrainId)
      ensures g.primaryKey == primaryKey && g.grain == grain
      ensures forall other: GrainId :: other.primaryKey == primaryKey ==> g.Equals(GrainIdRef(other))
    {
      GrainId(primaryKey, grain)
    }

    /** `Equals(object)`: false for null and for anything that is not a
        GrainId, otherwise whether the primary keys are equal. The source's
        test for two null keys cannot hold, since a Guid is a value. */
    function Equals(obj: ObjectRef): (r: bool)
      ensures !obj.GrainIdRef? ==> !r
      ensures obj.GrainIdRef? ==> (r <==> obj.id.primaryKey == primaryKey)
    {
      match obj
      case GrainIdRef(other) => primaryKey == other.primaryKey
      case _ => false
    }

    /** `GetHashCode()`: the hash of the primary key, for the Guid hash
        function `guidHash` of the .NET library. */
    function GetHashCode(guidHash: Guid -> int32): (h: int32)
      ensures h == guidHash(primaryKey)
    {
      guidHash(primaryKey)
    }
  }

  /** Equality of grain ids is an equivalence, and ids equal under it hash
      alike for every Guid hash function. */
  lemma EqualsIsEquivalence(a: GrainId, b: GrainId, c: GrainId, guidHash: Guid -> int32)
    ensures a.Equals(GrainIdRef(a))
    ensures a.Equals(GrainIdRef(b)) ==> b.Equals(GrainIdRef(a))
    ensures a.Equals(GrainIdRef(b)) && b.Equals(GrainIdRef(c)) ==> a.Equals(GrainIdRef(c))
    ensures a.Equals(GrainIdRef(b)) ==> a.GetHashCode(guidHash) == b.GetHashCode(guidHash)
  {
  }

  /** Two ids with the same key are equal whatever grains they carry. */
  lemma EqualsIgnoresGrain(key: Guid, g1: Option<GrainRef>, g2: Option<GrainRef>)
    ensures GrainId(key, g1).Equals(GrainIdRef(GrainId(key, g2)))
  {
  }

  /** Ids built from distinct longs are never equal, whatever their grains. */
  lemma DistinctLongsGiveDistinctIds(x: int64, y: int64, g1: Option<GrainRef>, g2: Option<GrainRef>)
    requires x != y
    ensures !GrainId(CreateGuid(x), g1).Equals(GrainIdRef(GrainId(CreateGuid(y), g2)))
  {
    CreateGuidInjective(x, y);
  }
}
