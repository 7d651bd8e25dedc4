// The Venus protocol serialiser for descriptor pools
// (virtio/venus-protocol/vn_protocol_driver_descriptor_pool.h): the paired
// vn_sizeof_* and vn_encode_* functions of VkDescriptorPoolSize,
// VkDescriptorPoolCreateInfo and the vkCreate/Destroy/ResetDescriptorPool
// commands, the reply decoders, the choice of command buffer in
// vn_submit_* and the result of vn_call_*.
//
// The encoder primitives of vn_cs.h and vn_protocol_driver_types.h are not
// part of this model: each is a wire token of a fixed size (32-bit enums,
// flags and uint32_t; 64-bit array sizes, pointer markers and object ids).
// A command stream is the sequence of tokens written; its size in bytes
// is Bytes. The numeric values of VkCommandTypeEXT are kept abstract.
module VnDescriptorPool {
  import opened Wrappers

  // ---------------------------------------------------------------------
  // Wire tokens
  // ---------------------------------------------------------------------

  datatype CommandType = CreateDescriptorPoolCmd | DestroyDescriptorPoolCmd | ResetDescriptorPoolCmd

  /** One encoder primitive. Enum carries VkStructureType, VkDescriptorType
    * and VkResult; U32 carries uint32_t and VkFlags; ArraySize carries an
    * array size or the 0/1 marker of a simple pointer; Handle carries the
    * object id of a VkDevice or VkDescriptorPool. */
  datatype Prim =
    | CommandTypeP(cmd: CommandType)
    | EnumP(e: int)
    | U32P(u: nat)
    | ArraySizeP(n: nat)
    | HandleP(id: nat)

  /** The fixed number of bytes a primitive writes. */
  function PrimSize(p: Prim): (r: nat)
    ensures r == 4 || r == 8
  {
    match p
    case CommandTypeP(_) => 4
    case EnumP(_) => 4
    case U32P(_) => 4
    case ArraySizeP(_) => 8
    case HandleP(_) => 8
  }

  /** The bytes of the first k tokens. */
  function Upto(s: seq<Prim>, k: nat): nat
    requires k <= |s|
  {
    if k == 0 then 0 else Upto(s, k - 1) + PrimSize(s[k - 1])
  }

  /** The number of bytes a token sequence occupies. */
  function Bytes(s: seq<Prim>): nat
  {
    Upto(s, |s|)
  }

  lemma {:induction false} UptoPrefix(a: seq<Prim>, b: seq<Prim>, k: nat)
    requires k <= |a|
    ensures Upto(a + b, k) == Upto(a, k)
  {
    if k > 0 {
      UptoPrefix(a, b, k - 1);
    }
  }

  lemma {:induction false} UptoAppend(a: seq<Prim>, b: seq<Prim>, k: nat)
    requires k <= |b|
    ensures Upto(a + b, |a| + k) == Bytes(a) + Upto(b, k)
  {
    if k == 0 {
      UptoPrefix(a, b, |a|);
    } else {
      UptoAppend(a, b, k - 1);
    }
  }

  /** The size of a concatenation is the sum of the sizes. */
  lemma BytesAppend(a: seq<Prim>, b: seq<Prim>)
    ensures Bytes(a + b) == Bytes(a) + Bytes(b)
  {
    UptoAppend(a, b, |b|);
  }

  lemma Bytes1(p: Prim)
    ensures Bytes([p]) == PrimSize(p)
  {
    assert Upto([p], 0) == 0;
  }

  lemma Bytes2(p: Prim, q: Prim)
    ensures Bytes([p, q]) == PrimSize(p) + PrimSize(q)
  {
    assert Upto([p, q], 1) == PrimSize(p);
  }

  lemma Bytes3(p: Prim, q: Prim, r: Prim)
    ensures Bytes([p, q, r]) == PrimSize(p) + PrimSize(q) + PrimSize(r)
  {
    var s := [p, q, r];
    assert Upto(s, 1) == PrimSize(p);
    assert Upto(s, 2) == PrimSize(p) + PrimSize(q);
  }

  /** vn_sizeof_simple_pointer / vn_encode_simple_pointer: the array size
    * 1 for a pointer that is set, 0 for NULL. */
  function PointerPrim(present: bool): Prim
  {
    ArraySizeP(if present then 1 else 0)
  }

  // ---------------------------------------------------------------------
  // Structures
  // ---------------------------------------------------------------------

  /** VK_STRUCTURE_TYPE_DESCRIPTOR_POOL_CREATE_INFO. */
  const StructureTypeDescriptorPoolCreateInfo: int := 33

  datatype PoolSize = PoolSize(descriptorType: int, descriptorCount: nat)

  /** VkDescriptorPoolCreateInfo; the pNext chain is never encoded (no
    * extension structure is known), so it is not represented. */
  datatype CreateInfo = CreateInfo(sType: int, flags: nat, maxSets: nat, poolSizeCount: nat,
                                   poolSizes: Option<seq<PoolSize>>)

  /** What the encoder may read: poolSizeCount entries of pPoolSizes when
    * it is set. */
  predicate CreateInfoReadable(v: CreateInfo)
  {
    v.poolSizes.Some? ==> v.poolSizeCount <= |v.poolSizes.value|
  }

  /** The tokens of one VkDescriptorPoolSize: type, then descriptorCount. */
  function PoolSizePrims(v: PoolSize): seq<Prim>
  {
    [EnumP(v.descriptorType), U32P(v.descriptorCount)]
  }

  /** The tokens of the first k pool sizes, in order. */
  function PoolSizeListPrims(ps: seq<PoolSize>, k: nat): (r: seq<Prim>)
    requires k <= |ps|
    ensures |r| == 2 * k
  {
    if k == 0 then [] else PoolSizeListPrims(ps, k - 1) + PoolSizePrims(ps[k - 1])
  }

  /** vn_encode_VkDescriptorPoolCreateInfo_self: flags, maxSets and
    * poolSizeCount, then the array size and the elements, or an array
    * size of 0 when pPoolSizes is NULL. */
  function CreateInfoSelfPrims(v: CreateInfo): seq<Prim>
    requires CreateInfoReadable(v)
  {
    [U32P(v.flags), U32P(v.maxSets), U32P(v.poolSizeCount)]
    + match v.poolSizes
      case Some(ps) => [ArraySizeP(v.poolSizeCount)] + PoolSizeListPrims(ps, v.poolSizeCount)
      case None => [ArraySizeP(0)]
  }

  /** vn_encode_VkDescriptorPoolCreateInfo: the structure type, a NULL
    * pNext, then the fields. */
  function CreateInfoPrims(v: CreateInfo): seq<Prim>
    requires CreateInfoReadable(v)
  {
    [EnumP(StructureTypeDescriptorPoolCreateInfo), PointerPrim(false)] + CreateInfoSelfPrims(v)
  }

  /** The number of pool-size entries that are encoded. */
  function EncodedPoolSizes(v: CreateInfo): nat
  {
    if v.poolSizes.Some? then v.poolSizeCount else 0
  }

  lemma {:induction false} PoolSizeListBytes(ps: seq<PoolSize>, k: nat)
    requires k <= |ps|
    ensures Bytes(PoolSizeListPrims(ps, k)) == 8 * k
  {
    if k > 0 {
      PoolSizeListBytes(ps, k - 1);
      Bytes2(EnumP(ps[k - 1].descriptorType), U32P(ps[k - 1].descriptorCount));
      BytesAppend(PoolSizeListPrims(ps, k - 1), PoolSizePrims(ps[k - 1]));
    }
  }

  /** Size of the self part: three 32-bit fields, the 64-bit array size and
    * eight bytes per encoded element. */
  lemma CreateInfoSelfBytes(v: CreateInfo)
    requires CreateInfoReadable(v)
    ensures Bytes(CreateInfoSelfPrims(v)) == 20 + 8 * EncodedPoolSizes(v)
  {
    var head := [U32P(v.flags), U32P(v.maxSets), U32P(v.poolSizeCount)];
    Bytes3(U32P(v.flags), U32P(v.maxSets), U32P(v.poolSizeCount));
    match v.poolSizes
    case Some(ps) =>
      var tail := PoolSizeListPrims(ps, v.poolSizeCount);
      PoolSizeListBytes(ps, v.poolSizeCount);
      BytesAppend([ArraySizeP(v.poolSizeCount)], tail);
      Bytes1(ArraySizeP(v.poolSizeCount));
      BytesAppend(head, [ArraySizeP(v.poolSizeCount)] + tail);
    case None =>
      Bytes1(ArraySizeP(0));
      BytesAppend(head, [ArraySizeP(0)]);
  }

  lemma CreateInfoBytes(v: CreateInfo)
    requires CreateInfoReadable(v)
    ensures Bytes(CreateInfoPrims(v)) == 32 + 8 * EncodedPoolSizes(v)
  {
    var head := [EnumP(StructureTypeDescriptorPoolCreateInfo), PointerPrim(false)];
    Bytes2(EnumP(StructureTypeDescriptorPoolCreateInfo), PointerPrim(false));
    CreateInfoSelfBytes(v);
    BytesAppend(head, CreateInfoSelfPrims(v));
  }

  /** vn_sizeof_VkDescriptorPoolSize: the bytes its encoder writes. */
  function SizeofPoolSize(v: PoolSize): (r: nat)
    ensures r == Bytes(PoolSizePrims(v))
  {
    Bytes2(EnumP(v.descriptorType), U32P(v.descriptorCount));
    PrimSize(EnumP(v.descriptorType)) + PrimSize(U32P(v.descriptorCount))
  }

  /** vn_sizeof_VkDescriptorPoolCreateInfo_self, summing over the pool
    * sizes as the source does. */
  method SizeofCreateInfoSelf(v: CreateInfo) returns (size: nat)
    requires CreateInfoReadable(v)
    ensures size == Bytes(CreateInfoSelfPrims(v))
  {
    size := PrimSize(U32P(v.flags)) + PrimSize(U32P(v.maxSets)) + PrimSize(U32P(v.poolSizeCount));
    if v.poolSizes.Some? {
      var ps := v.poolSizes.value;
      size := size + PrimSize(ArraySizeP(v.poolSizeCount));
      var i := 0;
      while i < v.poolSizeCount
        invariant i <= v.poolSizeCount
        invariant size == 20 + Bytes(PoolSizeListPrims(ps, i))
      {
        BytesAppend(PoolSizeListPrims(ps, i), PoolSizePrims(ps[i]));
        size := size + SizeofPoolSize(ps[i]);
        i := i + 1;
      }
      PoolSizeListBytes(ps, i);
    } else {
      size := size + PrimSize(ArraySizeP(0));
    }
    CreateInfoSelfBytes(v);
  }

  /** vn_sizeof_VkDescriptorPoolCreateInfo: structure type, the NULL pNext
    * and the self part. */
  method SizeofCreateInfo(v: CreateInfo) returns (size: nat)
    requires CreateInfoReadable(v)
    ensures size == Bytes(CreateInfoPrims(v))
    ensures size == 32 + 8 * EncodedPoolSizes(v)
  {
    var self := SizeofCreateInfoSelf(v);
    CreateInfoSelfBytes(v);
    CreateInfoBytes(v);
    size := PrimSize(EnumP(v.sType)) + PrimSize(PointerPrim(false)) + self;
  }

  // ---------------------------------------------------------------------
  // Commands
  // ---------------------------------------------------------------------

  /** The three commands with their arguments. A pointer argument that may
    * be NULL is an Option of the value it points to (for pDescriptorPool,
    * the handle it holds when the command is encoded); hasAllocator says
    * whether pAllocator is set. */
  datatype Command =
    | CreatePool(device: nat, info: Option<CreateInfo>, hasAllocator: bool, pool: Option<nat>)
    | DestroyPool(device: nat, descriptorPool: nat, hasAllocator: bool)
    | ResetPool(device: nat, descriptorPool: nat, resetFlags: nat)

  function TypeOf(c: Command): CommandType
  {
    match c
    case CreatePool(_, _, _, _) => CreateDescriptorPoolCmd
    case DestroyPool(_, _, _) => DestroyDescriptorPoolCmd
    case ResetPool(_, _, _) => ResetDescriptorPoolCmd
  }

  /** What the sizing and encoding functions demand of their caller: the
    * create info can be read and carries its own structure type. A set
    * pAllocator is sized and marked like any pointer and nothing follows
    * it, as in a build where its assert(false) is compiled out. */
  predicate CommandReadable(c: Command)
  {
    match c
    case CreatePool(_, info, _, _) =>
      info.Some? ==> CreateInfoReadable(info.value)
                     && info.value.sType == StructureTypeDescriptorPoolCreateInfo
    case DestroyPool(_, _, _) => true
    case ResetPool(_, _, _) => true
  }

  /** The header every command starts with: its type and its flags. */
  function CommandHeader(t: CommandType, cmdFlags: nat): seq<Prim>
  {
    [CommandTypeP(t), U32P(cmdFlags)]
  }

  /** vn_encode_vkCreateDescriptorPool, token by token: the header, the
    * device, pCreateInfo, then pAllocator and pDescriptorPool. */
  function CreatePrims(cmdFlags: nat, device: nat, info: Option<CreateInfo>, hasAllocator: bool,
                       pool: Option<nat>): seq<Prim>
    requires info.Some? ==> CreateInfoReadable(info.value)
  {
    CreateHeadPrims(cmdFlags, device, info) + CreateTailPrims(hasAllocator, pool)
  }

  function CreateHeadPrims(cmdFlags: nat, device: nat, info: Option<CreateInfo>): seq<Prim>
    requires info.Some? ==> CreateInfoReadable(info.value)
  {
    CommandHeader(CreateDescriptorPoolCmd, cmdFlags)
    + [HandleP(device), PointerPrim(info.Some?)]
    + (if info.Some? then CreateInfoPrims(info.value) else [])
  }

  function CreateTailPrims(hasAllocator: bool, pool: Option<nat>): seq<Prim>
  {
    [PointerPrim(hasAllocator), PointerPrim(pool.Some?)]
    + (if pool.Some? then [HandleP(pool.value)] else [])
  }

  /** vn_encode_vkDestroyDescriptorPool. */
  function DestroyPrims(cmdFlags: nat, device: nat, descriptorPool: nat, hasAllocator: bool): seq<Prim>
  {
    CommandHeader(DestroyDescriptorPoolCmd, cmdFlags)
    + [HandleP(device), HandleP(descriptorPool), PointerPrim(hasAllocator)]
  }

  /** vn_encode_vkResetDescriptorPool. */
  function ResetPrims(cmdFlags: nat, device: nat, descriptorPool: nat, resetFlags: nat): seq<Prim>
  {
    CommandHeader(ResetDescriptorPoolCmd, cmdFlags)
    + [HandleP(device), HandleP(descriptorPool), U32P(resetFlags)]
  }

  function CommandPrims(cmdFlags: nat, c: Command): seq<Prim>
    requires CommandReadable(c)
  {
    match c
    case CreatePool(device, info, hasAllocator, pool) => CreatePrims(cmdFlags, device, info, hasAllocator, pool)
    case DestroyPool(device, descriptorPool, hasAllocator) => DestroyPrims(cmdFlags, device, descriptorPool, hasAllocator)
    case ResetPool(device, descriptorPool, resetFlags) => ResetPrims(cmdFlags, device, descriptorPool, resetFlags)
  }

  /** Size of an encoded vkCreateDescriptorPool: 40 bytes of header,
    * handles and pointer markers, the create info when it is given and the
    * pool handle when pDescriptorPool is set; the flags never matter. */
  lemma CreateBytes(cmdFlags: nat, device: nat, info: Option<CreateInfo>, hasAllocator: bool, pool: Option<nat>)
    requires info.Some? ==> CreateInfoReadable(info.value)
    ensures Bytes(CreatePrims(cmdFlags, device, info, hasAllocator, pool))
         == 40 + (if info.Some? then 32 + 8 * EncodedPoolSizes(info.value) else 0)
               + (if pool.Some? then 8 else 0)
  {
    var h := CommandHeader(CreateDescriptorPoolCmd, cmdFlags);
    var a := h + [HandleP(device), PointerPrim(info.Some?)];
    var b := if info.Some? then CreateInfoPrims(info.value) else [];
    var c := [PointerPrim(hasAllocator), PointerPrim(pool.Some?)];
    var d := if pool.Some? then [HandleP(pool.value)] else [];
    assert Bytes(a) == 24 by {
      Bytes2(CommandTypeP(CreateDescriptorPoolCmd), U32P(cmdFlags));
      Bytes2(HandleP(device), PointerPrim(info.Some?));
      BytesAppend(h, [HandleP(device), PointerPrim(info.Some?)]);
    }
    assert Bytes(b) == (if info.Some? then 32 + 8 * EncodedPoolSizes(info.value) else 0) by {
      if info.Some? { CreateInfoBytes(info.value); }
    }
    Bytes2(PointerPrim(hasAllocator), PointerPrim(pool.Some?));
    assert Bytes(d) == (if pool.Some? then 8 else 0) by {
      if pool.Some? { Bytes1(HandleP(pool.value)); }
    }
    BytesAppend(a, b);
    BytesAppend(c, d);
    BytesAppend(a + b, c + d);
  }

  lemma DestroyBytes(cmdFlags: nat, device: nat, descriptorPool: nat, hasAllocator: bool)
    ensures Bytes(DestroyPrims(cmdFlags, device, descriptorPool, hasAllocator)) == 32
  {
    Bytes2(CommandTypeP(DestroyDescriptorPoolCmd), U32P(cmdFlags));
    Bytes3(HandleP(device), HandleP(descriptorPool), PointerPrim(hasAllocator));
    BytesAppend(CommandHeader(DestroyDescriptorPoolCmd, cmdFlags),
                [HandleP(device), HandleP(descriptorPool), PointerPrim(hasAllocator)]);
  }

  lemma ResetBytes(cmdFlags: nat, device: nat, descriptorPool: nat, resetFlags: nat)
    ensures Bytes(ResetPrims(cmdFlags, device, descriptorPool, resetFlags)) == 28
  {
    Bytes2(CommandTypeP(ResetDescriptorPoolCmd), U32P(cmdFlags));
    Bytes3(HandleP(device), HandleP(descriptorPool), U32P(resetFlags));
    BytesAppend(CommandHeader(ResetDescriptorPoolCmd, cmdFlags),
                [HandleP(device), HandleP(descriptorPool), U32P(resetFlags)]);
  }

  /** Every command has at least its 32-bit type and flags. */
  lemma CommandBytesPositive(cmdFlags: nat, c: Command)
    requires CommandReadable(c)
    ensures Bytes(CommandPrims(cmdFlags, c)) >= 28
  {
    match c
    case CreatePool(device, info, hasAllocator, pool) => CreateBytes(cmdFlags, device, info, hasAllocator, pool);
    case DestroyPool(device, descriptorPool, hasAllocator) => DestroyBytes(cmdFlags, device, descriptorPool, hasAllocator);
    case ResetPool(device, descriptorPool, resetFlags) => ResetBytes(cmdFlags, device, descriptorPool, resetFlags);
  }

  /** vn_sizeof_vkCreateDescriptorPool: the bytes the encoder writes,
    * whatever command flags it is given. */
  method SizeofCreate(device: nat, info: Option<CreateInfo>, hasAllocator: bool, pool: Option<nat>)
    returns (size: nat)
    requires info.Some? ==> CreateInfoReadable(info.value)
    ensures forall cmdFlags: nat :: size == Bytes(CreatePrims(cmdFlags, device, info, hasAllocator, pool))
  {
    size := PrimSize(CommandTypeP(CreateDescriptorPoolCmd)) + PrimSize(U32P(0));
    size := size + PrimSize(HandleP(device));
    size := size + PrimSize(PointerPrim(info.Some?));
    if info.Some? {
      var infoSize := SizeofCreateInfo(info.value);
      size := size + infoSize;
    }
    size := size + PrimSize(PointerPrim(hasAllocator));
    size := size + PrimSize(PointerPrim(pool.Some?));
    if pool.Some? {
      size := size + PrimSize(HandleP(pool.value));
    }
    forall cmdFlags: nat
      ensures size == Bytes(CreatePrims(cmdFlags, device, info, hasAllocator, pool))
    {
      CreateBytes(cmdFlags, device, info, hasAllocator, pool);
    }
  }

  /** vn_sizeof_vkDestroyDescriptorPool. */
  function SizeofDestroy(device: nat, descriptorPool: nat, hasAllocator: bool): (r: nat)
    ensures forall cmdFlags: nat :: r == Bytes(DestroyPrims(cmdFlags, device, descriptorPool, hasAllocator))
  {
    assert forall cmdFlags: nat :: Bytes(DestroyPrims(cmdFlags, device, descriptorPool, hasAllocator)) == 32 by {
      forall cmdFlags: nat { DestroyBytes(cmdFlags, device, descriptorPool, hasAllocator); }
    }
    PrimSize(CommandTypeP(DestroyDescriptorPoolCmd)) + PrimSize(U32P(0))
    + PrimSize(HandleP(device)) + PrimSize(HandleP(descriptorPool)) + PrimSize(PointerPrim(hasAllocator))
  }

  /** vn_sizeof_vkResetDescriptorPool. */
  function SizeofReset(device: nat, descriptorPool: nat, resetFlags: nat): (r: nat)
    ensures forall cmdFlags: nat :: r == Bytes(ResetPrims(cmdFlags, device, descriptorPool, resetFlags))
  {
    assert forall cmdFlags: nat :: Bytes(ResetPrims(cmdFlags, device, descriptorPool, resetFlags)) == 28 by {
      forall cmdFlags: nat { ResetBytes(cmdFlags, device, descriptorPool, resetFlags); }
    }
    PrimSize(CommandTypeP(ResetDescriptorPoolCmd)) + PrimSize(U32P(0))
    + PrimSize(HandleP(device)) + PrimSize(HandleP(descriptorPool)) + PrimSize(U32P(resetFlags))
  }

  /** The vn_sizeof_* of a command. */
  method SizeofCommand(c: Command) returns (size: nat)
    requires CommandReadable(c)
    ensures forall cmdFlags: nat :: size == Bytes(CommandPrims(cmdFlags, c))
  {
    match c
    case CreatePool(device, info, hasAllocator, pool) =>
      size := SizeofCreate(device, info, hasAllocator, pool);
    case DestroyPool(device, descriptorPool, hasAllocator) =>
      size := SizeofDestroy(device, descriptorPool, hasAllocator);
    case ResetPool(device, descriptorPool, resetFlags) =>
      size := SizeofReset(device, descriptorPool, resetFlags);
  }

  // ---------------------------------------------------------------------
  // The encoder
  // ---------------------------------------------------------------------

  /** A vn_cs_encoder over a buffer of `capacity` bytes: the tokens written
    * so far. A write needs room for its primitive. */
  class Encoder {
    var written: seq<Prim>
    const capacity: nat

    constructor (capacity: nat)
      ensures this.capacity == capacity && written == []
    {
      this.capacity := capacity;
      written := [];
    }

    function Used(): nat
      reads this
    {
      Bytes(written)
    }

    method Write(p: Prim)
      requires Used() + PrimSize(p) <= capacity
      modifies this`written
      ensures written == old(written) + [p]
      ensures Used() == old(Used()) + PrimSize(p)
    {
      BytesAppend(written, [p]);
      Bytes1(p);
      written := written + [p];
    }

    /** vn_encode_VkDescriptorPoolSize. */
    method EncodePoolSize(v: PoolSize)
      requires Used() + 8 <= capacity
      modifies this`written
      ensures written == old(written) + PoolSizePrims(v)
      ensures Used() == old(Used()) + 8
    {
      Write(EnumP(v.descriptorType));
      Write(U32P(v.descriptorCount));
    }

    /** vn_encode_VkDescriptorPoolCreateInfo_self. */
    method EncodeCreateInfoSelf(v: CreateInfo)
      requires CreateInfoReadable(v)
      requires Used() + 20 + 8 * EncodedPoolSizes(v) <= capacity
      modifies this`written
      ensures written == old(written) + CreateInfoSelfPrims(v)
      ensures Used() == old(Used()) + 20 + 8 * EncodedPoolSizes(v)
    {
      Write(U32P(v.flags));
      Write(U32P(v.maxSets));
      Write(U32P(v.poolSizeCount));
      if v.poolSizes.Some? {
        Write(ArraySizeP(v.poolSizeCount));
        EncodePoolSizes(v.poolSizes.value, v.poolSizeCount);
      } else {
        Write(ArraySizeP(0));
      }
    }

    /** The loop of vn_encode_VkDescriptorPoolCreateInfo_self over the
      * first n pool sizes. */
    method EncodePoolSizes(ps: seq<PoolSize>, n: nat)
      requires n <= |ps| && Used() + 8 * n <= capacity
      modifies this`written
      ensures written == old(written) + PoolSizeListPrims(ps, n)
      ensures Used() == old(Used()) + 8 * n
    {
      var i := 0;
      while i < n
        invariant i <= n
        invariant written == old(written) + PoolSizeListPrims(ps, i)
        invariant Used() == old(Used()) + 8 * i
      {
        EncodePoolSize(ps[i]);
        i := i + 1;
      }
    }

    /** vn_encode_VkDescriptorPoolCreateInfo: asserts the structure type
    * and writes the constant one. */
    method EncodeCreateInfo(v: CreateInfo)
      requires CreateInfoReadable(v) && v.sType == StructureTypeDescriptorPoolCreateInfo
      requires Used() + 32 + 8 * EncodedPoolSizes(v) <= capacity
      modifies this`written
      ensures written == old(written) + CreateInfoPrims(v)
      ensures Used() == old(Used()) + 32 + 8 * EncodedPoolSizes(v)
    {
      Write(EnumP(StructureTypeDescriptorPoolCreateInfo));
      Write(PointerPrim(false));
      EncodeCreateInfoSelf(v);
    }

    /** vn_encode_vkCreateDescriptorPool. */
    method EncodeCreate(cmdFlags: nat, device: nat, info: Option<CreateInfo>, hasAllocator: bool, pool: Option<nat>)
      requires CommandReadable(CreatePool(device, info, hasAllocator, pool))
      requires Used() + Bytes(CreatePrims(cmdFlags, device, info, hasAllocator, pool)) <= capacity
      modifies this`written
      ensures written == old(written) + CreatePrims(cmdFlags, device, info, hasAllocator, pool)
    {
      CreateBytes(cmdFlags, device, info, hasAllocator, pool);
      EncodeCreateHead(cmdFlags, device, info, if pool.Some? then 24 else 16);
      EncodeCreateTail(hasAllocator, pool);
    }

    /** The header, the device and pCreateInfo of vkCreateDescriptorPool,
      * leaving `rest` bytes of room. */
    method EncodeCreateHead(cmdFlags: nat, device: nat, info: Option<CreateInfo>, rest: nat)
      requires info.Some? ==> CreateInfoReadable(info.value)
                              && info.value.sType == StructureTypeDescriptorPoolCreateInfo
      requires Used() + 24 + (if info.Some? then 32 + 8 * EncodedPoolSizes(info.value) else 0) + rest <= capacity
      modifies this`written
      ensures written == old(written) + CreateHeadPrims(cmdFlags, device, info)
      ensures Used() + rest <= capacity
    {
      Write(CommandTypeP(CreateDescriptorPoolCmd));
      Write(U32P(cmdFlags));
      Write(HandleP(device));
      Write(PointerPrim(info.Some?));
      if info.Some? {
        EncodeCreateInfo(info.value);
      }
    }

    /** pAllocator and pDescriptorPool of vkCreateDescriptorPool. */
    method EncodeCreateTail(hasAllocator: bool, pool: Option<nat>)
        requires Used() + (if pool.Some? then 24 else 16) <= capacity
      modifies this`written
      ensures written == old(written) + CreateTailPrims(hasAllocator, pool)
    {
      Write(PointerPrim(hasAllocator));
      Write(PointerPrim(pool.Some?));
      if pool.Some? {
        Write(HandleP(pool.value));
      }
    }

    /** vn_encode_vkDestroyDescriptorPool. */
    method EncodeDestroy(cmdFlags: nat, device: nat, descriptorPool: nat, hasAllocator: bool)
        requires Used() + 32 <= capacity
      modifies this`written
      ensures written == old(written) + DestroyPrims(cmdFlags, device, descriptorPool, hasAllocator)
    {
      Write(CommandTypeP(DestroyDescriptorPoolCmd));
      Write(U32P(cmdFlags));
      Write(HandleP(device));
      Write(HandleP(descriptorPool));
      Write(PointerPrim(hasAllocator));
    }

    /** vn_encode_vkResetDescriptorPool. */
    method EncodeReset(cmdFlags: nat, device: nat, descriptorPool: nat, resetFlags: nat)
      requires Used() + 28 <= capacity
      modifies this`written
      ensures written == old(written) + ResetPrims(cmdFlags, device, descriptorPool, resetFlags)
    {
      Write(CommandTypeP(ResetDescriptorPoolCmd));
      Write(U32P(cmdFlags));
      Write(HandleP(device));
      Write(HandleP(descriptorPool));
      Write(U32P(resetFlags));
    }

    method EncodeCommand(cmdFlags: nat, c: Command)
      requires CommandReadable(c)
      requires Used() + Bytes(CommandPrims(cmdFlags, c)) <= capacity
      modifies this`written
      ensures written == old(written) + CommandPrims(cmdFlags, c)
    {
      match c
      case CreatePool(device, info, hasAllocator, pool) =>
        EncodeCreate(cmdFlags, device, info, hasAllocator, pool);
      case DestroyPool(device, descriptorPool, hasAllocator) =>
        DestroyBytes(cmdFlags, device, descriptorPool, hasAllocator);
        EncodeDestroy(cmdFlags, device, descriptorPool, hasAllocator);
      case ResetPool(device, descriptorPool, resetFlags) =>
        ResetBytes(cmdFlags, device, descriptorPool, resetFlags);
        EncodeReset(cmdFlags, device, descriptorPool, resetFlags);
    }
  }

  // ---------------------------------------------------------------------
  // Replies
  // ---------------------------------------------------------------------

  /** A decoded reply: the VkResult and, for vkCreateDescriptorPool, the
    * pool handle the renderer returned when its pointer was set. */
  datatype Reply =
    | CreateReply(result: int, pool: Option<nat>)
    | DestroyReply
    | ResetReply(result: int)

  /** The tokens of a reply as the renderer encodes it. */
  function ReplyPrims(r: Reply): seq<Prim>
  {
    match r
    case CreateReply(result, pool) =>
      [CommandTypeP(CreateDescriptorPoolCmd), EnumP(result), PointerPrim(pool.Some?)]
      + (if pool.Some? then [HandleP(pool.value)] else [])
    case DestroyReply => [CommandTypeP(DestroyDescriptorPoolCmd)]
    case ResetReply(result) => [CommandTypeP(ResetDescriptorPoolCmd), EnumP(result)]
  }

  /** A reply of the shape the caller expects for command c: the same
    * command, and for vkCreateDescriptorPool a pool handle exactly when
    * pDescriptorPool is set. */
  predicate ReplyMatches(c: Command, r: Reply)
  {
    match c
    case CreatePool(_, _, _, pool) => r.CreateReply? && r.pool.Some? == pool.Some?
    case DestroyPool(_, _, _) => r.DestroyReply?
    case ResetPool(_, _, _) => r.ResetReply?
  }

  /** vn_sizeof_*_reply: the bytes of every reply of the expected shape. */
  function SizeofReply(c: Command): (n: nat)
    ensures forall r: Reply :: ReplyMatches(c, r) ==> n == Bytes(ReplyPrims(r))
  {
    assert forall r: Reply :: ReplyMatches(c, r) ==> Bytes(ReplyPrims(r)) == ReplyBytesOf(c) by {
      forall r: Reply | ReplyMatches(c, r) ensures Bytes(ReplyPrims(r)) == ReplyBytesOf(c) {
        ReplyBytes(c, r);
      }
    }
    match c
    case CreatePool(_, _, _, pool) =>
      PrimSize(CommandTypeP(CreateDescriptorPoolCmd)) + PrimSize(EnumP(0))
      + PrimSize(PointerPrim(pool.Some?)) + (if pool.Some? then PrimSize(HandleP(pool.value)) else 0)
    case DestroyPool(_, _, _) => PrimSize(CommandTypeP(DestroyDescriptorPoolCmd))
    case ResetPool(_, _, _) => PrimSize(CommandTypeP(ResetDescriptorPoolCmd)) + PrimSize(EnumP(0))
  }

  function ReplyBytesOf(c: Command): nat
  {
    match c
    case CreatePool(_, _, _, pool) => if pool.Some? then 24 else 16
    case DestroyPool(_, _, _) => 4
    case ResetPool(_, _, _) => 8
  }

  lemma ReplyBytes(c: Command, r: Reply)
    requires ReplyMatches(c, r)
    ensures Bytes(ReplyPrims(r)) == ReplyBytesOf(c)
  {
    var s := ReplyPrims(r);
    match r
    case CreateReply(result, pool) =>
      var head := [CommandTypeP(CreateDescriptorPoolCmd), EnumP(result), PointerPrim(pool.Some?)];
      Bytes3(CommandTypeP(CreateDescriptorPoolCmd), EnumP(result), PointerPrim(pool.Some?));
      if pool.Some? { Bytes1(HandleP(pool.value)); }
      BytesAppend(head, if pool.Some? then [HandleP(pool.value)] else []);
    case DestroyReply =>
      Bytes1(CommandTypeP(DestroyDescriptorPoolCmd));
    case ResetReply(result) =>
      Bytes2(CommandTypeP(ResetDescriptorPoolCmd), EnumP(result));
  }

  /** What the reply decoders read: the command type they assert, then
    * tokens of the kinds they decode. */
  predicate ReplyReadable(c: Command, s: seq<Prim>)
  {
    |s| >= 1 && s[0] == CommandTypeP(TypeOf(c))
    && match c
       case CreatePool(_, _, _, _) =>
         |s| >= 3 && s[1].EnumP? && s[2].ArraySizeP? && (s[2].n != 0 ==> |s| >= 4 && s[3].HandleP?)
       case DestroyPool(_, _, _) => true
       case ResetPool(_, _, _) => |s| >= 2 && s[1].EnumP?
  }

  /** vn_decode_vkCreate/Destroy/ResetDescriptorPool_reply. */
  function DecodeReply(c: Command, s: seq<Prim>): (r: Reply)
    requires ReplyReadable(c, s)
    ensures r.CreateReply? <==> c.CreatePool?
    ensures r.DestroyReply? <==> c.DestroyPool?
    ensures c.CreatePool? ==> r.result == s[1].e && (r.pool.Some? <==> s[2].n != 0)
    ensures c.ResetPool? ==> r.result == s[1].e
  {
    match c
    case CreatePool(_, _, _, _) =>
      CreateReply(s[1].e, if s[2].n != 0 then Some(s[3].id) else None)
    case DestroyPool(_, _, _) => DestroyReply
    case ResetPool(_, _, _) => ResetReply(s[1].e)
  }

  /** Decoding a reply the renderer encoded for the same command gives back
    * the result and the pool handle. */
  lemma ReplyRoundTrip(c: Command, r: Reply)
    requires TypeOf(c) == ReplyType(r)
    ensures ReplyReadable(c, ReplyPrims(r))
    ensures DecodeReply(c, ReplyPrims(r)) == r
  {
  }

  function ReplyType(r: Reply): CommandType
  {
    match r
    case CreateReply(_, _) => CreateDescriptorPoolCmd
    case DestroyReply => DestroyDescriptorPoolCmd
    case ResetReply(_) => ResetDescriptorPoolCmd
  }

  // ---------------------------------------------------------------------
  // Submission
  // ---------------------------------------------------------------------

  /** VK_COMMAND_GENERATE_REPLY_BIT_EXT. */
  const GenerateReplyBit: bv32 := 0x1

  /** VK_ERROR_OUT_OF_HOST_MEMORY and VK_SUCCESS. */
  const ErrorOutOfHostMemory: int := -1
  const Success: int := 0

  /** Where vn_submit_* encodes the command: the stack buffer, a heap
    * buffer, or nowhere when malloc failed. */
  datatype BufferChoice = LocalBuffer | HeapBuffer | NoBuffer

  /** The vn_instance_submit_command record: the buffer, the size given to
    * the encoder, what was encoded and the reply size asked for. */
  datatype Submission = Submission(buffer: BufferChoice, commandSize: nat, command: seq<Prim>, replySize: nat)

  /** vn_submit_*: the command is sized; it goes into the local buffer of
    * localSize bytes when it fits, else into a heap buffer (mallocOk says
    * whether malloc succeeds); on failure the size is 0 and nothing is
    * encoded. A reply is sized only when the flags ask for one. */
  method Submit(localSize: nat, mallocOk: bool, cmdFlags: bv32, c: Command) returns (s: Submission)
    requires CommandReadable(c)
    ensures var size := Bytes(CommandPrims(cmdFlags as nat, c));
            && s.buffer == (if size <= localSize then LocalBuffer else if mallocOk then HeapBuffer else NoBuffer)
            && s.commandSize == (if s.buffer == NoBuffer then 0 else size)
            && s.command == (if s.buffer == NoBuffer then [] else CommandPrims(cmdFlags as nat, c))
    ensures s.replySize == (if cmdFlags & GenerateReplyBit != 0 then SizeofReply(c) else 0)
  {
    var cmdSize := SizeofCommand(c);
    assert cmdSize == Bytes(CommandPrims(cmdFlags as nat, c));
    CommandBytesPositive(cmdFlags as nat, c);
    var buffer := LocalBuffer;
    if cmdSize > localSize {
      if mallocOk {
        buffer := HeapBuffer;
      } else {
        buffer := NoBuffer;
        cmdSize := 0;
      }
    }
    var enc := new Encoder(cmdSize);
    if cmdSize != 0 {
      enc.EncodeCommand(cmdFlags as nat, c);
    }
    assert buffer == NoBuffer ==> enc.written == [];
    var replySize := if cmdFlags & GenerateReplyBit != 0 then SizeofReply(c) else 0;
    s := Submission(buffer, cmdSize, enc.written, replySize);
  }

  /** vn_call_*: a submission that asks for a reply; without a reply
    * buffer object (reply == None) vkCreate/ResetDescriptorPool return
    * VK_ERROR_OUT_OF_HOST_MEMORY, otherwise the decoded VkResult.
    * vkDestroyDescriptorPool returns nothing, given here as VK_SUCCESS. */
  method Call(localSize: nat, mallocOk: bool, c: Command, reply: Option<seq<Prim>>)
    returns (s: Submission, ret: int, decoded: Option<Reply>)
    requires CommandReadable(c)
    requires reply.Some? ==> ReplyReadable(c, reply.value)
    ensures s.replySize == SizeofReply(c)
    ensures s.buffer != NoBuffer ==> s.command == CommandPrims(GenerateReplyBit as nat, c)
    ensures reply.None? ==> decoded == None && ret == (if c.DestroyPool? then Success else ErrorOutOfHostMemory)
    ensures reply.Some? ==> decoded == Some(DecodeReply(c, reply.value))
                            && ret == (if c.DestroyPool? then Success else decoded.value.result)
  {
    s := Submit(localSize, mallocOk, GenerateReplyBit, c);
    if reply.Some? {
      var r := DecodeReply(c, reply.value);
      decoded := Some(r);
      ret := if c.DestroyPool? then Success else r.result;
    } else {
      decoded := None;
      ret := if c.DestroyPool? then Success else ErrorOutOfHostMemory;
    }
  }
}
