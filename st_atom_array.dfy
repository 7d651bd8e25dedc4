// Vertex-array state of the gallium state tracker (state_tracker/st_atom_array.c):
// the translation of GL vertex attributes into pipe vertex elements, with
// 64-bit attributes lowered to 32-bit integer pairs; the vertex buffers of
// the attribute arrays, one per binding or one per attribute; the packing
// of the zero-stride "current" attributes into one byte buffer; and the
// count of trailing buffers to unbind.
//
// GLbitfield attribute masks are given as the ascending list of their set
// bits, the order u_bit_scan and ffs visit them in. The uploads through
// u_upload_mgr and the cso binding are not part of this model: an
// uploaded buffer is recorded by its bytes and alignment.
module StAtomArray {
  import opened Wrappers
  import opened Bits

  /** PIPE_MAX_ATTRIBS, the size of the element and buffer arrays. */
  const MaxAttribs: nat := 32

  /** VERT_ATTRIB_MAX, the number of GL vertex attributes. */
  const VertAttribMax: nat := 32

  /** The largest attribute, a dvec4, in bytes. */
  const MaxElementSize: nat := 32

  // ---------------------------------------------------------------------
  // Vertex formats and elements
  // ---------------------------------------------------------------------

  /** The parts of a gl_vertex_format the state tracker reads: the number
    * of components, whether it holds doubles, its pipe format (non-zero
    * for a valid format) and its size in bytes. */
  datatype VertexFormat = VertexFormat(size: nat, doubles: bool, pipeFormat: nat, elementSize: nat)

  /** The format of a pipe vertex element: one of the two 32-bit integer
    * formats a 64-bit attribute is lowered to, or the attribute's own. */
  datatype ElemFormat = R32G32Uint | R32G32B32A32Uint | Native(code: nat)

  datatype VertexElement = VertexElement(srcOffset: nat, format: ElemFormat, instanceDivisor: nat, bufferIndex: nat)

  /** An entry of a vertex program's index_to_input: a GL attribute, or
    * the second slot a 64-bit attribute of more than two components takes. */
  datatype InputSlot = Input(attr: nat) | DoubleAttribPlaceholder

  datatype VertexProgram = VertexProgram(numInputs: nat, indexToInput: seq<InputSlot>, inputToIndex: seq<nat>)

  predicate ProgramOk(vp: VertexProgram)
  {
    && vp.numInputs <= MaxAttribs
    && |vp.indexToInput| == vp.numInputs
    && |vp.inputToIndex| == VertAttribMax
  }

  /** The attribute is a GL attribute with an input slot of the program. */
  predicate Reads(vp: VertexProgram, attr: nat)
    requires ProgramOk(vp)
  {
    attr < VertAttribMax && vp.inputToIndex[attr] < vp.numInputs
  }

  predicate ReadsAll(vp: VertexProgram, attrs: seq<nat>)
    requires ProgramOk(vp)
  {
    forall i {:trigger attrs[i]} :: 0 <= i < |attrs| ==> Reads(vp, attrs[i])
  }

  /** What set_velement asserts: a format to write; a 64-bit attribute has
    * one to four components. */
  predicate FormatOk(f: VertexFormat)
  {
    if f.doubles then 1 <= f.size <= 4 else f.pipeFormat != 0
  }

  /** The bytes one vertex element fetches for the lowered formats. */
  function FetchBytes(f: ElemFormat): nat
  {
    match f
    case R32G32Uint => 8
    case R32G32B32A32Uint => 16
    case Native(_) => 0
  }

  /** A write of one vertex element into a slot. */
  datatype ElemWrite = ElemWrite(slot: nat, elem: VertexElement)

  predicate SlotsBelow(ws: seq<ElemWrite>, n: nat)
  {
    forall i :: 0 <= i < |ws| ==> ws[i].slot < n
  }

  /** The element array after the writes, in order. */
  function Apply(s: seq<VertexElement>, ws: seq<ElemWrite>): (r: seq<VertexElement>)
    requires SlotsBelow(ws, |s|)
    ensures |r| == |s|
    decreases |ws|
  {
    if ws == [] then s else Apply(s[ws[0].slot := ws[0].elem], ws[1..])
  }

  lemma {:induction false} ApplyAppend(s: seq<VertexElement>, a: seq<ElemWrite>, b: seq<ElemWrite>)
    requires SlotsBelow(a, |s|) && SlotsBelow(b, |s|)
    ensures SlotsBelow(a + b, |s|)
    ensures Apply(s, a + b) == Apply(Apply(s, a), b)
    decreases |a|
  {
    if a == [] {
      assert a + b == b;
    } else {
      assert (a + b)[0] == a[0];
      assert (a + b)[1..] == a[1..] + b;
      ApplyAppend(s[a[0].slot := a[0].elem], a[1..], b);
    }
  }

  lemma ApplyPair(s: seq<VertexElement>, w: ElemWrite, v: ElemWrite)
    requires w.slot < |s| && v.slot < |s|
    ensures Apply(s, [w]) == s[w.slot := w.elem]
    ensures Apply(s, [w, v]) == s[w.slot := w.elem][v.slot := v.elem]
  {
    var s1 := s[w.slot := w.elem];
    assert [w][1..] == [];
    assert Apply(s, [w]) == Apply(s1, []);
    assert [w, v][1..] == [v];
    assert Apply(s, [w, v]) == Apply(s1, [v]);
    assert Apply(s1, [v]) == Apply(s1[v.slot := v.elem], []);
  }

  /** The slot after a 64-bit attribute's is its placeholder. */
  predicate PlaceholderFollows(vp: VertexProgram, idx: nat)
    requires ProgramOk(vp)
  {
    idx + 1 < vp.numInputs && vp.indexToInput[idx + 1] == DoubleAttribPlaceholder
  }

  /** init_velement_64bit: the first half as R32G32 (one component) or
    * R32G32B32A32; the placeholder slot, when there is one, gets the rest
    * 16 bytes further on, or a dummy R32G32 element at the same offset for
    * one or two components. */
  function DoubleWrites(vp: VertexProgram, f: VertexFormat, offset: nat, divisor: nat, vbo: nat, idx: nat): seq<ElemWrite>
    requires ProgramOk(vp)
  {
    var first := ElemWrite(idx, VertexElement(offset, if f.size < 2 then R32G32Uint else R32G32B32A32Uint, divisor, vbo));
    if !PlaceholderFollows(vp, idx) then [first]
    else if f.size >= 3 then
      [first, ElemWrite(idx + 1, VertexElement(offset + 16, if f.size == 3 then R32G32Uint else R32G32B32A32Uint, divisor, vbo))]
    else
      [first, ElemWrite(idx + 1, VertexElement(offset, R32G32Uint, divisor, vbo))]
  }

  /** init_velement: a non-64-bit attribute's element verbatim, a 64-bit
    * one lowered. */
  function InitWrites(vp: VertexProgram, f: VertexFormat, offset: nat, divisor: nat, vbo: nat, idx: nat): (r: seq<ElemWrite>)
    requires ProgramOk(vp)
    ensures idx < MaxAttribs ==> SlotsBelow(r, MaxAttribs)
  {
    if !f.doubles then [ElemWrite(idx, VertexElement(offset, Native(f.pipeFormat), divisor, vbo))]
    else DoubleWrites(vp, f, offset, divisor, vbo, idx)
  }

  /** A 64-bit attribute whose placeholder slot follows is fetched whole and
    * exactly once: for three or four components the second element starts
    * where the first one ends, and the two fetch 8 bytes per component;
    * for one or two the first element alone fetches them. */
  lemma DoubleLoweringCoversAttribute(vp: VertexProgram, f: VertexFormat, offset: nat, divisor: nat, vbo: nat, idx: nat)
    requires ProgramOk(vp) && f.doubles && FormatOk(f)
    ensures var ws := DoubleWrites(vp, f, offset, divisor, vbo, idx);
            && ws[0].slot == idx && ws[0].elem.srcOffset == offset
            && (f.size <= 2 ==> FetchBytes(ws[0].elem.format) == 8 * f.size)
            && (f.size >= 3 && PlaceholderFollows(vp, idx) ==>
                  && |ws| == 2 && ws[1].slot == idx + 1
                  && ws[1].elem.srcOffset == offset + FetchBytes(ws[0].elem.format)
                  && FetchBytes(ws[0].elem.format) + FetchBytes(ws[1].elem.format) == 8 * f.size)
            && (|ws| == 2 <==> PlaceholderFollows(vp, idx))
            && forall i :: 0 <= i < |ws| ==> ws[i].elem.instanceDivisor == divisor && ws[i].elem.bufferIndex == vbo
  {
  }

  // ---------------------------------------------------------------------
  // Vertex array objects and buffers
  // ---------------------------------------------------------------------

  /** The parts of gl_array_attributes read here; the derived draw offsets
    * are computed when the array object is updated (arrayobj.c is not part
    * of this model). */
  datatype ArrayAttrib = ArrayAttrib(format: VertexFormat, bindingIndex: nat, relativeOffset: nat,
                                     drawRelativeOffset: nat, ptr: nat)

  /** The parts of gl_vertex_buffer_binding read here: the buffer object,
    * the offsets, the stride, the divisor and the attributes it feeds. */
  datatype Binding = Binding(bufferObj: Option<nat>, offset: nat, drawOffset: nat, stride: nat,
                             instanceDivisor: nat, boundAttribs: set<nat>)

  datatype Vao = Vao(attribs: seq<ArrayAttrib>, bindings: seq<Binding>, isDynamic: bool)

  /** Every attribute names a binding, and is among that binding's bound
    * attributes. */
  predicate VaoOk(vao: Vao)
  {
    && |vao.attribs| == VertAttribMax
    && (forall a :: 0 <= a < |vao.attribs| ==> vao.attribs[a].bindingIndex < |vao.bindings|)
    && (forall a :: 0 <= a < |vao.attribs| ==> a in vao.bindings[vao.attribs[a].bindingIndex].boundAttribs)
  }

  function BindingOf(vao: Vao, attr: nat): Binding
    requires VaoOk(vao) && attr < VertAttribMax
  {
    vao.bindings[vao.attribs[attr].bindingIndex]
  }

  /** Where a vertex buffer's data comes from. */
  datatype BufferSource =
    | Resource(obj: nat)
    | UserPointer(ptr: nat)
    | Uploaded(bytes: seq<bv8>, alignment: nat)
    | Unset

  datatype VertexBuffer = VertexBuffer(source: BufferSource, bufferOffset: nat, stride: nat)

  predicate Increasing(mask: seq<nat>)
  {
    forall i, j :: 0 <= i < j < |mask| ==> mask[i] < mask[j]
  }

  predicate Below(mask: seq<nat>)
  {
    forall i :: 0 <= i < |mask| ==> mask[i] < VertAttribMax
  }

  /** The attributes of the mask in s, in order. */
  function Keep(mask: seq<nat>, s: set<nat>): (r: seq<nat>)
    ensures |r| <= |mask|
    ensures forall i :: 0 <= i < |r| ==> r[i] in mask && r[i] in s
    ensures mask != [] && mask[0] in s ==> r != [] && r[0] == mask[0]
  {
    if mask == [] then []
    else if mask[0] in s then [mask[0]] + Keep(mask[1..], s)
    else Keep(mask[1..], s)
  }

  /** The attributes of the mask not in s, in order. */
  function Drop(mask: seq<nat>, s: set<nat>): (r: seq<nat>)
    ensures |r| <= |mask|
    ensures mask != [] && mask[0] in s ==> |r| < |mask|
    ensures forall i :: 0 <= i < |r| ==> r[i] in mask && r[i] !in s
  {
    if mask == [] then []
    else if mask[0] in s then Drop(mask[1..], s)
    else [mask[0]] + Drop(mask[1..], s)
  }

  /** The bound attributes of the binding of the lowest attribute. */
  function LeadBound(vao: Vao, mask: seq<nat>): set<nat>
    requires VaoOk(vao) && mask != [] && mask[0] < VertAttribMax
  {
    BindingOf(vao, mask[0]).boundAttribs
  }

  /** The grouping of st_setup_arrays' non-dynamic path: the lowest
    * remaining attribute's binding takes every remaining attribute bound
    * to it. */
  function Groups(vao: Vao, mask: seq<nat>): (r: seq<seq<nat>>)
    requires VaoOk(vao) && Below(mask)
    ensures |r| <= |mask|
    ensures forall g :: 0 <= g < |r| ==> r[g] != []
    decreases |mask|
  {
    if mask == [] then []
    else
      var bound := LeadBound(vao, mask);
      [Keep(mask, bound)] + Groups(vao, Drop(mask, bound))
  }

  function Flatten(groups: seq<seq<nat>>): seq<nat>
  {
    if groups == [] then [] else groups[0] + Flatten(groups[1..])
  }

  lemma {:induction false} KeepDropSplit(mask: seq<nat>, s: set<nat>)
    ensures multiset(Keep(mask, s)) + multiset(Drop(mask, s)) == multiset(mask)
    decreases |mask|
  {
    if mask != [] {
      KeepDropSplit(mask[1..], s);
      assert mask == [mask[0]] + mask[1..];
      assert multiset(mask) == multiset{mask[0]} + multiset(mask[1..]);
    }
  }

  lemma {:induction false} KeepDropOrdered(mask: seq<nat>, s: set<nat>)
    requires Increasing(mask)
    ensures Increasing(Keep(mask, s)) && Increasing(Drop(mask, s))
    decreases |mask|
  {
    if mask != [] {
      var tail := mask[1..];
      assert Increasing(tail);
      KeepDropOrdered(tail, s);
      var k, d := Keep(tail, s), Drop(tail, s);
      assert forall j :: 0 <= j < |k| ==> mask[0] < k[j];
      assert forall j :: 0 <= j < |d| ==> mask[0] < d[j];
      PrependIncreasing(mask[0], k);
      PrependIncreasing(mask[0], d);
    }
  }

  lemma PrependIncreasing(x: nat, t: seq<nat>)
    requires Increasing(t) && forall j :: 0 <= j < |t| ==> x < t[j]
    ensures Increasing([x] + t)
  {
    var u := [x] + t;
    assert forall j :: 1 <= j < |u| ==> u[j] == t[j - 1];
  }

  /** Every attribute of the mask is processed exactly once, in one of the
    * groups. */
  lemma {:induction false} GroupsCover(vao: Vao, mask: seq<nat>)
    requires VaoOk(vao) && Below(mask)
    ensures multiset(Flatten(Groups(vao, mask))) == multiset(mask)
    decreases |mask|
  {
    if mask != [] {
      var bound := LeadBound(vao, mask);
      var rest := Drop(mask, bound);
      GroupsCover(vao, rest);
      KeepDropSplit(mask, bound);
      var gs := Groups(vao, mask);
      assert gs[0] == Keep(mask, bound) && gs[1..] == Groups(vao, rest);
    }
  }

  /** Each group is led by its lowest attribute, and all its attributes are
    * bound to that attribute's binding, so one vertex buffer serves them. */
  lemma {:induction false} GroupsShareBinding(vao: Vao, mask: seq<nat>, g: nat)
    requires VaoOk(vao) && Below(mask) && g < |Groups(vao, mask)|
    ensures var group := Groups(vao, mask)[g];
            && group[0] < VertAttribMax
            && forall i :: 0 <= i < |group| ==> group[i] in LeadBound(vao, group)
    decreases |mask|
  {
    var bound := LeadBound(vao, mask);
    var rest := Drop(mask, bound);
    var gs := Groups(vao, mask);
    if g == 0 {
      assert gs[0] == Keep(mask, bound);
    } else {
      assert gs[g] == Groups(vao, rest)[g - 1];
      GroupsShareBinding(vao, rest, g - 1);
    }
  }

  /** The groups keep the mask's ascending order within each group. */
  lemma {:induction false} GroupsOrdered(vao: Vao, mask: seq<nat>, g: nat)
    requires VaoOk(vao) && Below(mask) && Increasing(mask) && g < |Groups(vao, mask)|
    ensures Increasing(Groups(vao, mask)[g])
    decreases |mask|
  {
    var bound := LeadBound(vao, mask);
    var rest := Drop(mask, bound);
    KeepDropOrdered(mask, bound);
    if g > 0 {
      assert Groups(vao, mask)[g] == Groups(vao, rest)[g - 1];
      GroupsOrdered(vao, rest, g - 1);
    }
  }

  /** The groups hold attributes of the mask only. */
  lemma {:induction false} GroupsWithin(vao: Vao, mask: seq<nat>, g: nat)
    requires VaoOk(vao) && Below(mask) && g < |Groups(vao, mask)|
    ensures forall i :: 0 <= i < |Groups(vao, mask)[g]| ==> Groups(vao, mask)[g][i] in mask
    decreases |mask|
  {
    var bound := LeadBound(vao, mask);
    var rest := Drop(mask, bound);
    if g > 0 {
      assert Groups(vao, mask)[g] == Groups(vao, rest)[g - 1];
      GroupsWithin(vao, rest, g - 1);
    }
  }

  /** The vertex buffer of a binding on the non-dynamic path. */
  function BindingBuffer(b: Binding): VertexBuffer
  {
    match b.bufferObj
    case Some(obj) => VertexBuffer(Resource(obj), b.drawOffset, b.stride)
    case None => VertexBuffer(UserPointer(b.drawOffset), 0, b.stride)
  }

  /** The vertex buffer of one attribute on the dynamic path. */
  function AttribBuffer(vao: Vao, attr: nat): VertexBuffer
    requires VaoOk(vao) && attr < VertAttribMax
  {
    var b := BindingOf(vao, attr);
    match b.bufferObj
    case Some(obj) => VertexBuffer(Resource(obj), b.offset + vao.attribs[attr].relativeOffset, b.stride)
    case None => VertexBuffer(UserPointer(vao.attribs[attr].ptr), 0, b.stride)
  }

  /** The element writes of one attribute array at the given offset,
    * fetched from buffer vbo. */
  function ArrayWrite(vp: VertexProgram, vao: Vao, attr: nat, offset: nat, vbo: nat): (r: seq<ElemWrite>)
    requires ProgramOk(vp) && VaoOk(vao) && Reads(vp, attr)
    ensures SlotsBelow(r, MaxAttribs)
  {
    InitWrites(vp, vao.attribs[attr].format, offset, BindingOf(vao, attr).instanceDivisor, vbo, vp.inputToIndex[attr])
  }

  /** The element writes of the attributes of one binding, fetched from
    * buffer vbo at their relative offsets. */
  function GroupWrites(vp: VertexProgram, vao: Vao, group: seq<nat>, vbo: nat): (r: seq<ElemWrite>)
    requires ProgramOk(vp) && VaoOk(vao) && ReadsAll(vp, group)
    ensures SlotsBelow(r, MaxAttribs)
  {
    if group == [] then []
    else
      var n := |group| - 1;
      GroupWrites(vp, vao, group[..n], vbo) + ArrayWrite(vp, vao, group[n], vao.attribs[group[n]].drawRelativeOffset, vbo)
  }

  /** The element writes of the non-dynamic path, binding after binding:
    * the lowest remaining attribute's binding gets buffer start, and the
    * remaining attributes bound to it their elements in it. */
  function BindingWrites(vp: VertexProgram, vao: Vao, mask: seq<nat>, start: nat): (r: seq<ElemWrite>)
    requires ProgramOk(vp) && VaoOk(vao) && ReadsAll(vp, mask)
    ensures SlotsBelow(r, MaxAttribs)
    decreases |mask|
  {
    if mask == [] then []
    else
      var bound := LeadBound(vao, mask);
      GroupWrites(vp, vao, Keep(mask, bound), start) + BindingWrites(vp, vao, Drop(mask, bound), start + 1)
  }

  /** The vertex buffers of the non-dynamic path, one per binding. */
  function BindingBuffers(vao: Vao, mask: seq<nat>): (r: seq<VertexBuffer>)
    requires VaoOk(vao) && Below(mask)
    ensures |r| <= |mask|
    decreases |mask|
  {
    if mask == [] then []
    else [BindingBuffer(BindingOf(vao, mask[0]))] + BindingBuffers(vao, Drop(mask, LeadBound(vao, mask)))
  }

  lemma BindingUnfold(vp: VertexProgram, vao: Vao, mask: seq<nat>, start: nat)
    requires ProgramOk(vp) && VaoOk(vao) && ReadsAll(vp, mask) && mask != []
    ensures var bound := LeadBound(vao, mask);
            && BindingWrites(vp, vao, mask, start)
               == GroupWrites(vp, vao, Keep(mask, bound), start) + BindingWrites(vp, vao, Drop(mask, bound), start + 1)
            && BindingBuffers(vao, mask)
               == [BindingBuffer(BindingOf(vao, mask[0]))] + BindingBuffers(vao, Drop(mask, bound))
  {
  }

  /** One binding further along the mask: the buffers so far grow by the
    * lowest remaining attribute's binding, the writes by its group. */
  lemma BindingStep(vp: VertexProgram, vao: Vao, mask: seq<nat>, rest: seq<nat>, group: seq<nat>, next: seq<nat>,
                    base: nat, start: nat, pos: nat, buffers: seq<VertexBuffer>, writes: seq<ElemWrite>)
    requires ProgramOk(vp) && VaoOk(vao) && ReadsAll(vp, mask) && ReadsAll(vp, rest) && rest != []
    requires group == Keep(rest, LeadBound(vao, rest)) && next == Drop(rest, LeadBound(vao, rest))
    requires BindingBuffers(vao, mask) == buffers + BindingBuffers(vao, rest)
    requires BindingWrites(vp, vao, mask, base) == writes + BindingWrites(vp, vao, rest, start)
    requires pos == start + 1
    ensures ReadsAll(vp, group) && ReadsAll(vp, next)
    ensures BindingBuffers(vao, mask)
            == (buffers + [BindingBuffer(BindingOf(vao, rest[0]))]) + BindingBuffers(vao, next)
    ensures BindingWrites(vp, vao, mask, base)
            == (writes + GroupWrites(vp, vao, group, start)) + BindingWrites(vp, vao, next, pos)
  {
    BindingUnfold(vp, vao, rest, start);
    ConcatAssoc(buffers, [BindingBuffer(BindingOf(vao, rest[0]))], BindingBuffers(vao, next));
    ConcatAssoc(writes, GroupWrites(vp, vao, group, start), BindingWrites(vp, vao, next, pos));
  }

  /** There is one buffer per group. */
  lemma {:induction false} BindingBuffersCountGroups(vao: Vao, mask: seq<nat>)
    requires VaoOk(vao) && Below(mask)
    ensures |BindingBuffers(vao, mask)| == |Groups(vao, mask)|
    decreases |mask|
  {
    if mask != [] {
      BindingBuffersCountGroups(vao, Drop(mask, LeadBound(vao, mask)));
    }
  }

  /** The buffer of each group is the buffer of the binding of the group's
    * lowest attribute. */
  lemma {:induction false} BindingBuffersFollowGroups(vao: Vao, mask: seq<nat>, g: nat)
    requires VaoOk(vao) && Below(mask) && g < |Groups(vao, mask)|
    ensures g < |BindingBuffers(vao, mask)|
    ensures Groups(vao, mask)[g][0] < VertAttribMax
    ensures BindingBuffers(vao, mask)[g] == BindingBuffer(BindingOf(vao, Groups(vao, mask)[g][0]))
    decreases |mask|
  {
    var bound := LeadBound(vao, mask);
    var rest := Drop(mask, bound);
    BindingBuffersCountGroups(vao, mask);
    if g == 0 {
      assert Groups(vao, mask)[0] == Keep(mask, bound);
    } else {
      assert Groups(vao, mask)[g] == Groups(vao, rest)[g - 1];
      assert BindingBuffers(vao, mask)[g] == BindingBuffers(vao, rest)[g - 1];
      BindingBuffersFollowGroups(vao, rest, g - 1);
    }
  }

  /** The element writes of the dynamic path: a buffer per attribute, the
    * element at offset 0 of it. */
  function DynamicWrites(vp: VertexProgram, vao: Vao, attrs: seq<nat>, start: nat): (r: seq<ElemWrite>)
    requires ProgramOk(vp) && VaoOk(vao) && ReadsAll(vp, attrs)
    ensures SlotsBelow(r, MaxAttribs)
  {
    if attrs == [] then []
    else
      var n := |attrs| - 1;
      DynamicWrites(vp, vao, attrs[..n], start) + ArrayWrite(vp, vao, attrs[n], 0, start + n)
  }

  function DynamicBuffers(vao: Vao, attrs: seq<nat>): (r: seq<VertexBuffer>)
    requires VaoOk(vao) && Below(attrs)
    ensures |r| == |attrs|
    ensures forall i :: 0 <= i < |r| ==> r[i] == AttribBuffer(vao, attrs[i])
  {
    if attrs == [] then [] else DynamicBuffers(vao, attrs[..|attrs| - 1]) + [AttribBuffer(vao, attrs[|attrs| - 1])]
  }

  /** The element writes of st_setup_arrays, buffers numbered from 0. */
  function ArrayWrites(vp: VertexProgram, vao: Vao, mask: seq<nat>, start: nat): (r: seq<ElemWrite>)
    requires ProgramOk(vp) && VaoOk(vao) && ReadsAll(vp, mask)
    ensures SlotsBelow(r, MaxAttribs)
  {
    if vao.isDynamic then DynamicWrites(vp, vao, mask, start)
    else BindingWrites(vp, vao, mask, start)
  }

  /** The vertex buffers of st_setup_arrays. */
  function ArrayBuffers(vp: VertexProgram, vao: Vao, mask: seq<nat>): (r: seq<VertexBuffer>)
    requires ProgramOk(vp) && VaoOk(vao) && ReadsAll(vp, mask)
    ensures |r| <= |mask|
  {
    if vao.isDynamic then DynamicBuffers(vao, mask)
    else BindingBuffers(vao, mask)
  }

  lemma GroupStep(vp: VertexProgram, vao: Vao, group: seq<nat>, k: nat, vbo: nat)
    requires ProgramOk(vp) && VaoOk(vao) && ReadsAll(vp, group) && k < |group|
    ensures ReadsAll(vp, group[..k]) && ReadsAll(vp, group[..k + 1]) && Reads(vp, group[k])
    ensures GroupWrites(vp, vao, group[..k + 1], vbo)
            == GroupWrites(vp, vao, group[..k], vbo) + ArrayWrite(vp, vao, group[k], vao.attribs[group[k]].drawRelativeOffset, vbo)
  {
    assert group[..k + 1][..k] == group[..k];
  }

  lemma DynamicStep(vp: VertexProgram, vao: Vao, attrs: seq<nat>, k: nat, start: nat)
    requires ProgramOk(vp) && VaoOk(vao) && ReadsAll(vp, attrs) && k < |attrs|
    ensures ReadsAll(vp, attrs[..k]) && ReadsAll(vp, attrs[..k + 1]) && Reads(vp, attrs[k])
    ensures Below(attrs[..k]) && Below(attrs[..k + 1])
    ensures DynamicWrites(vp, vao, attrs[..k + 1], start)
            == DynamicWrites(vp, vao, attrs[..k], start) + ArrayWrite(vp, vao, attrs[k], 0, start + k)
    ensures DynamicBuffers(vao, attrs[..k + 1]) == DynamicBuffers(vao, attrs[..k]) + [AttribBuffer(vao, attrs[k])]
  {
    assert attrs[..k + 1][..k] == attrs[..k];
  }

  lemma SpliceFromStart(s: seq<VertexBuffer>, t: seq<VertexBuffer>)
    requires |t| <= |s|
    ensures Splice(s, 0, t)[..|t|] == t
  {
  }

  lemma SpliceFromStartThen(s: seq<VertexBuffer>, t: seq<VertexBuffer>, x: VertexBuffer)
    requires |t| < |s|
    ensures Splice(s, 0, t)[|t| := x][..|t| + 1] == t + [x]
  {
  }

  lemma ConcatAssoc<T>(a: seq<T>, b: seq<T>, c: seq<T>)
    ensures a + (b + c) == (a + b) + c
  {
  }

  lemma ConcatEmpty<T>(a: seq<T>)
    ensures a + [] == a
  {
  }

  /** s with the buffers from index at on replaced by t. */
  function Splice(s: seq<VertexBuffer>, at: nat, t: seq<VertexBuffer>): (r: seq<VertexBuffer>)
    requires at + |t| <= |s|
    ensures |r| == |s|
  {
    s[..at] + t + s[at + |t|..]
  }

  lemma SpliceEmpty(s: seq<VertexBuffer>, at: nat)
    requires at <= |s|
    ensures Splice(s, at, []) == s
  {
    assert s[..at] + [] + s[at..] == s;
  }

  lemma SpliceSnoc(s: seq<VertexBuffer>, at: nat, t: seq<VertexBuffer>, x: VertexBuffer)
    requires at + |t| < |s|
    ensures Splice(s, at, t + [x]) == Splice(s, at, t)[at + |t| := x]
  {
    var a, b := Splice(s, at, t + [x]), Splice(s, at, t)[at + |t| := x];
    assert forall i :: 0 <= i < |s| ==> a[i] == b[i];
  }

  // ---------------------------------------------------------------------
  // Current attributes
  // ---------------------------------------------------------------------

  /** A current (zero-stride) attribute: its format and its value's bytes. */
  datatype CurrentAttrib = CurrentAttrib(format: VertexFormat, bytes: seq<bv8>)

  predicate CurrentOk(c: CurrentAttrib)
  {
    && FormatOk(c.format)
    && 1 <= c.format.elementSize <= MaxElementSize
    && |c.bytes| == c.format.elementSize
  }

  predicate CurrentsOk(vp: VertexProgram, current: seq<CurrentAttrib>, attrs: seq<nat>)
    requires ProgramOk(vp)
  {
    && |current| == VertAttribMax
    && ReadsAll(vp, attrs) && |attrs| <= VertAttribMax
    && forall i :: 0 <= i < |attrs| ==> CurrentOk(current[attrs[i]])
  }

  /** util_next_power_of_two: the least power of two at least x; 1 for 0. */
  function NextPow2(x: nat): (r: nat)
    ensures r >= 1 && r >= x
    ensures x >= 1 ==> r < 2 * x
  {
    if x <= 1 then 1 else Pow2(Log2Ceil(x))
  }

  /** No power of two at least x is below NextPow2(x). */
  lemma NextPow2Least(x: nat, k: nat)
    requires x <= Pow2(k)
    ensures NextPow2(x) <= Pow2(k)
  {
    if x > 1 {
      var r := Log2Ceil(x);
      if k < r {
        Pow2Monotone(k, r - 1);
      }
      Pow2Monotone(r, k);
    }
  }

  lemma ChunkAtMost32(x: nat)
    requires x <= MaxElementSize
    ensures NextPow2(x) <= MaxElementSize
  {
    assert Pow2(5) == 32 by { assert Pow2(1) == 2; assert Pow2(2) == 4; assert Pow2(3) == 8; assert Pow2(4) == 16; }
    NextPow2Least(x, 5);
  }

  function Zeros(n: nat): (r: seq<bv8>)
    ensures |r| == n && forall i :: 0 <= i < n ==> r[i] == 0
  {
    if n == 0 then [] else Zeros(n - 1) + [0]
  }

  /** One attribute's share of the buffer: its bytes, zero-padded to the
    * next power of two. */
  function Chunk(c: CurrentAttrib): (r: seq<bv8>)
    ensures |r| == NextPow2(|c.bytes|)
    ensures r[..|c.bytes|] == c.bytes
    ensures forall i :: |c.bytes| <= i < |r| ==> r[i] == 0
  {
    c.bytes + Zeros(NextPow2(|c.bytes|) - |c.bytes|)
  }

  /** The bytes st_setup_current uploads: the chunks, in mask order. */
  function Packed(current: seq<CurrentAttrib>, attrs: seq<nat>): seq<bv8>
    requires forall i :: 0 <= i < |attrs| ==> attrs[i] < |current|
  {
    if attrs == [] then [] else Packed(current, attrs[..|attrs| - 1]) + Chunk(current[attrs[|attrs| - 1]])
  }

  /** The upload alignment: the largest chunk size, at least 1. */
  function MaxAlignment(current: seq<CurrentAttrib>, attrs: seq<nat>): (r: nat)
    requires forall i :: 0 <= i < |attrs| ==> attrs[i] < |current|
    ensures r >= 1
  {
    if attrs == [] then 1
    else
      Max(NextPow2(|current[attrs[|attrs| - 1]].bytes|), MaxAlignment(current, attrs[..|attrs| - 1]))
  }

  /** The element writes of the current attributes: each at the offset
    * where its chunk starts, all fetched from buffer vbo with divisor 0. */
  function CurrentWrites(vp: VertexProgram, current: seq<CurrentAttrib>, attrs: seq<nat>, vbo: nat): (r: seq<ElemWrite>)
    requires ProgramOk(vp) && |current| == VertAttribMax && ReadsAll(vp, attrs)
    ensures SlotsBelow(r, MaxAttribs)
  {
    if attrs == [] then []
    else
      var n := |attrs| - 1;
      CurrentWrites(vp, current, attrs[..n], vbo)
        + InitWrites(vp, current[attrs[n]].format, |Packed(current, attrs[..n])|, 0, vbo, vp.inputToIndex[attrs[n]])
  }

  /** The element writes of st_setup_current_user: a buffer per attribute. */
  function UserWrites(vp: VertexProgram, current: seq<CurrentAttrib>, attrs: seq<nat>, start: nat): (r: seq<ElemWrite>)
    requires ProgramOk(vp) && |current| == VertAttribMax && ReadsAll(vp, attrs)
    ensures SlotsBelow(r, MaxAttribs)
  {
    if attrs == [] then []
    else
      var n := |attrs| - 1;
      UserWrites(vp, current, attrs[..n], start) + InitWrites(vp, current[attrs[n]].format, 0, 0, start + n, vp.inputToIndex[attrs[n]])
  }

  /** The user buffers of st_setup_current_user; ptrs[a] is the address
    * of attribute a's current value. */
  function UserBuffers(ptrs: seq<nat>, attrs: seq<nat>): (r: seq<VertexBuffer>)
    requires forall i :: 0 <= i < |attrs| ==> attrs[i] < |ptrs|
    ensures |r| == |attrs|
    ensures forall i :: 0 <= i < |r| ==> r[i] == VertexBuffer(UserPointer(ptrs[attrs[i]]), 0, 0)
  {
    if attrs == [] then [] else UserBuffers(ptrs, attrs[..|attrs| - 1]) + [VertexBuffer(UserPointer(ptrs[attrs[|attrs| - 1]]), 0, 0)]
  }

  lemma CurrentStep(vp: VertexProgram, current: seq<CurrentAttrib>, attrs: seq<nat>, k: nat, vbo: nat)
    requires ProgramOk(vp) && |current| == VertAttribMax && ReadsAll(vp, attrs) && k < |attrs|
    ensures ReadsAll(vp, attrs[..k]) && ReadsAll(vp, attrs[..k + 1]) && Reads(vp, attrs[k])
    ensures CurrentWrites(vp, current, attrs[..k + 1], vbo)
            == CurrentWrites(vp, current, attrs[..k], vbo)
               + InitWrites(vp, current[attrs[k]].format, |Packed(current, attrs[..k])|, 0, vbo, vp.inputToIndex[attrs[k]])
    ensures Packed(current, attrs[..k + 1]) == Packed(current, attrs[..k]) + Chunk(current[attrs[k]])
    ensures MaxAlignment(current, attrs[..k + 1])
            == Max(NextPow2(|current[attrs[k]].bytes|), MaxAlignment(current, attrs[..k]))
  {
    assert attrs[..k + 1][..k] == attrs[..k];
  }

  function Max(a: nat, b: nat): nat
  {
    if a > b then a else b
  }

  lemma UserStep(vp: VertexProgram, current: seq<CurrentAttrib>, ptrs: seq<nat>, attrs: seq<nat>, k: nat, start: nat)
    requires ProgramOk(vp) && |current| == VertAttribMax && |ptrs| == VertAttribMax && ReadsAll(vp, attrs) && k < |attrs|
    ensures ReadsAll(vp, attrs[..k]) && ReadsAll(vp, attrs[..k + 1]) && Reads(vp, attrs[k])
    ensures UserWrites(vp, current, attrs[..k + 1], start)
            == UserWrites(vp, current, attrs[..k], start) + InitWrites(vp, current[attrs[k]].format, 0, 0, start + k, vp.inputToIndex[attrs[k]])
    ensures UserBuffers(ptrs, attrs[..k + 1]) == UserBuffers(ptrs, attrs[..k]) + [VertexBuffer(UserPointer(ptrs[attrs[k]]), 0, 0)]
  {
    assert attrs[..k + 1][..k] == attrs[..k];
  }

  lemma PackedStep(current: seq<CurrentAttrib>, attrs: seq<nat>, k: nat)
    requires k < |attrs| && forall i :: 0 <= i < |attrs| ==> attrs[i] < |current|
    ensures Packed(current, attrs[..k + 1]) == Packed(current, attrs[..k]) + Chunk(current[attrs[k]])
  {
    assert attrs[..k + 1][..k] == attrs[..k];
  }

  lemma {:induction false} PackedPrefix(current: seq<CurrentAttrib>, attrs: seq<nat>, k: nat)
    requires k <= |attrs| && forall i :: 0 <= i < |attrs| ==> attrs[i] < |current|
    ensures |Packed(current, attrs[..k])| <= |Packed(current, attrs)|
    ensures Packed(current, attrs)[..|Packed(current, attrs[..k])|] == Packed(current, attrs[..k])
    decreases |attrs| - k
  {
    if k == |attrs| {
      assert attrs[..k] == attrs;
    } else {
      PackedPrefix(current, attrs, k + 1);
      PackedStep(current, attrs, k);
      PrefixOfPrefix(Packed(current, attrs), Packed(current, attrs[..k]), Chunk(current[attrs[k]]));
    }
  }

  lemma PrefixOfPrefix<T>(whole: seq<T>, a: seq<T>, b: seq<T>)
    requires |a| + |b| <= |whole| && whole[..|a| + |b|] == a + b
    ensures whole[..|a|] == a
  {
    assert whole[..|a|] == whole[..|a| + |b|][..|a|];
  }

  /** The packing round trip: the k-th attribute's value sits at the
    * offset its element records, followed by zero padding up to the next
    * chunk, which starts the next power of two further on. */
  lemma PackedRoundTrip(current: seq<CurrentAttrib>, attrs: seq<nat>, k: nat)
    requires k < |attrs| && forall i :: 0 <= i < |attrs| ==> attrs[i] < |current|
    ensures var off := |Packed(current, attrs[..k])|;
            var c := current[attrs[k]];
            && |Packed(current, attrs[..k + 1])| == off + NextPow2(|c.bytes|) <= |Packed(current, attrs)|
            && Packed(current, attrs)[off..off + |c.bytes|] == c.bytes
            && forall i :: off + |c.bytes| <= i < off + NextPow2(|c.bytes|) ==> Packed(current, attrs)[i] == 0
  {
    PackedChunkAt(current, attrs, k);
    ChunkPlaced(Packed(current, attrs), |Packed(current, attrs[..k])|, |Packed(current, attrs[..k + 1])|,
                current[attrs[k]]);
  }

  lemma ChunkPlaced(whole: seq<bv8>, off: nat, next: nat, c: CurrentAttrib)
    requires next == off + NextPow2(|c.bytes|) <= |whole|
    requires whole[off..off + NextPow2(|c.bytes|)] == Chunk(c)
    ensures next == off + NextPow2(|c.bytes|) <= |whole|
    ensures whole[off..off + |c.bytes|] == c.bytes
    ensures forall i :: off + |c.bytes| <= i < off + NextPow2(|c.bytes|) ==> whole[i] == 0
  {
    ChunkWithin(whole, off, c);
  }

  /** The k-th chunk sits right after the chunks of the attributes before it. */
  lemma PackedChunkAt(current: seq<CurrentAttrib>, attrs: seq<nat>, k: nat)
    requires k < |attrs| && forall i :: 0 <= i < |attrs| ==> attrs[i] < |current|
    ensures var off := |Packed(current, attrs[..k])|;
            var c := current[attrs[k]];
            && |Packed(current, attrs[..k + 1])| == off + NextPow2(|c.bytes|) <= |Packed(current, attrs)|
            && Packed(current, attrs)[off..off + NextPow2(|c.bytes|)] == Chunk(c)
  {
    var whole := Packed(current, attrs);
    var pre := Packed(current, attrs[..k]);
    var chunk := Chunk(current[attrs[k]]);
    PackedStep(current, attrs, k);
    PackedPrefix(current, attrs, k + 1);
    PrefixSlice(whole, pre, chunk);
  }

  lemma PrefixSlice<T>(whole: seq<T>, a: seq<T>, b: seq<T>)
    requires |a| + |b| <= |whole| && whole[..|a| + |b|] == a + b
    ensures whole[|a|..|a| + |b|] == b
  {
    forall i | 0 <= i < |b| ensures whole[|a| + i] == b[i] {
      assert whole[|a| + i] == whole[..|a| + |b|][|a| + i];
    }
  }

  lemma ChunkWithin(whole: seq<bv8>, off: nat, c: CurrentAttrib)
    requires off + NextPow2(|c.bytes|) <= |whole| && whole[off..off + NextPow2(|c.bytes|)] == Chunk(c)
    ensures whole[off..off + |c.bytes|] == c.bytes
    ensures forall i :: off + |c.bytes| <= i < off + NextPow2(|c.bytes|) ==> whole[i] == 0
  {
    var n := NextPow2(|c.bytes|);
    assert whole[off..off + |c.bytes|] == whole[off..off + n][..|c.bytes|];
    forall i | off + |c.bytes| <= i < off + n ensures whole[i] == 0 {
      assert whole[i] == Chunk(c)[i - off];
    }
  }

  /** The buffer never holds more than one dvec4 per attribute. */
  lemma {:induction false} PackedBound(current: seq<CurrentAttrib>, attrs: seq<nat>)
    requires forall i :: 0 <= i < |attrs| ==> attrs[i] < |current| && |current[attrs[i]].bytes| <= MaxElementSize
    ensures |Packed(current, attrs)| <= MaxElementSize * |attrs|
    decreases |attrs|
  {
    if attrs != [] {
      var n := |attrs| - 1;
      PackedBound(current, attrs[..n]);
      ChunkAtMost32(|current[attrs[n]].bytes|);
    }
  }

  /** The upload alignment is one of the chunk sizes (or 1), and no chunk
    * is larger. */
  lemma {:induction false} MaxAlignmentIsMax(current: seq<CurrentAttrib>, attrs: seq<nat>)
    requires forall i :: 0 <= i < |attrs| ==> attrs[i] < |current|
    ensures forall i :: 0 <= i < |attrs| ==> NextPow2(|current[attrs[i]].bytes|) <= MaxAlignment(current, attrs)
    ensures MaxAlignment(current, attrs) == 1
            || exists i :: 0 <= i < |attrs| && MaxAlignment(current, attrs) == NextPow2(|current[attrs[i]].bytes|)
    decreases |attrs|
  {
    if attrs != [] {
      var n := |attrs| - 1;
      MaxAlignmentIsMax(current, attrs[..n]);
      assert forall i :: 0 <= i < n ==> attrs[..n][i] == attrs[i];
    }
  }

  /** The packing step of st_setup_current: the value copied at the
    * cursor and zero-padded to the next power of two. */
  method CopyChunk(data: array<bv8>, cursor: nat, c: CurrentAttrib)
    requires cursor + NextPow2(|c.bytes|) <= data.Length
    modifies data
    ensures data[..cursor + NextPow2(|c.bytes|)] == old(data[..cursor]) + Chunk(c)
  {
    var size := |c.bytes|;
    var alignment := NextPow2(size);
    forall i | cursor <= i < cursor + size {
      data[i] := c.bytes[i - cursor];
    }
    if alignment != size {
      forall i | cursor + size <= i < cursor + alignment {
        data[i] := 0;
      }
    }
    assert forall i :: 0 <= i < cursor + alignment ==> data[..cursor + alignment][i] == (old(data[..cursor]) + Chunk(c))[i];
  }

  // ---------------------------------------------------------------------
  // The vertex-array state of st_update_array
  // ---------------------------------------------------------------------

  /** The element and buffer arrays st_update_array fills, the number of
    * buffers used, and the context fields it keeps between draws. */
  class ArrayState {
    var velems: array<VertexElement>
    var vbuffers: array<VertexBuffer>
    var numVbuffers: nat
    var lastNumVbuffers: nat
    var hasUserVertexBuffers: bool
    var drawNeedsMinmaxIndex: bool

    predicate Valid()
      reads this
    {
      velems.Length == MaxAttribs && vbuffers.Length == MaxAttribs && numVbuffers <= MaxAttribs
    }

    constructor ()
      ensures Valid() && numVbuffers == 0 && lastNumVbuffers == 0
      ensures fresh(velems) && fresh(vbuffers)
    {
      velems := new VertexElement[MaxAttribs](_ => VertexElement(0, R32G32Uint, 0, 0));
      vbuffers := new VertexBuffer[MaxAttribs](_ => VertexBuffer(Unset, 0, 0));
      numVbuffers := 0;
      lastNumVbuffers := 0;
      hasUserVertexBuffers := false;
      drawNeedsMinmaxIndex := false;
    }

    /** init_velement and init_velement_64bit. */
    method InitVelement(vp: VertexProgram, f: VertexFormat, offset: nat, divisor: nat, vbo: nat, idx: nat)
      requires Valid() && ProgramOk(vp) && FormatOk(f) && idx < vp.numInputs
      modifies velems
      ensures velems[..] == Apply(old(velems[..]), InitWrites(vp, f, offset, divisor, vbo, idx))
    {
      ghost var s := velems[..];
      var first := if !f.doubles then Native(f.pipeFormat) else if f.size < 2 then R32G32Uint else R32G32B32A32Uint;
      velems[idx] := VertexElement(offset, first, divisor, vbo);
      var next := idx + 1;
      if f.doubles && next < vp.numInputs && vp.indexToInput[next] == DoubleAttribPlaceholder {
        if f.size >= 3 {
          var second := if f.size == 3 then R32G32Uint else R32G32B32A32Uint;
          velems[next] := VertexElement(offset + 16, second, divisor, vbo);
        } else {
          velems[next] := VertexElement(offset, R32G32Uint, divisor, vbo);
        }
      }
      ghost var ws := InitWrites(vp, f, offset, divisor, vbo, idx);
      if |ws| == 2 {
        ApplyPair(s, ws[0], ws[1]);
      } else {
        ApplyPair(s, ws[0], ws[0]);
      }
    }

    /** What st_setup_arrays relies on: the attributes are read by the
      * program and have valid formats. */
    predicate ArraysOk(vp: VertexProgram, vao: Vao, mask: seq<nat>)
      requires ProgramOk(vp)
    {
      && VaoOk(vao) && ReadsAll(vp, mask)
      && forall i :: 0 <= i < |mask| ==> FormatOk(vao.attribs[mask[i]].format)
    }

    /** st_setup_arrays: mask lists the attributes read that have arrays,
      * userAttribs those of them whose arrays are user pointers,
      * nonzeroDivisor those with an instance divisor. */
    method SetupArrays(vp: VertexProgram, vao: Vao, mask: seq<nat>, userAttribs: set<nat>, nonzeroDivisor: set<nat>)
      requires Valid() && ProgramOk(vp) && ArraysOk(vp, vao, mask)
      requires numVbuffers + |mask| <= MaxAttribs
      modifies this`hasUserVertexBuffers, this`drawNeedsMinmaxIndex, this`numVbuffers, velems, vbuffers
      ensures Valid()
      ensures hasUserVertexBuffers == (userAttribs != {})
      ensures drawNeedsMinmaxIndex == (userAttribs - nonzeroDivisor != {})
      ensures numVbuffers == old(numVbuffers) + |ArrayBuffers(vp, vao, mask)|
      ensures vbuffers[..] == Splice(old(vbuffers[..]), old(numVbuffers), ArrayBuffers(vp, vao, mask))
      ensures velems[..] == Apply(old(velems[..]), ArrayWrites(vp, vao, mask, old(numVbuffers)))
    {
      hasUserVertexBuffers := userAttribs != {};
      drawNeedsMinmaxIndex := userAttribs - nonzeroDivisor != {};
      SetupArrayBuffers(vp, vao, mask);
    }

    /** The two paths of st_setup_arrays. */
    method SetupArrayBuffers(vp: VertexProgram, vao: Vao, mask: seq<nat>)
      requires Valid() && ProgramOk(vp) && ArraysOk(vp, vao, mask)
      requires numVbuffers + |mask| <= MaxAttribs
      modifies this`numVbuffers, velems, vbuffers
      ensures Valid() && numVbuffers == old(numVbuffers) + |ArrayBuffers(vp, vao, mask)|
      ensures vbuffers[..] == Splice(old(vbuffers[..]), old(numVbuffers), ArrayBuffers(vp, vao, mask))
      ensures velems[..] == Apply(old(velems[..]), ArrayWrites(vp, vao, mask, old(numVbuffers)))
    {
      if vao.isDynamic {
        SetupDynamicArrays(vp, vao, mask);
      } else {
        SetupBindings(vp, vao, mask);
      }
    }

    /** One attribute of the dynamic path of st_setup_arrays. */
    method AddAttribArray(vp: VertexProgram, vao: Vao, attr: nat)
      requires Valid() && ProgramOk(vp) && VaoOk(vao) && Reads(vp, attr)
      requires FormatOk(vao.attribs[attr].format) && numVbuffers < MaxAttribs
      modifies this`numVbuffers, velems, vbuffers
      ensures Valid() && numVbuffers == old(numVbuffers) + 1
      ensures vbuffers[..] == old(vbuffers[..])[old(numVbuffers) := AttribBuffer(vao, attr)]
      ensures velems[..] == Apply(old(velems[..]), ArrayWrite(vp, vao, attr, 0, old(numVbuffers)))
    {
      var attrib := vao.attribs[attr];
      var binding := vao.bindings[attrib.bindingIndex];
      var bufidx := numVbuffers;
      numVbuffers := numVbuffers + 1;
      match binding.bufferObj {
        case Some(obj) =>
          vbuffers[bufidx] := VertexBuffer(Resource(obj), binding.offset + attrib.relativeOffset, binding.stride);
        case None =>
          vbuffers[bufidx] := VertexBuffer(UserPointer(attrib.ptr), 0, binding.stride);
      }
      InitVelement(vp, attrib.format, 0, binding.instanceDivisor, bufidx, vp.inputToIndex[attr]);
    }

    /** The dynamic path of st_setup_arrays: a buffer per attribute. */
    method SetupDynamicArrays(vp: VertexProgram, vao: Vao, mask: seq<nat>)
      requires Valid() && ProgramOk(vp) && ArraysOk(vp, vao, mask)
      requires numVbuffers + |mask| <= MaxAttribs
      modifies this`numVbuffers, velems, vbuffers
      ensures Valid() && numVbuffers == old(numVbuffers) + |mask|
      ensures vbuffers[..] == Splice(old(vbuffers[..]), old(numVbuffers), DynamicBuffers(vao, mask))
      ensures velems[..] == Apply(old(velems[..]), DynamicWrites(vp, vao, mask, old(numVbuffers)))
    {
      SpliceEmpty(vbuffers[..], numVbuffers);
      var k := 0;
      while k < |mask|
        invariant 0 <= k <= |mask| && Valid()
        invariant numVbuffers == old(numVbuffers) + k
        invariant vbuffers[..] == Splice(old(vbuffers[..]), old(numVbuffers), DynamicBuffers(vao, mask[..k]))
        invariant velems[..] == Apply(old(velems[..]), DynamicWrites(vp, vao, mask[..k], old(numVbuffers)))
      {
        DynamicStep(vp, vao, mask, k, old(numVbuffers));
        ghost var buffers := DynamicBuffers(vao, mask[..k]);
        ghost var writes := DynamicWrites(vp, vao, mask[..k], old(numVbuffers));
        AddAttribArray(vp, vao, mask[k]);
        SpliceSnoc(old(vbuffers[..]), old(numVbuffers), buffers, AttribBuffer(vao, mask[k]));
        ApplyAppend(old(velems[..]), writes, ArrayWrite(vp, vao, mask[k], 0, old(numVbuffers) + k));
        k := k + 1;
      }
      assert mask[..k] == mask;
    }

    /** The non-dynamic path of st_setup_arrays: a buffer per binding. */
    method SetupBindings(vp: VertexProgram, vao: Vao, mask: seq<nat>)
      requires Valid() && ProgramOk(vp) && ArraysOk(vp, vao, mask)
      requires numVbuffers + |mask| <= MaxAttribs
      modifies this`numVbuffers, velems, vbuffers
      ensures Valid() && numVbuffers == old(numVbuffers) + |BindingBuffers(vao, mask)|
      ensures vbuffers[..] == Splice(old(vbuffers[..]), old(numVbuffers), BindingBuffers(vao, mask))
      ensures velems[..] == Apply(old(velems[..]), BindingWrites(vp, vao, mask, old(numVbuffers)))
    {
      SpliceEmpty(vbuffers[..], numVbuffers);
      ghost var buffers: seq<VertexBuffer> := [];
      ghost var writes: seq<ElemWrite> := [];
      var rest := mask;
      while rest != []
        invariant BindingsProgress(vp, vao, mask, rest, buffers, writes, old(vbuffers[..]), old(velems[..]), old(numVbuffers))
        decreases |rest|
      {
        rest, buffers, writes := SetupNextBinding(vp, vao, mask, rest, buffers, writes,
                                                  old(vbuffers[..]), old(velems[..]), old(numVbuffers));
      }
      ConcatEmpty(buffers);
      ConcatEmpty(writes);
    }

    /** The state of the non-dynamic path's loop: the bindings done so far
      * gave the first buffers and element writes of the whole path, and
      * the remaining attributes give the rest. */
    ghost predicate BindingsProgress(vp: VertexProgram, vao: Vao, mask: seq<nat>, rest: seq<nat>,
                                     buffers: seq<VertexBuffer>, writes: seq<ElemWrite>,
                                     v0: seq<VertexBuffer>, e0: seq<VertexElement>, base: nat)
      reads this, velems, vbuffers
      requires ProgramOk(vp)
    {
      && Valid() && ArraysOk(vp, vao, mask) && ArraysOk(vp, vao, rest)
      && |v0| == MaxAttribs && |e0| == MaxAttribs
      && numVbuffers == base + |buffers| && numVbuffers + |rest| <= MaxAttribs
      && SlotsBelow(writes, MaxAttribs)
      && BindingBuffers(vao, mask) == buffers + BindingBuffers(vao, rest)
      && BindingWrites(vp, vao, mask, base) == writes + BindingWrites(vp, vao, rest, numVbuffers)
      && vbuffers[..] == Splice(v0, base, buffers)
      && velems[..] == Apply(e0, writes)
    }

    /** One iteration of the non-dynamic path's loop. */
    method SetupNextBinding(vp: VertexProgram, vao: Vao, mask: seq<nat>, rest: seq<nat>,
                            ghost buffers: seq<VertexBuffer>, ghost writes: seq<ElemWrite>,
                            ghost v0: seq<VertexBuffer>, ghost e0: seq<VertexElement>, ghost base: nat)
      returns (next: seq<nat>, ghost buffers': seq<VertexBuffer>, ghost writes': seq<ElemWrite>)
      requires ProgramOk(vp) && rest != []
      requires BindingsProgress(vp, vao, mask, rest, buffers, writes, v0, e0, base)
      modifies this`numVbuffers, velems, vbuffers
      ensures |next| < |rest|
      ensures BindingsProgress(vp, vao, mask, next, buffers', writes', v0, e0, base)
    {
      ghost var elems := velems[..];
      ghost var start := numVbuffers;
      var group;
      group, next := SetupBinding(vp, vao, rest);
      ghost var buffer := BindingBuffer(BindingOf(vao, rest[0]));
      ghost var groupWrites := GroupWrites(vp, vao, group, start);
      SpliceSnoc(v0, base, buffers, buffer);
      assert velems[..] == Apply(elems, groupWrites);
      ApplyAppend(e0, writes, groupWrites);
      BindingStep(vp, vao, mask, rest, group, next, base, start, numVbuffers, buffers, writes);
      buffers' := buffers + [buffer];
      writes' := writes + groupWrites;
    }

    /** One binding of the non-dynamic path: its buffer, then the elements
      * of the remaining attributes bound to it, which leave the mask. */
    method SetupBinding(vp: VertexProgram, vao: Vao, rest: seq<nat>) returns (group: seq<nat>, next: seq<nat>)
      requires Valid() && ProgramOk(vp) && ArraysOk(vp, vao, rest) && rest != []
      requires numVbuffers < MaxAttribs
      modifies this`numVbuffers, velems, vbuffers
      ensures Valid() && ArraysOk(vp, vao, next) && |next| < |rest| && ReadsAll(vp, group)
      ensures group == Keep(rest, LeadBound(vao, rest)) && next == Drop(rest, LeadBound(vao, rest))
      ensures numVbuffers == old(numVbuffers) + 1
      ensures vbuffers[..] == old(vbuffers[..])[old(numVbuffers) := BindingBuffer(BindingOf(vao, rest[0]))]
      ensures velems[..] == Apply(old(velems[..]), GroupWrites(vp, vao, group, old(numVbuffers)))
    {
      var i := rest[0];
      var binding := BindingOf(vao, i);
      var bufidx := numVbuffers;
      numVbuffers := numVbuffers + 1;
      match binding.bufferObj {
        case Some(obj) =>
          vbuffers[bufidx] := VertexBuffer(Resource(obj), binding.drawOffset, binding.stride);
        case None =>
          vbuffers[bufidx] := VertexBuffer(UserPointer(binding.drawOffset), 0, binding.stride);
      }
      group := Keep(rest, binding.boundAttribs);
      next := Drop(rest, binding.boundAttribs);
      SetupGroupElements(vp, vao, group, bufidx);
    }

    /** The walk over one binding's attributes. */
    method SetupGroupElements(vp: VertexProgram, vao: Vao, group: seq<nat>, bufidx: nat)
      requires Valid() && ProgramOk(vp) && ArraysOk(vp, vao, group)
      modifies velems
      ensures velems[..] == Apply(old(velems[..]), GroupWrites(vp, vao, group, bufidx))
    {
      var k := 0;
      while k < |group|
        invariant 0 <= k <= |group|
        invariant velems[..] == Apply(old(velems[..]), GroupWrites(vp, vao, group[..k], bufidx))
      {
        GroupStep(vp, vao, group, k, bufidx);
        ghost var writes := GroupWrites(vp, vao, group[..k], bufidx);
        var attr := group[k];
        var attrib := vao.attribs[attr];
        InitVelement(vp, attrib.format, attrib.drawRelativeOffset, BindingOf(vao, attr).instanceDivisor, bufidx, vp.inputToIndex[attr]);
        ApplyAppend(old(velems[..]), writes, ArrayWrite(vp, vao, attr, attrib.drawRelativeOffset, bufidx));
        k := k + 1;
      }
      assert group[..k] == group;
    }

    /** st_setup_current: the current attributes packed into one uploaded
      * buffer at the next buffer index, returned; -1 with nothing added
      * when there are none. */
    method SetupCurrent(vp: VertexProgram, current: seq<CurrentAttrib>, attrs: seq<nat>) returns (bufidx: int)
      requires Valid() && ProgramOk(vp) && CurrentsOk(vp, current, attrs)
      requires attrs != [] ==> numVbuffers < MaxAttribs
      modifies this`numVbuffers, velems, vbuffers
      ensures Valid()
      ensures attrs == [] ==> bufidx == -1 && numVbuffers == old(numVbuffers)
                              && velems[..] == old(velems[..]) && vbuffers[..] == old(vbuffers[..])
      ensures attrs != [] ==>
                && bufidx == old(numVbuffers) && numVbuffers == old(numVbuffers) + 1
                && vbuffers[..] == old(vbuffers[..])[bufidx := CurrentBuffer(current, attrs)]
                && velems[..] == Apply(old(velems[..]), CurrentWrites(vp, current, attrs, bufidx))
    {
      if attrs == [] {
        return -1;
      }
      bufidx := numVbuffers;
      numVbuffers := numVbuffers + 1;
      var bytes, maxAlignment := PackCurrent(vp, current, attrs, bufidx);
      vbuffers[bufidx] := VertexBuffer(Uploaded(bytes, maxAlignment), 0, 0);
    }

    /** The packing loop of st_setup_current; the data array holds one
      * dvec4 per GL attribute. */
    method PackCurrent(vp: VertexProgram, current: seq<CurrentAttrib>, attrs: seq<nat>, bufidx: nat)
      returns (bytes: seq<bv8>, maxAlignment: nat)
      requires Valid() && ProgramOk(vp) && CurrentsOk(vp, current, attrs)
      modifies velems
      ensures bytes == Packed(current, attrs) && maxAlignment == MaxAlignment(current, attrs)
      ensures velems[..] == Apply(old(velems[..]), CurrentWrites(vp, current, attrs, bufidx))
    {
      var data := new bv8[VertAttribMax * MaxElementSize];
      var cursor := 0;
      maxAlignment := 1;
      var k := 0;
      while k < |attrs|
        invariant 0 <= k <= |attrs|
        invariant cursor == |Packed(current, attrs[..k])| <= MaxElementSize * k
        invariant data[..cursor] == Packed(current, attrs[..k])
        invariant maxAlignment == MaxAlignment(current, attrs[..k])
        invariant velems[..] == Apply(old(velems[..]), CurrentWrites(vp, current, attrs[..k], bufidx))
      {
        CurrentStep(vp, current, attrs, k, bufidx);
        ghost var writes := CurrentWrites(vp, current, attrs[..k], bufidx);
        var c := current[attrs[k]];
        ChunkAtMost32(c.format.elementSize);
        maxAlignment := Max(NextPow2(c.format.elementSize), maxAlignment);
        ApplyAppend(old(velems[..]), writes, InitWrites(vp, c.format, cursor, 0, bufidx, vp.inputToIndex[attrs[k]]));
        cursor := PackNext(vp, c, vp.inputToIndex[attrs[k]], bufidx, data, cursor);
        k := k + 1;
      }
      assert attrs[..k] == attrs;
      bytes := data[..cursor];
    }

    /** One attribute of the packing loop: its value at the cursor of the
      * data array, padded to a power of two, and its element pointing there. */
    method PackNext(vp: VertexProgram, c: CurrentAttrib, idx: nat, bufidx: nat, data: array<bv8>, cursor: nat)
      returns (next: nat)
      requires Valid() && ProgramOk(vp) && CurrentOk(c) && idx < vp.numInputs
      requires cursor + NextPow2(|c.bytes|) <= data.Length && data as object != velems
      modifies data, velems
      ensures next == cursor + NextPow2(|c.bytes|)
      ensures data[..next] == old(data[..cursor]) + Chunk(c)
      ensures velems[..] == Apply(old(velems[..]), InitWrites(vp, c.format, cursor, 0, bufidx, idx))
    {
      CopyChunk(data, cursor, c);
      next := cursor + NextPow2(|c.bytes|);
      ghost var packed := data[..next];
      InitVelement(vp, c.format, cursor, 0, bufidx, idx);
      assert data[..next] == packed;
    }

    /** st_setup_current_user: a user buffer per current attribute, at
      * offset 0 with stride 0. */
    method SetupCurrentUser(vp: VertexProgram, current: seq<CurrentAttrib>, ptrs: seq<nat>, attrs: seq<nat>)
      requires Valid() && ProgramOk(vp) && CurrentsOk(vp, current, attrs) && |ptrs| == VertAttribMax
      requires numVbuffers + |attrs| <= MaxAttribs
      modifies this`numVbuffers, velems, vbuffers
      ensures Valid() && numVbuffers == old(numVbuffers) + |attrs|
      ensures vbuffers[..] == Splice(old(vbuffers[..]), old(numVbuffers), UserBuffers(ptrs, attrs))
      ensures velems[..] == Apply(old(velems[..]), UserWrites(vp, current, attrs, old(numVbuffers)))
    {
      SpliceEmpty(vbuffers[..], numVbuffers);
      var k := 0;
      while k < |attrs|
        invariant 0 <= k <= |attrs| && Valid()
        invariant numVbuffers == old(numVbuffers) + k
        invariant vbuffers[..] == Splice(old(vbuffers[..]), old(numVbuffers), UserBuffers(ptrs, attrs[..k]))
        invariant velems[..] == Apply(old(velems[..]), UserWrites(vp, current, attrs[..k], old(numVbuffers)))
      {
        UserStep(vp, current, ptrs, attrs, k, old(numVbuffers));
        ghost var buffers := UserBuffers(ptrs, attrs[..k]);
        ghost var writes := UserWrites(vp, current, attrs[..k], old(numVbuffers));
        var attr := attrs[k];
        SpliceSnoc(old(vbuffers[..]), old(numVbuffers), buffers, VertexBuffer(UserPointer(ptrs[attr]), 0, 0));
        ApplyAppend(old(velems[..]), writes, InitWrites(vp, current[attr].format, 0, 0, numVbuffers, vp.inputToIndex[attr]));
        SetupUserBuffer(vp, current[attr].format, ptrs[attr], vp.inputToIndex[attr]);
        k := k + 1;
      }
      assert attrs[..k] == attrs;
    }

    /** One attribute of st_setup_current_user: the next vertex buffer
      * points at the user's value, and the attribute's element reads it. */
    method SetupUserBuffer(vp: VertexProgram, f: VertexFormat, ptr: nat, idx: nat)
      requires Valid() && ProgramOk(vp) && FormatOk(f) && idx < vp.numInputs && numVbuffers < MaxAttribs
      modifies this`numVbuffers, velems, vbuffers
      ensures Valid() && numVbuffers == old(numVbuffers) + 1
      ensures vbuffers[..] == old(vbuffers[..])[old(numVbuffers) := VertexBuffer(UserPointer(ptr), 0, 0)]
      ensures velems[..] == Apply(old(velems[..]), InitWrites(vp, f, 0, 0, old(numVbuffers), idx))
    {
      var bufidx := numVbuffers;
      numVbuffers := numVbuffers + 1;
      InitVelement(vp, f, 0, 0, bufidx, idx);
      vbuffers[bufidx] := VertexBuffer(UserPointer(ptr), 0, 0);
    }

    /** st_update_array: the arrays' buffers and elements, then the current
      * attributes' buffer; the element count covers the program's inputs
      * and the edge-flag passthrough; the previous draw's trailing buffers
      * are unbound and the buffer count is kept for the next draw. mask and
      * attrs are disjoint parts of the program's inputs. */
    method UpdateArray(vp: VertexProgram, vao: Vao, mask: seq<nat>, userAttribs: set<nat>, nonzeroDivisor: set<nat>,
                       current: seq<CurrentAttrib>, attrs: seq<nat>, passthroughEdgeflags: bool)
      returns (velemCount: nat, unbindTrailing: nat, currentBuffer: int)
      requires Valid() && ProgramOk(vp) && ArraysOk(vp, vao, mask) && CurrentsOk(vp, current, attrs)
      requires |mask| + |attrs| <= MaxAttribs
      modifies this`numVbuffers, this`lastNumVbuffers, this`hasUserVertexBuffers, this`drawNeedsMinmaxIndex
      modifies velems, vbuffers
      ensures Valid()
      ensures velemCount == vp.numInputs + (if passthroughEdgeflags then 1 else 0)
      ensures currentBuffer == (if attrs == [] then -1 else |ArrayBuffers(vp, vao, mask)|)
      ensures numVbuffers == lastNumVbuffers == |ArrayBuffers(vp, vao, mask)| + (if attrs == [] then 0 else 1)
      ensures vbuffers[..numVbuffers]
              == ArrayBuffers(vp, vao, mask) + (if attrs == [] then [] else [CurrentBuffer(current, attrs)])
      ensures velems[..] == Apply(Apply(old(velems[..]), ArrayWrites(vp, vao, mask, 0)),
                                  CurrentWrites(vp, current, attrs, |ArrayBuffers(vp, vao, mask)|))
      ensures unbindTrailing == if old(lastNumVbuffers) > numVbuffers then old(lastNumVbuffers) - numVbuffers else 0
      ensures hasUserVertexBuffers == (userAttribs != {})
      ensures drawNeedsMinmaxIndex == (userAttribs - nonzeroDivisor != {})
    {
      numVbuffers := 0;
      ghost var initial := vbuffers[..];
      SetupArrays(vp, vao, mask, userAttribs, nonzeroDivisor);
      ghost var arrays := ArrayBuffers(vp, vao, mask);
      currentBuffer := SetupCurrent(vp, current, attrs);
      if attrs == [] {
        SpliceFromStart(initial, arrays);
      } else {
        SpliceFromStartThen(initial, arrays, CurrentBuffer(current, attrs));
      }
      velemCount := vp.numInputs + (if passthroughEdgeflags then 1 else 0);
      unbindTrailing := if lastNumVbuffers > numVbuffers then lastNumVbuffers - numVbuffers else 0;
      lastNumVbuffers := numVbuffers;
    }
  }

  /** The uploaded buffer of the current attributes, at stride 0. */
  function CurrentBuffer(current: seq<CurrentAttrib>, attrs: seq<nat>): VertexBuffer
    requires forall i :: 0 <= i < |attrs| ==> attrs[i] < |current|
  {
    VertexBuffer(Uploaded(Packed(current, attrs), MaxAlignment(current, attrs)), 0, 0)
  }
}
