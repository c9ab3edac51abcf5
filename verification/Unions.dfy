/** UNION: when two named selects may be combined, and why the left one's decoders then read both. */
module Unions {
  import opened TextCodec
  import opened Decoding

  // ----- what a definition retains about its outputs -----

  datatype Policy = ColumnPolicy(policy: nat) | NativePolicy(native: Native) | CountPolicy | Total(func: Func, inner: Policy)

  /** The proof of how values decode; absent for a column whose annotation cannot be resolved. */
  function PolicyOf(f: Selectable): Option<Policy>
    decreases f, 0
  {
    match f
    case ColumnOf(attr) => if attr.resolvable then Some(ColumnPolicy(attr.policy)) else None
    case ValueOf(_, native, _, _) => Some(NativePolicy(native))
    case LiteralInt(_) => Some(NativePolicy(NativeInt))
    case ScalarOf(inner, _) => PolicyOf(inner)
    case DerivedFrom(_, slot) => PolicyOf(slot.source)
    case AggregateOf(func, argument) =>
      if func.Count? then Some(CountPolicy)
      else if argument.None? then None
      else
        var inner := PolicyOf(argument.value);
        if func.Min? || func.Max? || inner.None? then inner else Some(Total(func, inner.value))
  }

  datatype Wire = ColumnWire(wire: nat) | NativeWire(native: Native) | CountWire | TotalWire(func: Func, input: Wire) | UnknownWire

  /** The wire encoding, and the one comparisons use, where extrema keep their argument's. */
  function WireOf(f: Selectable, compatible: bool): Wire
    decreases f, 0
  {
    match f
    case ColumnOf(attr) => ColumnWire(attr.wire)
    case ValueOf(_, native, _, _) => NativeWire(native)
    case LiteralInt(_) => NativeWire(NativeInt)
    case ScalarOf(inner, _) => WireOf(inner, compatible)
    case DerivedFrom(_, slot) => WireOf(slot.source, compatible)
    case AggregateOf(func, argument) =>
      if func.Count? then CountWire
      else if argument.None? then UnknownWire
      else if (func.Min? || func.Max?) && compatible then WireOf(argument.value, true)
      else TotalWire(func, WireOf(argument.value, false))
  }

  datatype Logical = AnyType | Declared(annotation: nat) | Builtin(native: Native)

  function LogicalOf(f: Selectable): Logical
    decreases f, 0
  {
    match f
    case ColumnOf(attr) => if attr.logical.None? then AnyType else Declared(attr.logical.value)
    case ValueOf(_, native, _, _) => Builtin(native)
    case LiteralInt(_) => Builtin(NativeInt)
    case ScalarOf(inner, _) => LogicalOf(inner)
    case DerivedFrom(_, slot) => LogicalOf(slot.source)
    case AggregateOf(func, argument) =>
      if func.Count? then Builtin(NativeInt)
      else if func.Avg? then Builtin(NativeFloat)
      else if argument.None? then AnyType
      else LogicalOf(argument.value)
  }

  /** The declared nullability of an output in a select whose LEFT-joined sources are given. */
  predicate NullableOutput(f: Selectable, nullableModels: set<string>)
    decreases f, 0
  {
    || NullExpected(f, nullableModels)
    || match f
       case ColumnOf(attr) => attr.nullable
       case ValueOf(_, _, nullable, _) => nullable
       case LiteralInt(_) => false
       case ScalarOf(_, _) => true
       case AggregateOf(func, _) => !func.Count?
       case DerivedFrom(_, slot) => NullableSlot(slot)
  }

  predicate NullableSlot(slot: Slot)
    decreases slot, 0
  {
    NullableOutput(slot.source, slot.nullableModels)
  }

  // ----- compatibility -----

  predicate Compatible(first: Slot, second: Slot) {
    && (NullableSlot(second) ==> NullableSlot(first))
    && !LogicalOf(first.source).AnyType? && LogicalOf(first.source) == LogicalOf(second.source)
    && WireOf(first.source, true) == WireOf(second.source, true)
    && PolicyOf(first.source).Some? && PolicyOf(first.source) == PolicyOf(second.source)
  }

  /** Every UNION below was accepted, and everything belongs to one backend. */
  predicate Accepted(f: Selectable, backend: Backend)
    decreases f, 0
  {
    match f
    case LiteralInt(own) => own == backend
    case ScalarOf(inner, _) => Accepted(inner, backend)
    case AggregateOf(_, Some(argument)) => Accepted(argument, backend)
    case DerivedFrom(_, slot) => AcceptedSlot(slot, backend)
    case _ => true
  }

  predicate AcceptedSlot(slot: Slot, backend: Backend)
    decreases slot, 0
  {
    && slot.backend == backend && Accepted(slot.source, backend)
    && (slot.other.Some? ==> AcceptedSlot(slot.other.value, backend) && Compatible(slot, slot.other.value))
  }

  // ----- what an output can produce -----

  /** Whether SQL can put NULL there: a UNION's output may come from either operand. */
  predicate MayBeNull(f: Selectable, nullableModels: set<string>)
    decreases f, 0
  {
    || NullExpected(f, nullableModels)
    || match f
       case ColumnOf(attr) => attr.nullable
       case ValueOf(_, _, nullable, _) => nullable
       case LiteralInt(_) => false
       case ScalarOf(_, _) => true
       case AggregateOf(func, _) => !func.Count?
       case DerivedFrom(_, slot) => SlotMayBeNull(slot)
  }

  predicate SlotMayBeNull(slot: Slot)
    decreases slot, 0
  {
    MayBeNull(slot.source, slot.nullableModels) || (slot.other.Some? && SlotMayBeNull(slot.other.value))
  }

  /** The declared nullability covers both operands of every accepted UNION below. */
  lemma {:induction false} NullabilityCovers(f: Selectable, nullableModels: set<string>, backend: Backend)
    requires Accepted(f, backend) && MayBeNull(f, nullableModels)
    ensures NullableOutput(f, nullableModels)
    decreases f, 1
  {
    if f.DerivedFrom? && SlotMayBeNull(f.slot) {
      SlotCovers(f.slot, backend);
    }
  }

  lemma {:induction false} SlotCovers(slot: Slot, backend: Backend)
    requires AcceptedSlot(slot, backend) && SlotMayBeNull(slot)
    ensures NullableSlot(slot)
    decreases slot, 0
  {
    if MayBeNull(slot.source, slot.nullableModels) {
      NullabilityCovers(slot.source, slot.nullableModels, backend);
    } else {
      SlotCovers(slot.other.value, backend);
    }
  }

  // ----- decoding is decided by the retained policy -----

  function NumericBy(p: Policy): Numeric {
    match p
    case ColumnPolicy(policy) => OfAttr(policy)
    case NativePolicy(native) =>
      if native.NativeInt? then Whole else if native.NativeFloat? then Fractional else Unknown
    case CountPolicy => Whole
    case Total(func, inner) => if func.Avg? then Fractional else NumericBy(inner)
  }

  function ByPolicy(c: Codecs, p: Policy, x: int, backend: Backend, validate: bool): Result {
    match p
    case ColumnPolicy(policy) => c.column(policy, x, backend, validate)
    case NativePolicy(native) => DecodeNative(c, native, x)
    case CountPolicy => c.toInt(x)
    case Total(func, inner) => if func.Avg? then c.toFloat(x) else SumBy(c, NumericBy(inner), x)
  }

  lemma {:induction false} NumericDecided(f: Selectable)
    requires WellFormed(f) && PolicyOf(f).Some?
    ensures NumericSource(f) == NumericBy(PolicyOf(f).value)
    decreases f
  {
    match f
    case ScalarOf(inner, _) => NumericDecided(inner);
    case DerivedFrom(_, slot) => NumericDecided(slot.source);
    case AggregateOf(func, argument) =>
      if argument.Some? && !func.Count? {
        NumericDecided(argument.value);
      }
    case _ =>
  }

  /** A value that is not NULL decodes as its policy says, through any chain of definitions,
      aggregates and scalar subqueries. */
  lemma {:induction false} PolicyDecides(c: Codecs, f: Selectable, x: int, nullableModels: set<string>, backend: Backend,
                                         validate: bool)
    requires WellFormed(f) && Accepted(f, backend) && PolicyOf(f).Some?
    ensures DecodeProjection(c, f, Some(x), nullableModels, backend, validate)
            == ByPolicy(c, PolicyOf(f).value, x, backend, validate)
    decreases f
  {
    match f
    case ScalarOf(inner, _) => PolicyDecides(c, inner, x, {}, backend, validate);
    case DerivedFrom(_, slot) =>
      assert DecodeProjection(c, f, Some(x), nullableModels, backend, validate) == DecodeSlot(c, slot, Some(x), validate);
      PolicyDecides(c, slot.source, x, slot.nullableModels, backend, validate);
    case AggregateOf(func, argument) =>
      assert DecodeProjection(c, f, Some(x), nullableModels, backend, validate)
          == DecodeAggregate(c, func, argument, Some(x), backend, validate);
      if func.Min? || func.Max? {
        NothingExpected(c, argument.value, Some(x), backend, validate);
        PolicyDecides(c, argument.value, x, {}, backend, validate);
      } else if func.Sum? {
        NumericDecided(argument.value);
      }
    case _ =>
  }

  /** NULL decodes to None wherever the output is declared nullable. */
  lemma {:induction false} NullDecodes(c: Codecs, f: Selectable, nullableModels: set<string>, backend: Backend, validate: bool)
    requires WellFormed(f) && Accepted(f, backend) && NullableOutput(f, nullableModels)
    ensures DecodeProjection(c, f, None, nullableModels, backend, validate) == Decoded(None)
    decreases f
  {
    if f.DerivedFrom? && !NullExpected(f, nullableModels) {
      assert DecodeProjection(c, f, None, nullableModels, backend, validate) == DecodeSlot(c, f.slot, None, validate);
      NullDecodes(c, f.slot.source, f.slot.nullableModels, backend, validate);
    } else if f.AggregateOf? {
      assert DecodeProjection(c, f, None, nullableModels, backend, validate)
          == DecodeAggregate(c, f.func, f.argument, None, backend, validate);
    }
  }

  /** Every value the right output can produce, NULL included, decodes through the left output to what
      its own decoder gives. */
  lemma {:induction false} RightDecodesThroughLeft(c: Codecs, left: Slot, right: Slot, backend: Backend, raw: Raw, validate: bool)
    requires WellFormedSlot(left) && WellFormedSlot(right)
    requires AcceptedSlot(left, backend) && AcceptedSlot(right, backend) && Compatible(left, right)
    requires raw.Some? || SlotMayBeNull(right)
    ensures DecodeSlot(c, left, raw, validate) == DecodeSlot(c, right, raw, validate)
  {
    if raw.Some? {
      PolicyDecides(c, left.source, raw.value, left.nullableModels, backend, validate);
      PolicyDecides(c, right.source, raw.value, right.nullableModels, backend, validate);
    } else {
      SlotCovers(right, backend);
      NullDecodes(c, left.source, left.nullableModels, backend, validate);
      NullDecodes(c, right.source, right.nullableModels, backend, validate);
    }
  }

  // ----- building a UNION -----

  datatype ResultType = ResultType(id: nat, fields: seq<string>)

  datatype Named = Named(
    resultType: ResultType, labels: seq<string>, sources: seq<Selectable>, others: seq<Option<Slot>>,
    nullableModels: set<string>, backend: Backend, paginated: bool, locking: bool)

  predicate Aligned(s: Named) {
    |s.labels| == |s.sources| == |s.others|
  }

  /** Where a label is bound; the first binding counts. */
  function Position(labels: seq<string>, name: string): (p: nat)
    requires name in labels
    ensures p < |labels| && labels[p] == name
  {
    if labels[0] == name then 0 else 1 + Position(labels[1..], name)
  }

  predicate SameLabels(a: seq<string>, b: seq<string>) {
    (forall x :: x in a ==> x in b) && (forall x :: x in b ==> x in a)
  }

  /** The same select with its outputs in the result type's order. */
  function Canonical(s: Named): Option<Named>
    requires Aligned(s)
  {
    var fields := s.resultType.fields;
    if !SameLabels(fields, s.labels) then None
    else
      Some(s.(labels := fields,
              sources := seq(|fields|, i requires 0 <= i < |fields| => s.sources[Position(s.labels, fields[i])]),
              others := seq(|fields|, i requires 0 <= i < |fields| => s.others[Position(s.labels, fields[i])])))
  }

  function SlotAt(s: Named, i: nat): Slot
    requires Aligned(s) && i < |s.labels|
  {
    Slot(s.sources[i], s.backend, s.nullableModels, s.others[i])
  }

  predicate AllCompatible(left: Named, right: Named)
    requires Aligned(left) && Aligned(right)
  {
    && |left.labels| == |right.labels|
    && forall i :: 0 <= i < |left.labels| ==> Compatible(SlotAt(left, i), SlotAt(right, i))
  }

  /** The canonical operands of an accepted UNION. */
  function BuildCompound(left: Named, right: Named): Option<(Named, Named)>
    requires Aligned(left) && Aligned(right)
  {
    if left.paginated || right.paginated || left.locking || right.locking
       || left.backend != right.backend || left.resultType != right.resultType then None
    else
      var l, r := Canonical(left), Canonical(right);
      if l.None? || r.None? || !AllCompatible(l.value, r.value) then None else Some((l.value, r.value))
  }

  predicate AllAccepted(s: Named)
    requires Aligned(s)
  {
    forall i :: 0 <= i < |s.labels| ==> WellFormedSlot(SlotAt(s, i)) && AcceptedSlot(SlotAt(s, i), s.backend)
  }

  /** When a UNION is accepted, both sides carry every label at the same position, bound to the source
      it was bound to originally. */
  lemma CompoundAligns(left: Named, right: Named, i: nat)
    requires Aligned(left) && Aligned(right) && BuildCompound(left, right).Some?
    requires i < |left.resultType.fields|
    ensures
      var (l, r) := BuildCompound(left, right).value;
      && l.labels == r.labels == left.resultType.fields
      && SlotAt(l, i) == SlotAt(left, Position(left.labels, l.labels[i]))
      && SlotAt(r, i) == SlotAt(right, Position(right.labels, r.labels[i]))
      && left.labels[Position(left.labels, l.labels[i])] == l.labels[i]
      && right.labels[Position(right.labels, r.labels[i])] == r.labels[i]
  {
  }

  /** And every value either side can produce decodes through the left side's output as its own would. */
  lemma CompoundIsSafe(c: Codecs, left: Named, right: Named, i: nat, raw: Raw, validate: bool)
    requires Aligned(left) && Aligned(right) && BuildCompound(left, right).Some?
    requires AllAccepted(left) && AllAccepted(right) && i < |left.resultType.fields|
    ensures
      var (l, r) := BuildCompound(left, right).value;
      raw.Some? || SlotMayBeNull(SlotAt(r, i)) ==>
        && WellFormedSlot(SlotAt(l, i)) && WellFormedSlot(SlotAt(r, i))
        && DecodeSlot(c, SlotAt(l, i), raw, validate) == DecodeSlot(c, SlotAt(r, i), raw, validate)
  {
    var (l, r) := BuildCompound(left, right).value;
    CompoundAligns(left, right, i);
    if raw.Some? || SlotMayBeNull(SlotAt(r, i)) {
      RightDecodesThroughLeft(c, SlotAt(l, i), SlotAt(r, i), left.backend, raw, validate);
    }
  }
}
