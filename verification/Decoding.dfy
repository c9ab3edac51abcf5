/** Decoding a projected value: the general decoder, and the one resolved once per execution. */
module Decoding {
  import opened TextCodec

  // ----- what can be projected -----

  datatype Native = NativeInt | NativeFloat | NativeText

  /** A column's declaration. `policy` stands for everything its codec depends on besides nullability:
      storage class and type, precision, scale, length, collation and the non-null logical type. */
  datatype Attr = Attr(
    owner: string, policy: nat, resolvable: bool, wire: nat, logical: Option<nat>, nullable: bool)

  datatype Func = Count | Sum | Avg | Min | Max

  /** Built-in selectables. A derived output reads one slot of a definition through a relation. */
  datatype Selectable =
    | ColumnOf(attr: Attr)
    | ValueOf(owner: string, native: Native, nullable: bool, nullableWhenAbsent: bool)
    | LiteralInt(backend: Backend)
    | ScalarOf(inner: Selectable, leftJoined: set<string>)
    | AggregateOf(func: Func, argument: Option<Selectable>)
    | DerivedFrom(relation: string, slot: Slot)

  /** One output of a definition. `other` is the output the right operand of a UNION puts there. */
  datatype Slot = Slot(source: Selectable, backend: Backend, nullableModels: set<string>, other: Option<Slot>)

  /** An aggregate's argument is a column or a derived output, and only COUNT may lack one. */
  predicate WellFormed(f: Selectable)
    decreases f, 0
  {
    match f
    case AggregateOf(func, None) => func.Count?
    case AggregateOf(_, Some(argument)) => (argument.ColumnOf? || argument.DerivedFrom?) && WellFormed(argument)
    case ScalarOf(inner, _) => WellFormed(inner)
    case DerivedFrom(_, slot) => WellFormedSlot(slot)
    case _ => true
  }

  predicate WellFormedSlot(slot: Slot)
    decreases slot, 0
  {
    WellFormed(slot.source) && (slot.other.Some? ==> WellFormedSlot(slot.other.value))
  }

  // ----- codecs -----

  /** A driver value, or SQL NULL; a decoded value, or None. */
  type Raw = Option<int>

  datatype Error = BackendDiffers | NullRejected | TypeRejected | NotNumeric | CodecFailed(code: nat)

  datatype Result = Decoded(value: Option<int>) | Failed(error: Error)

  /** The conversions the decoders are built from, each of a value that is not NULL. */
  datatype Codecs = Codecs(
    column: (nat, int, Backend, bool) -> Result,
    native: int -> Option<Native>,
    toInt: int -> Result,
    toFloat: int -> Result,
    sum: (nat, int) -> Result)

  function DecodeAttr(c: Codecs, attr: Attr, raw: Raw, backend: Backend, validate: bool): Result {
    if raw.None? then if attr.nullable || !validate then Decoded(None) else Failed(NullRejected)
    else c.column(attr.policy, raw.value, backend, validate)
  }

  function DecodeNative(c: Codecs, native: Native, x: int): Result {
    if c.native(x) == Some(native) then Decoded(Some(x)) else Failed(TypeRejected)
  }

  function DecodeValue(c: Codecs, native: Native, nullable: bool, raw: Raw): Result {
    if raw.None? then if nullable then Decoded(None) else Failed(TypeRejected) else DecodeNative(c, native, raw.value)
  }

  function DecodeLiteral(c: Codecs, own: Backend, raw: Raw, backend: Backend): Result {
    if backend != own then Failed(BackendDiffers)
    else if raw.None? then Failed(TypeRejected)
    else DecodeNative(c, NativeInt, raw.value)
  }

  /** Totals follow the numeric source behind any chain of definitions. */
  datatype Numeric = OfAttr(policy: nat) | Whole | Fractional | Unknown

  function NumericSource(f: Selectable): Numeric
    decreases f, 0
  {
    match f
    case ColumnOf(attr) => OfAttr(attr.policy)
    case ValueOf(_, native, _, _) =>
      if native.NativeInt? then Whole else if native.NativeFloat? then Fractional else Unknown
    case LiteralInt(_) => Whole
    case ScalarOf(inner, _) => NumericSource(inner)
    case AggregateOf(func, argument) =>
      if func.Count? then Whole else if func.Avg? then Fractional
      else if argument.None? then Unknown else NumericSource(argument.value)
    case DerivedFrom(_, slot) => NumericSource(slot.source)
  }

  function SumBy(c: Codecs, n: Numeric, x: int): Result {
    match n
    case OfAttr(policy) => c.sum(policy, x)
    case Whole => c.toInt(x)
    case Fractional => c.toFloat(x)
    case Unknown => Failed(NotNumeric)
  }

  // ----- the general decoder -----

  function DecodeAggregate(c: Codecs, func: Func, argument: Option<Selectable>, raw: Raw, backend: Backend, validate: bool): Result
    requires WellFormed(AggregateOf(func, argument))
    decreases argument, 1
  {
    if raw.None? then Decoded(None)
    else if func.Count? then c.toInt(raw.value)
    else if func.Avg? then c.toFloat(raw.value)
    else if func.Sum? then SumBy(c, NumericSource(argument.value), raw.value)
    else DecodeSelectable(c, argument.value, raw, backend, validate)
  }

  function DecodeSelectable(c: Codecs, f: Selectable, raw: Raw, backend: Backend, validate: bool): Result
    requires WellFormed(f)
    decreases f, 0
  {
    match f
    case ScalarOf(inner, _) => if raw.None? then Decoded(None) else DecodeSelectable(c, inner, raw, backend, validate)
    case AggregateOf(func, argument) => DecodeAggregate(c, func, argument, raw, backend, validate)
    case DerivedFrom(_, slot) =>
      if backend != slot.backend then Failed(BackendDiffers) else DecodeSlot(c, slot, raw, validate)
    case LiteralInt(own) => DecodeLiteral(c, own, raw, backend)
    case ValueOf(_, native, nullable, _) => DecodeValue(c, native, nullable, raw)
    case ColumnOf(attr) => DecodeAttr(c, attr, raw, backend, validate)
  }

  /** NULL is expected of a source on the nullable side of a LEFT join. */
  predicate NullExpected(f: Selectable, nullableModels: set<string>) {
    match f
    case ColumnOf(attr) => attr.owner in nullableModels
    case ValueOf(owner, _, _, whenAbsent) => owner in nullableModels && whenAbsent
    case DerivedFrom(relation, _) => relation in nullableModels
    case _ => false
  }

  function DecodeProjection(c: Codecs, f: Selectable, raw: Raw, nullableModels: set<string>, backend: Backend, validate: bool): Result
    requires WellFormed(f)
    decreases f, 1
  {
    if raw.None? && NullExpected(f, nullableModels) then Decoded(None)
    else DecodeSelectable(c, f, raw, backend, validate)
  }

  function DecodeSlot(c: Codecs, slot: Slot, raw: Raw, validate: bool): Result
    requires WellFormedSlot(slot)
    decreases slot, 0
  {
    DecodeProjection(c, slot.source, raw, slot.nullableModels, slot.backend, validate)
  }

  // ----- the resolved decoder -----

  type Decoder = Raw -> Result

  function NullFirst(decode: Decoder): Decoder {
    (raw: Raw) => if raw.None? then Decoded(None) else decode(raw)
  }

  /** Dispatch done once: the result only looks at the raw value. */
  function Resolve(c: Codecs, f: Selectable, nullableModels: set<string>, backend: Backend, validate: bool): Decoder
    requires WellFormed(f)
    decreases f, 0
  {
    match f
    case DerivedFrom(relation, slot) =>
      if backend == slot.backend then
        var decode := ResolveSlot(c, slot, validate);
        if relation in nullableModels then NullFirst(decode) else decode
      else (raw: Raw) => DecodeProjection(c, f, raw, nullableModels, backend, validate)
    case ColumnOf(attr) =>
      var decode := (raw: Raw) => DecodeAttr(c, attr, raw, backend, validate);
      if attr.owner in nullableModels then NullFirst(decode) else decode
    case ValueOf(owner, native, nullable, whenAbsent) =>
      var decode := (raw: Raw) => DecodeValue(c, native, nullable, raw);
      if owner in nullableModels then (raw: Raw) => if raw.None? && whenAbsent then Decoded(None) else decode(raw)
      else decode
    case LiteralInt(own) => (raw: Raw) => DecodeLiteral(c, own, raw, backend)
    case ScalarOf(inner, _) => NullFirst(Resolve(c, inner, {}, backend, validate))
    case AggregateOf(func, argument) => ResolveAggregate(c, func, argument, backend, validate)
  }

  function ResolveSlot(c: Codecs, slot: Slot, validate: bool): Decoder
    requires WellFormedSlot(slot)
    decreases slot, 0
  {
    Resolve(c, slot.source, slot.nullableModels, slot.backend, validate)
  }

  function ResolveAggregate(c: Codecs, func: Func, argument: Option<Selectable>, backend: Backend, validate: bool): Decoder
    requires WellFormed(AggregateOf(func, argument))
    decreases argument, 1
  {
    match func
    case Count => (raw: Raw) => if raw.None? then Decoded(None) else c.toInt(raw.value)
    case Avg => (raw: Raw) => if raw.None? then Decoded(None) else c.toFloat(raw.value)
    case Sum =>
      var source := NumericSource(argument.value);
      (raw: Raw) => if raw.None? then Decoded(None) else SumBy(c, source, raw.value)
    case _ =>
      if argument.value.DerivedFrom? then NullFirst(Resolve(c, argument.value, {}, backend, validate))
      else
        var attr := argument.value.attr;
        NullFirst((raw: Raw) => DecodeAttr(c, attr, raw, backend, validate))
  }

  lemma {:induction false} NothingExpected(c: Codecs, f: Selectable, raw: Raw, backend: Backend, validate: bool)
    requires WellFormed(f)
    ensures DecodeProjection(c, f, raw, {}, backend, validate) == DecodeSelectable(c, f, raw, backend, validate)
  {
  }

  /** The resolved decoder gives the same value or the same failure as the general one, for every raw
      value, through definitions chained to any depth. */
  lemma {:induction false} ResolvedIsGeneral(c: Codecs, f: Selectable, nullableModels: set<string>, backend: Backend,
                                             validate: bool, raw: Raw)
    requires WellFormed(f)
    ensures Resolve(c, f, nullableModels, backend, validate)(raw)
            == DecodeProjection(c, f, raw, nullableModels, backend, validate)
    decreases f, 1
  {
    match f
    case DerivedFrom(relation, slot) =>
      if backend == slot.backend {
        ResolvedSlot(c, slot, validate, raw);
      }
    case ScalarOf(inner, _) =>
      ResolvedIsGeneral(c, inner, {}, backend, validate, raw);
      NothingExpected(c, inner, raw, backend, validate);
    case AggregateOf(func, argument) =>
      if (func.Min? || func.Max?) && argument.value.DerivedFrom? {
        ResolvedIsGeneral(c, argument.value, {}, backend, validate, raw);
        NothingExpected(c, argument.value, raw, backend, validate);
      }
      ResolvedAggregate(c, func, argument, backend, validate, raw);
    case _ =>
  }

  lemma {:induction false} ResolvedAggregate(c: Codecs, func: Func, argument: Option<Selectable>, backend: Backend, validate: bool, raw: Raw)
    requires WellFormed(AggregateOf(func, argument))
    requires (func.Min? || func.Max?) && argument.value.DerivedFrom? ==>
      Resolve(c, argument.value, {}, backend, validate)(raw) == DecodeSelectable(c, argument.value, raw, backend, validate)
    ensures ResolveAggregate(c, func, argument, backend, validate)(raw)
            == DecodeAggregate(c, func, argument, raw, backend, validate)
  {
    match func
    case Count =>
    case Avg =>
    case Sum =>
    case _ =>
      if argument.value.DerivedFrom? {
        assert ResolveAggregate(c, func, argument, backend, validate)
            == NullFirst(Resolve(c, argument.value, {}, backend, validate));
      }
  }

  lemma {:induction false} ResolvedSlot(c: Codecs, slot: Slot, validate: bool, raw: Raw)
    requires WellFormedSlot(slot)
    ensures ResolveSlot(c, slot, validate)(raw) == DecodeSlot(c, slot, raw, validate)
    decreases slot, 0
  {
    ResolvedIsGeneral(c, slot.source, slot.nullableModels, slot.backend, validate, raw);
  }
}
