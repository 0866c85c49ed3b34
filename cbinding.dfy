/**
 * The enum tables of python/flexflow/core/flexflow_cbinding.py and their
 * lookup `enum_to_int`, which turns an enum member into the integer code the
 * C API expects.
 */
module CBinding {
  import opened Wrappers

  datatype ActiMode = AcModeNone | AcModeRelu | AcModeSigmoid | AcModeTanh
  datatype AggrMode = AggrModeNone | AggrModeSum | AggrModeAvg
  datatype PoolType = PoolMax | PoolAvg
  datatype DataType = DtFloat | DtDouble | DtInt32 | DtInt64 | DtBoolean

  /** The four enum classes. */
  datatype EnumClass = ActiModeClass | AggrModeClass | PoolTypeClass | DataTypeClass

  /** A member of one of the enum classes. */
  datatype EnumItem = Acti(acti: ActiMode) | Aggr(aggr: AggrMode) | Pool(pool: PoolType) | DType(dtype: DataType)

  function ClassOf(x: EnumItem): EnumClass {
    match x
    case Acti(_) => ActiModeClass
    case Aggr(_) => AggrModeClass
    case Pool(_) => PoolTypeClass
    case DType(_) => DataTypeClass
  }

  /** The members of each class, in definition order (the order `for item in enum` visits them). */
  function Members(e: EnumClass): seq<EnumItem> {
    match e
    case ActiModeClass => [Acti(AcModeNone), Acti(AcModeRelu), Acti(AcModeSigmoid), Acti(AcModeTanh)]
    case AggrModeClass => [Aggr(AggrModeNone), Aggr(AggrModeSum), Aggr(AggrModeAvg)]
    case PoolTypeClass => [Pool(PoolMax), Pool(PoolAvg)]
    case DataTypeClass => [DType(DtFloat), DType(DtDouble), DType(DtInt32), DType(DtInt64), DType(DtBoolean)]
  }

  /** The `value` of each member in the Python tables. */
  function Value(x: EnumItem): int {
    match x
    case Acti(a) => (match a case AcModeNone => 10 case AcModeRelu => 11 case AcModeSigmoid => 12 case AcModeTanh => 13)
    case Aggr(g) => (match g case AggrModeNone => 20 case AggrModeSum => 21 case AggrModeAvg => 22)
    case Pool(p) => (match p case PoolMax => 30 case PoolAvg => 31)
    case DType(t) => (match t case DtFloat => 40 case DtDouble => 41 case DtInt32 => 42 case DtInt64 => 43 case DtBoolean => 44)
  }

  /** The enumerator values of the C header python/flexflow_c_dev.h, written out independently. */
  function CValue(x: EnumItem): int {
    match x
    case Acti(AcModeNone) => 10
    case Acti(AcModeRelu) => 11
    case Acti(AcModeSigmoid) => 12
    case Acti(AcModeTanh) => 13
    case Aggr(AggrModeNone) => 20
    case Aggr(AggrModeSum) => 21
    case Aggr(AggrModeAvg) => 22
    case Pool(PoolMax) => 30
    case Pool(PoolAvg) => 31
    case DType(DtFloat) => 40
    case DType(DtDouble) => 41
    case DType(DtInt32) => 42
    case DType(DtInt64) => 43
    case DType(DtBoolean) => 44
  }

  /**
   * A Python value handed to `enum_to_int`: an enum member, or anything else
   * (an int, a string, None), which never compares equal to a member.
   */
  datatype PyValue = Item(item: EnumItem) | NotAnItem

  /** The loop of `enum_to_int`: the value of the first item equal to `x`, or the assertion failure. */
  function Find(items: seq<EnumItem>, x: PyValue): (r: Result<int>)
    ensures r.Ok? <==> x.Item? && x.item in items
    ensures r.Ok? ==> r.value == Value(x.item)
  {
    if |items| == 0 then Fail("unknow enum type")
    else if x == Item(items[0]) then Ok(Value(items[0]))
    else Find(items[1..], x)
  }

  /** `enum_to_int(enum, enum_item)`. */
  function EnumToInt(e: EnumClass, x: PyValue): Result<int> {
    Find(Members(e), x)
  }

  /** Every member belongs to exactly the class it was declared in. */
  lemma MembersOfClass(x: EnumItem, e: EnumClass)
    ensures x in Members(e) <==> ClassOf(x) == e
  {
    match x
    case Acti(a) => match a { case AcModeNone => case AcModeRelu => case AcModeSigmoid => case AcModeTanh => }
    case Aggr(g) => match g { case AggrModeNone => case AggrModeSum => case AggrModeAvg => }
    case Pool(p) => match p { case PoolMax => case PoolAvg => }
    case DType(t) => match t { case DtFloat => case DtDouble => case DtInt32 => case DtInt64 => case DtBoolean => }
  }

  /** `enum_to_int` returns the member's value for a member of the class, and fails for anything else. */
  lemma EnumToIntSpec(e: EnumClass, x: PyValue)
    ensures EnumToInt(e, x).Ok? <==> x.Item? && ClassOf(x.item) == e
    ensures EnumToInt(e, x).Ok? ==> EnumToInt(e, x).value == Value(x.item)
  {
    if x.Item? {
      MembersOfClass(x.item, e);
    }
  }

  /** The Python codes are the C header's. */
  lemma CodesMatchC(x: EnumItem)
    ensures Value(x) == CValue(x)
  {
  }

  /** Each class owns its own range of ten codes, 10 for `ActiMode` up to 40 for `DataType`. */
  function ClassBase(e: EnumClass): int {
    match e
    case ActiModeClass => 10
    case AggrModeClass => 20
    case PoolTypeClass => 30
    case DataTypeClass => 40
  }

  lemma CodeRanges(x: EnumItem)
    ensures ClassBase(ClassOf(x)) <= Value(x) < ClassBase(ClassOf(x)) + |Members(ClassOf(x))|
    ensures Members(ClassOf(x))[Value(x) - ClassBase(ClassOf(x))] == x
  {
  }

  /** The member with a given code, if any. */
  function FromCode(v: int): Option<EnumItem> {
    var e := if v < 20 then ActiModeClass else if v < 30 then AggrModeClass else if v < 40 then PoolTypeClass else DataTypeClass;
    var k := v - ClassBase(e);
    if 0 <= k < |Members(e)| then Some(Members(e)[k]) else None
  }

  /** Codes are a lossless encoding: decoding a member's code gives the member back, so no two members share a code. */
  lemma {:induction false} CodeRoundTrip(x: EnumItem, v: int)
    ensures FromCode(Value(x)) == Some(x)
    ensures FromCode(v) == Some(x) ==> Value(x) == v
  {
    CodeRanges(x);
  }

  lemma CodesInjective(x: EnumItem, y: EnumItem)
    requires Value(x) == Value(y)
    ensures x == y
  {
    CodeRoundTrip(x, 0);
    CodeRoundTrip(y, 0);
  }
}
