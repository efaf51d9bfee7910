/** JSON values to values of the Go types that the ABI encoder wants, and back
    (internal/maidenlaneeth/txn.go: generateTypedArg, mapOutput and their helpers). */
module AbiTyping {
  import opened Text

  // ---------- Types and values ----------

  datatype AbiType =
    | IntTy(size: int)
    | UintTy(size: int)
    | BoolTy
    | StringTy
    | AddressTy
    | BytesTy
    | FixedBytesTy(length: nat)
    | SliceTy(elem: AbiType)
    | ArrayTy(length: nat, elem: AbiType)
    | TupleTy(fields: Fields)
    | FunctionTy

  datatype Fields = NoFields | Field(name: string, ty: AbiType, rest: Fields)

  datatype Json =
    | JNull
    | JBool(b: bool)
    | JNum(x: real)
    | JStr(s: string)
    | JArr(items: seq<Json>)
    | JObj(members: map<string, Json>)

  /** Go types, as reflection compares them: []uint8 is both the type of bytes and of uint8[]. */
  datatype GoType =
    | TInt(signed: bool, bits: int)
    | TBig
    | TBool
    | TString
    | TAddress
    | TSlice(elem: GoType)
    | TArray(length: nat, elem: GoType)
    | TStruct(fields: GoFields)

  datatype GoFields = NoGoFields | GoField(name: string, ty: GoType, rest: GoFields)

  datatype GoVal =
    | GInt(signed: bool, bits: int, n: int)
    | GBig(n: int)
    | GNilBig
    | GBool(b: bool)
    | GStr(s: string)
    | GSeq(ty: GoType, vals: seq<GoVal>)
    | GStruct(ty: GoType, vals: seq<GoVal>)

  datatype Reason = BadNull | NotANumber | BadNumber | NotABool | NotAString | NotAnAddress | BadAddress | NotBytes
                  | BadByte | NotAList | NotAnObject | NotAssignable | NotSupported
                  | MismatchedNumber | MismatchedBool | MismatchedString | MismatchedBytes | MismatchedSlice
                  | MismatchedTuple | UnknownType

  /** Reflection panics when it is asked to store a value of another type, or outside an array. */
  datatype Outcome<+T> = Ok(value: T) | Err(reason: Reason) | Panic

  const U8 := TInt(false, 8)

  predicate Native(size: int) {
    size == 8 || size == 16 || size == 32 || size == 64
  }

  function GoTypeOf(t: AbiType): GoType {
    match t
    case IntTy(size) => if Native(size) then TInt(true, size) else TBig
    case UintTy(size) => if Native(size) then TInt(false, size) else TBig
    case BoolTy => TBool
    case StringTy => TString
    case AddressTy => TAddress
    case BytesTy => TSlice(U8)
    case FixedBytesTy(length) => TArray(length, U8)
    case SliceTy(elem) => TSlice(GoTypeOf(elem))
    case ArrayTy(length, elem) => TArray(length, GoTypeOf(elem))
    case TupleTy(fields) => TStruct(GoFieldsOf(fields))
    case FunctionTy => TArray(24, U8)
  }

  function GoFieldsOf(fields: Fields): GoFields {
    match fields
    case NoFields => NoGoFields
    case Field(name, ty, rest) => GoField(name, GoTypeOf(ty), GoFieldsOf(rest))
  }

  function TypeOf(g: GoVal): GoType {
    match g
    case GInt(signed, bits, _) => TInt(signed, bits)
    case GBig(_) => TBig
    case GNilBig => TBig
    case GBool(_) => TBool
    case GStr(_) => TString
    case GSeq(ty, _) => ty
    case GStruct(ty, _) => ty
  }

  function ByteVals(bytes: seq<Byte>): (vals: seq<GoVal>)
    ensures |vals| == |bytes|
  {
    seq(|bytes|, i requires 0 <= i < |bytes| => GInt(false, 8, bytes[i]))
  }

  function ToByte(g: GoVal): Byte {
    if g.GInt? || g.GBig? then g.n % 256 else 0
  }

  function BytesOf(vals: seq<GoVal>): (bytes: seq<Byte>)
    ensures |bytes| == |vals|
  {
    seq(|vals|, i requires 0 <= i < |vals| => ToByte(vals[i]))
  }

  /** What Go puts where nothing was stored: no big number at all is a nil pointer. */
  function Zero(ty: GoType): GoVal {
    match ty
    case TInt(signed, bits) => GInt(signed, bits, 0)
    case TBig => GNilBig
    case TBool => GBool(false)
    case TString => GStr("")
    case TAddress => GSeq(TAddress, ByteVals(seq(20, _ => 0)))
    case TSlice(_) => GSeq(ty, [])
    case TArray(length, elem) => GSeq(ty, seq(length, _ => Zero(elem)))
    case TStruct(fields) => GStruct(ty, ZeroFields(fields))
  }

  function ZeroFields(fields: GoFields): seq<GoVal> {
    match fields
    case NoGoFields => []
    case GoField(_, ty, rest) => [Zero(ty)] + ZeroFields(rest)
  }

  // ---------- JSON to Go ----------

  /** What the machine makes of a floating-point number that does not fit 64 bits: Go does not say. */
  type Machine = (bool, real) -> int

  function Span(bits: int): int {
    if bits == 8 then 0x100
    else if bits == 16 then 0x1_0000
    else if bits == 32 then 0x1_0000_0000
    else 0x1_0000_0000_0000_0000
  }

  function Lowest(signed: bool, bits: int): int {
    if signed then -(Span(bits) / 2) else 0
  }

  predicate Fits(signed: bool, bits: int, n: int) {
    Lowest(signed, bits) <= n < Lowest(signed, bits) + Span(bits)
  }

  /** A conversion to a narrower integer keeps the low bits. */
  function Wrap(signed: bool, bits: int, n: int): int {
    (n - Lowest(signed, bits)) % Span(bits) + Lowest(signed, bits)
  }

  function Truncate(x: real): int {
    if x >= 0.0 then x.Floor else -((-x).Floor)
  }

  function FloatTo64(m: Machine, signed: bool, x: real): int {
    if Fits(signed, 64, Truncate(x)) then Truncate(x) else Wrap(signed, 64, m(signed, x))
  }

  function Get64(m: Machine, signed: bool, v: Json): Outcome<int> {
    match v
    case JStr(s) =>
      var n := if signed then ParseSigned(s) else ParseUnsigned(s);
      if n.Some? && Fits(signed, 64, n.value) then Ok(n.value) else Err(BadNumber)
    case JNum(x) => Ok(FloatTo64(m, signed, x))
    case _ => Err(NotANumber)
  }

  function GetBig(m: Machine, v: Json): Outcome<GoVal> {
    match v
    case JStr(s) =>
      (match ParseSigned(s)
       case Some(n) => Ok(GBig(n))
       case None => Err(BadNumber))
    case JNum(x) => Ok(GBig(FloatTo64(m, true, x)))
    case _ => Err(NotANumber)
  }

  /** Sizes up to 64 that are no machine size pass the check for 64 bits and become big numbers. */
  function GenNumber(m: Machine, signed: bool, size: int, v: Json): Outcome<GoVal> {
    if size > 64 then GetBig(m, v)
    else
      match Get64(m, signed, v)
      case Ok(n) => if Native(size) then Ok(GInt(signed, size, Wrap(signed, size, n))) else GetBig(m, v)
      case Err(r) => Err(r)
      case Panic => Panic
  }

  predicate IsTrueText(s: string) {
    |s| == 4 && s[0] in "tT" && s[1] in "rR" && s[2] in "uU" && s[3] in "eE"
  }

  function GetBytes(v: Json): Outcome<seq<Byte>> {
    match v
    case JArr(items) => NumbersToBytes(items)
    case JStr(s) => Ok(FromHex(s))
    case _ => Err(NotBytes)
  }

  function NumbersToBytes(items: seq<Json>): Outcome<seq<Byte>> {
    if items == [] then Ok([])
    else if !items[0].JNum? || items[0].x < 0.0 || items[0].x > 255.0 then Err(BadByte)
    else
      match NumbersToBytes(items[1..])
      case Ok(bytes) => Ok([items[0].x.Floor] + bytes)
      case other => other
  }

  /** No bytes become an empty array, whatever was wanted; fixed bytes become an array of the length given. */
  function GenBytes(t: AbiType, bytes: seq<Byte>): GoVal {
    if bytes == [] then GSeq(TArray(0, U8), [])
    else if t.BytesTy? then GSeq(TSlice(U8), ByteVals(bytes))
    else GSeq(TArray(|bytes|, U8), ByteVals(bytes))
  }

  function Generate(m: Machine, t: AbiType, v: Json): Outcome<GoVal>
    decreases t, 0
  {
    if v.JNull? then Err(BadNull)
    else
      match t
      case IntTy(size) => GenNumber(m, true, size, v)
      case UintTy(size) => GenNumber(m, false, size, v)
      case BoolTy =>
        if v.JStr? then Ok(GBool(IsTrueText(v.s)))
        else if v.JBool? then Ok(GBool(v.b))
        else Err(NotABool)
      case StringTy => if v.JStr? then Ok(GStr(v.s)) else Err(NotAString)
      case AddressTy =>
        if !v.JStr? then Err(NotAnAddress)
        else if !IsHexAddress(v.s) then Err(BadAddress)
        else Ok(GSeq(TAddress, ByteVals(FromHex(v.s))))
      case BytesTy => GenFromBytes(t, GetBytes(v))
      case FixedBytesTy(_) => GenFromBytes(t, GetBytes(v))
      case SliceTy(elem) =>
        if !v.JArr? then Err(NotAList)
        else
          (match GenItems(m, elem, |v.items|, v.items)
           case Ok(vals) => Ok(GSeq(GoTypeOf(t), vals))
           case Err(r) => Err(r)
           case Panic => Panic)
      case ArrayTy(length, elem) =>
        if !v.JArr? then Err(NotAList)
        else
          (match GenItems(m, elem, length, v.items)
           case Ok(vals) =>
             var missing := if |vals| <= length then length - |vals| else 0;
             Ok(GSeq(GoTypeOf(t), vals + seq(missing, _ => Zero(GoTypeOf(elem)))))
           case Err(r) => Err(r)
           case Panic => Panic)
      case TupleTy(fields) =>
        if !v.JObj? then Err(NotAnObject)
        else
          (match GenFields(m, fields, v.members)
           case Ok(vals) => Ok(GStruct(GoTypeOf(t), vals))
           case Err(r) => Err(r)
           case Panic => Panic)
      case FunctionTy => Err(NotSupported)
  }

  function GenFromBytes(t: AbiType, bytes: Outcome<seq<Byte>>): Outcome<GoVal> {
    match bytes
    case Ok(b) => Ok(GenBytes(t, b))
    case Err(r) => Err(r)
    case Panic => Panic
  }

  /** Fills a list with room for so many elements. */
  function GenItems(m: Machine, elem: AbiType, room: nat, items: seq<Json>): Outcome<seq<GoVal>>
    decreases elem, |items| + 1
  {
    if items == [] then Ok([])
    else
      match Generate(m, elem, items[0])
      case Err(r) => Err(r)
      case Panic => Panic
      case Ok(g) =>
        if room == 0 || TypeOf(g) != GoTypeOf(elem) then Panic
        else
          match GenItems(m, elem, room - 1, items[1..])
          case Ok(vals) => Ok([g] + vals)
          case other => other
  }

  function GenFields(m: Machine, fields: Fields, members: map<string, Json>): Outcome<seq<GoVal>>
    decreases fields, 0
  {
    match fields
    case NoFields => Ok([])
    case Field(name, ty, rest) =>
      if name !in members then Err(NotAssignable)
      else
        match Generate(m, ty, members[name])
        case Err(r) => Err(r)
        case Panic => Panic
        case Ok(g) =>
          if TypeOf(g) != GoTypeOf(ty) then Err(NotAssignable)
          else
            match GenFields(m, rest, members)
            case Ok(vals) => Ok([g] + vals)
            case other => other
  }

  // ---------- Go to JSON ----------

  function MapOutput(t: AbiType, g: GoVal): Outcome<Json>
    decreases t, 0
  {
    match t
    case IntTy(_) => MapNumber(g)
    case UintTy(_) => MapNumber(g)
    case BoolTy => if g.GBool? then Ok(JBool(g.b)) else Err(MismatchedBool)
    case StringTy => if g.GStr? then Ok(JStr(g.s)) else Err(MismatchedString)
    case BytesTy => MapBytes(g)
    case FixedBytesTy(_) => MapBytes(g)
    case AddressTy => MapBytes(g)
    case SliceTy(elem) => MapSlice(elem, g)
    case ArrayTy(_, elem) => MapSlice(elem, g)
    case TupleTy(fields) =>
      if !g.GStruct? || g.ty != GoTypeOf(t) then Err(MismatchedTuple)
      else
        (match MapFields(fields, g.vals)
         case Ok(members) => Ok(JObj(members))
         case Err(r) => Err(r)
         case Panic => Panic)
    case FunctionTy => Err(UnknownType)
  }

  function MapNumber(g: GoVal): Outcome<Json> {
    match g
    case GInt(_, _, n) => Ok(JStr(Dec(n)))
    case GBig(n) => Ok(JStr(Dec(n)))
    case GNilBig => Ok(JStr("<nil>"))
    case _ => Err(MismatchedNumber)
  }

  function MapBytes(g: GoVal): Outcome<Json> {
    if g.GSeq? && (g.ty.TAddress? || ((g.ty.TSlice? || g.ty.TArray?) && g.ty.elem == U8))
    then Ok(JStr(ToHex(BytesOf(g.vals))))
    else Err(MismatchedBytes)
  }

  /** Only slices are accepted, also for fixed arrays. */
  function MapSlice(elem: AbiType, g: GoVal): Outcome<Json>
    decreases elem, |if g.GSeq? then g.vals else []| + 2
  {
    if !g.GSeq? || !g.ty.TSlice? then Err(MismatchedSlice)
    else
      match MapItems(elem, g.vals)
      case Ok(items) => Ok(JArr(items))
      case Err(r) => Err(r)
      case Panic => Panic
  }

  function MapItems(elem: AbiType, vals: seq<GoVal>): Outcome<seq<Json>>
    decreases elem, |vals| + 1
  {
    if vals == [] then Ok([])
    else
      match MapOutput(elem, vals[0])
      case Err(r) => Err(r)
      case Panic => Panic
      case Ok(j) =>
        match MapItems(elem, vals[1..])
        case Ok(items) => Ok([j] + items)
        case other => other
  }

  /** A later field of the same name would replace an earlier one. */
  function MapFields(fields: Fields, vals: seq<GoVal>): Outcome<map<string, Json>>
    decreases fields, 0
  {
    match fields
    case NoFields => if vals == [] then Ok(map[]) else Err(MismatchedTuple)
    case Field(name, ty, rest) =>
      if vals == [] then Err(MismatchedTuple)
      else
        match MapOutput(ty, vals[0])
        case Err(r) => Err(r)
        case Panic => Panic
        case Ok(j) =>
          match MapFields(rest, vals[1..])
          case Ok(members) => Ok(map[name := j] + members)
          case other => other
  }

  // ---------- Values that survive ----------

  function Names(fields: Fields): set<string> {
    match fields
    case NoFields => {}
    case Field(name, _, rest) => {name} + Names(rest)
  }

  /** Solidity gives the members of a struct distinct names. */
  predicate WellFormed(t: AbiType) {
    match t
    case SliceTy(elem) => WellFormed(elem)
    case ArrayTy(_, elem) => WellFormed(elem)
    case TupleTy(fields) => WellFormedFields(fields)
    case _ => true
  }

  predicate WellFormedFields(fields: Fields) {
    match fields
    case NoFields => true
    case Field(name, ty, rest) => name !in Names(rest) && WellFormed(ty) && WellFormedFields(rest)
  }

  predicate NumberFits(signed: bool, size: int, n: int) {
    if Native(size) then Fits(signed, size, n)
    else if size < 64 then Fits(signed, 64, n)
    else true
  }

  /** JSON in the form the bridge itself writes, within the range of its type. */
  predicate Canonical(t: AbiType, v: Json)
    decreases t, 0
  {
    match t
    case IntTy(size) => v.JStr? && IsDecimal(v.s) && NumberFits(true, size, ParseSigned(v.s).value)
    case UintTy(size) => v.JStr? && IsDecimal(v.s) && NumberFits(false, size, ParseSigned(v.s).value)
    case BoolTy => v.JBool?
    case StringTy => v.JStr?
    case AddressTy => v.JStr? && IsHexText(v.s) && |v.s| == 42
    case BytesTy => v.JStr? && IsHexText(v.s)
    case FixedBytesTy(length) => v.JStr? && IsHexText(v.s) && |v.s| == 2 + 2 * length
    case SliceTy(elem) => v.JArr? && AllCanonical(elem, v.items)
    case ArrayTy(_, _) => false
    case TupleTy(fields) => v.JObj? && v.members.Keys == Names(fields) && CanonicalFields(fields, v.members)
    case FunctionTy => false
  }

  predicate AllCanonical(elem: AbiType, items: seq<Json>)
    decreases elem, |items| + 1
  {
    items != [] ==> Canonical(elem, items[0]) && AllCanonical(elem, items[1..])
  }

  predicate CanonicalFields(fields: Fields, members: map<string, Json>)
    decreases fields, 0
  {
    match fields
    case NoFields => true
    case Field(name, ty, rest) => name in members && Canonical(ty, members[name]) && CanonicalFields(rest, members)
  }

  /** A JSON value becomes a Go value of exactly the wanted type, and comes back as it was. */
  predicate RoundTrips(m: Machine, t: AbiType, v: Json) {
    var g := Generate(m, t, v);
    g.Ok? && TypeOf(g.value) == GoTypeOf(t) && MapOutput(t, g.value) == Ok(v)
  }

  lemma WrapKeepsIffFits(signed: bool, bits: int, n: int)
    requires Native(bits)
    ensures Fits(signed, bits, Wrap(signed, bits, n))
    ensures Wrap(signed, bits, n) == n <==> Fits(signed, bits, n)
  {
    assert Span(bits) > 0;
  }

  lemma TextRoundTripsIff(signed: bool, s: string, size: int)
    requires Native(size)
    ensures var n := if signed then ParseSigned(s) else ParseUnsigned(s);
            n.Some? && Fits(signed, 64, n.value) && Dec(Wrap(signed, size, n.value)) == s <==>
              IsDecimal(s) && Fits(signed, size, ParseSigned(s).value)
  {
    var n := if signed then ParseSigned(s) else ParseUnsigned(s);
    if n.Some? {
      if !signed { UnsignedIsSigned(s); }
      var w := Wrap(signed, size, n.value);
      WrapKeepsIffFits(signed, size, n.value);
      DecParses(w);
      ParsedIsDecIff(s);
    } else if IsDecimal(s) {
      assert !signed && s[0] == '-';
      ParsedIsDecIff(s);
      DecParses(ParseSigned(s).value);
    }
  }

  lemma BigTextRoundTripsIff(signed: bool, s: string)
    ensures ParseSigned(s).Some? && Dec(ParseSigned(s).value) == s <==> IsDecimal(s)
    ensures IsDecimal(s) && !signed ==> (ParseUnsigned(s).Some? <==> ParseSigned(s).value >= 0)
    ensures IsDecimal(s) && ParseUnsigned(s).Some? ==> ParseUnsigned(s) == ParseSigned(s)
  {
    if ParseSigned(s).Some? {
      ParsedIsDecIff(s);
      DecParses(ParseSigned(s).value);
    }
  }

  lemma NumbersRoundTripIff(m: Machine, signed: bool, size: int, v: Json)
    ensures var g := GenNumber(m, signed, size, v);
            g.Ok? ==> TypeOf(g.value) == if Native(size) then TInt(signed, size) else TBig
    ensures var g := GenNumber(m, signed, size, v);
            g.Ok? && MapNumber(g.value) == Ok(v) <==>
              v.JStr? && IsDecimal(v.s) && NumberFits(signed, size, ParseSigned(v.s).value)
  {
    if v.JStr? {
      BigTextRoundTripsIff(signed, v.s);
      if Native(size) {
        TextRoundTripsIff(signed, v.s, size);
      }
    }
  }

  lemma UnsignedIsSigned(s: string)
    requires ParseUnsigned(s).Some?
    ensures ParseSigned(s) == ParseUnsigned(s) && ParseUnsigned(s).value >= 0
  {
    assert IsDigit(s[0]);
  }

  lemma BytesComeBack(bytes: seq<Byte>)
    ensures BytesOf(ByteVals(bytes)) == bytes
  {
  }

  lemma MappedBytes(ty: GoType, bytes: seq<Byte>)
    requires ty == TAddress || ty == TSlice(U8) || (ty.TArray? && ty.elem == U8)
    ensures MapBytes(GSeq(ty, ByteVals(bytes))) == Ok(JStr(ToHex(bytes)))
  {
    BytesComeBack(bytes);
  }

  lemma GenBytesRoundTripsIff(t: AbiType, s: string)
    requires t.BytesTy? || t.FixedBytesTy?
    ensures var g := GenBytes(t, FromHex(s));
            TypeOf(g) == GoTypeOf(t) && MapBytes(g) == Ok(JStr(s)) <==>
              IsHexText(s) && (t.FixedBytesTy? ==> |s| == 2 + 2 * t.length)
  {
    var bytes := FromHex(s);
    HexIsWrittenBackIff(s);
    MappedBytes(GenBytes(t, bytes).ty, bytes);
    assert bytes == [] ==> ToHex(bytes) == "0x0";
  }

  lemma AddressRoundTripsIff(s: string)
    ensures IsHexAddress(s) && ToHex(FromHex(s)) == s <==> IsHexText(s) && |s| == 42
  {
    HexIsWrittenBackIff(s);
    if IsHexText(s) { HexTextIsAddressIff(s); }
    if IsHexAddress(s) { AddressHas20Bytes(s); }
  }

  lemma BytesRoundTripIff(m: Machine, t: AbiType, v: Json)
    requires t.BytesTy? || t.FixedBytesTy?
    ensures RoundTrips(m, t, v) <==> Canonical(t, v)
  {
    if v.JStr? {
      GenBytesRoundTripsIff(t, v.s);
      assert Generate(m, t, v) == Ok(GenBytes(t, FromHex(v.s)));
      assert MapOutput(t, GenBytes(t, FromHex(v.s))) == MapBytes(GenBytes(t, FromHex(v.s)));
    }
  }

  lemma AddressRoundTripIff(m: Machine, v: Json)
    ensures RoundTrips(m, AddressTy, v) <==> Canonical(AddressTy, v)
  {
    if v.JStr? {
      AddressRoundTripsIff(v.s);
      MappedBytes(TAddress, FromHex(v.s));
    }
  }

  lemma GenItemsOfSome(m: Machine, elem: AbiType, room: nat, items: seq<Json>)
    requires items != []
    ensures GenItems(m, elem, room, items).Ok? <==>
              && Generate(m, elem, items[0]).Ok? && room > 0
              && TypeOf(Generate(m, elem, items[0]).value) == GoTypeOf(elem)
              && GenItems(m, elem, room - 1, items[1..]).Ok?
    ensures GenItems(m, elem, room, items).Ok? ==>
              GenItems(m, elem, room, items).value
              == [Generate(m, elem, items[0]).value] + GenItems(m, elem, room - 1, items[1..]).value
  {
  }

  lemma MapItemsOfSome(elem: AbiType, g: GoVal, vals: seq<GoVal>)
    ensures MapItems(elem, [g] + vals).Ok? <==> MapOutput(elem, g).Ok? && MapItems(elem, vals).Ok?
    ensures MapItems(elem, [g] + vals).Ok? ==>
              MapItems(elem, [g] + vals).value == [MapOutput(elem, g).value] + MapItems(elem, vals).value
  {
    assert ([g] + vals)[1..] == vals;
  }

  ghost predicate ItemsRoundTrip(m: Machine, elem: AbiType, items: seq<Json>) {
    var vals := GenItems(m, elem, |items|, items);
    vals.Ok? && MapItems(elem, vals.value) == Ok(items)
  }

  lemma SameHeadAndTail<A>(a: A, more: seq<A>, b: A, others: seq<A>)
    ensures [a] + more == [b] + others <==> a == b && more == others
  {
    assert ([a] + more)[1..] == more && ([b] + others)[1..] == others;
    assert ([a] + more)[0] == a && ([b] + others)[0] == b;
  }

  lemma ItemsRoundTripOfSome(m: Machine, elem: AbiType, items: seq<Json>)
    requires items != []
    ensures ItemsRoundTrip(m, elem, items) <==> RoundTrips(m, elem, items[0]) && ItemsRoundTrip(m, elem, items[1..])
  {
    GenItemsOfSome(m, elem, |items|, items);
    var first, rest := Generate(m, elem, items[0]), GenItems(m, elem, |items[1..]|, items[1..]);
    if first.Ok? && rest.Ok? {
      MapItemsOfSome(elem, first.value, rest.value);
      var j, js := MapOutput(elem, first.value), MapItems(elem, rest.value);
      if j.Ok? && js.Ok? {
        SameHeadAndTail(j.value, js.value, items[0], items[1..]);
        assert items == [items[0]] + items[1..];
      }
    }
  }

  lemma {:induction false} ItemsRoundTripIff(m: Machine, elem: AbiType, items: seq<Json>)
    requires WellFormed(elem)
    ensures ItemsRoundTrip(m, elem, items) <==> AllCanonical(elem, items)
    decreases elem, |items| + 1
  {
    if items != [] {
      RoundTripIffCanonical(m, elem, items[0]);
      ItemsRoundTripIff(m, elem, items[1..]);
      ItemsRoundTripOfSome(m, elem, items);
    }
  }

  /** The fields read from an object give back the members they were read from. */
  ghost predicate FieldsRoundTrip(m: Machine, fields: Fields, members: map<string, Json>) {
    var vals := GenFields(m, fields, members);
    && vals.Ok?
    && var mapped := MapFields(fields, vals.value);
      && mapped.Ok?
      && forall k :: k in Names(fields) ==> k in mapped.value && k in members && mapped.value[k] == members[k]
  }

  lemma {:induction false} MappedFieldsHaveNames(fields: Fields, vals: seq<GoVal>)
    requires MapFields(fields, vals).Ok?
    ensures MapFields(fields, vals).value.Keys == Names(fields)
    decreases fields
  {
    if fields.Field? {
      MappedFieldsHaveNames(fields.rest, vals[1..]);
    }
  }

  lemma {:induction false} FieldsRoundTripIff(m: Machine, fields: Fields, members: map<string, Json>)
    requires WellFormedFields(fields)
    ensures FieldsRoundTrip(m, fields, members) <==> CanonicalFields(fields, members)
    decreases fields, 0
  {
    if fields.Field? && fields.name in members {
      RoundTripIffCanonical(m, fields.ty, members[fields.name]);
      FieldsRoundTripIff(m, fields.rest, members);
      var vals := GenFields(m, fields, members);
      if vals.Ok? {
        var rest := GenFields(m, fields.rest, members).value;
        assert vals.value[1..] == rest;
        var mapped := MapFields(fields, vals.value);
        if mapped.Ok? {
          MappedFieldsHaveNames(fields.rest, rest);
          var below := MapFields(fields.rest, rest).value;
          assert mapped.value == map[fields.name := MapOutput(fields.ty, vals.value[0]).value] + below;
          assert forall k :: k in Names(fields.rest) ==> mapped.value[k] == below[k];
          assert fields.name !in below;
        }
      }
    }
  }

  /** A fixed array that was generated is refused on the way back, whatever it holds. */
  lemma ArraysNeverMap(m: Machine, t: AbiType, v: Json)
    requires t.ArrayTy? && Generate(m, t, v).Ok?
    ensures MapOutput(t, Generate(m, t, v).value) == Err(MismatchedSlice)
  {
    var g := Generate(m, t, v).value;
    assert MapOutput(t, g) == MapSlice(t.elem, g);
  }

  lemma SliceRoundTripsIff(m: Machine, t: AbiType, v: Json)
    requires t.SliceTy? && v.JArr?
    ensures RoundTrips(m, t, v) <==> ItemsRoundTrip(m, t.elem, v.items)
  {
    var vals := GenItems(m, t.elem, |v.items|, v.items);
    if vals.Ok? {
      var g := GSeq(GoTypeOf(t), vals.value);
      assert MapOutput(t, g) == MapSlice(t.elem, g);
    }
  }

  lemma TupleRoundTripsIff(m: Machine, t: AbiType, v: Json)
    requires t.TupleTy? && v.JObj?
    ensures RoundTrips(m, t, v) <==> v.members.Keys == Names(t.fields) && FieldsRoundTrip(m, t.fields, v.members)
  {
    var vals := GenFields(m, t.fields, v.members);
    if vals.Ok? {
      var mapped := MapFields(t.fields, vals.value);
      if mapped.Ok? {
        MappedFieldsHaveNames(t.fields, vals.value);
        assert mapped.value == v.members <==>
          v.members.Keys == Names(t.fields) && forall k :: k in Names(t.fields) ==> mapped.value[k] == v.members[k];
      }
    }
  }

  /** The round trip, for every type and every JSON value: it succeeds exactly for canonical values. */
  lemma {:induction false} RoundTripIffCanonical(m: Machine, t: AbiType, v: Json)
    requires WellFormed(t)
    ensures RoundTrips(m, t, v) <==> Canonical(t, v)
    decreases t, 0
  {
    match t
    case IntTy(size) => NumbersRoundTripIff(m, true, size, v);
    case UintTy(size) => NumbersRoundTripIff(m, false, size, v);
    case BoolTy =>
    case StringTy =>
    case AddressTy => AddressRoundTripIff(m, v);
    case BytesTy => BytesRoundTripIff(m, t, v);
    case FixedBytesTy(_) => BytesRoundTripIff(m, t, v);
    case SliceTy(elem) =>
      if v.JArr? {
        ItemsRoundTripIff(m, elem, v.items);
        SliceRoundTripsIff(m, t, v);
      }
    case ArrayTy(_, _) =>
      if Generate(m, t, v).Ok? {
        ArraysNeverMap(m, t, v);
      }
    case TupleTy(fields) =>
      if v.JObj? {
        FieldsRoundTripIff(m, fields, v.members);
        TupleRoundTripsIff(m, t, v);
      }
    case FunctionTy =>
  }

  // ---------- Go values that survive ----------

  predicate AreBytes(vals: seq<GoVal>) {
    forall i :: 0 <= i < |vals| ==> vals[i].GInt? && !vals[i].signed && vals[i].bits == 8 && 0 <= vals[i].n < 256
  }

  predicate NumberHasType(signed: bool, size: int, g: GoVal) {
    if Native(size) then g.GInt? && g.signed == signed && g.bits == size && Fits(signed, size, g.n)
    else g.GBig? || g.GNilBig?
  }

  /** A Go value is of the type for an ABI type, all the way down. */
  predicate HasType(t: AbiType, g: GoVal)
    decreases t, 0
  {
    match t
    case IntTy(size) => NumberHasType(true, size, g)
    case UintTy(size) => NumberHasType(false, size, g)
    case BoolTy => g.GBool?
    case StringTy => g.GStr?
    case AddressTy => g.GSeq? && g.ty == TAddress && |g.vals| == 20 && AreBytes(g.vals)
    case BytesTy => g.GSeq? && g.ty == TSlice(U8) && AreBytes(g.vals)
    case FixedBytesTy(length) => g.GSeq? && g.ty == TArray(length, U8) && |g.vals| == length && AreBytes(g.vals)
    case SliceTy(elem) => g.GSeq? && g.ty == GoTypeOf(t) && AllHaveType(elem, g.vals)
    case ArrayTy(length, elem) => g.GSeq? && g.ty == GoTypeOf(t) && |g.vals| == length && AllHaveType(elem, g.vals)
    case TupleTy(fields) => g.GStruct? && g.ty == GoTypeOf(t) && FieldsHaveType(fields, g.vals)
    case FunctionTy => g.GSeq? && g.ty == GoTypeOf(t) && |g.vals| == 24 && AreBytes(g.vals)
  }

  predicate AllHaveType(elem: AbiType, vals: seq<GoVal>)
    decreases elem, |vals| + 1
  {
    vals != [] ==> HasType(elem, vals[0]) && AllHaveType(elem, vals[1..])
  }

  predicate FieldsHaveType(fields: Fields, vals: seq<GoVal>)
    decreases fields, 0
  {
    match fields
    case NoFields => vals == []
    case Field(_, ty, rest) => vals != [] && HasType(ty, vals[0]) && FieldsHaveType(rest, vals[1..])
  }

  predicate NumberSurvives(signed: bool, size: int, g: GoVal) {
    g.GInt? || (g.GBig? && NumberFits(signed, size, g.n))
  }

  /** Values that can be sent again in the form in which they were received. */
  predicate Survives(t: AbiType, g: GoVal)
    decreases t, 0
  {
    match t
    case IntTy(size) => NumberSurvives(true, size, g)
    case UintTy(size) => NumberSurvives(false, size, g)
    case BoolTy => true
    case StringTy => true
    case AddressTy => true
    case BytesTy => g.GSeq? && g.vals != []
    case FixedBytesTy(length) => length > 0
    case SliceTy(elem) => g.GSeq? && AllSurvive(elem, g.vals)
    case ArrayTy(_, _) => false
    case TupleTy(fields) => g.GStruct? && FieldsSurvive(fields, g.vals)
    case FunctionTy => false
  }

  predicate AllSurvive(elem: AbiType, vals: seq<GoVal>)
    decreases elem, |vals| + 1
  {
    vals != [] ==> Survives(elem, vals[0]) && AllSurvive(elem, vals[1..])
  }

  predicate FieldsSurvive(fields: Fields, vals: seq<GoVal>)
    decreases fields, 0
  {
    match fields
    case NoFields => true
    case Field(_, ty, rest) => vals != [] && Survives(ty, vals[0]) && FieldsSurvive(rest, vals[1..])
  }

  /** A Go value becomes JSON, and that becomes the same Go value. */
  predicate ComesBack(m: Machine, t: AbiType, g: GoVal) {
    var v := MapOutput(t, g);
    v.Ok? && Generate(m, t, v.value) == Ok(g)
  }

  predicate ItemsComeBack(m: Machine, elem: AbiType, vals: seq<GoVal>) {
    var items := MapItems(elem, vals);
    items.Ok? && GenItems(m, elem, |items.value|, items.value) == Ok(vals)
  }

  predicate FieldsComeBack(m: Machine, fields: Fields, vals: seq<GoVal>) {
    var members := MapFields(fields, vals);
    members.Ok? && GenFields(m, fields, members.value) == Ok(vals)
  }

  lemma ByteValsComeBack(vals: seq<GoVal>)
    requires AreBytes(vals)
    ensures ByteVals(BytesOf(vals)) == vals
  {
  }

  lemma NativeNumberComesBack(m: Machine, signed: bool, size: int, n: int)
    requires Native(size) && Fits(signed, size, n)
    ensures GenNumber(m, signed, size, JStr(Dec(n))) == Ok(GInt(signed, size, n))
  {
    DecParses(n);
    WrapKeepsIffFits(signed, size, n);
  }

  lemma BigNumberComesBackIff(m: Machine, signed: bool, size: int, n: int)
    requires !Native(size)
    ensures GenNumber(m, signed, size, JStr(Dec(n))) == Ok(GBig(n)) <==> NumberFits(signed, size, n)
  {
    DecParses(n);
  }

  lemma NumbersComeBackIff(m: Machine, signed: bool, size: int, g: GoVal)
    requires NumberHasType(signed, size, g)
    ensures MapNumber(g).Ok? && GenNumber(m, signed, size, MapNumber(g).value) == Ok(g) <==>
              NumberSurvives(signed, size, g)
  {
    if g.GInt? {
      NativeNumberComesBack(m, signed, size, g.n);
    } else if g.GBig? {
      BigNumberComesBackIff(m, signed, size, g.n);
    } else {
      var s := "<nil>";
      assert !IsDigit(s[0]);
    }
  }

  lemma BytesComeBackIff(m: Machine, t: AbiType, g: GoVal)
    requires t.BytesTy? || t.FixedBytesTy?
    requires HasType(t, g)
    ensures ComesBack(m, t, g) <==> Survives(t, g)
  {
    var bytes := BytesOf(g.vals);
    ByteValsComeBack(g.vals);
    HexParses(bytes);
    assert |bytes| == |g.vals|;
    assert MapOutput(t, g) == Ok(JStr(ToHex(bytes)));
    if bytes == [] {
      assert |ByteVals([0])| == 1;
    }
  }

  lemma AddressesComeBack(m: Machine, g: GoVal)
    requires HasType(AddressTy, g)
    ensures ComesBack(m, AddressTy, g)
  {
    var bytes := BytesOf(g.vals);
    ByteValsComeBack(g.vals);
    HexParses(bytes);
    HexTextIsAddressIff(ToHex(bytes));
  }

  lemma TypeOfTyped(t: AbiType, g: GoVal)
    requires HasType(t, g)
    ensures TypeOf(g) == GoTypeOf(t)
  {
  }

  lemma ItemsComeBackOfSome(m: Machine, elem: AbiType, g: GoVal, rest: seq<GoVal>)
    requires TypeOf(g) == GoTypeOf(elem)
    ensures ItemsComeBack(m, elem, [g] + rest) <==> ComesBack(m, elem, g) && ItemsComeBack(m, elem, rest)
  {
    MapItemsOfSome(elem, g, rest);
    var j, js := MapOutput(elem, g), MapItems(elem, rest);
    if j.Ok? && js.Ok? {
      var items := [j.value] + js.value;
      assert items[1..] == js.value;
      GenItemsOfSome(m, elem, |items|, items);
      var first, others := Generate(m, elem, j.value), GenItems(m, elem, |js.value|, js.value);
      if first.Ok? && others.Ok? {
        SameHeadAndTail(first.value, others.value, g, rest);
      }
    }
  }

  lemma {:induction false} ItemsComeBackIff(m: Machine, elem: AbiType, vals: seq<GoVal>)
    requires WellFormed(elem) && AllHaveType(elem, vals)
    ensures ItemsComeBack(m, elem, vals) <==> AllSurvive(elem, vals)
    decreases elem, |vals| + 1
  {
    if vals != [] {
      assert vals == [vals[0]] + vals[1..];
      ComesBackIffSurvives(m, elem, vals[0]);
      ItemsComeBackIff(m, elem, vals[1..]);
      TypeOfTyped(elem, vals[0]);
      ItemsComeBackOfSome(m, elem, vals[0], vals[1..]);
    }
  }

  lemma {:induction false} OnlyNamedMembersMatter(m: Machine, fields: Fields, members: map<string, Json>,
      members': map<string, Json>)
    requires forall k :: k in Names(fields) ==> k in members && k in members' && members[k] == members'[k]
    ensures GenFields(m, fields, members) == GenFields(m, fields, members')
    decreases fields
  {
    if fields.Field? {
      OnlyNamedMembersMatter(m, fields.rest, members, members');
    }
  }

  lemma {:induction false} FieldsComeBackIff(m: Machine, fields: Fields, vals: seq<GoVal>)
    requires WellFormedFields(fields) && FieldsHaveType(fields, vals)
    ensures FieldsComeBack(m, fields, vals) <==> FieldsSurvive(fields, vals)
    decreases fields, 0
  {
    if fields.Field? {
      var g, rest := vals[0], vals[1..];
      assert vals == [g] + rest;
      ComesBackIffSurvives(m, fields.ty, g);
      FieldsComeBackIff(m, fields.rest, rest);
      TypeOfTyped(fields.ty, g);
      var j, below := MapOutput(fields.ty, g), MapFields(fields.rest, rest);
      if j.Ok? && below.Ok? {
        var members := map[fields.name := j.value] + below.value;
        MappedFieldsHaveNames(fields.rest, rest);
        assert members[fields.name] == j.value;
        OnlyNamedMembersMatter(m, fields.rest, members, below.value);
        var first, others := Generate(m, fields.ty, j.value), GenFields(m, fields.rest, below.value);
        if first.Ok? && others.Ok? {
          assert [first.value] + others.value == vals <==> first.value == g && others.value == rest;
        }
      }
    }
  }

  lemma SliceComesBackIff(m: Machine, t: AbiType, g: GoVal)
    requires t.SliceTy? && HasType(t, g)
    ensures ComesBack(m, t, g) <==> ItemsComeBack(m, t.elem, g.vals)
  {
    assert MapOutput(t, g) == MapSlice(t.elem, g);
  }

  lemma TupleComesBackIff(m: Machine, t: AbiType, g: GoVal)
    requires t.TupleTy? && HasType(t, g)
    ensures ComesBack(m, t, g) <==> FieldsComeBack(m, t.fields, g.vals)
  {
  }

  /** The other round trip, for every type and every value of it: what was received can be sent again
      unchanged, exactly unless it holds a fixed array, empty bytes, a number beyond 64 bits for a type of odd
      size below that, or nothing at all. */
  lemma {:induction false} ComesBackIffSurvives(m: Machine, t: AbiType, g: GoVal)
    requires WellFormed(t) && HasType(t, g)
    ensures ComesBack(m, t, g) <==> Survives(t, g)
    decreases t, 0
  {
    match t
    case IntTy(size) => NumbersComeBackIff(m, true, size, g);
    case UintTy(size) => NumbersComeBackIff(m, false, size, g);
    case BoolTy =>
    case StringTy =>
    case AddressTy => AddressesComeBack(m, g);
    case BytesTy => BytesComeBackIff(m, t, g);
    case FixedBytesTy(_) => BytesComeBackIff(m, t, g);
    case SliceTy(elem) =>
      ItemsComeBackIff(m, elem, g.vals);
      SliceComesBackIff(m, t, g);
    case ArrayTy(_, elem) =>
      assert MapOutput(t, g) == MapSlice(elem, g);
    case TupleTy(fields) =>
      FieldsComeBackIff(m, fields, g.vals);
      TupleComesBackIff(m, t, g);
    case FunctionTy =>
  }

  // ---------- Types of what is generated ----------

  lemma {:induction false} ZeroHasType(t: AbiType)
    ensures HasType(t, Zero(GoTypeOf(t)))
    decreases t
  {
    match t
    case ArrayTy(length, elem) =>
      ZeroHasType(elem);
      ZerosHaveType(elem, length);
    case TupleTy(fields) => ZeroFieldsHaveType(fields);
    case _ =>
  }

  lemma {:induction false} ZeroFieldsHaveType(fields: Fields)
    ensures FieldsHaveType(fields, ZeroFields(GoFieldsOf(fields)))
    decreases fields
  {
    if fields.Field? {
      ZeroHasType(fields.ty);
      ZeroFieldsHaveType(fields.rest);
      assert ZeroFields(GoFieldsOf(fields))[1..] == ZeroFields(GoFieldsOf(fields.rest));
    }
  }

  lemma {:induction false} ZerosHaveType(elem: AbiType, count: nat)
    requires HasType(elem, Zero(GoTypeOf(elem)))
    ensures AllHaveType(elem, seq(count, _ => Zero(GoTypeOf(elem))))
    decreases count
  {
    if count > 0 {
      ZerosHaveType(elem, count - 1);
      assert seq(count, _ => Zero(GoTypeOf(elem)))[1..] == seq(count - 1, _ => Zero(GoTypeOf(elem)));
    }
  }

  lemma {:induction false} ListsOfTypeAppend(elem: AbiType, vals: seq<GoVal>, more: seq<GoVal>)
    requires AllHaveType(elem, vals) && AllHaveType(elem, more)
    ensures AllHaveType(elem, vals + more)
    decreases |vals|
  {
    if vals == [] {
      assert vals + more == more;
    } else {
      ListsOfTypeAppend(elem, vals[1..], more);
      assert (vals + more)[1..] == vals[1..] + more;
    }
  }

  lemma {:induction false} GeneratedItemsHaveType(m: Machine, elem: AbiType, room: nat, items: seq<Json>)
    requires GenItems(m, elem, room, items).Ok?
    ensures AllHaveType(elem, GenItems(m, elem, room, items).value)
    ensures |GenItems(m, elem, room, items).value| == |items| <= room
    decreases elem, |items| + 1
  {
    if items != [] {
      GeneratedHasType(m, elem, items[0]);
      GeneratedItemsHaveType(m, elem, room - 1, items[1..]);
      assert GenItems(m, elem, room, items).value[1..] == GenItems(m, elem, room - 1, items[1..]).value;
    }
  }

  lemma {:induction false} GeneratedFieldsHaveType(m: Machine, fields: Fields, members: map<string, Json>)
    requires GenFields(m, fields, members).Ok?
    ensures FieldsHaveType(fields, GenFields(m, fields, members).value)
    decreases fields, 0
  {
    if fields.Field? {
      GeneratedHasType(m, fields.ty, members[fields.name]);
      GeneratedFieldsHaveType(m, fields.rest, members);
      assert GenFields(m, fields, members).value[1..] == GenFields(m, fields.rest, members).value;
    }
  }

  lemma GeneratedNumberHasType(m: Machine, signed: bool, size: int, v: Json)
    requires GenNumber(m, signed, size, v).Ok?
    ensures NumberHasType(signed, size, GenNumber(m, signed, size, v).value)
  {
    if Native(size) {
      WrapKeepsIffFits(signed, size, Get64(m, signed, v).value);
    }
  }

  lemma {:induction false} GeneratedArrayHasType(m: Machine, t: AbiType, v: Json)
    requires t.ArrayTy? && Generate(m, t, v).Ok?
    requires AllHaveType(t.elem, GenItems(m, t.elem, t.length, v.items).value)
    requires |GenItems(m, t.elem, t.length, v.items).value| == |v.items| <= t.length
    ensures HasType(t, Generate(m, t, v).value)
  {
    ZeroHasType(t.elem);
    ZerosHaveType(t.elem, t.length - |v.items|);
    ListsOfTypeAppend(t.elem, GenItems(m, t.elem, t.length, v.items).value,
                      seq(t.length - |v.items|, _ => Zero(GoTypeOf(t.elem))));
  }

  lemma GeneratedBytesHaveType(m: Machine, t: AbiType, v: Json)
    requires (t.BytesTy? || t.FixedBytesTy?) && Generate(m, t, v).Ok?
    ensures var g := Generate(m, t, v).value;
            && (HasType(t, g) || (g.GSeq? && (if t.FixedBytesTy? then |g.vals| != t.length else g.vals == [])))
            && (HasType(t, g) <==> TypeOf(g) == GoTypeOf(t))
  {
  }

  /** Whatever is generated is of the wanted type all the way down, except that the bytes at the top may be
      too few, too many, or none. */
  lemma {:induction false} GeneratedHasType(m: Machine, t: AbiType, v: Json)
    requires Generate(m, t, v).Ok?
    ensures var g := Generate(m, t, v).value;
            HasType(t, g) || (g.GSeq? && ((t.FixedBytesTy? && |g.vals| != t.length) || (t.BytesTy? && g.vals == [])))
    ensures HasType(t, Generate(m, t, v).value) <==> TypeOf(Generate(m, t, v).value) == GoTypeOf(t)
    decreases t, 0
  {
    match t
    case IntTy(size) => GeneratedNumberHasType(m, true, size, v);
    case UintTy(size) => GeneratedNumberHasType(m, false, size, v);
    case AddressTy => AddressHas20Bytes(v.s);
    case BytesTy => GeneratedBytesHaveType(m, t, v);
    case FixedBytesTy(_) => GeneratedBytesHaveType(m, t, v);
    case SliceTy(elem) => GeneratedItemsHaveType(m, elem, |v.items|, v.items);
    case ArrayTy(length, elem) =>
      GeneratedItemsHaveType(m, elem, length, v.items);
      GeneratedArrayHasType(m, t, v);
    case TupleTy(fields) => GeneratedFieldsHaveType(m, fields, v.members);
    case _ =>
  }

  /** So a number that is too large for its machine size is sent as another number. */
  lemma LargeNumberIsSentAsAnother(m: Machine)
    ensures Generate(m, UintTy(8), JStr("256")) == Ok(GInt(false, 8, 0))
    ensures MapOutput(UintTy(8), GInt(false, 8, 0)) == Ok(JStr("0"))
  {
    var s := "256";
    assert s[..2][..1] == "2" && s[..2] == "25";
    assert Value(s[..2][..1][..0]) == 0 && Value(s[..2][..1]) == 2 && Value(s[..2]) == 25 && Value(s) == 256;
  }
}
