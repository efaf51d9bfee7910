/** What each JSON input of generateTypedArg means (internal/maidenlaneeth/txn.go), also where it is not in the form
    that the bridge itself writes: laws that relate inputs to each other, and lists and objects to their members. */
module AbiInputs {
  import opened Text
  import opened AbiTyping

  // ---------- Numbers ----------

  /** The numbers that a JSON number can stand for: a floating-point number is converted by way of 64 bits. */
  predicate NumberInRange(t: AbiType, n: int) {
    match t
    case IntTy(_) => -0x8000_0000_0000_0000 <= n < 0x8000_0000_0000_0000
    case UintTy(size) =>
      if size > 64 then -0x8000_0000_0000_0000 <= n < 0x8000_0000_0000_0000
      else 0 <= n < if Native(size) then 0x1_0000_0000_0000_0000 else 0x8000_0000_0000_0000
    case _ => false
  }

  /** A number is cut off towards zero. */
  lemma TruncatesTowardsZero(x: real)
    ensures x >= 0.0 ==> Truncate(x) >= 0 && Truncate(x) as real <= x < Truncate(x) as real + 1.0
    ensures x <= 0.0 ==> Truncate(x) <= 0 && Truncate(x) as real - 1.0 < x <= Truncate(x) as real
  {
  }

  lemma FloatKeepsIffFits(m: Machine, signed: bool, x: real)
    ensures Fits(signed, 64, FloatTo64(m, signed, x))
    ensures FloatTo64(m, signed, x) == Truncate(x) <==> Fits(signed, 64, Truncate(x))
  {
    WrapKeepsIffFits(signed, 64, m(signed, x));
  }

  lemma TypedNumber(m: Machine, signed: bool, size: int, x: real)
    ensures GenNumber(m, signed, size, JNum(x))
         == Ok(if size <= 64 && Native(size) then GInt(signed, size, Wrap(signed, size, FloatTo64(m, signed, x)))
               else GBig(FloatTo64(m, true, x)))
  {
  }

  lemma TypedText(m: Machine, signed: bool, size: int, n: int)
    ensures GenNumber(m, signed, size, JStr(Dec(n)))
         == if size > 64 then Ok(GBig(n))
            else if !Fits(signed, 64, n) then Err(BadNumber)
            else Ok(if Native(size) then GInt(signed, size, Wrap(signed, size, n)) else GBig(n))
  {
    DecParses(n);
  }

  /** A JSON number is typed like the decimal text of its integer part exactly if that is in range: beyond it the
      text is refused or keeps its value, and the number does not. */
  lemma NumberIsItsTextIff(m: Machine, t: AbiType, x: real)
    requires t.IntTy? || t.UintTy?
    ensures Generate(m, t, JNum(x)) == Generate(m, t, JStr(Dec(Truncate(x)))) <==> NumberInRange(t, Truncate(x))
  {
    FloatKeepsIffFits(m, true, x);
    FloatKeepsIffFits(m, t.IntTy?, x);
    TypedNumber(m, t.IntTy?, t.size, x);
    TypedText(m, t.IntTy?, t.size, Truncate(x));
  }

  /** Text of up to 64 bits becomes the number that is congruent to it and fits the type, and other text for these
      types is refused. */
  lemma NumberFromText(m: Machine, signed: bool, size: int, s: string)
    requires Native(size)
    ensures var n := if signed then ParseSigned(s) else ParseUnsigned(s);
            var r := Generate(m, if signed then IntTy(size) else UintTy(size), JStr(s));
            if n.Some? && Fits(signed, 64, n.value) then
              && r.Ok? && r.value.GInt? && TypeOf(r.value) == TInt(signed, size)
              && Fits(signed, size, r.value.n) && (r.value.n - n.value) % Span(size) == 0
            else r == Err(BadNumber)
  {
    var n := if signed then ParseSigned(s) else ParseUnsigned(s);
    if n.Some? {
      WrapKeepsIffFits(signed, size, n.value);
      WrapIsCongruent(signed, size, n.value);
    }
  }

  lemma WrapIsCongruent(signed: bool, bits: int, n: int)
    requires Native(bits)
    ensures (Wrap(signed, bits, n) - n) % Span(bits) == 0
  {
    var k := n - Lowest(signed, bits);
    assert Wrap(signed, bits, n) - n == -Span(bits) * (k / Span(bits));
    MultipleOfSpan(bits, -(k / Span(bits)));
  }

  lemma MultipleOfSpan(bits: int, q: int)
    requires Native(bits)
    ensures Span(bits) * q % Span(bits) == 0
  {
  }

  // ---------- Truth values, text, addresses and bytes ----------

  lemma SaysTrueIff(s: string)
    ensures IsTrueText(s) <==> Lower(s) == "true"
  {
    if Lower(s) == "true" {
      assert |s| == 4;
      assert Lower(s)[0] == 't' && Lower(s)[1] == 'r' && Lower(s)[2] == 'u' && Lower(s)[3] == 'e';
    }
  }

  /** Text is true if it says so in any case, and false otherwise. */
  lemma BoolFromText(m: Machine, s: string)
    ensures Generate(m, BoolTy, JStr(s)) == Generate(m, BoolTy, JBool(Lower(s) == "true"))
  {
    SaysTrueIff(s);
  }

  /** An address is 40 hexadecimal digits in any case, with or without a prefix. */
  lemma AddressFromText(m: Machine, s: string)
    ensures var r := Generate(m, AddressTy, JStr(s));
            var digits := WithoutPrefix(s);
            if |digits| == 40 && forall i :: 0 <= i < 40 ==> IsHexDigit(digits[i]) then
              r == Generate(m, AddressTy, JStr("0x" + Lower(digits)))
            else r == Err(BadAddress)
  {
    var digits := WithoutPrefix(s);
    if |digits| == 40 && forall i :: 0 <= i < 40 ==> IsHexDigit(digits[i]) {
      var text := "0x" + Lower(digits);
      assert WithoutPrefix(text) == Lower(digits);
      assert IsHexAddress(text) && IsHexAddress(s);
      DecodeIgnoresCase(digits);
    }
  }

  predicate IsByteNumber(v: Json) {
    v.JNum? && 0.0 <= v.x <= 255.0
  }

  predicate AllBytes(items: seq<Json>) {
    forall i :: 0 <= i < |items| ==> IsByteNumber(items[i])
  }

  function ByteOf(v: Json): Byte
    requires IsByteNumber(v)
  {
    Truncate(v.x)
  }

  /** Each number is cut off. */
  function BytesOfNumbers(items: seq<Json>): (bytes: seq<Byte>)
    requires AllBytes(items)
    ensures |bytes| == |items|
  {
    seq(|items|, i requires 0 <= i < |items| && IsByteNumber(items[i]) => ByteOf(items[i]))
  }

  lemma {:induction false} NumbersAreBytes(items: seq<Json>)
    ensures NumbersToBytes(items)
         == if AllBytes(items) then Ok(BytesOfNumbers(items)) else Err(BadByte)
  {
    if items != [] {
      NumbersAreBytes(items[1..]);
      if AllBytes(items) {
        assert BytesOfNumbers(items) == [ByteOf(items[0])] + BytesOfNumbers(items[1..]);
      } else if IsByteNumber(items[0]) {
        var i :| 0 <= i < |items| && !IsByteNumber(items[i]);
        assert !IsByteNumber(items[1..][i - 1]);
      }
    }
  }

  /** A list of numbers is typed like the hexadecimal text of its bytes, and refused if one is no byte. */
  lemma BytesFromNumbers(m: Machine, t: AbiType, items: seq<Json>)
    requires t.BytesTy? || t.FixedBytesTy?
    ensures Generate(m, t, JArr(items))
         == if AllBytes(items)
            then Generate(m, t, JStr("0x" + EncodeHex(BytesOfNumbers(items))))
            else Err(BadByte)
  {
    NumbersAreBytes(items);
    if AllBytes(items) {
      HexWithPrefix(BytesOfNumbers(items));
    }
  }

  /** Text is never refused: the bytes it decodes to are kept in their order, whatever their number. Without any, the
      result is an empty array also where a slice was wanted. */
  lemma BytesFromText(m: Machine, t: AbiType, s: string)
    requires t.BytesTy? || t.FixedBytesTy?
    ensures var r, bytes := Generate(m, t, JStr(s)), FromHex(s);
            && r.Ok? && r.value.GSeq? && BytesOf(r.value.vals) == bytes
            && r.value.ty == if t.BytesTy? && bytes != [] then TSlice(U8) else TArray(|bytes|, U8)
  {
    BytesAreKept(t, FromHex(s));
  }

  lemma BytesAreKept(t: AbiType, bytes: seq<Byte>)
    ensures var g := GenBytes(t, bytes);
            && g.GSeq? && BytesOf(g.vals) == bytes
            && g.ty == if t.BytesTy? && bytes != [] then TSlice(U8) else TArray(|bytes|, U8)
  {
    BytesComeBack(bytes);
  }

  /** The kinds of JSON that a type takes. */
  predicate Takes(t: AbiType, v: Json) {
    match v
    case JNull => false
    case JBool(_) => t.BoolTy?
    case JNum(_) => t.IntTy? || t.UintTy?
    case JStr(_) => !t.SliceTy? && !t.ArrayTy? && !t.TupleTy? && !t.FunctionTy?
    case JArr(_) => t.SliceTy? || t.ArrayTy? || t.BytesTy? || t.FixedBytesTy?
    case JObj(_) => t.TupleTy?
  }

  /** Another kind is refused, and says what was wanted. */
  lemma OtherKindIsRefused(m: Machine, t: AbiType, v: Json)
    requires !Takes(t, v)
    ensures Generate(m, t, v)
         == Err(if v.JNull? then BadNull else if t.IntTy? || t.UintTy? then NotANumber
                else if t.BoolTy? then NotABool else if t.StringTy? then NotAString
                else if t.AddressTy? then NotAnAddress else if t.BytesTy? || t.FixedBytesTy? then NotBytes
                else if t.SliceTy? || t.ArrayTy? then NotAList else if t.TupleTy? then NotAnObject
                else NotSupported)
  {
  }

  // ---------- Lists ----------

  /** An item that can be stored in a list of the element type. */
  predicate Storable(m: Machine, elem: AbiType, v: Json) {
    Generate(m, elem, v).Ok? && TypeOf(Generate(m, elem, v).value) == GoTypeOf(elem)
  }

  /** The first item that cannot be stored decides how filling a list ends, or the first without room. */
  predicate EndsAt<T>(m: Machine, elem: AbiType, room: nat, items: seq<Json>, k: nat, r: Outcome<T>) {
    && k < |items| && k <= room && (forall i :: 0 <= i < k ==> Storable(m, elem, items[i]))
    && match Generate(m, elem, items[k])
       case Err(e) => r == Err(e)
       case Panic => r.Panic?
       case Ok(g) => r.Panic? && (k == room || TypeOf(g) != GoTypeOf(elem))
  }

  /** Each value comes from the item at its place. */
  ghost predicate ComeFrom(m: Machine, elem: AbiType, items: seq<Json>, vals: seq<GoVal>) {
    |items| <= |vals| &&
    forall i :: 0 <= i < |items| ==> Storable(m, elem, items[i]) && vals[i] == Generate(m, elem, items[i]).value
  }

  lemma {:induction false} ItemsMeaning(m: Machine, elem: AbiType, room: nat, items: seq<Json>)
    ensures var r := GenItems(m, elem, room, items);
            if r.Ok? then |items| <= room && |r.value| == |items| && ComeFrom(m, elem, items, r.value)
            else exists k: nat :: EndsAt(m, elem, room, items, k, r)
    decreases |items|
  {
    if items != [] {
      var r := GenItems(m, elem, room, items);
      if Storable(m, elem, items[0]) && room > 0 {
        var rest := GenItems(m, elem, room - 1, items[1..]);
        ItemsMeaning(m, elem, room - 1, items[1..]);
        GenItemsOfSome(m, elem, room, items);
        if rest.Ok? {
          ComeFromMore(m, elem, items, rest.value);
        } else {
          var k: nat :| EndsAt(m, elem, room - 1, items[1..], k, rest);
          EndsLater(m, elem, room, items, k, rest, r);
        }
      } else {
        assert EndsAt(m, elem, room, items, 0, r);
      }
    }
  }

  lemma ComeFromMore(m: Machine, elem: AbiType, items: seq<Json>, vals: seq<GoVal>)
    requires items != [] && Storable(m, elem, items[0]) && ComeFrom(m, elem, items[1..], vals)
    ensures ComeFrom(m, elem, items, [Generate(m, elem, items[0]).value] + vals)
  {
    var all := [Generate(m, elem, items[0]).value] + vals;
    forall i | 0 <= i < |items|
      ensures Storable(m, elem, items[i]) && all[i] == Generate(m, elem, items[i]).value
    {
      if i > 0 {
        assert items[i] == items[1..][i - 1] && all[i] == vals[i - 1];
      }
    }
  }

  lemma EndsLater<S, T>(m: Machine, elem: AbiType, room: nat, items: seq<Json>, k: nat, r: Outcome<S>, r': Outcome<T>)
    requires items != [] && room > 0 && Storable(m, elem, items[0])
    requires EndsAt(m, elem, room - 1, items[1..], k, r)
    requires !r'.Ok? && r'.Panic? == r.Panic? && (r.Err? ==> r'.reason == r.reason)
    ensures EndsAt(m, elem, room, items, k + 1, r')
  {
    assert items[1..][k] == items[k + 1];
    forall i | 0 <= i < k + 1 ensures Storable(m, elem, items[i]) {
      if i > 0 {
        assert items[i] == items[1..][i - 1];
      }
    }
  }

  /** A slice has the values of its items, and ends with the first item that has none of its element type. */
  lemma SliceFromItems(m: Machine, elem: AbiType, items: seq<Json>)
    ensures var r := Generate(m, SliceTy(elem), JArr(items));
            if r.Ok? then
              r.value.GSeq? && r.value.ty == TSlice(GoTypeOf(elem))
              && |r.value.vals| == |items| && ComeFrom(m, elem, items, r.value.vals)
            else exists k: nat :: EndsAt(m, elem, |items|, items, k, r)
  {
    ItemsMeaning(m, elem, |items|, items);
    var r, filled := Generate(m, SliceTy(elem), JArr(items)), GenItems(m, elem, |items|, items);
    if !filled.Ok? {
      var k: nat :| EndsAt(m, elem, |items|, items, k, filled);
      assert EndsAt(m, elem, |items|, items, k, r);
    }
  }

  /** What Go stores in a place that nothing was put in. */
  predicate IsZero(ty: GoType, g: GoVal)
  {
    match ty
    case TInt(signed, bits) => g == GInt(signed, bits, 0)
    case TBig => g == GNilBig
    case TBool => g == GBool(false)
    case TString => g == GStr("")
    case TAddress =>
      g.GSeq? && g.ty == ty && |g.vals| == 20 && forall i :: 0 <= i < 20 ==> g.vals[i] == GInt(false, 8, 0)
    case TSlice(_) => g.GSeq? && g.ty == ty && g.vals == []
    case TArray(length, elem) =>
      g.GSeq? && g.ty == ty && |g.vals| == length && forall i :: 0 <= i < length ==> IsZero(elem, g.vals[i])
    case TStruct(fields) => g.GStruct? && g.ty == ty && AreZero(fields, g.vals)
  }

  predicate AreZero(fields: GoFields, vals: seq<GoVal>) {
    match fields
    case NoGoFields => vals == []
    case GoField(_, ty, rest) => vals != [] && IsZero(ty, vals[0]) && AreZero(rest, vals[1..])
  }

  lemma {:induction false} ZeroIsZero(ty: GoType)
    ensures IsZero(ty, Zero(ty))
  {
    match ty
    case TArray(_, elem) => ZeroIsZero(elem);
    case TStruct(fields) => ZerosAreZero(fields);
    case _ =>
  }

  lemma {:induction false} ZerosAreZero(fields: GoFields)
    ensures AreZero(fields, ZeroFields(fields))
  {
    match fields
    case NoGoFields =>
    case GoField(_, ty, rest) =>
      ZeroIsZero(ty);
      ZerosAreZero(rest);
      assert ZeroFields(fields)[1..] == ZeroFields(rest);
  }

  /** A fixed array has the values of its items and zeros after them; more items than places end in a panic, unless
      an item before them, or the first of them, has no value. */
  lemma ArrayFromItems(m: Machine, length: nat, elem: AbiType, items: seq<Json>)
    ensures var r := Generate(m, ArrayTy(length, elem), JArr(items));
            if r.Ok? then
              && r.value.GSeq? && r.value.ty == TArray(length, GoTypeOf(elem))
              && |items| <= |r.value.vals| == length && ComeFrom(m, elem, items, r.value.vals)
              && forall i :: |items| <= i < length ==> IsZero(GoTypeOf(elem), r.value.vals[i])
            else exists k: nat :: EndsAt(m, elem, length, items, k, r)
  {
    ItemsMeaning(m, elem, length, items);
    ZeroIsZero(GoTypeOf(elem));
    var r, filled := Generate(m, ArrayTy(length, elem), JArr(items)), GenItems(m, elem, length, items);
    if !filled.Ok? {
      var k: nat :| EndsAt(m, elem, length, items, k, filled);
      assert EndsAt(m, elem, length, items, k, r);
    }
  }

  // ---------- Objects ----------

  function Length(fields: Fields): nat {
    if fields.NoFields? then 0 else 1 + Length(fields.rest)
  }

  function FieldAt(fields: Fields, k: nat): Fields
    requires k < Length(fields)
    ensures FieldAt(fields, k).Field?
  {
    if k == 0 then fields else FieldAt(fields.rest, k - 1)
  }

  predicate FieldStorable(m: Machine, f: Fields, members: map<string, Json>) {
    f.Field? && f.name in members && Storable(m, f.ty, members[f.name])
  }

  /** The first field that is missing, has no value, or one of another type, decides how an object is refused. */
  predicate RefusedAt<T>(m: Machine, fields: Fields, members: map<string, Json>, k: nat, r: Outcome<T>) {
    && k < Length(fields)
    && (forall i :: 0 <= i < k ==> FieldStorable(m, FieldAt(fields, i), members))
    && var f := FieldAt(fields, k);
       if f.name !in members then r == Err(NotAssignable)
       else match Generate(m, f.ty, members[f.name])
         case Err(e) => r == Err(e)
         case Panic => r.Panic?
         case Ok(g) => TypeOf(g) != GoTypeOf(f.ty) && r == Err(NotAssignable)
  }

  lemma {:induction false} FieldsMeaning(m: Machine, fields: Fields, members: map<string, Json>)
    ensures var r := GenFields(m, fields, members);
            if r.Ok? then
              |r.value| == Length(fields) && forall i :: 0 <= i < Length(fields) ==>
                var f := FieldAt(fields, i);
                FieldStorable(m, f, members) && r.value[i] == Generate(m, f.ty, members[f.name]).value
            else exists k: nat :: RefusedAt(m, fields, members, k, r)
  {
    if fields.Field? {
      var r := GenFields(m, fields, members);
      if FieldStorable(m, fields, members) {
        FieldsMeaning(m, fields.rest, members);
        var rest := GenFields(m, fields.rest, members);
        if !rest.Ok? {
          var k: nat :| RefusedAt(m, fields.rest, members, k, rest);
          assert FieldAt(fields, k + 1) == FieldAt(fields.rest, k);
          forall i | 0 <= i < k + 1 ensures FieldStorable(m, FieldAt(fields, i), members) {
            if i > 0 {
              assert FieldAt(fields, i) == FieldAt(fields.rest, i - 1);
            }
          }
          assert RefusedAt(m, fields, members, k + 1, r);
        }
      } else {
        assert RefusedAt(m, fields, members, 0, r);
      }
    }
  }

  /** A struct has, in the order of its fields, the values of the members of the same name; other members do not
      matter. */
  lemma StructFromObject(m: Machine, fields: Fields, members: map<string, Json>)
    ensures var r := Generate(m, TupleTy(fields), JObj(members));
            if r.Ok? then
              && r.value.GStruct? && r.value.ty == GoTypeOf(TupleTy(fields))
              && |r.value.vals| == Length(fields) && forall i :: 0 <= i < Length(fields) ==>
                   var f := FieldAt(fields, i);
                   FieldStorable(m, f, members) && r.value.vals[i] == Generate(m, f.ty, members[f.name]).value
            else exists k: nat :: RefusedAt(m, fields, members, k, r)
  {
    FieldsMeaning(m, fields, members);
    var r, filled := Generate(m, TupleTy(fields), JObj(members)), GenFields(m, fields, members);
    if !filled.Ok? {
      var k: nat :| RefusedAt(m, fields, members, k, filled);
      assert RefusedAt(m, fields, members, k, r);
    }
  }

  // ---------- Lists and structs that are written ----------

  /** The first value that cannot be written decides. */
  predicate UnmappedAt<T>(elem: AbiType, vals: seq<GoVal>, k: nat, r: Outcome<T>) {
    && k < |vals| && (forall i :: 0 <= i < k ==> MapOutput(elem, vals[i]).Ok?)
    && match MapOutput(elem, vals[k])
       case Err(e) => r == Err(e)
       case Panic => r.Panic?
       case Ok(_) => false
  }

  lemma {:induction false} MappedItems(elem: AbiType, vals: seq<GoVal>)
    ensures var r := MapItems(elem, vals);
            if r.Ok? then
              |r.value| == |vals| && forall i :: 0 <= i < |vals| ==> MapOutput(elem, vals[i]) == Ok(r.value[i])
            else exists k: nat :: UnmappedAt(elem, vals, k, r)
    decreases |vals|
  {
    if vals != [] {
      var r := MapItems(elem, vals);
      if MapOutput(elem, vals[0]).Ok? {
        MappedItems(elem, vals[1..]);
        var rest := MapItems(elem, vals[1..]);
        if !rest.Ok? {
          var k: nat :| UnmappedAt(elem, vals[1..], k, rest);
          forall i | 0 <= i < k + 1 ensures MapOutput(elem, vals[i]).Ok? {
            if i > 0 {
              assert vals[i] == vals[1..][i - 1];
            }
          }
          assert UnmappedAt(elem, vals, k + 1, r);
        }
      } else {
        assert UnmappedAt(elem, vals, 0, r);
      }
    }
  }

  /** A slice is written item by item, or refused as its first item that cannot be written. */
  lemma SliceIsWrittenItemwise(elem: AbiType, g: GoVal)
    requires g.GSeq? && g.ty.TSlice?
    ensures var r := MapOutput(SliceTy(elem), g);
            if r.Ok? then
              r.value.JArr? && |r.value.items| == |g.vals|
              && forall i :: 0 <= i < |g.vals| ==> MapOutput(elem, g.vals[i]) == Ok(r.value.items[i])
            else exists k: nat :: UnmappedAt(elem, g.vals, k, r)
  {
    MappedItems(elem, g.vals);
    var r, items := MapOutput(SliceTy(elem), g), MapItems(elem, g.vals);
    if !items.Ok? {
      var k: nat :| UnmappedAt(elem, g.vals, k, items);
      assert UnmappedAt(elem, g.vals, k, r);
    }
  }

  /** Field k gives the member of its name. */
  predicate GivesMember(fields: Fields, vals: seq<GoVal>, k: nat, members: map<string, Json>)
    requires k < Length(fields) == |vals|
  {
    var f := FieldAt(fields, k);
    f.name in members && MapOutput(f.ty, vals[k]) == Ok(members[f.name])
  }

  lemma {:induction false} MappedFields(fields: Fields, vals: seq<GoVal>)
    requires WellFormedFields(fields) && MapFields(fields, vals).Ok?
    ensures |vals| == Length(fields) && MapFields(fields, vals).value.Keys == Names(fields)
    ensures forall k :: 0 <= k < Length(fields) ==> GivesMember(fields, vals, k, MapFields(fields, vals).value)
  {
    if fields.Field? {
      MappedFields(fields.rest, vals[1..]);
      var members, more := MapFields(fields, vals).value, MapFields(fields.rest, vals[1..]).value;
      forall k | 0 <= k < Length(fields) ensures GivesMember(fields, vals, k, members) {
        if k > 0 {
          NameIsListed(fields.rest, k - 1);
          assert GivesMember(fields.rest, vals[1..], k - 1, more);
        }
      }
    }
  }

  lemma {:induction false} NameIsListed(fields: Fields, k: nat)
    requires k < Length(fields)
    ensures FieldAt(fields, k).name in Names(fields)
  {
    if k > 0 {
      NameIsListed(fields.rest, k - 1);
    }
  }

  /** A struct is written as an object with one member for each of its fields; a struct of another type is not. */
  lemma StructIsWrittenFieldwise(fields: Fields, g: GoVal)
    requires WellFormedFields(fields)
    ensures var r := MapOutput(TupleTy(fields), g);
            && (r.Ok? ==>
                  && g.GStruct? && g.ty == GoTypeOf(TupleTy(fields)) && |g.vals| == Length(fields)
                  && r.value.JObj? && r.value.members.Keys == Names(fields)
                  && forall k :: 0 <= k < Length(fields) ==> GivesMember(fields, g.vals, k, r.value.members))
            && (!g.GStruct? || g.ty != GoTypeOf(TupleTy(fields)) ==> r == Err(MismatchedTuple))
  {
    if MapOutput(TupleTy(fields), g).Ok? {
      MappedFields(fields, g.vals);
    }
  }
}
