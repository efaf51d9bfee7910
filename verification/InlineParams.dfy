/** Parameters with their types written beside them (internal/maidenlaneeth/txn.go: flattenParams,
    generateTypedArgs, and the two ways a transaction names its method). */
module InlineParams {
  import opened Wrappers
  import opened AbiTyping

  /** The ABI library's reading of a type name: nothing for a name it does not know. */
  type TypeReader = string -> Option<AbiType>

  datatype FlatError = WrongStructure(i: nat) | TypeNotText(i: nat) | UnknownTypeName(i: nat)

  /** Why the loop ends early. A type that is null makes reflection panic. */
  datatype Halt = Failed(error: FlatError) | Panics(i: nat)

  /** TooMany is an error that is noted before the loop and returned only if nothing overwrites it. */
  datatype Status = Fine | TooMany | Stopped(why: Halt)

  datatype Flat = Flat(params: seq<Json>, inputs: seq<AbiType>, status: Status)

  /** What one parameter turns out to be. */
  datatype Reading = Kept(v: Json) | Typed(v: Json, ty: AbiType) | Bad(why: Halt)

  /** An argument that was never declared: the zero value of its type is a signed integer of size zero. */
  const UNDECLARED := IntTy(0)

  predicate StaysObject(inputs: seq<AbiType>, i: nat) {
    i < |inputs| && inputs[i].TupleTy?
  }

  function Read(reader: TypeReader, inputs: seq<AbiType>, i: nat, v: Json): Reading {
    if !v.JObj? || StaysObject(inputs, i) then Kept(v)
    else if "value" !in v.members || "type" !in v.members then Bad(Failed(WrongStructure(i)))
    else if v.members["type"].JNull? then Bad(Panics(i))
    else if !v.members["type"].JStr? then Bad(Failed(TypeNotText(i)))
    else
      match reader(v.members["type"].s)
      case Some(ty) => Typed(v.members["value"], ty)
      case None => Bad(Failed(UnknownTypeName(i)))
  }

  function SetInput(inputs: seq<AbiType>, i: nat, ty: AbiType): seq<AbiType> {
    if i < |inputs| then inputs[i := ty]
    else inputs + seq(i - |inputs|, _ => UNDECLARED) + [ty]
  }

  /** After the first k parameters. */
  function FlattenUpTo(reader: TypeReader, orig: seq<Json>, inputs: seq<AbiType>, lazy: bool, k: nat): Flat
    requires k <= |orig|
  {
    if k == 0 then Flat([], inputs, if !lazy && |orig| > |inputs| then TooMany else Fine)
    else
      var f := FlattenUpTo(reader, orig, inputs, lazy, k - 1);
      if f.status.Stopped? then f
      else
        match Read(reader, f.inputs, k - 1, orig[k - 1])
        case Kept(v) => f.(params := f.params + [v])
        case Typed(v, ty) => Flat(f.params + [v], SetInput(f.inputs, k - 1, ty), Fine)
        case Bad(e) => f.(status := Stopped(e))
  }

  function Flatten(reader: TypeReader, orig: seq<Json>, inputs: seq<AbiType>, lazy: bool): Flat {
    FlattenUpTo(reader, orig, inputs, lazy, |orig|)
  }

  // ---------- What flattening means ----------

  predicate AllRead(reader: TypeReader, orig: seq<Json>, inputs: seq<AbiType>, k: nat)
    requires k <= |orig|
  {
    forall i :: 0 <= i < k ==> !Read(reader, inputs, i, orig[i]).Bad?
  }

  predicate SomeInline(reader: TypeReader, orig: seq<Json>, inputs: seq<AbiType>, k: nat)
    requires k <= |orig|
  {
    exists i :: 0 <= i < k && Read(reader, inputs, i, orig[i]).Typed?
  }

  /** One more than the position of the last parameter with a type of its own. */
  function InlineLength(reader: TypeReader, orig: seq<Json>, inputs: seq<AbiType>, k: nat): (n: nat)
    requires k <= |orig|
    ensures n <= k
  {
    if k == 0 then 0
    else if Read(reader, inputs, k - 1, orig[k - 1]).Typed? then k
    else InlineLength(reader, orig, inputs, k - 1)
  }

  /** The type for argument i: its own, the declared one, or that of an argument nobody declared. */
  function InputAt(reader: TypeReader, orig: seq<Json>, inputs: seq<AbiType>, k: nat, i: nat): AbiType
    requires k <= |orig|
  {
    if i < k && Read(reader, inputs, i, orig[i]).Typed? then Read(reader, inputs, i, orig[i]).ty
    else if i < |inputs| then inputs[i]
    else UNDECLARED
  }

  predicate InputsMean(reader: TypeReader, orig: seq<Json>, inputs: seq<AbiType>, k: nat, inputs': seq<AbiType>)
    requires k <= |orig|
  {
    && |inputs'| == (var n := InlineLength(reader, orig, inputs, k); if n > |inputs| then n else |inputs|)
    && (forall i :: 0 <= i < |inputs'| ==> inputs'[i] == InputAt(reader, orig, inputs, k, i))
  }

  predicate ParamsMean(reader: TypeReader, orig: seq<Json>, inputs: seq<AbiType>, k: nat, params: seq<Json>)
    requires k <= |orig| && AllRead(reader, orig, inputs, k)
  {
    && |params| == k
    && (forall i :: 0 <= i < k ==> params[i] == Read(reader, inputs, i, orig[i]).v)
  }

  lemma SameReading(reader: TypeReader, orig: seq<Json>, inputs: seq<AbiType>, k: nat, inputs': seq<AbiType>)
    requires k < |orig| && InputsMean(reader, orig, inputs, k, inputs')
    ensures Read(reader, inputs', k, orig[k]) == Read(reader, inputs, k, orig[k])
  {
    assert k < |inputs'| <==> k < |inputs|;
  }

  lemma {:induction false} BareAfterLastInline(reader: TypeReader, orig: seq<Json>, inputs: seq<AbiType>,
      k: nat, i: nat)
    requires k <= |orig| && InlineLength(reader, orig, inputs, k) <= i < k
    ensures !Read(reader, inputs, i, orig[i]).Typed?
  {
    if i < k - 1 {
      BareAfterLastInline(reader, orig, inputs, k - 1, i);
    }
  }

  lemma InputsMeanNext(reader: TypeReader, orig: seq<Json>, inputs: seq<AbiType>, k: nat, inputs': seq<AbiType>)
    requires k < |orig| && InputsMean(reader, orig, inputs, k, inputs')
    ensures var r := Read(reader, inputs, k, orig[k]);
            InputsMean(reader, orig, inputs, k + 1, if r.Typed? then SetInput(inputs', k, r.ty) else inputs')
  {
    var r := Read(reader, inputs, k, orig[k]);
    if r.Typed? {
      var next := SetInput(inputs', k, r.ty);
      forall i | 0 <= i < |next| ensures next[i] == InputAt(reader, orig, inputs, k + 1, i) {
        if |inputs'| <= i < k {
          BareAfterLastInline(reader, orig, inputs, k, i);
        }
      }
    }
  }

  lemma {:induction false} FlattenMeansInputs(reader: TypeReader, orig: seq<Json>, inputs: seq<AbiType>,
      lazy: bool, k: nat)
    requires k <= |orig|
    requires !FlattenUpTo(reader, orig, inputs, lazy, k).status.Stopped?
    ensures InputsMean(reader, orig, inputs, k, FlattenUpTo(reader, orig, inputs, lazy, k).inputs)
  {
    if k > 0 {
      FlattenMeansInputs(reader, orig, inputs, lazy, k - 1);
      var f := FlattenUpTo(reader, orig, inputs, lazy, k - 1);
      SameReading(reader, orig, inputs, k - 1, f.inputs);
      InputsMeanNext(reader, orig, inputs, k - 1, f.inputs);
    }
  }

  /** The loop stops exactly at a parameter that cannot be read. Too many parameters are an error exactly if
      none of them has a type of its own. */
  lemma {:induction false} FlattenStatus(reader: TypeReader, orig: seq<Json>, inputs: seq<AbiType>, lazy: bool, k: nat)
    requires k <= |orig|
    ensures var status := FlattenUpTo(reader, orig, inputs, lazy, k).status;
            && (status.Stopped? <==> !AllRead(reader, orig, inputs, k))
            && (!status.Stopped? ==>
                  (status.TooMany? <==> !lazy && |orig| > |inputs| && !SomeInline(reader, orig, inputs, k)))
  {
    if k > 0 {
      FlattenStatus(reader, orig, inputs, lazy, k - 1);
      var f := FlattenUpTo(reader, orig, inputs, lazy, k - 1);
      if !f.status.Stopped? {
        FlattenMeansInputs(reader, orig, inputs, lazy, k - 1);
        SameReading(reader, orig, inputs, k - 1, f.inputs);
      }
    }
  }

  lemma FlattenNext(reader: TypeReader, orig: seq<Json>, inputs: seq<AbiType>, lazy: bool, k: nat)
    requires 0 < k <= |orig| && AllRead(reader, orig, inputs, k)
    ensures FlattenUpTo(reader, orig, inputs, lazy, k).params
         == FlattenUpTo(reader, orig, inputs, lazy, k - 1).params + [Read(reader, inputs, k - 1, orig[k - 1]).v]
  {
    FlattenStatus(reader, orig, inputs, lazy, k - 1);
    FlattenMeansInputs(reader, orig, inputs, lazy, k - 1);
    SameReading(reader, orig, inputs, k - 1, FlattenUpTo(reader, orig, inputs, lazy, k - 1).inputs);
  }

  lemma {:induction false} FlattenMeansParams(reader: TypeReader, orig: seq<Json>, inputs: seq<AbiType>,
      lazy: bool, k: nat)
    requires k <= |orig| && AllRead(reader, orig, inputs, k)
    ensures ParamsMean(reader, orig, inputs, k, FlattenUpTo(reader, orig, inputs, lazy, k).params)
  {
    if k > 0 {
      FlattenMeansParams(reader, orig, inputs, lazy, k - 1);
      FlattenNext(reader, orig, inputs, lazy, k);
    }
  }

  /** Every parameter is read against the declared inputs alone, and keeps its value or gives up the one inside
      it; the inputs take the inline types and grow as far as the last of them. */
  lemma FlattenMeaning(reader: TypeReader, orig: seq<Json>, inputs: seq<AbiType>, lazy: bool)
    requires AllRead(reader, orig, inputs, |orig|)
    ensures var f := Flatten(reader, orig, inputs, lazy);
            && ParamsMean(reader, orig, inputs, |orig|, f.params)
            && InputsMean(reader, orig, inputs, |orig|, f.inputs)
  {
    FlattenStatus(reader, orig, inputs, lazy, |orig|);
    FlattenMeansParams(reader, orig, inputs, lazy, |orig|);
    FlattenMeansInputs(reader, orig, inputs, lazy, |orig|);
  }

  // ---------- What is refused ----------

  /** An object that does not give a value and the name of a type, unless it stands for a declared tuple. */
  predicate IsRefused(reader: TypeReader, inputs: seq<AbiType>, i: nat, v: Json) {
    && v.JObj? && !(i < |inputs| && inputs[i].TupleTy?)
    && ("value" !in v.members || "type" !in v.members || !v.members["type"].JStr?
        || reader(v.members["type"].s).None?)
  }

  predicate Explains(reader: TypeReader, i: nat, v: Json, why: Halt) {
    v.JObj? &&
    if "value" !in v.members || "type" !in v.members then why == Failed(WrongStructure(i))
    else match v.members["type"]
      case JNull => why == Panics(i)
      case JStr(s) => reader(s).None? && why == Failed(UnknownTypeName(i))
      case _ => why == Failed(TypeNotText(i))
  }

  /** Flattening stops at the first parameter that is refused, and says why. */
  lemma {:induction false} StopsAtFirstRefused(reader: TypeReader, orig: seq<Json>, inputs: seq<AbiType>,
      lazy: bool, k: nat)
    requires k <= |orig|
    ensures var status := FlattenUpTo(reader, orig, inputs, lazy, k).status;
            && (status.Stopped? <==> exists i :: 0 <= i < k && IsRefused(reader, inputs, i, orig[i]))
            && (status.Stopped? ==>
                  exists i :: 0 <= i < k && IsRefused(reader, inputs, i, orig[i])
                    && Explains(reader, i, orig[i], status.why)
                    && forall j :: 0 <= j < i ==> !IsRefused(reader, inputs, j, orig[j]))
  {
    if k > 0 {
      StopsAtFirstRefused(reader, orig, inputs, lazy, k - 1);
      var f := FlattenUpTo(reader, orig, inputs, lazy, k - 1);
      if !f.status.Stopped? {
        FlattenMeansInputs(reader, orig, inputs, lazy, k - 1);
        SameReading(reader, orig, inputs, k - 1, f.inputs);
        assert Read(reader, inputs, k - 1, orig[k - 1]).Bad? <==> IsRefused(reader, inputs, k - 1, orig[k - 1]);
      }
    }
  }

  // ---------- Flattening again ----------

  /** Nothing is left to flatten: no value is an object, but for those of declared tuples. */
  predicate IsFlat(params: seq<Json>, inputs: seq<AbiType>) {
    forall i :: 0 <= i < |params| ==> params[i].JObj? ==> StaysObject(inputs, i)
  }

  lemma {:induction false} FlatStaysSame(reader: TypeReader, params: seq<Json>, inputs: seq<AbiType>,
      lazy: bool, k: nat)
    requires k <= |params| && IsFlat(params, inputs)
    ensures FlattenUpTo(reader, params, inputs, lazy, k)
         == Flat(params[..k], inputs, if !lazy && |params| > |inputs| then TooMany else Fine)
  {
    if k > 0 {
      FlatStaysSame(reader, params, inputs, lazy, k - 1);
      assert params[..k] == params[..k - 1] + [params[k - 1]];
    }
  }

  /** Flattening leaves parameters and inputs as they are exactly if nothing is left to flatten and no
      parameter is without a type. So the second flattening of a transaction that gives a method name only is
      without effect exactly then. */
  lemma FlatteningAgainIsIdleIff(reader: TypeReader, params: seq<Json>, inputs: seq<AbiType>)
    ensures Flatten(reader, params, inputs, false) == Flat(params, inputs, Fine) <==>
              IsFlat(params, inputs) && |params| <= |inputs|
  {
    if IsFlat(params, inputs) {
      FlatStaysSame(reader, params, inputs, false, |params|);
      assert params[..|params|] == params;
    } else {
      var i :| 0 <= i < |params| && params[i].JObj? && !StaysObject(inputs, i);
      FlattenStatus(reader, params, inputs, false, |params|);
      if AllRead(reader, params, inputs, |params|) {
        FlattenMeaning(reader, params, inputs, false);
        var r := Read(reader, inputs, i, params[i]);
        assert !r.Bad?;
        assert r.v == params[i].members["value"];
      }
    }
  }

  // ---------- Typing the arguments ----------

  datatype Args =
    | Args(vals: seq<GoVal>)
    | NotFlattened(status: Status)
    | TooFew
    | BadArg(i: nat, reason: Reason)
    | ArgPanics

  /** The first k arguments. Parameters beyond the inputs are not looked at. */
  function TypeUpTo(m: Machine, params: seq<Json>, inputs: seq<AbiType>, k: nat): Args
    requires k <= |inputs|
  {
    if k == 0 then Args([])
    else
      var before := TypeUpTo(m, params, inputs, k - 1);
      if !before.Args? then before
      else if k - 1 >= |params| then TooFew
      else
        match Generate(m, inputs[k - 1], params[k - 1])
        case Ok(g) => Args(before.vals + [g])
        case Err(r) => BadArg(k - 1, r)
        case Panic => ArgPanics
  }

  function TypedArgs(m: Machine, reader: TypeReader, orig: seq<Json>, inputs: seq<AbiType>): Args {
    var f := Flatten(reader, orig, inputs, false);
    if f.status != Fine then NotFlattened(f.status)
    else TypeUpTo(m, f.params, f.inputs, |f.inputs|)
  }

  /** A transaction that gives a method name only flattens to find the inputs, and then flattens again. */
  function ArgsByName(m: Machine, reader: TypeReader, orig: seq<Json>): Args {
    var f := Flatten(reader, orig, [], true);
    if f.status != Fine then NotFlattened(f.status)
    else TypedArgs(m, reader, f.params, f.inputs)
  }

  /** A list whose every element carries its own type. */
  predicate IsInline(reader: TypeReader, orig: seq<Json>, values: seq<Json>, types: seq<AbiType>) {
    && |orig| == |values| == |types|
    && forall i :: 0 <= i < |orig| ==>
         && orig[i].JObj? && "value" in orig[i].members && "type" in orig[i].members
         && orig[i].members["value"] == values[i]
         && orig[i].members["type"].JStr? && reader(orig[i].members["type"].s) == Some(types[i])
  }

  predicate NoTuples(types: seq<AbiType>) {
    forall i :: 0 <= i < |types| ==> !types[i].TupleTy?
  }

  lemma FlattenInline(reader: TypeReader, orig: seq<Json>, values: seq<Json>, types: seq<AbiType>,
                      declared: seq<AbiType>, lazy: bool)
    requires IsInline(reader, orig, values, types) && NoTuples(declared) && |declared| <= |orig|
    ensures Flatten(reader, orig, declared, lazy) == Flat(values, types, Fine)
  {
    var n := |orig|;
    forall i | 0 <= i < n ensures Read(reader, declared, i, orig[i]) == Typed(values[i], types[i]) {
    }
    FlattenMeaning(reader, orig, declared, lazy);
    FlattenStatus(reader, orig, declared, lazy, n);
    var f := Flatten(reader, orig, declared, lazy);
    assert |f.inputs| == n;
    assert f.params == values;
    assert f.inputs == types;
    if n > 0 {
      assert Read(reader, declared, 0, orig[0]).Typed?;
    }
  }

  /** Typing an inline list by method name is typing the bare values against a method with those inputs. */
  lemma InlineByNameIsBare(m: Machine, reader: TypeReader, orig: seq<Json>, values: seq<Json>, types: seq<AbiType>)
    requires IsInline(reader, orig, values, types)
    ensures ArgsByName(m, reader, orig) == TypedArgs(m, reader, values, types)
  {
    FlattenInline(reader, orig, values, types, [], true);
  }

  /** Argument i can be typed, to this value. */
  predicate TypesTo(m: Machine, params: seq<Json>, inputs: seq<AbiType>, i: nat, g: GoVal)
    requires i < |inputs|
  {
    i < |params| && Generate(m, inputs[i], params[i]) == Outcome.Ok(g)
  }

  /** Typing gives a value for each argument in turn, each that of its own parameter. */
  lemma {:induction false} TypedMeaning(m: Machine, params: seq<Json>, inputs: seq<AbiType>, k: nat)
    requires k <= |inputs|
    ensures var args := TypeUpTo(m, params, inputs, k);
            && !args.NotFlattened?
            && (args.Args? ==>
                  |args.vals| == k && forall i :: 0 <= i < k ==> TypesTo(m, params, inputs, i, args.vals[i]))
  {
    if k > 0 {
      TypedMeaning(m, params, inputs, k - 1);
      var before, args := TypeUpTo(m, params, inputs, k - 1), TypeUpTo(m, params, inputs, k);
      if args.Args? {
        assert TypesTo(m, params, inputs, k - 1, args.vals[k - 1]);
        assert args.vals[..k - 1] == before.vals;
      }
    }
  }

  /** The first argument that cannot be typed decides the failure: it has no parameter, or a wrong one. */
  predicate FailsAt(m: Machine, params: seq<Json>, inputs: seq<AbiType>, i: nat, args: Args)
    requires i < |inputs|
  {
    if i >= |params| then args == TooFew
    else match Generate(m, inputs[i], params[i])
      case Ok(_) => false
      case Err(r) => args == BadArg(i, r)
      case Panic => args == ArgPanics
  }

  lemma {:induction false} TypingFailsAtFirst(m: Machine, params: seq<Json>, inputs: seq<AbiType>, k: nat)
    requires k <= |inputs| && !TypeUpTo(m, params, inputs, k).Args?
    ensures exists i :: 0 <= i < k && FailsAt(m, params, inputs, i, TypeUpTo(m, params, inputs, k))
                        && forall j :: 0 <= j < i ==> j < |params| && Generate(m, inputs[j], params[j]).Ok?
  {
    var before := TypeUpTo(m, params, inputs, k - 1);
    if before.Args? {
      TypedMeaning(m, params, inputs, k - 1);
      forall j | 0 <= j < k - 1 ensures j < |params| && Generate(m, inputs[j], params[j]).Ok? {
        assert TypesTo(m, params, inputs, j, before.vals[j]);
      }
      assert FailsAt(m, params, inputs, k - 1, TypeUpTo(m, params, inputs, k));
    } else {
      TypingFailsAtFirst(m, params, inputs, k - 1);
    }
  }

  /** And it succeeds if every argument can be typed. */
  lemma {:induction false} TypingSucceeds(m: Machine, params: seq<Json>, inputs: seq<AbiType>, vals: seq<GoVal>, k: nat)
    requires k <= |inputs| == |vals|
    requires forall i :: 0 <= i < |inputs| ==> TypesTo(m, params, inputs, i, vals[i])
    ensures TypeUpTo(m, params, inputs, k).Args?
  {
    if k > 0 {
      TypingSucceeds(m, params, inputs, vals, k - 1);
      assert TypesTo(m, params, inputs, k - 1, vals[k - 1]);
    }
  }

  /** So is typing it against any declaration without tuples that is not longer, which the inline types
      override, unless a value for another type than a tuple is itself an object; and then it fails. */
  lemma InlineOverridesDeclaration(m: Machine, reader: TypeReader, orig: seq<Json>, values: seq<Json>,
                                   types: seq<AbiType>, declared: seq<AbiType>)
    requires IsInline(reader, orig, values, types) && NoTuples(declared) && |declared| <= |orig|
    ensures IsFlat(values, types) || TypedArgs(m, reader, orig, declared).Args? ==>
              TypedArgs(m, reader, orig, declared) == TypedArgs(m, reader, values, types)
    ensures !IsFlat(values, types) ==> !TypedArgs(m, reader, orig, declared).Args?
  {
    FlattenInline(reader, orig, values, types, declared, false);
    if TypedArgs(m, reader, orig, declared).Args? {
      TypedMeaning(m, values, types, |types|);
      forall i | 0 <= i < |values| ensures values[i].JObj? ==> StaysObject(types, i) {
        assert TypesTo(m, values, types, i, TypeUpTo(m, values, types, |types|).vals[i]);
      }
    }
    if IsFlat(values, types) {
      FlatteningAgainIsIdleIff(reader, values, types);
    }
  }

  /** Canonical values of their inline types become Go values that map back to them. */
  lemma InlineRoundTrip(m: Machine, reader: TypeReader, orig: seq<Json>, values: seq<Json>, types: seq<AbiType>)
    requires IsInline(reader, orig, values, types)
    requires forall i :: 0 <= i < |types| ==> WellFormed(types[i]) && Canonical(types[i], values[i])
    ensures var args := ArgsByName(m, reader, orig);
            && args.Args? && |args.vals| == |values|
            && forall i :: 0 <= i < |values| ==> MapsBack(types[i], args.vals[i], values[i])
  {
    InlineByNameIsBare(m, reader, orig, values, types);
    FlatteningAgainIsIdleIff(reader, values, types);
    var vals := seq(|types|, i requires 0 <= i < |types| => Generated(m, types[i], values[i]));
    forall i | 0 <= i < |types|
      ensures TypesTo(m, values, types, i, vals[i]) && MapsBack(types[i], vals[i], values[i])
    {
      RoundTripIffCanonical(m, types[i], values[i]);
    }
    TypingSucceeds(m, values, types, vals, |types|);
    TypedMeaning(m, values, types, |types|);
    var args := TypeUpTo(m, values, types, |types|);
    forall i | 0 <= i < |types| ensures args.vals[i] == vals[i] {
      assert TypesTo(m, values, types, i, args.vals[i]) && TypesTo(m, values, types, i, vals[i]);
    }
  }

  predicate MapsBack(t: AbiType, g: GoVal, v: Json) {
    MapOutput(t, g) == Outcome.Ok(v)
  }

  function Generated(m: Machine, t: AbiType, v: Json): GoVal {
    match Generate(m, t, v)
    case Ok(g) => g
    case _ => GNilBig
  }

  /** Where one parameter has a type of its own, surplus parameters are no error: they are dropped. Where none
      has, they are refused. */
  lemma SurplusIsDroppedIffInline(m: Machine, reader: TypeReader, orig: seq<Json>, inputs: seq<AbiType>)
    requires AllRead(reader, orig, inputs, |orig|) && |orig| > |inputs|
    ensures TypedArgs(m, reader, orig, inputs) == NotFlattened(TooMany) <==>
              !SomeInline(reader, orig, inputs, |orig|)
    ensures var n := InlineLength(reader, orig, inputs, |orig|);
            TypedArgs(m, reader, orig, inputs).Args? ==>
              |TypedArgs(m, reader, orig, inputs).vals| == if n > |inputs| then n else |inputs|
  {
    FlattenStatus(reader, orig, inputs, false, |orig|);
    FlattenMeaning(reader, orig, inputs, false);
    var f := Flatten(reader, orig, inputs, false);
    TypedMeaning(m, f.params, f.inputs, |f.inputs|);
  }

  lemma {:induction false} StoppedStays(reader: TypeReader, orig: seq<Json>, inputs: seq<AbiType>, lazy: bool,
      j: nat, k: nat)
    requires j <= k <= |orig| && FlattenUpTo(reader, orig, inputs, lazy, j).status.Stopped?
    ensures FlattenUpTo(reader, orig, inputs, lazy, k) == FlattenUpTo(reader, orig, inputs, lazy, j)
  {
    if j < k {
      StoppedStays(reader, orig, inputs, lazy, j, k - 1);
    }
  }

  lemma {:induction false} FailureStays(m: Machine, params: seq<Json>, inputs: seq<AbiType>, j: nat, k: nat)
    requires j <= k <= |inputs| && !TypeUpTo(m, params, inputs, j).Args?
    ensures TypeUpTo(m, params, inputs, k) == TypeUpTo(m, params, inputs, j)
  {
    if j < k {
      FailureStays(m, params, inputs, j, k - 1);
    }
  }

  /** A method's declaration, whose inputs flattening rewrites in place. */
  class Method {
    var inputs: seq<AbiType>

    constructor (inputs: seq<AbiType>)
      ensures this.inputs == inputs
    {
      this.inputs := inputs;
    }

    method FlattenParams(reader: TypeReader, orig: seq<Json>, lazy: bool) returns (params: seq<Json>, status: Status)
      modifies this
      ensures var f := Flatten(reader, orig, old(inputs), lazy);
              params == f.params && inputs == f.inputs && status == f.status
    {
      status := if !lazy && |orig| > |inputs| then TooMany else Fine;
      params := [];
      for i := 0 to |orig|
        invariant FlattenUpTo(reader, orig, old(inputs), lazy, i) == Flat(params, inputs, status)
        invariant !status.Stopped?
      {
        var reading := ReadParam(reader, i, orig[i]);
        match reading
        case Kept(v) =>
          params := params + [v];
        case Typed(v, ty) =>
          params := params + [v];
          AppendUndeclared(i);
          inputs := inputs[i := ty];
          status := Fine;
        case Bad(e) =>
          status := Stopped(e);
          StoppedStays(reader, orig, old(inputs), lazy, i + 1, |orig|);
          return;
      }
    }

    /** The branches inside the loop. */
    method ReadParam(reader: TypeReader, i: nat, unflattened: Json) returns (r: Reading)
      ensures r == Read(reader, inputs, i, unflattened)
    {
      if !unflattened.JObj? || (|inputs| > i && inputs[i].TupleTy?) {
        return Kept(unflattened);
      }
      if "value" !in unflattened.members || "type" !in unflattened.members {
        return Bad(Failed(WrongStructure(i)));
      }
      var typeName := unflattened.members["type"];
      if typeName.JNull? {
        return Bad(Panics(i));
      }
      if !typeName.JStr? {
        return Bad(Failed(TypeNotText(i)));
      }
      match reader(typeName.s)
      case None => return Bad(Failed(UnknownTypeName(i)));
      case Some(ty) => return Typed(unflattened.members["value"], ty);
    }

    method AppendUndeclared(i: nat)
      modifies this
      ensures inputs == old(inputs) + (if i < |old(inputs)| then [] else seq(i + 1 - |old(inputs)|, _ => UNDECLARED))
    {
      while |inputs| <= i
        invariant |old(inputs)| <= |inputs| && (|inputs| <= i + 1 || inputs == old(inputs))
        invariant inputs == old(inputs) + seq(|inputs| - |old(inputs)|, _ => UNDECLARED)
      {
        inputs := inputs + [UNDECLARED];
      }
    }

    method GenerateTypedArgs(m: Machine, reader: TypeReader, orig: seq<Json>) returns (args: Args)
      modifies this
      ensures args == TypedArgs(m, reader, orig, old(inputs))
    {
      var params, status := FlattenParams(reader, orig, false);
      if status != Fine {
        return NotFlattened(status);
      }
      var typedArgs: seq<GoVal> := [];
      for idx := 0 to |inputs|
        invariant TypeUpTo(m, params, inputs, idx) == Args(typedArgs)
      {
        args := TooFew;
        if idx < |params| {
          match Generate(m, inputs[idx], params[idx])
          case Ok(g) => args := Args(typedArgs + [g]);
          case Err(r) => args := BadArg(idx, r);
          case Panic => args := ArgPanics;
        }
        if !args.Args? {
          FailureStays(m, params, inputs, idx + 1, |inputs|);
          return;
        }
        typedArgs := args.vals;
      }
      args := Args(typedArgs);
    }
  }
}
