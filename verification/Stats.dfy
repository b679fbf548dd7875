/**
 * Two conversions of statistics to numbers: the transformer that runs on a request, and the
 * conversion that the service applies before submitting. They overlap, and must agree.
 */
module Stats {
  import opened Wrappers
  import opened Numerals
  import opened Restrictions

  /** The constructor of an object. */
  datatype Class = PlainObject | NoPrototype | Dto(name: string) | Foreign(name: string)

  /** JavaScript values, as far as the two conversions look at them. */
  datatype Value =
    | Undefined
    | Null
    | Bool(b: bool)
    | Number(n: real)
    | Str(s: string)
    | Big(big: BigNumber)
    | Arr(items: seq<Value>)
    | Obj(kind: Class, fields: map<string, Value>)

  /** The number library: `new BigNumber(text)`, and the own properties of such an object. */
  datatype Library = Library(parse: string -> BigNumber, properties: BigNumber -> map<string, Value>)

  // ---- JavaScript operations ----

  predicate Truthy(v: Value) {
    match v
    case Undefined => false
    case Null => false
    case Bool(b) => b
    case Number(n) => n != 0.0
    case Str(s) => s != ""
    case _ => true
  }

  function Get(fields: map<string, Value>, key: string): Value {
    if key in fields then fields[key] else Undefined
  }

  /** Reading a property of null or undefined throws. */
  predicate Readable(v: Value) {
    !v.Null? && !v.Undefined?
  }

  /** The elements of a string or an array under their indices. */
  function Indexed(items: seq<Value>): map<string, Value> {
    assert forall i: nat, j: nat :: Decimal(i) == Decimal(j) ==> i == j by {
      forall i: nat, j: nat | Decimal(i) == Decimal(j) ensures i == j { DecimalInjective(i, j); }
    }
    map i: nat | i < |items| :: Decimal(i) := items[i]
  }

  /** `{ ...v }` */
  function Spread(lib: Library, v: Value): map<string, Value> {
    match v
    case Obj(_, fields) => fields
    case Big(n) => lib.properties(n)
    case Arr(items) => Indexed(items)
    case Str(s) => Indexed(seq(|s|, i requires 0 <= i < |s| => Str([s[i]])))
    case _ => map[]
  }

  predicate IsRecord(v: Value) {
    v.Obj? || v.Big?
  }

  function ToBig(lib: Library, v: Value): Value {
    if v.Str? then Big(lib.parse(v.s)) else v
  }

  predicate NumericKey(key: string) {
    key == "accredited" || key == "nonAccredited" || key == "affiliate" || key == "nonAffiliate"
  }

  /** The counts of a scoped statistic, converted by name. */
  function Numeric(lib: Library, fields: map<string, Value>): map<string, Value> {
    map key | key in fields :: if NumericKey(key) then ToBig(lib, fields[key]) else fields[key]
  }

  predicate AllReadable(items: seq<Value>) {
    forall i :: 0 <= i < |items| ==> Readable(items[i])
  }

  // ---- ensureStatsBigNumberConversion ----

  function EnsureItem(lib: Library, v: Value): Value {
    Obj(PlainObject, Spread(lib, v)["count" := ToBig(lib, Get(Spread(lib, v), "count"))])
  }

  function EnsureItems(lib: Library, items: seq<Value>): seq<Value> {
    seq(|items|, i requires 0 <= i < |items| => EnsureItem(lib, items[i]))
  }

  function EnsureValue(lib: Library, v: Value): Result<Value> {
    if !Truthy(v) then Ok(v)
    else if IsRecord(v) then Ok(Obj(PlainObject, Numeric(lib, Spread(lib, v))))
    else if v.Arr? then if AllReadable(v.items) then Ok(Arr(EnsureItems(lib, v.items))) else Thrown
    else Ok(v)
  }

  /** The fields of a statistic with its counts converted; a field is written only where the code writes it. */
  function Put(fields: map<string, Value>, key: string, v: Value): map<string, Value> {
    if key in fields then fields[key := v] else fields
  }

  function EnsureStat(lib: Library, stat: Value): Result<Value> {
    if !(stat.Obj? && "type" in stat.fields) then Ok(stat)
    else if stat.fields["type"] == Str("Count") then
      Ok(Obj(PlainObject, Put(stat.fields, "count", ToBig(lib, Get(stat.fields, "count")))))
    else if stat.fields["type"] == Str("ScopedCount") then
      match EnsureValue(lib, Get(stat.fields, "value"))
      case Ok(v) => Ok(Obj(PlainObject, Put(stat.fields, "value", v)))
      case Thrown => Thrown
    else Ok(Obj(PlainObject, stat.fields))
  }

  // ---- TransformScopedCountStats ----

  predicate IsPlain(stat: Value) {
    stat.Obj? && (stat.kind.PlainObject? || stat.kind.NoPrototype?) && Get(stat.fields, "constructor") == Undefined
  }

  function ValueDto(claimType: Value): Class {
    if claimType == Str("Accredited") then Dto("ClaimCountAccreditedValueDto")
    else if claimType == Str("Affiliate") then Dto("ClaimCountAffiliateValueDto")
    else PlainObject
  }

  function StatDto(claimType: Value): Option<Class> {
    if claimType == Str("Accredited") then Some(Dto("AddClaimCountAccreditedStatDto"))
    else if claimType == Str("Affiliate") then Some(Dto("AddClaimCountAffiliateStatDto"))
    else if claimType == Str("Jurisdiction") then Some(Dto("AddClaimCountJurisdictionStatDto"))
    else None
  }

  function TransformItem(lib: Library, v: Value): Value {
    var fields := Spread(lib, v);
    Obj(Dto("ClaimCountJurisdictionValueItemDto"), Put(fields, "count", ToBig(lib, Get(fields, "count"))))
  }

  function TransformItems(lib: Library, items: seq<Value>): seq<Value> {
    seq(|items|, i requires 0 <= i < |items| => TransformItem(lib, items[i]))
  }

  function TransformValue(lib: Library, claimType: Value, v: Value): Result<Value> {
    if Truthy(v) && IsRecord(v) then Ok(Obj(ValueDto(claimType), Numeric(lib, Spread(lib, v))))
    else if v.Arr? then if AllReadable(v.items) then Ok(Arr(TransformItems(lib, v.items))) else Thrown
    else Ok(v)
  }

  /** One element of the request. A claim type that it does not know leaves the element untouched. */
  function TransformStat(lib: Library, stat: Value): Result<Value> {
    if !IsPlain(stat) then Ok(stat)
    else
      var fields, claimType := stat.fields, Get(stat.fields, "claimType");
      match Get(fields, "type")
      case Str("Count") => Ok(Obj(Dto("AddCountStatDto"), Put(fields, "count", ToBig(lib, Get(fields, "count")))))
      case Str("Balance") => Ok(Obj(Dto("AddPercentageStatDto"), fields))
      case Str("ScopedBalance") => Ok(Obj(Dto("AddClaimPercentageStatDto"), fields))
      case Str("ScopedCount") =>
        (match TransformValue(lib, claimType, Get(fields, "value"))
         case Thrown => Thrown
         case Ok(v) =>
           if StatDto(claimType).Some? then Ok(Obj(StatDto(claimType).value, Put(fields, "value", v))) else Ok(stat))
      case _ => Ok(stat)
  }

  // ---- lists ----

  /** `map` with a function that may throw. */
  function All(f: Value -> Result<Value>, stats: seq<Value>): (r: Result<seq<Value>>)
    ensures r.Ok? ==> |r.value| == |stats|
  {
    if stats == [] then Ok([])
    else
      match (f(stats[0]), All(f, stats[1..]))
      case (Ok(first), Ok(rest)) => Ok([first] + rest)
      case _ => Thrown
  }

  function Ensure(lib: Library, stats: seq<Value>): Result<seq<Value>> {
    All(stat => EnsureStat(lib, stat), stats)
  }

  function Transform(lib: Library, stats: seq<Value>): Result<seq<Value>> {
    All(stat => TransformStat(lib, stat), stats)
  }

  function Then(r: Result<seq<Value>>, lib: Library): Result<seq<Value>> {
    match r
    case Ok(stats) => Ensure(lib, stats)
    case Thrown => Thrown
  }

  // ---- what the results are ----

  /** Text becomes a number; anything else stays. */
  predicate Converted(lib: Library, before: Value, after: Value) {
    match before
    case Str(s) => after == Big(lib.parse(s))
    case _ => after == before
  }

  /** The same keys; those listed are converted, and all others are as they were. */
  ghost predicate ConvertedAt(lib: Library, keys: set<string>, before: map<string, Value>, after: map<string, Value>) {
    && after.Keys == before.Keys
    && forall key :: key in before ==>
                       if key in keys then Converted(lib, before[key], after[key]) else after[key] == before[key]
  }

  ghost predicate SameBut(key: string, before: map<string, Value>, after: map<string, Value>) {
    after.Keys == before.Keys && forall other :: other in before && other != key ==> after[other] == before[other]
  }

  /** An item of a list: its count is converted, and present even if it was not. */
  ghost predicate ItemConverted(lib: Library, before: map<string, Value>, after: map<string, Value>) {
    && after.Keys == before.Keys + {"count"}
    && Converted(lib, Get(before, "count"), after["count"])
    && forall key :: key in before && key != "count" ==> after[key] == before[key]
  }

  /** Some item is null or missing. */
  ghost predicate HasGap(items: seq<Value>) {
    exists i :: 0 <= i < |items| && (items[i].Null? || items[i].Undefined?)
  }

  lemma NumericMeans(lib: Library, fields: map<string, Value>)
    ensures ConvertedAt(lib, {"accredited", "nonAccredited", "affiliate", "nonAffiliate"}, fields, Numeric(lib, fields))
  {
    KeyNames();
  }

  /** The value of a scoped count: an object has its four counts converted, a list the count of each item. */
  lemma EnsureValueMeans(lib: Library, v: Value)
    ensures v.Obj? ==>
              EnsureValue(lib, v).Ok? && EnsureValue(lib, v).value.Obj?
              && ConvertedAt(lib, {"accredited", "nonAccredited", "affiliate", "nonAffiliate"}, v.fields,
                             EnsureValue(lib, v).value.fields)
    ensures v.Arr? ==> (EnsureValue(lib, v).Thrown? <==> HasGap(v.items))
    ensures v.Arr? && EnsureValue(lib, v).Ok? ==>
              var out := EnsureValue(lib, v).value;
              && out.Arr? && |out.items| == |v.items|
              && forall i :: 0 <= i < |v.items| && v.items[i].Obj? ==>
                               out.items[i].Obj? && ItemConverted(lib, v.items[i].fields, out.items[i].fields)
    ensures v.Big? ==>
              EnsureValue(lib, v).Ok? && EnsureValue(lib, v).value.Obj?
              && ConvertedAt(lib, {"accredited", "nonAccredited", "affiliate", "nonAffiliate"}, lib.properties(v.big),
                             EnsureValue(lib, v).value.fields)
    ensures !v.Obj? && !v.Arr? && !v.Big? ==> EnsureValue(lib, v) == Ok(v)
  {
    if v.Obj? { NumericMeans(lib, v.fields); }
    if v.Big? { NumericMeans(lib, lib.properties(v.big)); }
  }

  lemma KeyNames()
    ensures forall key :: NumericKey(key) <==> key in {"accredited", "nonAccredited", "affiliate", "nonAffiliate"}
  {
  }

  /**
   * The service's conversion, by type: the count of a Count statistic, the value of a ScopedCount
   * statistic, and nothing of any other; never another field.
   */
  lemma EnsureMeans(lib: Library, stat: Value)
    ensures !(stat.Obj? && "type" in stat.fields) ==> EnsureStat(lib, stat) == Ok(stat)
    ensures stat.Obj? && "type" in stat.fields && EnsureStat(lib, stat).Ok? ==>
              var out := EnsureStat(lib, stat).value;
              && out.Obj? && out.kind == PlainObject
              && (stat.fields["type"] == Str("Count") ==> ConvertedAt(lib, {"count"}, stat.fields, out.fields))
              && (stat.fields["type"] == Str("ScopedCount") ==>
                    SameBut("value", stat.fields, out.fields)
                    && ("value" in stat.fields ==> EnsureValue(lib, stat.fields["value"]) == Ok(out.fields["value"])))
              && (stat.fields["type"] !in {Str("Count"), Str("ScopedCount")} ==> out.fields == stat.fields)
    ensures EnsureStat(lib, stat).Thrown? ==>
              stat.Obj? && Get(stat.fields, "type") == Str("ScopedCount") && Get(stat.fields, "value").Arr?
  {
    KeysDiffer();
  }

  /** The transformer's DTO for each type, and for each claim type of a scoped count. */
  function DtoName(kind: Value, claimType: Value): Option<string> {
    match (kind, claimType)
    case (Str("Count"), _) => Some("AddCountStatDto")
    case (Str("Balance"), _) => Some("AddPercentageStatDto")
    case (Str("ScopedBalance"), _) => Some("AddClaimPercentageStatDto")
    case (Str("ScopedCount"), Str("Accredited")) => Some("AddClaimCountAccreditedStatDto")
    case (Str("ScopedCount"), Str("Affiliate")) => Some("AddClaimCountAffiliateStatDto")
    case (Str("ScopedCount"), Str("Jurisdiction")) => Some("AddClaimCountJurisdictionStatDto")
    case _ => None
  }

  /** The value that the transformer gives a scoped count, by claim type. */
  lemma TransformValueMeans(lib: Library, claimType: Value, v: Value)
    ensures v.Obj? ==>
              var out := TransformValue(lib, claimType, v);
              && out.Ok? && out.value.Obj?
              && ConvertedAt(lib, {"accredited", "nonAccredited", "affiliate", "nonAffiliate"}, v.fields,
                             out.value.fields)
              && (claimType == Str("Accredited") ==> out.value.kind == Dto("ClaimCountAccreditedValueDto"))
              && (claimType == Str("Affiliate") ==> out.value.kind == Dto("ClaimCountAffiliateValueDto"))
    ensures v.Arr? ==>
              (TransformValue(lib, claimType, v).Thrown? <==> HasGap(v.items))
    ensures v.Arr? && TransformValue(lib, claimType, v).Ok? ==>
              var out := TransformValue(lib, claimType, v).value;
              && out.Arr? && |out.items| == |v.items|
              && forall i :: 0 <= i < |v.items| && v.items[i].Obj? ==>
                               && out.items[i].Obj? && out.items[i].kind == Dto("ClaimCountJurisdictionValueItemDto")
                               && ConvertedAt(lib, {"count"}, v.items[i].fields, out.items[i].fields)
    ensures !v.Obj? && !v.Arr? && !v.Big? ==> TransformValue(lib, claimType, v) == Ok(v)
  {
    if v.Obj? { NumericMeans(lib, v.fields); }
  }

  /** The transformer: a plain object of a known type becomes its DTO with the same content converted. */
  lemma TransformMeans(lib: Library, stat: Value)
    ensures !(stat.Obj? && stat.kind in {PlainObject, NoPrototype} && Get(stat.fields, "constructor") == Undefined) ==>
              TransformStat(lib, stat) == Ok(stat)
    ensures stat.Obj? && stat.kind in {PlainObject, NoPrototype} && Get(stat.fields, "constructor") == Undefined
            && TransformStat(lib, stat).Ok? ==>
              var out, kind := TransformStat(lib, stat).value, Get(stat.fields, "type");
              match DtoName(kind, Get(stat.fields, "claimType"))
              case None => out == stat
              case Some(name) =>
                && out.Obj? && out.kind == Dto(name)
                && (kind == Str("Count") ==> ConvertedAt(lib, {"count"}, stat.fields, out.fields))
                && (kind in {Str("Balance"), Str("ScopedBalance")} ==> out.fields == stat.fields)
                && (kind == Str("ScopedCount") ==>
                      && SameBut("value", stat.fields, out.fields)
                      && ("value" in stat.fields ==>
                            TransformValue(lib, Get(stat.fields, "claimType"), stat.fields["value"]) ==
                            Ok(out.fields["value"])))
  {
    KeysDiffer();
  }

  /** A list converts element by element, in order, and fails exactly if an element does. */
  lemma {:induction false} AllPointwise(f: Value -> Result<Value>, stats: seq<Value>)
    ensures All(f, stats).Ok? <==> forall i :: 0 <= i < |stats| ==> f(stats[i]).Ok?
    ensures All(f, stats).Ok? ==> forall i :: 0 <= i < |stats| ==> f(stats[i]) == Ok(All(f, stats).value[i])
  {
    if stats != [] {
      var rest := stats[1..];
      AllPointwise(f, rest);
      assert forall i :: 0 < i < |stats| ==> stats[i] == rest[i - 1];
    }
  }

  // ---- agreement ----

  lemma NumericTwice(lib: Library, fields: map<string, Value>)
    ensures Numeric(lib, Numeric(lib, fields)) == Numeric(lib, fields)
  {
  }

  /** Writing a key twice is writing it once. */
  lemma PutTwice(fields: map<string, Value>, key: string, v: Value, w: Value)
    ensures Put(Put(fields, key, v), key, w) == Put(fields, key, w)
    ensures fields[key := v][key := w] == fields[key := w]
    ensures Put(fields, key, v)[key := w] == fields[key := w]
    ensures key in fields ==> Get(Put(fields, key, v), key) == v
    ensures key !in fields ==> Put(fields, key, v) == fields
  {
  }

  lemma PutSame(fields: map<string, Value>, key: string)
    ensures Put(fields, key, Get(fields, key)) == fields
  {
    assert key in fields ==> fields[key := fields[key]] == fields;
  }

  lemma ItemAgrees(lib: Library, v: Value)
    ensures EnsureItem(lib, TransformItem(lib, v)) == EnsureItem(lib, v)
    ensures EnsureItem(lib, EnsureItem(lib, v)) == EnsureItem(lib, v)
  {
    var fields := Spread(lib, v);
    var c := ToBig(lib, Get(fields, "count"));
    PutTwice(fields, "count", c, c);
  }

  lemma ItemsAgree(lib: Library, items: seq<Value>)
    ensures EnsureItems(lib, TransformItems(lib, items)) == EnsureItems(lib, items)
    ensures EnsureItems(lib, EnsureItems(lib, items)) == EnsureItems(lib, items)
    ensures AllReadable(TransformItems(lib, items)) && AllReadable(EnsureItems(lib, items))
  {
    forall i | 0 <= i < |items|
      ensures EnsureItem(lib, TransformItem(lib, items[i])) == EnsureItem(lib, items[i])
      ensures EnsureItem(lib, EnsureItem(lib, items[i])) == EnsureItem(lib, items[i])
    {
      ItemAgrees(lib, items[i]);
    }
  }

  /** The service's conversion of a value does not care whether the transformer came first. */
  lemma ValueAgrees(lib: Library, claimType: Value, v: Value)
    ensures match TransformValue(lib, claimType, v)
      case Ok(w) => EnsureValue(lib, w) == EnsureValue(lib, v)
      case Thrown => EnsureValue(lib, v) == Thrown
  {
    if Truthy(v) && IsRecord(v) {
      NumericTwice(lib, Spread(lib, v));
    } else if v.Arr? {
      ItemsAgree(lib, v.items);
    }
  }

  lemma EnsureValueTwice(lib: Library, v: Value)
    ensures EnsureValue(lib, v).Ok? ==> EnsureValue(lib, EnsureValue(lib, v).value) == EnsureValue(lib, v)
  {
    if Truthy(v) && IsRecord(v) {
      NumericTwice(lib, Spread(lib, v));
    } else if v.Arr? {
      ItemsAgree(lib, v.items);
    }
  }

  lemma KeysDiffer()
    ensures "count" != "type" && "value" != "type" && "Count" != "ScopedCount"
    ensures "Count" != "Balance" && "Count" != "ScopedBalance" && "ScopedCount" != "Balance"
            && "ScopedCount" != "ScopedBalance"
  {
    assert "count"[0] != "type"[0] && "value"[0] != "type"[0] && "Count"[0] != "ScopedCount"[0];
    assert "Count"[0] != "Balance"[0] && "ScopedCount"[6] != "ScopedBalance"[6];
  }

  lemma StatAgrees(lib: Library, stat: Value)
    ensures match TransformStat(lib, stat)
      case Ok(t) => EnsureStat(lib, t) == EnsureStat(lib, stat)
      case Thrown => EnsureStat(lib, stat) == Thrown
  {
    KeysDiffer();
    if IsPlain(stat) && Get(stat.fields, "type") == Str("Count") {
      var c := ToBig(lib, Get(stat.fields, "count"));
      PutTwice(stat.fields, "count", c, c);
    }
    if IsPlain(stat) && Get(stat.fields, "type") == Str("ScopedCount") {
      var v, claimType := Get(stat.fields, "value"), Get(stat.fields, "claimType");
      ValueAgrees(lib, claimType, v);
      if TransformValue(lib, claimType, v).Ok? && EnsureValue(lib, v).Ok? {
        PutTwice(stat.fields, "value", TransformValue(lib, claimType, v).value, EnsureValue(lib, v).value);
      }
    }
  }

  lemma EnsureStatTwice(lib: Library, stat: Value)
    ensures EnsureStat(lib, stat).Ok? ==> EnsureStat(lib, EnsureStat(lib, stat).value) == EnsureStat(lib, stat)
  {
    KeysDiffer();
    if stat.Obj? && "type" in stat.fields && stat.fields["type"] == Str("Count") {
      var c := ToBig(lib, Get(stat.fields, "count"));
      PutTwice(stat.fields, "count", c, c);
    }
    if stat.Obj? && "type" in stat.fields && stat.fields["type"] == Str("ScopedCount") {
      var v := Get(stat.fields, "value");
      EnsureValueTwice(lib, v);
      if EnsureValue(lib, v).Ok? {
        PutTwice(stat.fields, "value", EnsureValue(lib, v).value, EnsureValue(lib, v).value);
      }
    }
  }

  /** The service's conversion can be repeated without effect. */
  lemma {:induction false} EnsureIdempotent(lib: Library, stats: seq<Value>)
    ensures Ensure(lib, stats).Ok? ==> Ensure(lib, Ensure(lib, stats).value) == Ensure(lib, stats)
  {
    if stats != [] && Ensure(lib, stats).Ok? {
      EnsureStatTwice(lib, stats[0]);
      EnsureIdempotent(lib, stats[1..]);
      var out := Ensure(lib, stats).value;
      assert out[1..] == Ensure(lib, stats[1..]).value;
    }
  }

  /**
   * For every list of statistics, transforming the request first changes nothing about what is
   * submitted, including whether the conversion throws.
   */
  lemma {:induction false} ConversionsAgree(lib: Library, stats: seq<Value>)
    ensures Then(Transform(lib, stats), lib) == Ensure(lib, stats)
  {
    if stats != [] {
      StatAgrees(lib, stats[0]);
      ConversionsAgree(lib, stats[1..]);
      if Transform(lib, stats).Ok? {
        var out := Transform(lib, stats).value;
        assert out[1..] == Transform(lib, stats[1..]).value;
      }
    }
  }

  // ---- the conversions as code ----

  /** `Object.keys(value).forEach`: fills a new object key by key. */
  method FillNumeric(lib: Library, fields: map<string, Value>) returns (filled: map<string, Value>)
    ensures filled == Numeric(lib, fields)
    ensures ConvertedAt(lib, {"accredited", "nonAccredited", "affiliate", "nonAffiliate"}, fields, filled)
  {
    var rest := fields.Keys;
    filled := map[];
    while rest != {}
      invariant rest <= fields.Keys && filled.Keys == fields.Keys - rest
      invariant forall key :: key in filled ==> filled[key] == Numeric(lib, fields)[key]
      decreases |rest|
    {
      var key :| key in rest;
      rest := rest - {key};
      var val := fields[key];
      if val.Str? && NumericKey(key) {
        filled := filled[key := Big(lib.parse(val.s))];
      } else {
        filled := filled[key := val];
      }
    }
    NumericMeans(lib, fields);
    hide ConvertedAt;
  }

  /** `ensureStatsBigNumberConversion` for one statistic: a copy whose fields are then overwritten. */
  method EnsureOne(lib: Library, stat: Value) returns (r: Result<Value>)
    ensures r == EnsureStat(lib, stat)
  {
    KeysDiffer();
    if stat.Obj? {
      PutSame(stat.fields, "count");
      PutSame(stat.fields, "value");
    }
    if !stat.Obj? || "type" !in stat.fields {
      return Ok(stat);
    }
    var transformed := stat.fields;
    if stat.fields["type"] == Str("Count") && "count" in stat.fields && stat.fields["count"].Str? {
      transformed := transformed["count" := Big(lib.parse(stat.fields["count"].s))];
    }
    if stat.fields["type"] == Str("ScopedCount") && "value" in stat.fields && Truthy(stat.fields["value"]) {
      var value := stat.fields["value"];
      if IsRecord(value) {
        var filled := FillNumeric(lib, Spread(lib, value));
        transformed := transformed["value" := Obj(PlainObject, filled)];
      } else if value.Arr? {
        if !AllReadable(value.items) {
          return Thrown;
        }
        transformed := transformed["value" := Arr(EnsureItems(lib, value.items))];
      }
    }
    r := Ok(Obj(PlainObject, transformed));
  }

  /** The transformer for one element: the same counts, but as instances of the request's classes. */
  method TransformOne(lib: Library, stat: Value) returns (r: Result<Value>)
    ensures r == TransformStat(lib, stat)
  {
    if !IsPlain(stat) {
      return Ok(stat);
    }
    KeysDiffer();
    PutSame(stat.fields, "count");
    PutSame(stat.fields, "value");
    var transformed, claimType := stat.fields, Get(stat.fields, "claimType");
    var statType := Get(stat.fields, "type");
    if statType == Str("Count") {
      if "count" in transformed && transformed["count"].Str? {
        transformed := transformed["count" := Big(lib.parse(transformed["count"].s))];
      }
      return Ok(Obj(Dto("AddCountStatDto"), transformed));
    }
    if statType == Str("Balance") {
      return Ok(Obj(Dto("AddPercentageStatDto"), transformed));
    }
    if statType == Str("ScopedBalance") {
      return Ok(Obj(Dto("AddClaimPercentageStatDto"), transformed));
    }
    if statType != Str("ScopedCount") {
      return Ok(stat);
    }
    var value := Get(stat.fields, "value");
    if Truthy(value) && IsRecord(value) {
      var filled := FillNumeric(lib, Spread(lib, value));
      transformed := transformed["value" := Obj(ValueDto(claimType), filled)];
    } else if value.Arr? {
      if !AllReadable(value.items) {
        return Thrown;
      }
      transformed := transformed["value" := Arr(TransformItems(lib, value.items))];
    }
    r := if StatDto(claimType).Some? then Ok(Obj(StatDto(claimType).value, transformed)) else Ok(stat);
  }
}
