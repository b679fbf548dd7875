/** Transfer restrictions: equality, the chain's form and the input form, and the guarded append. */
module Restrictions {
  import opened Wrappers

  // ---- data ----

  /** A decimal number; NaN equals nothing. */
  datatype BigNumber = NaN | Num(value: real) {
    predicate Eq(other: BigNumber) {
      Num? && other.Num? && value == other.value
    }
  }

  /** An SDK object for an identity; there may be many objects for one DID. */
  datatype Identity = Identity(did: string, handle: nat)

  datatype StatClaim =
    | Accredited(accredited: bool)
    | Affiliate(affiliate: bool)
    | Jurisdiction(countryCode: Option<string>)

  datatype Restriction =
    | Count(count: BigNumber)
    | Percentage(percentage: BigNumber)
    | ClaimCount(min: BigNumber, upTo: Option<BigNumber>, issuer: Identity, claim: StatClaim)
    | ClaimPercentage(min: BigNumber, max: BigNumber, issuer: Identity, claim: StatClaim)

  /** The form in which the chain returns a restriction: a type and a value. */
  datatype Stored =
    | StoredCount(value: BigNumber)
    | StoredPercentage(value: BigNumber)
    | StoredClaimCount(claimValue: ClaimValue)
    | StoredClaimPercentage(claimValue: ClaimValue)

  datatype ClaimValue = ClaimValue(min: BigNumber, max: Option<BigNumber>, issuer: Identity, claim: StatClaim)

  /** What the chain holds for a percentage always has an upper bound. */
  predicate WellStored(st: Stored) {
    st.StoredClaimPercentage? ==> st.claimValue.max.Some?
  }

  // ---- normalizeExistingRestrictions ----

  function Normalize(st: Stored): Restriction
    requires WellStored(st)
  {
    match st
    case StoredCount(value) => Count(value)
    case StoredPercentage(value) => Percentage(value)
    case StoredClaimCount(v) => ClaimCount(v.min, v.max, v.issuer, v.claim)
    case StoredClaimPercentage(v) => ClaimPercentage(v.min, v.max.value, v.issuer, v.claim)
  }

  function NormalizeAll(sts: seq<Stored>): seq<Restriction>
    requires forall i :: 0 <= i < |sts| ==> WellStored(sts[i])
  {
    seq(|sts|, i requires 0 <= i < |sts| => Normalize(sts[i]))
  }

  /** What the chain returns for a restriction that was set; `o` is the identity object it makes. */
  function ChainForm(r: Restriction, o: nat): (st: Stored)
    ensures WellStored(st)
  {
    match r
    case Count(count) => StoredCount(count)
    case Percentage(percentage) => StoredPercentage(percentage)
    case ClaimCount(min, upTo, issuer, claim) => StoredClaimCount(ClaimValue(min, upTo, issuer.(handle := o), claim))
    case ClaimPercentage(min, max, issuer, claim) =>
      StoredClaimPercentage(ClaimValue(min, Some(max), issuer.(handle := o), claim))
  }

  // ---- isSameStatClaim, isSameRestriction ----

  predicate SameClaim(a: StatClaim, b: StatClaim) {
    if a.Accredited? && b.Accredited? then a.accredited == b.accredited
    else if a.Affiliate? && b.Affiliate? then a.affiliate == b.affiliate
    else if a.Jurisdiction? && b.Jurisdiction? then a.countryCode == b.countryCode
    else false
  }

  predicate Same(a: Restriction, b: Restriction) {
    match (a, b)
    case (Count(x), Count(y)) => x.Eq(y)
    case (Percentage(x), Percentage(y)) => x.Eq(y)
    case (ClaimCount(min, max, issuer, claim), ClaimCount(min', max', issuer', claim')) =>
      && min.Eq(min')
      && ((max.None? && max'.None?) || (max.Some? && max'.Some? && max.value.Eq(max'.value)))
      && issuer.did == issuer'.did
      && SameClaim(claim, claim')
    case (ClaimPercentage(min, max, issuer, claim), ClaimPercentage(min', max', issuer', claim')) =>
      min.Eq(min') && max.Eq(max') && issuer.did == issuer'.did && SameClaim(claim, claim')
    case _ => false
  }

  /** No number of the restriction is NaN. */
  predicate WellFormed(r: Restriction) {
    match r
    case Count(count) => count.Num?
    case Percentage(percentage) => percentage.Num?
    case ClaimCount(min, max, _, _) => min.Num? && (max.Some? ==> max.value.Num?)
    case ClaimPercentage(min, max, _, _) => min.Num? && max.Num?
  }

  /** The restriction without the identity object that happens to carry its issuer. */
  function Core(r: Restriction): Restriction {
    match r
    case ClaimCount(min, max, issuer, claim) => ClaimCount(min, max, issuer.(handle := 0), claim)
    case ClaimPercentage(min, max, issuer, claim) => ClaimPercentage(min, max, issuer.(handle := 0), claim)
    case _ => r
  }

  /** The hand-written comparison means: no NaN, and equal but for the identity object. */
  lemma SameIsCoreEquality(a: Restriction, b: Restriction)
    ensures Same(a, b) <==> WellFormed(a) && Core(a) == Core(b)
    ensures Same(a, b) ==> WellFormed(b)
  {
  }

  /** Spelled out: the same kind, the same numbers and none of them NaN, the same DID and the same claim. */
  lemma SameMeans(a: Restriction, b: Restriction)
    ensures Same(a, b) <==>
            || (a.Count? && b.Count? && a.count == b.count && a.count.Num?)
            || (a.Percentage? && b.Percentage? && a.percentage == b.percentage && a.percentage.Num?)
            || (a.ClaimCount? && b.ClaimCount? && a.min == b.min && a.min.Num?
                && a.upTo == b.upTo && a.upTo != Some(NaN) && a.issuer.did == b.issuer.did && a.claim == b.claim)
            || (a.ClaimPercentage? && b.ClaimPercentage? && a.min == b.min && a.min.Num? && a.max == b.max && a.max.Num?
                && a.issuer.did == b.issuer.did && a.claim == b.claim)
  {
  }

  /** An equivalence: reflexive exactly on restrictions without NaN, symmetric and transitive on all. */
  lemma SameIsEquivalence(a: Restriction, b: Restriction, c: Restriction)
    ensures Same(a, a) <==> WellFormed(a)
    ensures Same(a, b) <==> Same(b, a)
    ensures Same(a, b) && Same(b, c) ==> Same(a, c)
  {
    SameIsCoreEquality(a, b);
    SameIsCoreEquality(b, a);
    SameIsCoreEquality(b, c);
    SameIsCoreEquality(a, c);
  }

  /** Normalising keeps every part of what the chain returned. */
  lemma NormalizeKeeps(st: Stored)
    requires WellStored(st)
    ensures var r := Normalize(st);
      match st
      case StoredCount(value) => r.Count? && r.count == value
      case StoredPercentage(value) => r.Percentage? && r.percentage == value
      case StoredClaimCount(v) =>
        r.ClaimCount? && (r.min, r.upTo, r.issuer, r.claim) == (v.min, v.max, v.issuer, v.claim)
      case StoredClaimPercentage(v) =>
        r.ClaimPercentage? && (r.min, Some(r.max), r.issuer, r.claim) == (v.min, v.max, v.issuer, v.claim)
  {
  }

  /** Reading back what was set gives the same restriction, whatever identity object the chain makes. */
  lemma NormalizeUndoesChainForm(r: Restriction, o: nat)
    ensures Core(Normalize(ChainForm(r, o))) == Core(r)
    ensures Same(Normalize(ChainForm(r, o)), r) <==> WellFormed(r)
  {
    SameIsCoreEquality(Normalize(ChainForm(r, o)), r);
  }

  // ---- transferRestrictionsDtoToRestrictions ----

  datatype ClaimDto = ClaimDto(claim: StatClaim) | UnsupportedClaim(claimType: string)

  datatype RestrictionDto =
    | CountDto(count: BigNumber)
    | PercentageDto(percentage: BigNumber)
    | ClaimCountDto(min: BigNumber, upTo: Option<BigNumber>, issuer: string, claim: ClaimDto)
    | ClaimPercentageDto(min: BigNumber, max: BigNumber, issuer: string, claim: ClaimDto)
    | UnsupportedDto(kind: string)

  /** The service that finds an identity by its DID, or fails. */
  type Resolver = string -> Option<Identity>

  ghost predicate Resolves(resolve: Resolver) {
    forall did :: resolve(did).Some? ==> resolve(did).value.did == did
  }

  function Convert(dto: RestrictionDto, resolve: Resolver): Result<Restriction> {
    match dto
    case CountDto(count) => Ok(Count(count))
    case PercentageDto(percentage) => Ok(Percentage(percentage))
    case ClaimCountDto(min, max, did, claim) =>
      var issuer := resolve(did);
      if issuer.None? || !claim.ClaimDto? then Thrown else Ok(ClaimCount(min, max, issuer.value, claim.claim))
    case ClaimPercentageDto(min, max, did, claim) =>
      var issuer := resolve(did);
      if issuer.None? || !claim.ClaimDto? then Thrown else Ok(ClaimPercentage(min, max, issuer.value, claim.claim))
    case UnsupportedDto(_) => Thrown
  }

  /** The input that a restriction stands for. */
  function DtoOf(r: Restriction): RestrictionDto {
    match r
    case Count(count) => CountDto(count)
    case Percentage(percentage) => PercentageDto(percentage)
    case ClaimCount(min, upTo, issuer, claim) => ClaimCountDto(min, upTo, issuer.did, ClaimDto(claim))
    case ClaimPercentage(min, max, issuer, claim) => ClaimPercentageDto(min, max, issuer.did, ClaimDto(claim))
  }

  /** The input can be read off its conversion, so conversion loses and mixes up nothing. */
  lemma ConvertKeepsInput(dto: RestrictionDto, resolve: Resolver)
    requires Resolves(resolve) && Convert(dto, resolve).Ok?
    ensures DtoOf(Convert(dto, resolve).value) == dto
  {
  }

  /** It fails exactly for an unknown kind, an unknown kind of claim, or an issuer that cannot be found. */
  lemma ConvertFailsIff(dto: RestrictionDto, resolve: Resolver)
    ensures Convert(dto, resolve).Thrown? <==>
            dto.UnsupportedDto?
            || ((dto.ClaimCountDto? || dto.ClaimPercentageDto?)
                && (dto.claim.UnsupportedClaim? || resolve(dto.issuer).None?))
    ensures Convert(dto, resolve).Ok? && (dto.ClaimCountDto? || dto.ClaimPercentageDto?) ==>
              resolve(dto.issuer) == Some(Convert(dto, resolve).value.issuer)
  {
  }

  /** Whoever reads the input form back off a converted list gets the list. */
  lemma {:induction false} ConvertAllKeepsInput(dtos: seq<RestrictionDto>, resolve: Resolver)
    requires Resolves(resolve) && ConvertAll(dtos, resolve).Ok?
    ensures var rs := ConvertAll(dtos, resolve).value; forall i :: 0 <= i < |dtos| ==> DtoOf(rs[i]) == dtos[i]
  {
    ConvertAllPointwise(dtos, resolve);
    forall i | 0 <= i < |dtos| ensures DtoOf(ConvertAll(dtos, resolve).value[i]) == dtos[i] {
      ConvertKeepsInput(dtos[i], resolve);
    }
  }

  /** `Promise.all`: all conversions, or a failure if one fails. */
  function ConvertAll(dtos: seq<RestrictionDto>, resolve: Resolver): (r: Result<seq<Restriction>>)
    ensures r.Ok? ==> |r.value| == |dtos|
  {
    if dtos == [] then Ok([])
    else
      match (Convert(dtos[0], resolve), ConvertAll(dtos[1..], resolve))
      case (Ok(first), Ok(rest)) => Ok([first] + rest)
      case _ => Thrown
  }

  lemma {:induction false} ConvertAllPointwise(dtos: seq<RestrictionDto>, resolve: Resolver)
    ensures ConvertAll(dtos, resolve).Ok? <==> forall i :: 0 <= i < |dtos| ==> Convert(dtos[i], resolve).Ok?
    ensures ConvertAll(dtos, resolve).Ok? ==>
              forall i :: 0 <= i < |dtos| ==> Convert(dtos[i], resolve) == Ok(ConvertAll(dtos, resolve).value[i])
  {
    if dtos != [] {
      var rest := dtos[1..];
      ConvertAllPointwise(rest, resolve);
      assert forall i :: 0 < i < |dtos| ==> dtos[i] == rest[i - 1];
    }
  }

  /**
   * Setting a converted input and reading it back gives a restriction that the service takes for the
   * input's own: so an input can be recognised as already present.
   */
  lemma StoredInputIsRecognised(dto: RestrictionDto, first: Resolver, later: Resolver, o: nat)
    requires Resolves(first) && Resolves(later) && Convert(dto, first).Ok? && Convert(dto, later).Ok?
    ensures var r := Convert(dto, first).value;
      Same(Normalize(ChainForm(r, o)), Convert(dto, later).value) <==> WellFormed(r)
  {
    var r, r' := Convert(dto, first).value, Convert(dto, later).value;
    NormalizeUndoesChainForm(r, o);
    SameIsCoreEquality(Normalize(ChainForm(r, o)), r');
  }

  // ---- addTransferRestrictions ----

  ghost predicate Clash(current: seq<Restriction>, added: seq<Restriction>) {
    exists i, j :: 0 <= i < |current| && 0 <= j < |added| && Same(current[i], added[j])
  }

  function Cores(rs: seq<Restriction>): seq<Restriction> {
    seq(|rs|, i requires 0 <= i < |rs| => Core(rs[i]))
  }

  ghost predicate Distinct(rs: seq<Restriction>) {
    forall i, j :: 0 <= i < j < |rs| ==> !Same(rs[i], rs[j])
  }

  /** The asset's restrictions on the chain. */
  class AssetRestrictions {
    var stored: seq<Stored>

    constructor ()
      ensures stored == []
    {
      stored := [];
    }

    ghost predicate Valid()
      reads this
    {
      forall i :: 0 <= i < |stored| ==> WellStored(stored[i])
    }

    ghost function Current(): seq<Restriction>
      requires Valid()
      reads this
    {
      NormalizeAll(stored)
    }

    /** The chain's `setRestrictions`; `o` is the identity object that later reads will show. */
    method Store(restrictions: seq<Restriction>, o: nat)
      modifies this
      ensures Valid() && Cores(Current()) == Cores(restrictions)
    {
      var forms: seq<Stored> := [];
      for k := 0 to |restrictions|
        invariant |forms| == k
        invariant forall i :: 0 <= i < k ==> forms[i] == ChainForm(restrictions[i], o)
      {
        forms := forms + [ChainForm(restrictions[k], o)];
      }
      stored := forms;
      forall i | 0 <= i < |restrictions| ensures Core(Normalize(stored[i])) == Core(restrictions[i]) {
        NormalizeUndoesChainForm(restrictions[i], o);
      }
      assert Cores(Current()) == Cores(restrictions);
    }

    /** `setTransferRestrictions`: replaces the list by the converted input, or fails and changes nothing. */
    method Set(dtos: seq<RestrictionDto>, resolve: Resolver, o: nat) returns (r: Result<seq<Restriction>>)
      requires Valid()
      modifies this
      ensures Valid() && r == ConvertAll(dtos, resolve)
      ensures r.Ok? ==> Cores(Current()) == Cores(r.value)
      ensures r.Thrown? ==> stored == old(stored)
    {
      r := ConvertAll(dtos, resolve);
      if r.Ok? {
        Store(r.value, o);
      }
    }

    /** `addTransferRestrictions`: refuses if a new restriction is there already, else appends. */
    method Add(dtos: seq<RestrictionDto>, resolve: Resolver, o: nat) returns (r: Result<seq<Restriction>>)
      requires Valid()
      modifies this
      ensures Valid()
      ensures r.Ok? <==> ConvertAll(dtos, resolve).Ok? && !Clash(old(Current()), ConvertAll(dtos, resolve).value)
      ensures r.Ok? ==> r.value == old(Current()) + ConvertAll(dtos, resolve).value
      ensures r.Ok? ==> Cores(Current()) == Cores(r.value)
      ensures r.Thrown? ==> stored == old(stored)
    {
      var current: seq<Restriction> := [];
      for k := 0 to |stored|
        invariant stored == old(stored) && Valid() && current == Current()[..k]
      {
        current := current + [Normalize(stored[k])];
      }
      var added := ConvertAll(dtos, resolve);
      if added.Thrown? {
        return Thrown;
      }
      var duplicate := HasDuplicate(current, added.value);
      if duplicate {
        return Thrown;
      }
      Store(current + added.value, o);
      r := Ok(current + added.value);
    }

    /** Any sequence of adds, with what the chain showed before and after each. */
    method AddAll(calls: seq<AddCall>) returns (results: seq<Result<seq<Restriction>>>, ghost h: History)
      requires Valid()
      modifies this
      ensures Valid() && IsHistory(h) && |h.adds| == |results| == |calls|
      ensures h.lists[0] == old(Current()) && Cores(h.lists[|calls|]) == Cores(Current())
      ensures forall k :: 0 <= k < |calls| ==> h.adds[k] == ConvertAll(calls[k].dtos, calls[k].resolve)
      ensures forall k :: 0 <= k < |calls| ==> results[k] == if Refused(h, k) then Thrown else Ok(h.lists[k + 1])
    {
      results := [];
      h := History([Current()], [], []);
      for n := 0 to |calls|
        invariant Valid() && IsHistory(h) && |h.adds| == |results| == n
        invariant h.lists[0] == old(Current()) && Cores(h.lists[n]) == Cores(Current())
        invariant forall k :: 0 <= k < n ==> h.adds[k] == ConvertAll(calls[k].dtos, calls[k].resolve)
        invariant forall k :: 0 <= k < n ==> results[k] == if Refused(h, k) then Thrown else Ok(h.lists[k + 1])
      {
        ghost var was, reading := h, Current();
        var r := Add(calls[n].dtos, calls[n].resolve, calls[n].o);
        h := Recorded(h, reading, ConvertAll(calls[n].dtos, calls[n].resolve));
        RecordedIsHistory(was, reading, ConvertAll(calls[n].dtos, calls[n].resolve));
        results := results + [r];
      }
    }
  }

  datatype AddCall = AddCall(dtos: seq<RestrictionDto>, resolve: Resolver, o: nat)

  /** Some new restriction equals some current one. */
  method HasDuplicate(current: seq<Restriction>, added: seq<Restriction>) returns (found: bool)
    ensures found <==> Clash(current, added)
  {
    for j := 0 to |added|
      invariant forall i, j' :: 0 <= i < |current| && 0 <= j' < j ==> !Same(current[i], added[j'])
    {
      for i := 0 to |current|
        invariant forall i' :: 0 <= i' < i ==> !Same(current[i'], added[j])
      {
        if Same(current[i], added[j]) {
          return true;
        }
      }
    }
    found := false;
  }

  // ---- sequences of adds ----

  /**
   * The list on the chain over a sequence of adds: each add reads the list, with whatever identity
   * objects the read makes, and either leaves it or sets it to what it read and the new ones. `adds`
   * are the converted inputs, or Thrown where the conversion failed.
   */
  datatype History = History(
    lists: seq<seq<Restriction>>, readings: seq<seq<Restriction>>, adds: seq<Result<seq<Restriction>>>)

  ghost predicate Refuses(reading: seq<Restriction>, added: Result<seq<Restriction>>) {
    added.Thrown? || Clash(reading, added.value)
  }

  ghost predicate Refused(h: History, k: nat)
    requires k < |h.adds| && k < |h.readings|
  {
    Refuses(h.readings[k], h.adds[k])
  }

  ghost predicate IsHistory(h: History) {
    && |h.lists| == |h.adds| + 1 && |h.readings| == |h.adds|
    && forall k :: 0 <= k < |h.adds| ==>
                     && Cores(h.readings[k]) == Cores(h.lists[k])
                     && h.lists[k + 1] == if Refused(h, k) then h.lists[k] else h.readings[k] + h.adds[k].value
  }

  /** The history with one more add. */
  ghost function Recorded(h: History, reading: seq<Restriction>, added: Result<seq<Restriction>>): History
    requires |h.lists| > 0
  {
    var last := h.lists[|h.lists| - 1];
    var next := if Refuses(reading, added) then last else reading + added.value;
    History(h.lists + [next], h.readings + [reading], h.adds + [added])
  }

  lemma RecordedIsHistory(h: History, reading: seq<Restriction>, added: Result<seq<Restriction>>)
    requires IsHistory(h) && Cores(reading) == Cores(h.lists[|h.lists| - 1])
    ensures IsHistory(Recorded(h, reading, added))
    ensures forall k :: 0 <= k < |h.adds| ==> (Refused(Recorded(h, reading, added), k) <==> Refused(h, k))
    ensures Refused(Recorded(h, reading, added), |h.adds|) <==> Refuses(reading, added)
  {
    hide Clash, Cores;
    var h' := Recorded(h, reading, added);
    forall k | 0 <= k < |h'.adds|
      ensures Cores(h'.readings[k]) == Cores(h'.lists[k])
      ensures h'.lists[k + 1] == if Refused(h', k) then h'.lists[k] else h'.readings[k] + h'.adds[k].value
    {
      if k < |h.adds| {
        assert h'.readings[k] == h.readings[k] && h'.adds[k] == h.adds[k] && h'.lists[k] == h.lists[k];
        assert h'.lists[k + 1] == h.lists[k + 1];
      }
    }
  }

  /** Clashing depends on content only, not on identity objects. */
  lemma ClashByCore(a: seq<Restriction>, b: seq<Restriction>, added: seq<Restriction>)
    requires Cores(a) == Cores(b)
    ensures Clash(a, added) <==> Clash(b, added)
  {
    assert |a| == |Cores(a)| == |Cores(b)| == |b|;
    forall i, j | 0 <= i < |a| && 0 <= j < |added| ensures Same(a[i], added[j]) <==> Same(b[i], added[j]) {
      assert Core(a[i]) == Cores(a)[i] == Cores(b)[i] == Core(b[i]);
      SameIsCoreEquality(added[j], a[i]);
      SameIsCoreEquality(added[j], b[i]);
      SameIsEquivalence(a[i], added[j], added[j]);
      SameIsEquivalence(b[i], added[j], added[j]);
    }
  }

  /** An add is refused exactly when its conversion fails or some new restriction equals one on the chain. */
  lemma RefusedIff(h: History, k: nat)
    requires IsHistory(h) && k < |h.adds|
    ensures Refused(h, k) <==> h.adds[k].Thrown? || Clash(h.lists[k], h.adds[k].value)
  {
    if h.adds[k].Ok? {
      ClashByCore(h.readings[k], h.lists[k], h.adds[k].value);
    }
  }

  /** Adding never removes or reorders: earlier lists are prefixes of later ones. */
  lemma {:induction false} ListsGrow(h: History, i: nat, k: nat)
    requires IsHistory(h) && i <= k < |h.lists|
    ensures Cores(h.lists[i]) <= Cores(h.lists[k])
  {
    if i < k {
      ListsGrow(h, i, k - 1);
      if !Refused(h, k - 1) {
        assert Cores(h.lists[k]) == Cores(h.readings[k - 1]) + Cores(h.adds[k - 1].value);
      }
    }
  }

  ghost predicate SameElement(rs: seq<Restriction>, core: Restriction) {
    exists i :: 0 <= i < |rs| && Core(rs[i]) == core
  }

  /** What an accepted add brought is on the chain from then on. */
  lemma AcceptedStays(h: History, i: nat, k: nat, r: Restriction)
    requires IsHistory(h) && i < k < |h.lists| && !Refused(h, i) && r in h.adds[i].value
    ensures SameElement(h.lists[k], Core(r))
  {
    ListsGrow(h, i + 1, k);
    var j :| 0 <= j < |h.adds[i].value| && h.adds[i].value[j] == r;
    var p := |h.readings[i]| + j;
    assert h.lists[i + 1][p] == r;
    assert Cores(h.lists[i + 1])[p] == Core(r);
    assert Cores(h.lists[k])[p] == Core(h.lists[k][p]) == Core(r);
  }

  /**
   * Repeating an accepted add later is refused if and only if one of its restrictions has no NaN; so
   * a non-empty add of well-formed restrictions can be accepted only once.
   */
  lemma RepeatIsRefusedIff(h: History, i: nat, k: nat)
    requires IsHistory(h) && i < k < |h.adds| && h.adds[k] == h.adds[i] && !Refused(h, i)
    ensures Refused(h, k) <==> exists r :: r in h.adds[i].value && WellFormed(r)
  {
    RefusedIff(h, k);
    var list, added := h.lists[k], h.adds[k].value;
    if Refused(h, k) {
      var p, j :| 0 <= p < |list| && 0 <= j < |added| && Same(list[p], added[j]);
      SameIsCoreEquality(list[p], added[j]);
      assert added[j] in h.adds[i].value;
    }
    if r :| r in added && WellFormed(r) {
      AcceptedStays(h, i, k, r);
      var p :| 0 <= p < |list| && Core(list[p]) == Core(r);
      var j :| 0 <= j < |added| && added[j] == r;
      SameIsCoreEquality(r, list[p]);
      SameIsEquivalence(r, list[p], r);
    }
  }

  lemma DistinctByCore(a: seq<Restriction>, b: seq<Restriction>)
    requires Cores(a) == Cores(b) && Distinct(a)
    ensures Distinct(b)
  {
    assert |a| == |Cores(a)| == |Cores(b)| == |b|;
    forall i, j | 0 <= i < j < |b| ensures !Same(b[i], b[j]) {
      assert Core(a[i]) == Cores(a)[i] == Core(b[i]) && Core(a[j]) == Cores(a)[j] == Core(b[j]);
      SameIsCoreEquality(a[i], a[j]);
      SameIsCoreEquality(b[i], b[j]);
      CoreDecidesForm(a[i], b[i]);
    }
  }

  lemma CoreDecidesForm(a: Restriction, b: Restriction)
    requires Core(a) == Core(b)
    ensures WellFormed(a) <==> WellFormed(b)
  {
  }

  lemma DistinctAppend(a: seq<Restriction>, b: seq<Restriction>)
    requires !Clash(a, b)
    ensures Distinct(a + b) <==> Distinct(a) && Distinct(b)
  {
    if Distinct(a + b) {
      forall i, j | 0 <= i < j < |a| ensures !Same(a[i], a[j]) {
        assert !Same((a + b)[i], (a + b)[j]);
      }
      forall i, j | 0 <= i < j < |b| ensures !Same(b[i], b[j]) {
        assert !Same((a + b)[|a| + i], (a + b)[|a| + j]);
      }
    }
  }

  /**
   * The list on the chain is free of duplicates if and only if it was so at first and every accepted
   * add was free of duplicates in itself.
   */
  lemma {:induction false} DistinctIff(h: History, k: nat)
    requires IsHistory(h) && k < |h.lists|
    ensures Distinct(h.lists[k]) <==>
            Distinct(h.lists[0]) && forall i :: 0 <= i < k ==> Refused(h, i) || Distinct(h.adds[i].value)
  {
    if k > 0 {
      DistinctIff(h, k - 1);
      hide Distinct;
      if !Refused(h, k - 1) {
        var list, reading := h.lists[k - 1], h.readings[k - 1];
        if Distinct(list) { DistinctByCore(list, reading); }
        if Distinct(reading) { DistinctByCore(reading, list); }
        DistinctAppend(reading, h.adds[k - 1].value);
      }
    }
  }

  /** The guard does not look inside one add: a repeated new restriction goes through. */
  lemma RepeatWithinOneAdd(r: Restriction)
    requires WellFormed(r)
    ensures !Refuses([], Ok([r, r])) && !Distinct([] + [r, r])
  {
    SameIsEquivalence(r, r, r);
    var rs := [] + [r, r];
    assert Same(rs[0], rs[1]);
  }
}
