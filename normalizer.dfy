/** The estimate normalizer: `sanitize_estimate_data` and its inner
    `sanitize_cost` (app.py), which reshape the untrusted JSON object the
    language model returns into the fixed ten-key estimate. */
module Normalizer {
  import opened PyValue
  import opened Schema

  /** A sanitized cost: `None` (JSON null) or a number. */
  type Cost = Option<real>

  predicate NonNegative(c: Cost) {
    c.Some? ==> c.value >= 0.0
  }

  /** The sentinel for an absent text field. */
  const NA := JStr("N/A")

  datatype Complication = Complication(name: Json, estimatedCost: Cost)

  datatype Alternative = Alternative(name: Json, estimatedCostRange: seq<Cost>)

  datatype Recovery = Recovery(estimatedTime: Json, associatedCosts: Cost)

  /** The sanitized estimate. Text fields keep whatever JSON value the source
      held, since the code copies them without checking their type. */
  datatype Estimate = Estimate(
    procedureName: Json,
    procedureCode: Json,
    zipCode: Json,
    lowEstimate: Cost,
    highEstimate: Cost,
    typicalInsuranceCost: Cost,
    commonComplications: seq<Complication>,
    alternativeProcedures: seq<Alternative>,
    recoveryInfo: Recovery,
    additionalInfo: Json)

  /** A cost range has exactly two slots, each null or non-negative. */
  predicate RangeWellFormed(r: seq<Cost>) {
    |r| == 2 && NonNegative(r[0]) && NonNegative(r[1])
  }

  /** The output invariant: every cost is null or non-negative and every
      cost range has two slots. */
  predicate WellFormed(e: Estimate) {
    && NonNegative(e.lowEstimate)
    && NonNegative(e.highEstimate)
    && NonNegative(e.typicalInsuranceCost)
    && NonNegative(e.recoveryInfo.associatedCosts)
    && (forall i :: 0 <= i < |e.commonComplications| ==>
          NonNegative(e.commonComplications[i].estimatedCost))
    && (forall i :: 0 <= i < |e.alternativeProcedures| ==>
          RangeWellFormed(e.alternativeProcedures[i].estimatedCostRange))
  }

  /** Python's `max(0, x)`. */
  function Max0(x: real): (r: real)
    ensures r >= 0.0 && r >= x
    ensures r == x || r == 0.0
  {
    if 0.0 < x then x else 0.0
  }

  /** `sanitize_cost`: null stays null, a value `float()` rejects becomes
      null, and any other value becomes `max(0, float(value))`. */
  function SanitizeCost(cost: Json, lib: Builtins): (r: Cost)
    ensures NonNegative(r)
    ensures r.None? <==> FloatOf(cost, lib).None?
    ensures r.Some? ==> r.value == Max0(FloatOf(cost, lib).value)
  {
    if cost.JNull? then None
    else
      match FloatOf(cost, lib)
      case None => None
      case Some(x) => Some(Max0(x))
  }

  /** Negative numbers are clamped to 0, not rejected: -5 gives 0, 42.5
      gives 42.5, and a string `float()` cannot parse gives null. */
  lemma SanitizeCostOfNumber(x: real, lib: Builtins)
    ensures x < 0.0 ==> SanitizeCost(JNum(x), lib) == Some(0.0)
    ensures x >= 0.0 ==> SanitizeCost(JNum(x), lib) == Some(x)
    ensures SanitizeCost(JNum(-5.0), lib) == Some(0.0)
    ensures SanitizeCost(JNum(42.5), lib) == Some(42.5)
    ensures lib.parseFloat("abc") == None ==> SanitizeCost(JStr("abc"), lib) == None
  {
  }

  /** One entry of `common_complications`; `.get` on a non-dict raises. */
  function ComplicationOf(c: Json, lib: Builtins): (r: Result<Complication>)
    ensures r.Ok? <==> c.JObj?
    ensures r.Err? ==> r.error == AttributeError
    ensures r.Ok? ==> NonNegative(r.value.estimatedCost)
  {
    if !c.JObj? then Err(AttributeError)
    else
      Ok(Complication(
        Get(c.fields, NameKey, NA),
        SanitizeCost(Get(c.fields, EstimatedCostKey, JNull), lib)))
  }

  /** Slot `i` of a cost range: `sanitize_cost(range[i]) if len(range) > i else None`. */
  function RangeSlot(range: Json, i: nat, lib: Builtins): (r: Result<Cost>)
    ensures r.Err? <==> Len(range).None? || (range.JObj? && i < |range.fields|)
    ensures r.Ok? ==> NonNegative(r.value)
    ensures r.Ok? && Len(range).value <= i ==> r.value == None
  {
    match Len(range)
    case None => Err(TypeError)
    case Some(n) =>
      if n > i then
        match Index(range, i)
        case Err(e) => Err(e)
        case Ok(x) => Ok(SanitizeCost(x, lib))
      else Ok(None)
  }

  /** The cost ranges the loop over `alternative_procedures` accepts: any
      sized value except a non-empty dict. */
  predicate RangeOk(range: Json) {
    range.JStr? || range.JArr? || (range.JObj? && |range.fields| == 0)
  }

  /** One entry of `alternative_procedures`. */
  function AlternativeOf(p: Json, lib: Builtins): (r: Result<Alternative>)
    ensures r.Ok? <==> p.JObj? && RangeOk(Get(p.fields, CostRangeKey, JArr([])))
    ensures r.Ok? ==> RangeWellFormed(r.value.estimatedCostRange)
  {
    if !p.JObj? then Err(AttributeError)
    else
      var range := Get(p.fields, CostRangeKey, JArr([]));
      var name := Get(p.fields, NameKey, NA);
      match RangeSlot(range, 0, lib)
      case Err(e) => Err(e)
      case Ok(low) =>
        match RangeSlot(range, 1, lib)
        case Err(e) => Err(e)
        case Ok(high) => Ok(Alternative(name, [low, high]))
  }

  /** What an alternative's two slots hold: nulls when the range is absent,
      and for a list or a string, slot `j` is null exactly when the range
      has at most `j` elements and otherwise sanitizes element `j`. */
  lemma AlternativeShape(p: Json, lib: Builtins)
    requires AlternativeOf(p, lib).Ok?
    ensures var a := AlternativeOf(p, lib).value;
      && a.name == Get(p.fields, NameKey, NA)
      && |a.estimatedCostRange| == 2
      && (CostRangeKey !in p.fields ==> a.estimatedCostRange == [None, None])
      && (forall j :: 0 <= j < 2 ==> RangeSlot(Get(p.fields, CostRangeKey, JArr([])), j, lib) == Ok(a.estimatedCostRange[j]))
  {
  }

  /** Slot `j` of a list range. */
  lemma ListRangeSlot(xs: seq<Json>, j: nat, lib: Builtins)
    ensures RangeSlot(JArr(xs), j, lib) == Ok(if |xs| <= j then None else SanitizeCost(xs[j], lib))
  {
  }

  /** Slot `j` of a string range: the string's `j`-th character, passed to `float()`. */
  lemma StringRangeSlot(s: string, j: nat, lib: Builtins)
    ensures RangeSlot(JStr(s), j, lib) == Ok(if |s| <= j then None else SanitizeCost(JStr([s[j]]), lib))
  {
  }

  /** A `for` loop that appends `f(x)` for each element and stops at the
      first exception. */
  function MapResult<A, B>(xs: seq<A>, f: A -> Result<B>): (r: Result<seq<B>>)
    ensures r.Ok? <==> forall i :: 0 <= i < |xs| ==> f(xs[i]).Ok?
    ensures r.Ok? ==> |r.value| == |xs| && forall i :: 0 <= i < |xs| ==> f(xs[i]) == Ok(r.value[i])
    ensures r.Err? ==> exists i :: 0 <= i < |xs| && f(xs[i]) == Err(r.error) &&
                                   forall j :: 0 <= j < i ==> f(xs[j]).Ok?
  {
    if xs == [] then Ok([])
    else
      var init := xs[..|xs| - 1];
      assert forall i :: 0 <= i < |init| ==> init[i] == xs[i];
      match MapResult(init, f)
      case Err(e) => Err(e)
      case Ok(ys) =>
        match f(xs[|xs| - 1])
        case Err(e) => Err(e)
        case Ok(y) => Ok(ys + [y])
  }

  /** When the elements before `i` succeed and element `i` raises, the loop
      raises that exception. */
  lemma MapResultFailsAt<A, B>(xs: seq<A>, i: nat, f: A -> Result<B>)
    requires i < |xs|
    requires MapResult(xs[..i], f).Ok? && f(xs[i]).Err?
    ensures MapResult(xs, f) == Err(f(xs[i]).error)
  {
    assert forall k :: 0 <= k < i ==> xs[..i][k] == xs[k];
    var r := MapResult(xs, f);
    assert r.Err?;
    var j :| 0 <= j < |xs| && f(xs[j]) == Err(r.error) && forall k :: 0 <= k < j ==> f(xs[k]).Ok?;
    assert j == i;
  }

  /** When every element succeeds, the loop returns the results in order. */
  lemma MapResultAllOk<A, B>(xs: seq<A>, f: A -> Result<B>, ys: seq<B>)
    requires |xs| == |ys|
    requires forall i :: 0 <= i < |xs| ==> f(xs[i]) == Ok(ys[i])
    ensures MapResult(xs, f) == Ok(ys)
  {
    var r := MapResult(xs, f);
    assert r.Ok?;
    assert r.value == ys;
  }

  function ComplicationStep(lib: Builtins): Json -> Result<Complication> {
    c => ComplicationOf(c, lib)
  }

  function AlternativeStep(lib: Builtins): Json -> Result<Alternative> {
    p => AlternativeOf(p, lib)
  }

  /** The `recovery_info` entry built from the source's recovery dict. */
  function RecoveryOf(rec: map<string, Json>, lib: Builtins): Recovery {
    Recovery(Get(rec, EstimatedTimeKey, NA), SanitizeCost(Get(rec, AssociatedCostsKey, JNull), lib))
  }

  /** The dict literal the code builds before its two loops fill the lists. */
  function Skeleton(d: map<string, Json>, rec: map<string, Json>, lib: Builtins): Estimate {
    Estimate(
      Get(d, ProcedureNameKey, NA),
      Get(d, ProcedureCodeKey, NA),
      Get(d, ZipCodeKey, NA),
      SanitizeCost(Get(d, LowEstimateKey, JNull), lib),
      SanitizeCost(Get(d, HighEstimateKey, JNull), lib),
      SanitizeCost(Get(d, InsuranceCostKey, JNull), lib),
      [],
      [],
      RecoveryOf(rec, lib),
      Get(d, AdditionalInfoKey, NA))
  }

  /** `sanitize_estimate_data` as a function of its input: the estimate, or
      the first exception the code raises. */
  function Sanitize(data: Json, lib: Builtins): (r: Result<Estimate>)
    ensures r.Ok? ==> WellFormed(r.value)
  {
    if !data.JObj? then Err(AttributeError)
    else
      var d := data.fields;
      var recovery := Get(d, RecoveryInfoKey, JObj(map[]));
      if !recovery.JObj? then Err(AttributeError)
      else WithComplications(Skeleton(d, recovery.fields, lib), d, lib)
  }

  /** The first loop of the code, filling `common_complications`. */
  function WithComplications(base: Estimate, d: map<string, Json>, lib: Builtins): Result<Estimate> {
    match Iterate(Get(d, ComplicationsKey, JArr([])))
    case Err(e) => Err(e)
    case Ok(cs) =>
      match MapResult(cs, ComplicationStep(lib))
      case Err(e) => Err(e)
      case Ok(comps) => WithAlternatives(base.(commonComplications := comps), d, lib)
  }

  /** The second loop of the code, filling `alternative_procedures`. */
  function WithAlternatives(base: Estimate, d: map<string, Json>, lib: Builtins): Result<Estimate> {
    match Iterate(Get(d, AlternativesKey, JArr([])))
    case Err(e) => Err(e)
    case Ok(ps) =>
      match MapResult(ps, AlternativeStep(lib))
      case Err(e) => Err(e)
      case Ok(alts) => Ok(base.(alternativeProcedures := alts))
  }

  /** The first loop of the code: one entry per complication, in order,
      stopping at the first element that raises. */
  method CollectComplications(cs: seq<Json>, lib: Builtins) returns (r: Result<seq<Complication>>)
    ensures r == MapResult(cs, ComplicationStep(lib))
  {
    var list: seq<Complication> := [];
    var i := 0;
    while i < |cs|
      invariant 0 <= i <= |cs|
      invariant MapResult(cs[..i], ComplicationStep(lib)) == Ok(list)
    {
      var entry := ComplicationOf(cs[i], lib);
      if entry.Err? {
        MapResultFailsAt(cs, i, ComplicationStep(lib));
        return Err(entry.error);
      }
      assert cs[..i + 1][..i] == cs[..i];
      list := list + [entry.value];
      i := i + 1;
    }
    assert cs[..|cs|] == cs;
    return Ok(list);
  }

  /** The second loop of the code: one entry per alternative procedure. */
  method CollectAlternatives(ps: seq<Json>, lib: Builtins) returns (r: Result<seq<Alternative>>)
    ensures r == MapResult(ps, AlternativeStep(lib))
  {
    var list: seq<Alternative> := [];
    var k := 0;
    while k < |ps|
      invariant 0 <= k <= |ps|
      invariant MapResult(ps[..k], AlternativeStep(lib)) == Ok(list)
    {
      var entry := AlternativeOf(ps[k], lib);
      if entry.Err? {
        MapResultFailsAt(ps, k, AlternativeStep(lib));
        return Err(entry.error);
      }
      assert ps[..k + 1][..k] == ps[..k];
      list := list + [entry.value];
      k := k + 1;
    }
    assert ps[..|ps|] == ps;
    return Ok(list);
  }

  /** `sanitize_estimate_data` as the code runs it: build the dict, then
      fill its two lists with the two loops. */
  method SanitizeEstimateData(data: Json, lib: Builtins) returns (r: Result<Estimate>)
    ensures r == Sanitize(data, lib)
  {
    if !data.JObj? {
      return Err(AttributeError);
    }
    var d := data.fields;
    var recovery := Get(d, RecoveryInfoKey, JObj(map[]));
    if !recovery.JObj? {
      return Err(AttributeError);
    }
    var sanitized := Skeleton(d, recovery.fields, lib);
    assert Sanitize(data, lib) == WithComplications(sanitized, d, lib);

    var complications := Iterate(Get(d, ComplicationsKey, JArr([])));
    if complications.Err? {
      return Err(complications.error);
    }
    var comps := CollectComplications(complications.value, lib);
    if comps.Err? {
      return Err(comps.error);
    }
    sanitized := sanitized.(commonComplications := comps.value);
    assert Sanitize(data, lib) == WithAlternatives(sanitized, d, lib);

    var alternatives := Iterate(Get(d, AlternativesKey, JArr([])));
    if alternatives.Err? {
      return Err(alternatives.error);
    }
    var alts := CollectAlternatives(alternatives.value, lib);
    if alts.Err? {
      return Err(alts.error);
    }
    return Ok(sanitized.(alternativeProcedures := alts.value));
  }

  /* ---- The sanitized estimate as the JSON dict the endpoint returns ---- */

  function CostJson(c: Cost): Json {
    match c
    case None => JNull
    case Some(x) => JNum(x)
  }

  function ComplicationJson(c: Complication): Json {
    JObj(map[NameKey := c.name, EstimatedCostKey := CostJson(c.estimatedCost)])
  }

  function AlternativeJson(a: Alternative): Json {
    var range := a.estimatedCostRange;
    JObj(map[NameKey := a.name,
             CostRangeKey := JArr(seq(|range|, i requires 0 <= i < |range| => CostJson(range[i])))])
  }

  function RecoveryJson(r: Recovery): Json {
    JObj(map[EstimatedTimeKey := r.estimatedTime, AssociatedCostsKey := CostJson(r.associatedCosts)])
  }

  /** The dict `sanitize_estimate_data` returns: always exactly the ten keys. */
  function EstimateJson(e: Estimate): (j: Json)
    ensures j.JObj?
    ensures forall k :: k in j.fields <==> k in TopLevelKeys
  {
    var comps := e.commonComplications;
    var alts := e.alternativeProcedures;
    JObj(map[
      ProcedureNameKey := e.procedureName,
      ProcedureCodeKey := e.procedureCode,
      ZipCodeKey := e.zipCode,
      LowEstimateKey := CostJson(e.lowEstimate),
      HighEstimateKey := CostJson(e.highEstimate),
      InsuranceCostKey := CostJson(e.typicalInsuranceCost),
      ComplicationsKey := JArr(seq(|comps|, i requires 0 <= i < |comps| => ComplicationJson(comps[i]))),
      AlternativesKey := JArr(seq(|alts|, i requires 0 <= i < |alts| => AlternativeJson(alts[i]))),
      RecoveryInfoKey := RecoveryJson(e.recoveryInfo),
      AdditionalInfoKey := e.additionalInfo])
  }

  /* ---- Properties of the normalizer ---- */

  /** Sanitizing a cost that is already null or non-negative gives it back. */
  lemma SanitizeCostFixesClean(c: Cost, lib: Builtins)
    requires NonNegative(c)
    ensures SanitizeCost(CostJson(c), lib) == c
  {
  }

  lemma ComplicationRoundTrip(c: Complication, lib: Builtins)
    requires NonNegative(c.estimatedCost)
    ensures ComplicationOf(ComplicationJson(c), lib) == Ok(c)
  {
    SanitizeCostFixesClean(c.estimatedCost, lib);
  }

  lemma AlternativeRoundTrip(a: Alternative, lib: Builtins)
    requires RangeWellFormed(a.estimatedCostRange)
    ensures AlternativeOf(AlternativeJson(a), lib) == Ok(a)
  {
    var range := a.estimatedCostRange;
    SanitizeCostFixesClean(range[0], lib);
    SanitizeCostFixesClean(range[1], lib);
    assert range == [range[0], range[1]];
  }

  lemma RecoveryRoundTrip(r: Recovery, lib: Builtins)
    requires NonNegative(r.associatedCosts)
    ensures RecoveryOf(RecoveryJson(r).fields, lib) == r
  {
    SanitizeCostFixesClean(r.associatedCosts, lib);
  }

  /** The scalar entries of the dict of an estimate. */
  lemma EstimateJsonScalars(e: Estimate)
    ensures var d := EstimateJson(e).fields;
      && ProcedureNameKey in d && d[ProcedureNameKey] == e.procedureName
      && ProcedureCodeKey in d && d[ProcedureCodeKey] == e.procedureCode
      && ZipCodeKey in d && d[ZipCodeKey] == e.zipCode
      && AdditionalInfoKey in d && d[AdditionalInfoKey] == e.additionalInfo
  {
  }

  /** The cost entries of the dict of an estimate. */
  lemma EstimateJsonCosts(e: Estimate)
    ensures var d := EstimateJson(e).fields;
      && LowEstimateKey in d && d[LowEstimateKey] == CostJson(e.lowEstimate)
      && HighEstimateKey in d && d[HighEstimateKey] == CostJson(e.highEstimate)
      && InsuranceCostKey in d && d[InsuranceCostKey] == CostJson(e.typicalInsuranceCost)
  {
  }

  /** The nested entries of the dict of an estimate. */
  lemma EstimateJsonNested(e: Estimate)
    ensures var d := EstimateJson(e).fields;
      var comps := e.commonComplications;
      var alts := e.alternativeProcedures;
      && ComplicationsKey in d
      && d[ComplicationsKey] == JArr(seq(|comps|, i requires 0 <= i < |comps| => ComplicationJson(comps[i])))
      && AlternativesKey in d
      && d[AlternativesKey] == JArr(seq(|alts|, i requires 0 <= i < |alts| => AlternativeJson(alts[i])))
      && RecoveryInfoKey in d && d[RecoveryInfoKey] == RecoveryJson(e.recoveryInfo)
  {
  }

  /** The normalizer is idempotent: sanitizing the dict of a well-formed
      estimate (in particular, of any estimate it produced) returns that
      estimate unchanged. */
  lemma SanitizeFixesItsOutput(e: Estimate, lib: Builtins)
    requires WellFormed(e)
    ensures Sanitize(EstimateJson(e), lib) == Ok(e)
  {
    EstimateJsonScalars(e);
    EstimateJsonCosts(e);
    EstimateJsonNested(e);
    SanitizeOfEntries(EstimateJson(e).fields, e, lib);
  }

  /** Sanitizing any dict whose entries are those of a well-formed
      estimate's dict gives that estimate. */
  lemma SanitizeOfEntries(d: map<string, Json>, e: Estimate, lib: Builtins)
    requires WellFormed(e)
    requires ProcedureNameKey in d && d[ProcedureNameKey] == e.procedureName
    requires ProcedureCodeKey in d && d[ProcedureCodeKey] == e.procedureCode
    requires ZipCodeKey in d && d[ZipCodeKey] == e.zipCode
    requires AdditionalInfoKey in d && d[AdditionalInfoKey] == e.additionalInfo
    requires LowEstimateKey in d && d[LowEstimateKey] == CostJson(e.lowEstimate)
    requires HighEstimateKey in d && d[HighEstimateKey] == CostJson(e.highEstimate)
    requires InsuranceCostKey in d && d[InsuranceCostKey] == CostJson(e.typicalInsuranceCost)
    requires var comps := e.commonComplications;
      ComplicationsKey in d
      && d[ComplicationsKey] == JArr(seq(|comps|, i requires 0 <= i < |comps| => ComplicationJson(comps[i])))
    requires var alts := e.alternativeProcedures;
      AlternativesKey in d
      && d[AlternativesKey] == JArr(seq(|alts|, i requires 0 <= i < |alts| => AlternativeJson(alts[i])))
    requires RecoveryInfoKey in d && d[RecoveryInfoKey] == RecoveryJson(e.recoveryInfo)
    ensures Sanitize(JObj(d), lib) == Ok(e)
  {
    var comps := e.commonComplications;
    var alts := e.alternativeProcedures;
    var cs := seq(|comps|, i requires 0 <= i < |comps| => ComplicationJson(comps[i]));
    var ps := seq(|alts|, i requires 0 <= i < |alts| => AlternativeJson(alts[i]));
    forall i | 0 <= i < |cs|
      ensures ComplicationStep(lib)(cs[i]) == Ok(comps[i])
    {
      ComplicationRoundTrip(comps[i], lib);
    }
    MapResultAllOk(cs, ComplicationStep(lib), comps);
    forall i | 0 <= i < |ps|
      ensures AlternativeStep(lib)(ps[i]) == Ok(alts[i])
    {
      AlternativeRoundTrip(alts[i], lib);
    }
    MapResultAllOk(ps, AlternativeStep(lib), alts);
    RecoveryRoundTrip(e.recoveryInfo, lib);
    SanitizeCostFixesClean(e.lowEstimate, lib);
    SanitizeCostFixesClean(e.highEstimate, lib);
    SanitizeCostFixesClean(e.typicalInsuranceCost, lib);
    var rec := RecoveryJson(e.recoveryInfo).fields;
    SanitizeOfLists(d, rec, cs, ps, comps, alts, lib);
    assert Skeleton(d, rec, lib).(commonComplications := comps, alternativeProcedures := alts) == e;
  }

  /** The result of a run in which both loops go through lists without raising. */
  lemma SanitizeOfLists(d: map<string, Json>, rec: map<string, Json>, cs: seq<Json>, ps: seq<Json>,
                        comps: seq<Complication>, alts: seq<Alternative>, lib: Builtins)
    requires Get(d, RecoveryInfoKey, JObj(map[])) == JObj(rec)
    requires Get(d, ComplicationsKey, JArr([])) == JArr(cs)
    requires Get(d, AlternativesKey, JArr([])) == JArr(ps)
    requires MapResult(cs, ComplicationStep(lib)) == Ok(comps)
    requires MapResult(ps, AlternativeStep(lib)) == Ok(alts)
    ensures Sanitize(JObj(d), lib) ==
            Ok(Skeleton(d, rec, lib).(commonComplications := comps, alternativeProcedures := alts))
  {
  }

  /** The list sources each loop accepts: a list whose elements all pass
      `ok`, or an empty string or dict (which iterate to nothing). */
  predicate ComplicationsOk(v: Json) {
    match v
    case JArr(xs) => forall i :: 0 <= i < |xs| ==> xs[i].JObj?
    case JStr(s) => s == ""
    case JObj(m) => m == map[]
    case _ => false
  }

  predicate AlternativesOk(v: Json) {
    match v
    case JArr(xs) => forall i :: 0 <= i < |xs| ==>
                       xs[i].JObj? && RangeOk(Get(xs[i].fields, CostRangeKey, JArr([])))
    case JStr(s) => s == ""
    case JObj(m) => m == map[]
    case _ => false
  }

  /** The inputs on which `sanitize_estimate_data` does not raise. */
  predicate Accepted(data: Json) {
    && data.JObj?
    && (RecoveryInfoKey in data.fields ==> data.fields[RecoveryInfoKey].JObj?)
    && ComplicationsOk(Get(data.fields, ComplicationsKey, JArr([])))
    && AlternativesOk(Get(data.fields, AlternativesKey, JArr([])))
  }

  lemma ComplicationsLoopOk(v: Json, lib: Builtins)
    ensures (Iterate(v).Ok? && MapResult(Iterate(v).value, ComplicationStep(lib)).Ok?) <==> ComplicationsOk(v)
  {
    if v.JStr? && v.s != "" {
      assert !ComplicationStep(lib)(Iterate(v).value[0]).Ok?;
    }
  }

  lemma AlternativesLoopOk(v: Json, lib: Builtins)
    ensures (Iterate(v).Ok? && MapResult(Iterate(v).value, AlternativeStep(lib)).Ok?) <==> AlternativesOk(v)
  {
    if v.JStr? && v.s != "" {
      assert !AlternativeStep(lib)(Iterate(v).value[0]).Ok?;
    }
  }

  /** The code is not total: it returns an estimate exactly on the inputs of
      `Accepted` and raises on every other input. */
  lemma SanitizeOkIff(data: Json, lib: Builtins)
    ensures Sanitize(data, lib).Ok? <==> Accepted(data)
  {
    if data.JObj? {
      ComplicationsLoopOk(Get(data.fields, ComplicationsKey, JArr([])), lib);
      AlternativesLoopOk(Get(data.fields, AlternativesKey, JArr([])), lib);
    }
  }

  /** The failures the code does not guard against: the input is not a dict,
      `recovery_info` is present but not a dict (null included), or a list
      field is null or another non-iterable. */
  lemma SanitizeRaises(d: map<string, Json>, data: Json, lib: Builtins)
    ensures !data.JObj? ==> Sanitize(data, lib) == Err(AttributeError)
    ensures RecoveryInfoKey in d && !d[RecoveryInfoKey].JObj? ==>
              Sanitize(JObj(d), lib) == Err(AttributeError)
    ensures (RecoveryInfoKey !in d || d[RecoveryInfoKey].JObj?) &&
            ComplicationsKey in d && (d[ComplicationsKey].JNull? || d[ComplicationsKey].JNum? || d[ComplicationsKey].JBool?) ==>
              Sanitize(JObj(d), lib) == Err(TypeError)
    ensures (RecoveryInfoKey !in d || d[RecoveryInfoKey].JObj?) &&
            ComplicationsOk(Get(d, ComplicationsKey, JArr([]))) &&
            AlternativesKey in d && (d[AlternativesKey].JNull? || d[AlternativesKey].JNum? || d[AlternativesKey].JBool?) ==>
              Sanitize(JObj(d), lib) == Err(TypeError)
  {
    ComplicationsLoopOk(Get(d, ComplicationsKey, JArr([])), lib);
  }

  /** Element failures: the first complication that is not a dict raises
      `AttributeError`; so does the first alternative that is not a dict, and
      the first alternative whose cost range is null or another unsized value
      raises `TypeError`. */
  lemma SanitizeRaisesOnElement(d: map<string, Json>, xs: seq<Json>, i: nat, lib: Builtins)
    requires RecoveryInfoKey !in d || d[RecoveryInfoKey].JObj?
    requires i < |xs|
    requires forall j :: 0 <= j < i ==> xs[j].JObj?
    ensures Get(d, ComplicationsKey, JArr([])) == JArr(xs) && !xs[i].JObj? ==>
              Sanitize(JObj(d), lib) == Err(AttributeError)
    ensures ComplicationsOk(Get(d, ComplicationsKey, JArr([]))) &&
            Get(d, AlternativesKey, JArr([])) == JArr(xs) &&
            (forall j :: 0 <= j < i ==> RangeOk(Get(xs[j].fields, CostRangeKey, JArr([])))) ==>
              (!xs[i].JObj? ==> Sanitize(JObj(d), lib) == Err(AttributeError)) &&
              (xs[i].JObj? && Len(Get(xs[i].fields, CostRangeKey, JArr([]))).None? ==>
                 Sanitize(JObj(d), lib) == Err(TypeError))
  {
    if Get(d, ComplicationsKey, JArr([])) == JArr(xs) && !xs[i].JObj? {
      assert forall j :: 0 <= j < i ==> xs[..i][j] == xs[j];
      MapResultFailsAt(xs, i, ComplicationStep(lib));
    }
    if ComplicationsOk(Get(d, ComplicationsKey, JArr([]))) && Get(d, AlternativesKey, JArr([])) == JArr(xs) &&
       (forall j :: 0 <= j < i ==> RangeOk(Get(xs[j].fields, CostRangeKey, JArr([])))) {
      ComplicationsLoopOk(Get(d, ComplicationsKey, JArr([])), lib);
      assert forall j :: 0 <= j < i ==> xs[..i][j] == xs[j];
      if AlternativeStep(lib)(xs[i]).Err? {
        MapResultFailsAt(xs, i, AlternativeStep(lib));
      }
    }
  }

  /** The four text fields pass through unchanged when present (a null
      included) and become "N/A" only when absent; the three top-level costs
      are the sanitized source values. */
  lemma TopLevelFields(d: map<string, Json>, lib: Builtins)
    requires Sanitize(JObj(d), lib).Ok?
    ensures var e := Sanitize(JObj(d), lib).value;
      && (ProcedureNameKey in d ==> e.procedureName == d[ProcedureNameKey])
      && (ProcedureNameKey !in d ==> e.procedureName == NA)
      && (ProcedureCodeKey in d ==> e.procedureCode == d[ProcedureCodeKey])
      && (ProcedureCodeKey !in d ==> e.procedureCode == NA)
      && (ZipCodeKey in d ==> e.zipCode == d[ZipCodeKey])
      && (ZipCodeKey !in d ==> e.zipCode == NA)
      && (AdditionalInfoKey in d ==> e.additionalInfo == d[AdditionalInfoKey])
      && (AdditionalInfoKey !in d ==> e.additionalInfo == NA)
      && e.lowEstimate == SanitizeCost(Get(d, LowEstimateKey, JNull), lib)
      && e.highEstimate == SanitizeCost(Get(d, HighEstimateKey, JNull), lib)
      && e.typicalInsuranceCost == SanitizeCost(Get(d, InsuranceCostKey, JNull), lib)
  {
  }

  /** An absent `recovery_info` gives `{estimated_time: "N/A", associated_costs: null}`;
      a present one is a dict whose two entries are carried over. */
  lemma RecoveryDefaults(d: map<string, Json>, lib: Builtins)
    requires Sanitize(JObj(d), lib).Ok?
    ensures var e := Sanitize(JObj(d), lib).value;
      && (RecoveryInfoKey !in d ==> e.recoveryInfo == Recovery(NA, None))
      && (RecoveryInfoKey in d ==>
            d[RecoveryInfoKey].JObj? && e.recoveryInfo == RecoveryOf(d[RecoveryInfoKey].fields, lib))
  {
  }

  /** `common_complications` keeps the length and order of the source list,
      entry `i` being the sanitized source entry `i`; it is empty when the key
      is absent or the source is not a list. */
  lemma ComplicationsFollowSource(d: map<string, Json>, lib: Builtins)
    requires Sanitize(JObj(d), lib).Ok?
    ensures var comps := Sanitize(JObj(d), lib).value.commonComplications;
      && (ComplicationsKey !in d ==> comps == [])
      && (ComplicationsKey in d && !d[ComplicationsKey].JArr? ==> comps == [])
      && (ComplicationsKey in d && d[ComplicationsKey].JArr? ==>
            var xs := d[ComplicationsKey].items;
            && |comps| == |xs|
            && forall i :: 0 <= i < |xs| ==>
                 && xs[i].JObj?
                 && comps[i] == Complication(Get(xs[i].fields, NameKey, NA),
                                             SanitizeCost(Get(xs[i].fields, EstimatedCostKey, JNull), lib)))
  {
    SanitizeOkIff(JObj(d), lib);
  }

  /** `alternative_procedures` keeps the length and order of the source list,
      entry `i` being the reshaped source entry `i` (see AlternativeShape); it
      is empty when the key is absent or the source is not a list. */
  lemma AlternativesFollowSource(d: map<string, Json>, lib: Builtins)
    requires Sanitize(JObj(d), lib).Ok?
    ensures var alts := Sanitize(JObj(d), lib).value.alternativeProcedures;
      && (AlternativesKey !in d ==> alts == [])
      && (AlternativesKey in d && !d[AlternativesKey].JArr? ==> alts == [])
      && (AlternativesKey in d && d[AlternativesKey].JArr? ==>
            var xs := d[AlternativesKey].items;
            && |alts| == |xs|
            && forall i :: 0 <= i < |xs| ==> AlternativeOf(xs[i], lib) == Ok(alts[i]))
  {
    SanitizeOkIff(JObj(d), lib);
  }

  /** Iterating a non-empty dict yields its keys, which are strings; in
      whatever order they come, the loop's first `.get` raises
      `AttributeError`, which is what `Iterate` reports for such a dict. */
  lemma DictKeysRaise(keys: seq<Json>, lib: Builtins)
    requires |keys| > 0 && forall i :: 0 <= i < |keys| ==> keys[i].JStr?
    ensures MapResult(keys, ComplicationStep(lib)) == Err(AttributeError)
    ensures MapResult(keys, AlternativeStep(lib)) == Err(AttributeError)
  {
    assert keys[..0] == [];
    MapResultFailsAt(keys, 0, ComplicationStep(lib));
    MapResultFailsAt(keys, 0, AlternativeStep(lib));
  }

  /** A complication with a name and no cost keeps the name and gets a null cost. */
  lemma ComplicationWithoutCost(lib: Builtins)
    ensures ComplicationOf(JObj(map[NameKey := JStr("Infection")]), lib) ==
            Ok(Complication(JStr("Infection"), None))
  {
  }

  /** The empty object is accepted and gives the all-default estimate. */
  lemma SanitizeEmptyObject(lib: Builtins)
    ensures Sanitize(JObj(map[]), lib) ==
            Ok(Estimate(NA, NA, NA, None, None, None, [], [], Recovery(NA, None), NA))
  {
  }
}
