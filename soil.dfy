/** The soil normalizer (`getMeanFromProperty`, server/index.js:40-54):
    the mean of one soil property in the shallowest depth band, read from
    the `properties` container of the soil source's payload, laid out as
    property -> `depths` array -> entry with `range` and `values.mean`. */
module Soil {
  import opened Js

  /** The depth band the server asks for and reads. */
  const TopDepth: string := "0-5cm"

  /** `d.range === '0-5cm'`, for an entry that is not `null`. */
  predicate IsTopDepth(d: Json) {
    Member(d, "range") == Some(JStr(TopDepth))
  }

  /** `depths.find(d => d.range === '0-5cm')`, as the index of the entry
      found. The callback reads `range` of each entry in turn, so a `null`
      entry met before the first match throws. */
  function FindTopDepth(depths: seq<Json>): (r: Completion<Option<nat>>)
    ensures r.Normal? && r.value.Some? ==>
      && r.value.value < |depths|
      && IsTopDepth(depths[r.value.value])
      && forall j :: 0 <= j < r.value.value ==> depths[j] != JNull && !IsTopDepth(depths[j])
    ensures r == Normal(None) ==> forall j :: 0 <= j < |depths| ==> depths[j] != JNull && !IsTopDepth(depths[j])
    ensures r.Throw? ==> exists i :: 0 <= i < |depths| && depths[i] == JNull && forall j :: 0 <= j < i ==> !IsTopDepth(depths[j])
  {
    if depths == [] then Normal(None)
    else if depths[0] == JNull then Throw
    else if IsTopDepth(depths[0]) then Normal(Some(0))
    else
      match FindTopDepth(depths[1..])
      case Normal(Some(i)) => Normal(Some(i + 1))
      case Normal(None) => Normal(None)
      case Throw => Throw
  }

  /** The `depths` array of `properties[propName]`, when the property is
      truthy and that field is an array: the only case in which the
      normalizer looks further. */
  function DepthsOf(properties: Value, propName: string): (r: Option<seq<Json>>)
    ensures r.Some? ==>
      && Truthy(OptMember(properties, propName))
      && Member(OptMember(properties, propName).value, "depths") == Some(JArr(r.value))
    ensures r.None? ==>
      || !Truthy(OptMember(properties, propName))
      || !Member(OptMember(properties, propName).value, "depths").Some?
      || !Member(OptMember(properties, propName).value, "depths").value.JArr?
  {
    var prop := OptMember(properties, propName);
    if !Truthy(prop) then None
    else
      match Member(prop.value, "depths")
      case Some(JArr(depths)) => Some(depths)
      case _ => None
  }

  /** `entry.values?.mean` when it is a number. */
  function NumericMean(entry: Json): (r: Option<real>)
    ensures r.Some? <==> OptMember(Member(entry, "values"), "mean").Some? && OptMember(Member(entry, "values"), "mean").value.JNum?
    ensures r.Some? ==> OptMember(Member(entry, "values"), "mean") == Some(JNum(r.value))
  {
    match OptMember(Member(entry, "values"), "mean")
    case Some(JNum(mean)) => Some(mean)
    case _ => None
  }

  /** `getMeanFromProperty(properties, propName)`: a number, `null`
      (`None`), or a TypeError from the `find` callback. */
  function MeanFromProperty(properties: Value, propName: string): (r: Completion<Option<real>>)
    ensures DepthsOf(properties, propName).None? ==> r == Normal(None)
    ensures r.Throw? ==> DepthsOf(properties, propName).Some? && JNull in DepthsOf(properties, propName).value
    ensures r.Normal? && r.value.Some? ==>
      && DepthsOf(properties, propName).Some?
      && exists d :: d in DepthsOf(properties, propName).value && IsTopDepth(d) && NumericMean(d) == r.value
  {
    match DepthsOf(properties, propName)
    case None => Normal(None)
    case Some(depths) =>
      match FindTopDepth(depths)
      case Throw => Throw
      case Normal(None) => Normal(None)
      case Normal(Some(i)) => Normal(NumericMean(depths[i]))
  }

  /** A missing or falsy property, or one whose `depths` is not an array,
      yields `null`. */
  lemma NoDepthsIsNull(properties: Value, propName: string)
    requires DepthsOf(properties, propName).None?
    ensures MeanFromProperty(properties, propName) == Normal(None)
  {
  }

  /** The first `0-5cm` entry decides: its numeric mean, or `null` when its
      mean is missing or not a number, whatever the entries after it hold. */
  lemma FirstTopDepthDecides(properties: Value, propName: string, i: nat)
    requires DepthsOf(properties, propName).Some?
    requires var depths := DepthsOf(properties, propName).value;
      && i < |depths| && IsTopDepth(depths[i])
      && forall j :: 0 <= j < i ==> depths[j] != JNull && !IsTopDepth(depths[j])
    ensures MeanFromProperty(properties, propName) == Normal(NumericMean(DepthsOf(properties, propName).value[i]))
  {
  }

  /** With no `0-5cm` entry and no `null` entry the result is `null`. */
  lemma NoTopDepthIsNull(properties: Value, propName: string)
    requires DepthsOf(properties, propName).Some?
    requires var depths := DepthsOf(properties, propName).value;
      forall j :: 0 <= j < |depths| ==> depths[j] != JNull && !IsTopDepth(depths[j])
    ensures MeanFromProperty(properties, propName) == Normal(None)
  {
  }

  /** The normalizer throws exactly when the property has a `depths` array
      holding a `null` entry before its first `0-5cm` entry. */
  lemma ThrowsOnlyOnNullEntry(properties: Value, propName: string)
    ensures MeanFromProperty(properties, propName).Throw? <==>
      && DepthsOf(properties, propName).Some?
      && var depths := DepthsOf(properties, propName).value;
         exists i :: 0 <= i < |depths| && depths[i] == JNull && forall j :: 0 <= j < i ==> !IsTopDepth(depths[j])
  {
  }

  /** A number comes back only as the numeric mean of the first `0-5cm`
      entry, with no `null` entry before it. */
  lemma NumberOnlyFromFirstTopDepth(properties: Value, propName: string, mean: real)
    requires MeanFromProperty(properties, propName) == Normal(Some(mean))
    ensures DepthsOf(properties, propName).Some?
    ensures var depths := DepthsOf(properties, propName).value;
      exists i :: 0 <= i < |depths| && IsTopDepth(depths[i]) && NumericMean(depths[i]) == Some(mean)
        && forall j :: 0 <= j < i ==> depths[j] != JNull && !IsTopDepth(depths[j])
  {
    var depths := DepthsOf(properties, propName).value;
    var i := FindTopDepth(depths).value.value;
    assert IsTopDepth(depths[i]) && NumericMean(depths[i]) == Some(mean);
  }

  /** A `0-5cm` entry with the given `values.mean`. */
  function TopDepthEntry(mean: Json): Json {
    JObj(map["range" := JStr(TopDepth), "values" := JObj(map["mean" := mean])])
  }

  /** A first `0-5cm` entry whose mean is not a number gives `null`, even
      though a later `0-5cm` entry holds a number. */
  lemma LaterValidEntryIgnored(later: real)
    ensures var depths := [TopDepthEntry(JStr("n/a")), TopDepthEntry(JNum(later))];
      MeanFromProperty(Some(JObj(map["phh2o" := JObj(map["depths" := JArr(depths)])])), "phh2o") == Normal(None)
  {
  }

  /** A `null` entry ahead of the `0-5cm` entry makes the `find` callback
      throw, so the normalizer raises instead of answering `null`. */
  lemma NullEntryThrows(mean: real)
    ensures var depths := [JNull, TopDepthEntry(JNum(mean))];
      MeanFromProperty(Some(JObj(map["phh2o" := JObj(map["depths" := JArr(depths)])])), "phh2o") == Throw
  {
  }

  // -------------------------------------------------------------------
  // The normalizer with the `find` callback reading `d?.range`

  /** `depths.find(d => d?.range === '0-5cm')`: a `null` entry simply does
      not match. */
  function FindTopDepthGuarded(depths: seq<Json>): (r: Option<nat>)
    ensures r.Some? ==>
      && r.value < |depths|
      && IsTopDepth(depths[r.value])
      && forall j :: 0 <= j < r.value ==> !IsTopDepth(depths[j])
    ensures r.None? ==> forall j :: 0 <= j < |depths| ==> !IsTopDepth(depths[j])
  {
    if depths == [] then None
    else if IsTopDepth(depths[0]) then Some(0)
    else
      match FindTopDepthGuarded(depths[1..])
      case Some(i) => Some(i + 1)
      case None => None
  }

  /** The normalizer as its `null` answers on every other shape check show
      it is meant to behave: it never throws. */
  function MeanFromPropertyGuarded(properties: Value, propName: string): (r: Completion<Option<real>>)
    ensures r.Normal?
    ensures DepthsOf(properties, propName).None? ==> r == Normal(None)
  {
    match DepthsOf(properties, propName)
    case None => Normal(None)
    case Some(depths) =>
      match FindTopDepthGuarded(depths)
      case None => Normal(None)
      case Some(i) => Normal(NumericMean(depths[i]))
  }

  /** The guarded normalizer on any `depths` array: the first `0-5cm`
      entry's numeric mean, or `null` when there is none, `null` entries
      ahead of it or not. */
  lemma GuardedFirstTopDepth(properties: Value, propName: string)
    requires DepthsOf(properties, propName).Some?
    ensures var depths := DepthsOf(properties, propName).value;
      && (forall i :: 0 <= i < |depths| && IsTopDepth(depths[i]) && (forall j :: 0 <= j < i ==> !IsTopDepth(depths[j])) ==>
            MeanFromPropertyGuarded(properties, propName) == Normal(NumericMean(depths[i])))
      && ((forall j :: 0 <= j < |depths| ==> !IsTopDepth(depths[j])) ==>
            MeanFromPropertyGuarded(properties, propName) == Normal(None))
  {
  }

  /** Wherever the `find` as written does not throw, the guarded one finds
      the same entry. */
  lemma {:induction false} FindTopDepthAgrees(depths: seq<Json>)
    requires FindTopDepth(depths).Normal?
    ensures FindTopDepthGuarded(depths) == FindTopDepth(depths).value
  {
    if depths != [] && !IsTopDepth(depths[0]) {
      FindTopDepthAgrees(depths[1..]);
    }
  }

  /** The guarded normalizer only differs from the one as written where
      that one throws. */
  lemma GuardedAgrees(properties: Value, propName: string)
    ensures MeanFromProperty(properties, propName).Normal? ==>
      MeanFromPropertyGuarded(properties, propName) == MeanFromProperty(properties, propName)
  {
    if MeanFromProperty(properties, propName).Normal? && DepthsOf(properties, propName).Some? {
      FindTopDepthAgrees(DepthsOf(properties, propName).value);
    }
  }

  /** Where the normalizer as written throws (`NullEntryThrows`), the
      guarded one skips the `null` entry and reads the `0-5cm` mean. */
  lemma NullEntrySkipped(mean: real)
    ensures var depths := [JNull, TopDepthEntry(JNum(mean))];
      MeanFromPropertyGuarded(Some(JObj(map["phh2o" := JObj(map["depths" := JArr(depths)])])), "phh2o") == Normal(Some(mean))
  {
    var entry := TopDepthEntry(JNum(mean));
    var depths := [JNull, entry];
    assert DepthsOf(Some(JObj(map["phh2o" := JObj(map["depths" := JArr(depths)])])), "phh2o") == Some(depths);
    assert !IsTopDepth(JNull) && IsTopDepth(entry);
    assert FindTopDepthGuarded(depths[1..]) == Some(0) by { assert depths[1..] == [entry]; }
    assert NumericMean(entry) == Some(mean);
  }
}
