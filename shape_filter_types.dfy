/** Shape-filter conditions and their configuration (`shape_filter_types.h`). */
module ShapeFilterTypes {

  /** The shape features a condition can test. */
  datatype ShapeFeature =
    | Area | Circularity | Width | Height | Compactness | Convexity
    | RectangularityAnisometry | Row | Column

  /** `getFeatureName`: the Halcon feature name handed to `SelectShape`.
      Every enumerator has its own name; the `default` branch ("area") cannot
      be reached from a value of the enumeration. */
  function FeatureName(f: ShapeFeature): (name: string)
    ensures name != []
    ensures f == Area <==> name == "area"
  {
    match f
    case Area => "area"
    case Circularity => "circularity"
    case Width => "width"
    case Height => "height"
    case Compactness => "compactness"
    case Convexity => "convexity"
    case RectangularityAnisometry => "anisometry"
    case Row => "row"
    case Column => "column"
  }

  /** Distinct features are sent to Halcon under distinct names. */
  lemma FeatureNameInjective(a: ShapeFeature, b: ShapeFeature)
    ensures FeatureName(a) == FeatureName(b) ==> a == b
  {
  }

  /** `getFeatureDisplayName`: the feature's label in the user interface. */
  function DisplayName(f: ShapeFeature): (name: string)
    ensures |name| == 2 || |name| == 3
    ensures name[0] != '未'
  {
    match f
    case Area => "面积"
    case Circularity => "圆度"
    case Width => "宽度"
    case Height => "高度"
    case Compactness => "紧凑度"
    case Convexity => "凸性"
    case RectangularityAnisometry => "矩形度"
    case Row => "中心行"
    case Column => "中心列"
  }

  /** `FilterCondition`: one feature range. */
  datatype FilterCondition = FilterCondition(feature: ShapeFeature, minValue: real, maxValue: real, enabled: bool)
  {
    /** `isValid`: enabled, with a non-negative lower bound not above the upper one. */
    predicate IsValid()
    {
      enabled && minValue >= 0.0 && maxValue >= minValue
    }
  }

  /** The upper bound of a default condition, 1e18. */
  const DefaultMax: real := 1000000000000000000.0

  /** The default `FilterCondition()`: area in [0, 1e18], disabled, hence not valid. */
  function DefaultCondition(): (c: FilterCondition)
    ensures c.feature == Area && c.minValue == 0.0 && c.maxValue == DefaultMax && !c.enabled
    ensures !c.IsValid()
  {
    FilterCondition(Area, 0.0, DefaultMax, false)
  }

  /** `FilterCondition(f, min, max)`: an enabled condition, valid exactly when
      0 <= min <= max. */
  function NewCondition(f: ShapeFeature, min: real, max: real): (c: FilterCondition)
    ensures c.feature == f && c.minValue == min && c.maxValue == max && c.enabled
    ensures c.IsValid() <==> 0.0 <= min <= max
  {
    FilterCondition(f, min, max, true)
  }

  /** `FilterCondition::toString`: "<display name>: [<min>, <max>]", with
      `fmt` standing for `QString::arg(double)`. */
  function ConditionText(c: FilterCondition, fmt: real -> string): (s: string)
    ensures |s| > 0 && s[0] == DisplayName(c.feature)[0]
  {
    DisplayName(c.feature) + ": [" + fmt(c.minValue) + ", " + fmt(c.maxValue) + "]"
  }

  /** Combination of several conditions. */
  datatype FilterMode = And | Or

  /** `getFilterModeName`. */
  function FilterModeName(m: FilterMode): string
  {
    if m == And then "满足所有条件" else "满足任意条件"
  }

  /** The valid conditions of a list, in list order. */
  function ValidConditions(conds: seq<FilterCondition>): (v: seq<FilterCondition>)
    ensures |v| <= |conds|
    ensures forall c :: c in v <==> c in conds && c.IsValid()
  {
    if conds == [] then []
    else
      var rest := ValidConditions(conds[1..]);
      assert forall c :: c in conds <==> c == conds[0] || c in conds[1..];
      if conds[0].IsValid() then [conds[0]] + rest else rest
  }

  /** Filtering keeps list order: the valid conditions of two lists in a row
      are those of each, joined, and a single condition is kept exactly when
      it is valid. */
  lemma {:induction false} ValidConditionsAppend(a: seq<FilterCondition>, b: seq<FilterCondition>)
    ensures ValidConditions(a + b) == ValidConditions(a) + ValidConditions(b)
    ensures forall c :: ValidConditions([c]) == if c.IsValid() then [c] else []
    decreases |a|
  {
    if a == [] {
      assert a + b == b;
    } else {
      assert (a + b)[0] == a[0];
      assert (a + b)[1..] == a[1..] + b;
      ValidConditionsAppend(a[1..], b);
    }
  }

  /** The number of valid conditions in a list. */
  function CountValid(conds: seq<FilterCondition>): nat
  {
    |ValidConditions(conds)|
  }

  /** Adding a condition at the end adds one to the count exactly when it is valid. */
  lemma {:induction false} CountValidAppend(conds: seq<FilterCondition>, c: FilterCondition)
    ensures ValidConditions(conds + [c]) == ValidConditions(conds) + (if c.IsValid() then [c] else [])
    ensures CountValid(conds + [c]) == CountValid(conds) + (if c.IsValid() then 1 else 0)
  {
    if conds == [] {
      assert [c][1..] == [];
    } else {
      assert (conds + [c])[1..] == conds[1..] + [c];
      CountValidAppend(conds[1..], c);
    }
  }

  /** The count is positive exactly when some condition is valid. */
  lemma CountValidPositive(conds: seq<FilterCondition>)
    ensures CountValid(conds) > 0 <==> exists i :: 0 <= i < |conds| && conds[i].IsValid()
  {
    var v := ValidConditions(conds);
    if CountValid(conds) > 0 {
      assert v[0] in conds;
    } else {
      forall i | 0 <= i < |conds| ensures !conds[i].IsValid() {
        assert conds[i] in conds;
      }
    }
  }

  /** `s0 + sep + s1 + sep + ...` (`QStringList::join`). */
  function Join(parts: seq<string>, sep: string): (s: string)
  {
    if parts == [] then ""
    else if |parts| == 1 then parts[0]
    else parts[0] + sep + Join(parts[1..], sep)
  }

  /** The condition texts of a list. */
  function Texts(conds: seq<FilterCondition>, fmt: real -> string): (t: seq<string>)
    ensures |t| == |conds|
    ensures forall i :: 0 <= i < |conds| ==> t[i] == ConditionText(conds[i], fmt)
  {
    seq(|conds|, (i: int) requires 0 <= i < |conds| => ConditionText(conds[i], fmt))
  }

  /** The text shown when no condition is in force. */
  const NotEnabledText: string := "未启用筛选"

  /** The separator of the AND and of the OR combination. */
  function Separator(m: FilterMode): string
  {
    if m == And then " 且 " else " 或 "
  }

  /** A value of `ShapeFilterConfig`, as the pipeline steps read it. */
  datatype ShapeFilter = ShapeFilter(conditions: seq<FilterCondition>, mode: FilterMode, enabled: bool)
  {
    /** `hasValidConditions`: enabled and at least one valid condition. */
    predicate HasValidConditions()
    {
      enabled && CountValid(conditions) > 0
    }

    /** `toString`: the fixed text when nothing is in force, otherwise the
        texts of the valid conditions joined by the mode's separator. */
    function ToString(fmt: real -> string): string
    {
      if !HasValidConditions() then NotEnabledText
      else Join(Texts(ValidConditions(conditions), fmt), Separator(mode))
    }
  }

  /** `hasValidConditions` holds iff the configuration is enabled and some
      condition of it is valid. */
  lemma HasValidConditionsIff(f: ShapeFilter)
    ensures f.HasValidConditions() <==> f.enabled && exists i :: 0 <= i < |f.conditions| && f.conditions[i].IsValid()
  {
    CountValidPositive(f.conditions);
  }

  /** A non-empty join starts with its first part. */
  lemma {:induction false} JoinStartsWithFirst(parts: seq<string>, sep: string)
    requires |parts| > 0
    ensures |Join(parts, sep)| >= |parts[0]| && Join(parts, sep)[..|parts[0]|] == parts[0]
  {
  }

  /** `toString` gives the fixed "not enabled" text exactly when no condition
      is in force; otherwise it starts with the first valid condition's text,
      and with one valid condition it is that condition's text alone. */
  lemma ToStringCases(f: ShapeFilter, fmt: real -> string)
    ensures f.ToString(fmt) == NotEnabledText <==> !f.HasValidConditions()
    ensures f.HasValidConditions() ==>
      var v := ValidConditions(f.conditions);
      |v| > 0 &&
      |f.ToString(fmt)| >= |ConditionText(v[0], fmt)| &&
      f.ToString(fmt)[..|ConditionText(v[0], fmt)|] == ConditionText(v[0], fmt)
    ensures CountValid(f.conditions) == 1 && f.enabled ==>
      f.ToString(fmt) == ConditionText(ValidConditions(f.conditions)[0], fmt)
  {
    if f.HasValidConditions() {
      var v := ValidConditions(f.conditions);
      var t := Texts(v, fmt);
      JoinStartsWithFirst(t, Separator(f.mode));
      var s := f.ToString(fmt);
      assert s[0] == t[0][0] == DisplayName(v[0].feature)[0];
      assert NotEnabledText[0] == '未';
    }
  }

  /** `ShapeFilterConfig`: a list of conditions, a combination mode and an
      on/off switch, updated in place. */
  class ShapeFilterConfig {
    var conditions: seq<FilterCondition>
    var mode: FilterMode
    var enabled: bool

    /** The configuration's current value. */
    function Value(): ShapeFilter
      reads this
    {
      ShapeFilter(conditions, mode, enabled)
    }

    /** A new configuration: no condition, AND mode, disabled. */
    constructor ()
      ensures conditions == [] && mode == And && !enabled
      ensures !Value().HasValidConditions()
    {
      conditions := [];
      mode := And;
      enabled := false;
    }

    /** `addCondition`: appends at the end; earlier conditions, the mode and
        the switch are unchanged. */
    method AddCondition(c: FilterCondition)
      modifies this
      ensures conditions == old(conditions) + [c]
      ensures mode == old(mode) && enabled == old(enabled)
      ensures CountValid(conditions) == CountValid(old(conditions)) + (if c.IsValid() then 1 else 0)
    {
      CountValidAppend(conditions, c);
      conditions := conditions + [c];
    }

    /** `clear`: no condition and disabled, so nothing is in force afterwards;
        the mode is kept. */
    method Clear()
      modifies this
      ensures conditions == [] && !enabled && mode == old(mode)
      ensures !Value().HasValidConditions()
    {
      conditions := [];
      enabled := false;
    }

    /** `getEnabledCount`: counts the valid conditions in one pass. */
    method GetEnabledCount() returns (count: nat)
      ensures count == CountValid(conditions)
      ensures count <= |conditions|
    {
      count := 0;
      var i := 0;
      while i < |conditions|
        invariant 0 <= i <= |conditions|
        invariant count == CountValid(conditions[..i])
      {
        assert conditions[..i + 1] == conditions[..i] + [conditions[i]];
        CountValidAppend(conditions[..i], conditions[i]);
        if conditions[i].IsValid() {
          count := count + 1;
        }
        i := i + 1;
      }
      assert conditions[..i] == conditions;
    }
  }
}
