/** The chart definition (the `IDefinition` record of Chart.ts) and the value-level
    semantics of its per-property accessor: reading one property, and writing one
    property into an existing or into a fresh definition. */
module Definitions {
  import opened Wrappers

  /** A JavaScript value the chart core passes along without looking inside:
      query objects, specification and overrides objects, series entries,
      query responses, rows of shaped chart data and rejection reasons. */
  datatype Json =
    | JNull
    | JBool(b: bool)
    | JNumber(n: int)
    | JString(s: string)
    | JArray(items: seq<Json>)
    | JObject(members: map<string, Json>)

  datatype LegendPosition = Top | Bottom | Left | Right

  /** `ILegend`: both members optional. */
  datatype LegendSettings = LegendSettings(visible: Option<bool>, position: Option<LegendPosition>)

  /** A dataset of the definition. A truthy `url` makes it remote; otherwise its
      data is inline (kept opaque in `inline`). */
  datatype DatasetEntry = DatasetEntry(
    name: Option<string>,
    url: Option<string>,
    query: Option<Json>,
    inline: map<string, Json>)

  /** `IDefinition`: every property optional (`type` is spelled `chartType`). */
  datatype ChartDefinition = ChartDefinition(
    datasets: Option<seq<DatasetEntry>>,
    series: Option<seq<Json>>,
    chartType: Option<string>,
    specification: Option<Json>,
    overrides: Option<Json>,
    legend: Option<LegendSettings>)

  /** The object literal `{}` that the accessor starts from when no definition exists. */
  const EmptyDefinition := ChartDefinition(None, None, None, None, None, None)

  /** The property names the accessor is called with. */
  datatype Field = DatasetsField | SeriesField | TypeField | SpecificationField | OverridesField | LegendField

  /** A value of one property, tagged with the property it belongs to. */
  datatype Value =
    | DatasetsValue(datasetList: seq<DatasetEntry>)
    | SeriesValue(seriesList: seq<Json>)
    | TypeValue(typeName: string)
    | SpecificationValue(specificationObject: Json)
    | OverridesValue(overridesObject: Json)
    | LegendValue(legendSettings: LegendSettings)

  /** The property a value is written to. */
  function FieldOf(v: Value): Field {
    match v
    case DatasetsValue(_) => DatasetsField
    case SeriesValue(_) => SeriesField
    case TypeValue(_) => TypeField
    case SpecificationValue(_) => SpecificationField
    case OverridesValue(_) => OverridesField
    case LegendValue(_) => LegendField
  }

  function Lift<T>(o: Option<T>, tag: T -> Value): Option<Value> {
    match o
    case Some(x) => Some(tag(x))
    case None => None
  }

  /** `definition ? definition[propertyName] : undefined`. */
  function Get(d: Option<ChartDefinition>, f: Field): (r: Option<Value>)
    ensures d.None? ==> r.None?
    ensures r.Some? ==> FieldOf(r.value) == f
  {
    match d
    case None => None
    case Some(def) =>
      match f
      case DatasetsField => Lift(def.datasets, l => DatasetsValue(l))
      case SeriesField => Lift(def.series, l => SeriesValue(l))
      case TypeField => Lift(def.chartType, t => TypeValue(t))
      case SpecificationField => Lift(def.specification, s => SpecificationValue(s))
      case OverridesField => Lift(def.overrides, o => OverridesValue(o))
      case LegendField => Lift(def.legend, l => LegendValue(l))
  }

  /** `definition[propertyName] = newPropertyValue` on an existing definition. */
  function With(def: ChartDefinition, v: Value): (r: ChartDefinition)
    ensures Get(Some(r), FieldOf(v)) == Some(v)
    ensures forall g :: g != FieldOf(v) ==> Get(Some(r), g) == Get(Some(def), g)
  {
    match v
    case DatasetsValue(l) => def.(datasets := Some(l))
    case SeriesValue(l) => def.(series := Some(l))
    case TypeValue(t) => def.(chartType := Some(t))
    case SpecificationValue(s) => def.(specification := Some(s))
    case OverridesValue(o) => def.(overrides := Some(o))
    case LegendValue(l) => def.(legend := Some(l))
  }

  /** The definition the accessor leaves behind when it is given a value: the
      existing one with that property written, or a fresh one holding only it. */
  function Store(d: Option<ChartDefinition>, v: Value): (r: ChartDefinition)
    ensures Get(Some(r), FieldOf(v)) == Some(v)
    ensures forall g :: g != FieldOf(v) ==> Get(Some(r), g) == Get(d, g)
    ensures d.None? ==> forall g :: g != FieldOf(v) ==> Get(Some(r), g).None?
  {
    match d
    case Some(def) => With(def, v)
    case None => With(EmptyDefinition, v)
  }

  /** A definition is determined by what its six property reads return. */
  lemma DefinitionExtensionality(a: ChartDefinition, b: ChartDefinition)
    requires forall f :: Get(Some(a), f) == Get(Some(b), f)
    ensures a == b
  {
    assert Get(Some(a), DatasetsField) == Get(Some(b), DatasetsField);
    assert Get(Some(a), SeriesField) == Get(Some(b), SeriesField);
    assert Get(Some(a), TypeField) == Get(Some(b), TypeField);
    assert Get(Some(a), SpecificationField) == Get(Some(b), SpecificationField);
    assert Get(Some(a), OverridesField) == Get(Some(b), OverridesField);
    assert Get(Some(a), LegendField) == Get(Some(b), LegendField);
  }

  /** Writing a property changes that property and nothing else: any definition
      that reads `v` at its property and agrees with `d` elsewhere is `Store(d, v)`. */
  lemma StoreIsTheOnlyChange(d: Option<ChartDefinition>, v: Value, r: ChartDefinition)
    requires Get(Some(r), FieldOf(v)) == Some(v)
    requires forall g :: g != FieldOf(v) ==> Get(Some(r), g) == Get(d, g)
    ensures r == Store(d, v)
  {
    var s := Store(d, v);
    forall f
      ensures Get(Some(r), f) == Get(Some(s), f)
    {
    }
    DefinitionExtensionality(r, s);
  }

  /** The datasets of a definition, as `this.datasets()` returns them. */
  function DatasetsOf(d: Option<ChartDefinition>): Option<seq<DatasetEntry>> {
    if d.Some? then d.value.datasets else None
  }

  /** The series of a definition, as `this.series()` returns them. */
  function SeriesOf(d: Option<ChartDefinition>): Option<seq<Json>> {
    if d.Some? then d.value.series else None
  }

  /** The chart type of a definition, as `this.type()` returns it. */
  function TypeOf(d: Option<ChartDefinition>): Option<string> {
    if d.Some? then d.value.chartType else None
  }

  /** The specification of a definition, as `this.specification()` returns it. */
  function SpecificationOf(d: Option<ChartDefinition>): Option<Json> {
    if d.Some? then d.value.specification else None
  }

  /** The overrides of a definition, as `this.overrides()` returns them. */
  function OverridesOf(d: Option<ChartDefinition>): Option<Json> {
    if d.Some? then d.value.overrides else None
  }

  /** The legend of a definition, as `this.legend()` returns it. */
  function LegendOf(d: Option<ChartDefinition>): Option<LegendSettings> {
    if d.Some? then d.value.legend else None
  }

  /** The per-property projections read what the tagged `Get` reads. */
  lemma ProjectionsAgreeWithGet(d: Option<ChartDefinition>)
    ensures Get(d, DatasetsField) == Lift(DatasetsOf(d), l => DatasetsValue(l))
    ensures Get(d, SeriesField) == Lift(SeriesOf(d), l => SeriesValue(l))
    ensures Get(d, TypeField) == Lift(TypeOf(d), t => TypeValue(t))
    ensures Get(d, SpecificationField) == Lift(SpecificationOf(d), s => SpecificationValue(s))
    ensures Get(d, OverridesField) == Lift(OverridesOf(d), o => OverridesValue(o))
    ensures Get(d, LegendField) == Lift(LegendOf(d), l => LegendValue(l))
  {
  }
}
