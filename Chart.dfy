/** The `Chart` facade: its container, its definition and its shaped data, the
    accessors that read and write them, the dataset lookup and the query. */
module Charts {
  import opened Wrappers
  import opened Definitions
  import opened Queries

  /** What a dual-mode accessor returns: the value read (`Got`, with `None` for
      `undefined`), or the chart itself for chaining after a write (`Chained`). */
  datatype Reply<T> = Got(value: Option<T>) | Chained

  /** The message `new Chart` throws with. */
  const ContainerRequired := "A container is required"

  /** The shaped data that `getChartData` produces: its collaborator is external. */
  type ChartData = seq<Json>

  /** The external data transform `getChartData(datasets, { datasetsData, series })`. */
  type Shaper = (Option<seq<DatasetEntry>>, map<string, Json>, Option<seq<Json>>) -> ChartData

  class Chart {
    var container: string
    var definition: Option<ChartDefinition>
    var data: Option<ChartData>

    /** The body of the constructor once the container check has passed; the
        definition given is stored as a value, which is what the clone ensures. */
    constructor (container: string, definition: Option<ChartDefinition>)
      requires container != ""
      ensures this.container == container
      ensures this.definition == definition
      ensures data.None?
    {
      this.container := container;
      this.definition := definition;
      data := None;
    }

    /** `definition()` reads the definition; `definition(d)` replaces it with `d`. */
    method Definition(newDefinition: Option<ChartDefinition>) returns (r: Reply<ChartDefinition>)
      modifies this`definition
      ensures newDefinition.None? ==> r == Got(old(definition)) && definition == old(definition)
      ensures newDefinition.Some? ==> r == Chained && definition == newDefinition
    {
      if newDefinition.None? {
        r := Got(definition);
      } else {
        definition := newDefinition;
        r := Chained;
      }
    }

    /** `_definitionAccessor(f, newValue)`: read property `f`, or write it into the
        existing definition, or create a definition holding only it. */
    method Access(f: Field, newValue: Option<Value>) returns (r: Reply<Value>)
      requires newValue.Some? ==> FieldOf(newValue.value) == f
      modifies this`definition
      ensures newValue.None? ==> r == Got(Get(definition, f)) && definition == old(definition)
      ensures newValue.Some? ==> r == Chained && definition == Some(Store(old(definition), newValue.value))
      ensures newValue.Some? ==> Get(definition, f) == newValue
      ensures forall g :: g != f ==> Get(definition, g) == Get(old(definition), g)
    {
      var current := definition;
      if newValue.None? {
        r := Got(Get(current, f));
      } else if current.Some? {
        definition := Some(With(current.value, newValue.value));
        r := Chained;
      } else {
        var newDefinition := With(EmptyDefinition, newValue.value);
        var reply := Definition(Some(newDefinition));
        r := Chained;
      }
    }

    method Datasets(newDatasets: Option<seq<DatasetEntry>>) returns (r: Reply<seq<DatasetEntry>>)
      modifies this`definition
      ensures newDatasets.None? ==> r == Got(DatasetsOf(definition)) && definition == old(definition)
      ensures newDatasets.Some? ==> r == Chained && definition == Some(Store(old(definition), DatasetsValue(newDatasets.value)))
    {
      var a := Access(DatasetsField, Lift(newDatasets, l => DatasetsValue(l)));
      r := match a
        case Got(Some(DatasetsValue(l))) => Got(Some(l))
        case Got(_) => Got(None)
        case Chained => Chained;
    }

    method Series(newSeries: Option<seq<Json>>) returns (r: Reply<seq<Json>>)
      modifies this`definition
      ensures newSeries.None? ==> r == Got(SeriesOf(definition)) && definition == old(definition)
      ensures newSeries.Some? ==> r == Chained && definition == Some(Store(old(definition), SeriesValue(newSeries.value)))
    {
      var a := Access(SeriesField, Lift(newSeries, l => SeriesValue(l)));
      r := match a
        case Got(Some(SeriesValue(l))) => Got(Some(l))
        case Got(_) => Got(None)
        case Chained => Chained;
    }

    method Type(newType: Option<string>) returns (r: Reply<string>)
      modifies this`definition
      ensures newType.None? ==> (definition == old(definition) &&
        r == Got(TypeOf(definition)))
      ensures newType.Some? ==> r == Chained && definition == Some(Store(old(definition), TypeValue(newType.value)))
    {
      var a := Access(TypeField, Lift(newType, t => TypeValue(t)));
      r := match a
        case Got(Some(TypeValue(t))) => Got(Some(t))
        case Got(_) => Got(None)
        case Chained => Chained;
    }

    method Specification(newSpecification: Option<Json>) returns (r: Reply<Json>)
      modifies this`definition
      ensures newSpecification.None? ==> (definition == old(definition) &&
        r == Got(SpecificationOf(definition)))
      ensures newSpecification.Some? ==> (r == Chained &&
        definition == Some(Store(old(definition), SpecificationValue(newSpecification.value))))
    {
      var a := Access(SpecificationField, Lift(newSpecification, s => SpecificationValue(s)));
      r := match a
        case Got(Some(SpecificationValue(s))) => Got(Some(s))
        case Got(_) => Got(None)
        case Chained => Chained;
    }

    method Overrides(newOverrides: Option<Json>) returns (r: Reply<Json>)
      modifies this`definition
      ensures newOverrides.None? ==> (definition == old(definition) &&
        r == Got(OverridesOf(definition)))
      ensures newOverrides.Some? ==> (r == Chained &&
        definition == Some(Store(old(definition), OverridesValue(newOverrides.value))))
    {
      var a := Access(OverridesField, Lift(newOverrides, o => OverridesValue(o)));
      r := match a
        case Got(Some(OverridesValue(o))) => Got(Some(o))
        case Got(_) => Got(None)
        case Chained => Chained;
    }

    method Legend(newLegend: Option<LegendSettings>) returns (r: Reply<LegendSettings>)
      modifies this`definition
      ensures newLegend.None? ==> (definition == old(definition) &&
        r == Got(LegendOf(definition)))
      ensures newLegend.Some? ==> r == Chained && definition == Some(Store(old(definition), LegendValue(newLegend.value)))
    {
      var a := Access(LegendField, Lift(newLegend, l => LegendValue(l)));
      r := match a
        case Got(Some(LegendValue(l))) => Got(Some(l))
        case Got(_) => Got(None)
        case Chained => Chained;
    }

    /** `data()`: the shaped data, read only. */
    method Data() returns (r: Option<ChartData>)
      ensures r == data
    {
      r := data;
    }

    /** `dataset(name)`: the first dataset whose `name` is `name`, if any. */
    method Dataset(name: string) returns (found: Option<DatasetEntry>)
      ensures found.None? <==>
        DatasetsOf(definition).None? ||
        forall i :: 0 <= i < |DatasetsOf(definition).value| ==> DatasetsOf(definition).value[i].name != Some(name)
      ensures found.Some? ==> exists i ::
        && 0 <= i < |DatasetsOf(definition).value|
        && DatasetsOf(definition).value[i] == found.value
        && found.value.name == Some(name)
        && forall j :: 0 <= j < i ==> DatasetsOf(definition).value[j].name != Some(name)
    {
      found := None;
      var datasets := DatasetsOf(definition);
      if datasets.Some? {
        var ds := datasets.value;
        var i := 0;
        while i < |ds|
          invariant 0 <= i <= |ds|
          invariant forall j :: 0 <= j < i ==> ds[j].name != Some(name)
        {
          if ds[i].name == Some(name) {
            found := Some(ds[i]);
            return;
          }
          i := i + 1;
        }
      }
    }

    /** `query()`: one request per remote dataset, in list order, then the join.
        `joined` is what `Promise.all` delivers for those requests. The two loops of
        `query()` are the module-level methods `Requests` and `HashResponses`. */
    method Query(createQueryParams: Option<Json> -> Json, joined: Result<seq<Json>, Json>)
      returns (requests: seq<Request>, r: Result<map<string, Json>, Json>)
      requires JoinFits(joined, |RemoteIndices(DatasetsOf(definition).GetOr([]))|)
      ensures var ds := DatasetsOf(definition).GetOr([]);
        && |requests| == |RemoteIndices(ds)|
        && forall k :: 0 <= k < |requests| ==> requests[k] == RequestFor(ds[RemoteIndices(ds)[k]], createQueryParams)
      ensures joined.Failure? ==> r == Failure(joined.error)
      ensures joined.Success? ==> r == Success(ResponseHash(DatasetsOf(definition).GetOr([]), joined.value))
      ensures RemoteIndices(DatasetsOf(definition).GetOr([])) == [] ==> r == Success(map[])
    {
      var ds := DatasetsOf(definition).GetOr([]);
      var names;
      names, requests := Requests(ds, createQueryParams);
      match joined
      case Failure(e) =>
        r := Failure(e);
      case Success(responses) =>
        var responseHash := HashResponses(names, responses);
        r := Success(responseHash);
    }

    /** `updateData(datasetsData)`: the shaped data is replaced by the transform of
        the datasets, the given query results and the series; nothing else changes,
        and the chart itself is returned for chaining. */
    method UpdateData(datasetsData: map<string, Json>, getChartData: Shaper) returns (r: Chart)
      modifies this`data
      ensures r == this
      ensures data == Some(getChartData(DatasetsOf(definition), datasetsData, SeriesOf(definition)))
    {
      data := Some(getChartData(DatasetsOf(definition), datasetsData, SeriesOf(definition)));
      r := this;
    }

    /** `show()`: query, then shape the results; a rejected query leaves the data
        as it was. Resolves with the chart itself. */
    method Show(createQueryParams: Option<Json> -> Json, joined: Result<seq<Json>, Json>, getChartData: Shaper)
      returns (r: Result<Chart, Json>)
      requires JoinFits(joined, |RemoteIndices(DatasetsOf(definition).GetOr([]))|)
      modifies this`data
      ensures joined.Failure? ==> r == Failure(joined.error) && data == old(data)
      ensures joined.Success? ==> (r == Success(this) &&
        data == Some(getChartData(DatasetsOf(definition),
                                  ResponseHash(DatasetsOf(definition).GetOr([]), joined.value),
                                  SeriesOf(definition))))
    {
      var requests, response := Query(createQueryParams, joined);
      if response.Failure? {
        return Failure(response.error);
      }
      var chart := UpdateData(response.value, getChartData);
      r := Success(chart);
    }
  }

  /** `new Chart(container, definition)`: a falsy container throws; otherwise the
      container is kept and the definition, when one is given, is stored. */
  method Construct(container: Option<string>, definition: Option<ChartDefinition>) returns (r: Result<Chart, string>)
    ensures r.Failure? <==> !Truthy(container)
    ensures r.Failure? ==> r.error == ContainerRequired
    ensures r.Success? ==> (fresh(r.value)
      && r.value.container == container.value
      && r.value.definition == definition
      && r.value.data.None?)
  {
    if !Truthy(container) {
      return Failure(ContainerRequired);
    }
    var chart := new Chart(container.value, definition);
    r := Success(chart);
  }

  /** The first loop of `query()`: for each dataset with a `url`, in list order,
      push its key onto `names` and its request onto `requests`. */
  method Requests(ds: seq<DatasetEntry>, createQueryParams: Option<Json> -> Json)
    returns (names: seq<string>, requests: seq<Request>)
    ensures names == RemoteKeys(ds)
    ensures |requests| == |RemoteIndices(ds)|
    ensures forall k :: 0 <= k < |requests| ==> requests[k] == RequestFor(ds[RemoteIndices(ds)[k]], createQueryParams)
  {
    names, requests := [], [];
    ghost var idx: seq<nat> := [];
    var i := 0;
    while i < |ds|
      invariant 0 <= i <= |ds|
      invariant idx == RemoteIndices(ds[..i])
      invariant |names| == |idx| && |requests| == |idx|
      invariant forall k :: 0 <= k < |idx| ==> idx[k] < i
      invariant forall k :: 0 <= k < |idx| ==>
        names[k] == KeyOf(ds[idx[k]], idx[k]) && requests[k] == RequestFor(ds[idx[k]], createQueryParams)
    {
      RemoteIndicesStep(ds, i);
      if IsRemote(ds[i]) {
        names := names + [KeyOf(ds[i], i)];
        requests := requests + [Request(ds[i].url.value, createQueryParams(ds[i].query))];
        idx := idx + [i];
      }
      i := i + 1;
    }
    assert ds[..|ds|] == ds;
  }

  /** The second loop of `query()`: `responseHash[names[i]] = responses[i]` for
      each response in order, so a later duplicate name overwrites an earlier one. */
  method HashResponses(names: seq<string>, responses: seq<Json>) returns (responseHash: map<string, Json>)
    requires |names| == |responses|
    ensures responseHash == Zip(names, responses)
  {
    responseHash := map[];
    var k := 0;
    while k < |responses|
      invariant 0 <= k <= |responses|
      invariant responseHash == Zip(names[..k], responses[..k])
    {
      assert names[..k + 1][..k] == names[..k] && responses[..k + 1][..k] == responses[..k];
      responseHash := responseHash[names[k] := responses[k]];
      k := k + 1;
    }
    assert names[..k] == names && responses[..k] == responses;
  }
}
