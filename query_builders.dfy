/** The ArcGIS REST requests the query tools send: the URL and the query
    parameters, as a map from parameter name to value. The HTTP exchange
    itself, and the JSON it returns, are outside the model; the field
    extraction of `_get_layer_fields` works on the parsed layer metadata. */
module QueryBuilders {
  import opened Wrappers
  import opened Text
  import opened Discovery

  const DefaultWhere: string := "1=1"
  const AllFields: string := "*"
  const IntersectsRel: string := "esriSpatialRelIntersects"
  /** The record count the query tools ask for unless told otherwise. */
  const DefaultMaxRecords: int := 100
  const Wgs84: int := 4326
  /** The layer `_query_leases_dataset` reads unless told otherwise. */
  const LeasesDefaultLayer: int := 11

  /** A bounding box in a spatial reference. */
  datatype Envelope = Envelope(xmin: real, ymin: real, xmax: real, ymax: real, wkid: int)

  /** One entry of the `outStatistics` list. */
  datatype OutStatistic = OutStatistic(statisticType: string, onStatisticField: string, outStatisticFieldName: string)

  /** A query-parameter value. The envelope and the statistics list are sent
      as JSON text; the model keeps their structure. */
  datatype ParamValue =
    | TextParam(text: string)
    | Number(number: int)
    | Decimal(decimal: real)
    | EnvelopeValue(envelope: Envelope)
    | StatisticsValue(statistics: seq<OutStatistic>)

  /** The query-parameter names the tools use. */
  datatype ParamKey =
    | Where | OutFields | ReturnGeometry | Format | ResultRecordCount | SpatialRel
    | Geometry | GeometryType | OutStatistics | Distance | Units

  /** The name each parameter is sent under. */
  function KeyName(k: ParamKey): string {
    match k
    case Where => "where"
    case OutFields => "outFields"
    case ReturnGeometry => "returnGeometry"
    case Format => "f"
    case ResultRecordCount => "resultRecordCount"
    case SpatialRel => "spatialRel"
    case Geometry => "geometry"
    case GeometryType => "geometryType"
    case OutStatistics => "outStatistics"
    case Distance => "distance"
    case Units => "units"
  }

  /** A GET request: URL and query parameters. */
  datatype Request = Request(url: string, params: map<ParamKey, ParamValue>)

  // ---------------------------------------------------------------------
  // URLs

  /** The service URL with a `/` appended unless it already ends with one. */
  function WithTrailingSlash(url: string): (r: string)
    ensures EndsWith(r, '/')
    ensures StartsWith(r, url) && |r| <= |url| + 1
    ensures EndsWith(url, '/') ==> r == url
  {
    if EndsWith(url, '/') then url else url + "/"
  }

  /** The layer URL: the service URL, a slash, the layer id in decimal. */
  function LayerUrl(serviceUrl: string, layerId: int): string {
    WithTrailingSlash(serviceUrl) + IntToString(layerId)
  }

  function QueryUrl(serviceUrl: string, layerId: int): string {
    LayerUrl(serviceUrl, layerId) + "/query"
  }

  /** The query URL is the service URL with its trailing slash, then the
      layer id, which reads back as the same number, then `/query`. */
  lemma QueryUrlParts(serviceUrl: string, layerId: int)
    ensures var base := WithTrailingSlash(serviceUrl);
      var u := QueryUrl(serviceUrl, layerId);
      && StartsWith(u, base)
      && |u| >= |base| + 6
      && u[|u| - 6..] == "/query"
      && ParseInt(u[|base|..|u| - 6]) == Some(layerId)
  {
    var base := WithTrailingSlash(serviceUrl);
    var u := QueryUrl(serviceUrl, layerId);
    assert u == base + IntToString(layerId) + "/query";
    assert u[|base|..|u| - 6] == IntToString(layerId);
    IntToStringRoundTrip(layerId);
  }

  /** Two layers of one service have different query URLs. */
  lemma QueryUrlInjective(serviceUrl: string, a: int, b: int)
    requires QueryUrl(serviceUrl, a) == QueryUrl(serviceUrl, b)
    ensures a == b
  {
    QueryUrlParts(serviceUrl, a);
    QueryUrlParts(serviceUrl, b);
  }

  // ---------------------------------------------------------------------
  // `_query_feature_layer`

  /** Python truthiness of the optional geometry string. */
  predicate HasGeometry(geometry: Option<string>) {
    geometry.Some? && geometry.value != []
  }

  function BoolText(b: bool): string {
    if b then "true" else "false"
  }

  function FeatureQuery(serviceUrl: string, layerId: int := 0, where: string := DefaultWhere,
                        geometry: Option<string> := None, spatialRel: string := IntersectsRel,
                        returnGeometry: bool := true, maxRecords: int := DefaultMaxRecords,
                        outFields: string := AllFields): (r: Request)
    ensures r.url == QueryUrl(serviceUrl, layerId)
    ensures r.params.Keys == {Where, OutFields, ReturnGeometry, Format, ResultRecordCount, SpatialRel} +
                             (if HasGeometry(geometry) then {Geometry, GeometryType} else {})
    ensures r.params[Where] == TextParam(where)
    ensures r.params[OutFields] == TextParam(outFields)
    ensures r.params[ReturnGeometry] == TextParam(BoolText(returnGeometry))
    ensures r.params[Format] == TextParam("json")
    ensures r.params[ResultRecordCount] == Number(maxRecords)
    ensures r.params[SpatialRel] == TextParam(spatialRel)
    ensures Geometry in r.params <==> HasGeometry(geometry)
    ensures HasGeometry(geometry) ==>
              r.params[Geometry] == TextParam(geometry.value) &&
              r.params[GeometryType] == TextParam("esriGeometryPolygon")
  {
    var params := map[Where := TextParam(where), OutFields := TextParam(outFields), ReturnGeometry := TextParam(BoolText(returnGeometry)),
          Format := TextParam("json"), ResultRecordCount := Number(maxRecords), SpatialRel := TextParam(spatialRel)];
    if HasGeometry(geometry) then
      Request(QueryUrl(serviceUrl, layerId),
              params[Geometry := TextParam(geometry.value)][GeometryType := TextParam("esriGeometryPolygon")])
    else Request(QueryUrl(serviceUrl, layerId), params)
  }

  // ---------------------------------------------------------------------
  // `_get_layer_statistics`

  /** The output field is named after the statistic and the field. */
  function StatisticAlias(statisticType: string, fieldName: string): string {
    statisticType + "_" + fieldName
  }

  /** When the statistic type has no `_`, the alias splits back into the
      statistic type and the field name. */
  lemma StatisticAliasSplits(statisticType: string, fieldName: string)
    requires '_' !in statisticType
    ensures Before(StatisticAlias(statisticType, fieldName), '_') == statisticType
    ensures After(StatisticAlias(statisticType, fieldName), '_') == fieldName
  {
    assert StatisticAlias(statisticType, fieldName) == statisticType + ['_'] + fieldName;
    SplitFirstJoined(statisticType, '_', fieldName);
  }

  function StatisticsQuery(serviceUrl: string, layerId: int := 0, fieldName: string := "",
                           statisticType: string := "count", where: string := DefaultWhere): (r: Request)
    ensures r.url == QueryUrl(serviceUrl, layerId)
    ensures r.params.Keys == {Where, OutStatistics, Format}
    ensures r.params[Where] == TextParam(where)
    ensures r.params[Format] == TextParam("json")
    ensures r.params[OutStatistics] ==
              StatisticsValue([OutStatistic(statisticType, fieldName, StatisticAlias(statisticType, fieldName))])
  {
    var stats := [OutStatistic(statisticType, fieldName, StatisticAlias(statisticType, fieldName))];
    Request(QueryUrl(serviceUrl, layerId),
            map[Where := TextParam(where), OutStatistics := StatisticsValue(stats), Format := TextParam("json")])
  }

  // ---------------------------------------------------------------------
  // `_spatial_query_by_coordinates`

  /** Python truthiness of the optional buffer distance: absent and zero are
      both falsy. */
  predicate HasBuffer(bufferDistance: Option<real>) {
    bufferDistance.Some? && bufferDistance.value != 0.0
  }

  /** The parameters sent whatever the buffer: the envelope in WGS84, an
      intersection test, every field and the geometry of every feature. */
  function EnvelopeParams(xmin: real, ymin: real, xmax: real, ymax: real, maxRecords: int)
    : (p: map<ParamKey, ParamValue>)
    ensures p.Keys == {Geometry, GeometryType, SpatialRel, Where, OutFields, ReturnGeometry, Format, ResultRecordCount}
    ensures p[Geometry] == EnvelopeValue(Envelope(xmin, ymin, xmax, ymax, Wgs84))
    ensures p[GeometryType] == TextParam("esriGeometryEnvelope")
    ensures p[SpatialRel] == TextParam(IntersectsRel)
    ensures p[Where] == TextParam(DefaultWhere)
    ensures p[OutFields] == TextParam(AllFields)
    ensures p[ReturnGeometry] == TextParam("true")
    ensures p[Format] == TextParam("json")
    ensures p[ResultRecordCount] == Number(maxRecords)
  {
    map[Geometry := EnvelopeValue(Envelope(xmin, ymin, xmax, ymax, Wgs84)),
        GeometryType := TextParam("esriGeometryEnvelope"), SpatialRel := TextParam(IntersectsRel),
        Where := TextParam(DefaultWhere), OutFields := TextParam(AllFields), ReturnGeometry := TextParam("true"),
        Format := TextParam("json"), ResultRecordCount := Number(maxRecords)]
  }

  /** The bounding-box query: the envelope parameters, and a distance in
      metres exactly when the buffer is truthy. */
  function BoundingBoxQuery(serviceUrl: string, layerId: int := 0, xmin: real := 0.0, ymin: real := 0.0,
                            xmax: real := 0.0, ymax: real := 0.0, bufferDistance: Option<real> := None,
                            maxRecords: int := DefaultMaxRecords): (r: Request)
    ensures r.url == QueryUrl(serviceUrl, layerId)
    ensures r.params.Keys == EnvelopeParams(xmin, ymin, xmax, ymax, maxRecords).Keys +
                             (if HasBuffer(bufferDistance) then {Distance, Units} else {})
    ensures forall k :: k in EnvelopeParams(xmin, ymin, xmax, ymax, maxRecords) ==>
              r.params[k] == EnvelopeParams(xmin, ymin, xmax, ymax, maxRecords)[k]
    ensures HasBuffer(bufferDistance) ==>
              r.params[Distance] == Decimal(bufferDistance.value) &&
              r.params[Units] == TextParam("esriSRUnit_Meter")
  {
    var params := EnvelopeParams(xmin, ymin, xmax, ymax, maxRecords);
    if HasBuffer(bufferDistance) then
      Request(QueryUrl(serviceUrl, layerId),
              params[Distance := Decimal(bufferDistance.value)][Units := TextParam("esriSRUnit_Meter")])
    else Request(QueryUrl(serviceUrl, layerId), params)
  }

  // ---------------------------------------------------------------------
  // `_query_leases_dataset`

  /** The Leases query: the layer under the fixed Leases service URL, the
      caller's format, and geometry requested exactly when the format is
      GeoJSON in any letter case. */
  function LeasesQuery(where: string := DefaultWhere, layerId: int := LeasesDefaultLayer,
                       format: string := "geojson", maxRecords: int := DefaultMaxRecords): (r: Request)
    ensures r.url == QueryUrl(LeasesServiceUrl, layerId)
    ensures r.params.Keys == {Where, OutFields, Format, ResultRecordCount} +
                             (if Lower(format) == "geojson" then {ReturnGeometry} else {})
    ensures r.params[Where] == TextParam(where)
    ensures r.params[OutFields] == TextParam(AllFields)
    ensures r.params[Format] == TextParam(format)
    ensures r.params[ResultRecordCount] == Number(maxRecords)
    ensures ReturnGeometry in r.params <==> Lower(format) == "geojson"
    ensures ReturnGeometry in r.params ==> r.params[ReturnGeometry] == TextParam("true")
  {
    var params := map[Where := TextParam(where), OutFields := TextParam(AllFields), Format := TextParam(format),
          ResultRecordCount := Number(maxRecords)];
    var url := LeasesServiceUrl + "/" + IntToString(layerId) + "/query";
    if Lower(format) == "geojson" then Request(url, params[ReturnGeometry := TextParam("true")])
    else Request(url, params)
  }

  // ---------------------------------------------------------------------
  // `_get_layer_fields`

  function LayerFieldsRequest(serviceUrl: string, layerId: int := 0): (r: Request)
    ensures r.url == LayerUrl(serviceUrl, layerId)
    ensures r.params == map[Format := TextParam("json")]
  {
    Request(LayerUrl(serviceUrl, layerId), map[Format := TextParam("json")])
  }

  /** One entry of a layer's `fields` list: the keys the server reads, each
      possibly absent. */
  datatype FieldDescriptor = FieldDescriptor(
    name: Option<string>,
    fieldType: Option<string>,
    alias: Option<string>,
    length: Option<int>,
    nullable: Option<bool>,
    editable: Option<bool>)

  /** The parsed layer metadata. */
  datatype LayerMetadata = LayerMetadata(
    name: Option<string>,
    description: Option<string>,
    geometryType: Option<string>,
    fields: Option<seq<FieldDescriptor>>)

  /** One extracted field: absent strings become "", an absent length stays
      absent, nullability defaults to true and editability to false. */
  datatype FieldInfo = FieldInfo(
    name: string,
    fieldType: string,
    alias: string,
    length: Option<int>,
    nullable: bool,
    editable: bool)

  datatype LayerFields = LayerFields(
    layerName: string,
    layerDescription: string,
    geometryType: string,
    fields: seq<FieldInfo>)

  function FieldInfoOf(f: FieldDescriptor): FieldInfo {
    FieldInfo(f.name.GetOr(""), f.fieldType.GetOr(""), f.alias.GetOr(""), f.length,
              f.nullable.GetOr(true), f.editable.GetOr(false))
  }

  /** The extracted information for the given field descriptors. */
  function FieldInfos(fs: seq<FieldDescriptor>): (r: seq<FieldInfo>)
    ensures |r| == |fs|
    ensures forall i :: 0 <= i < |fs| ==> r[i] == FieldInfoOf(fs[i])
  {
    seq(|fs|, i requires 0 <= i < |fs| => FieldInfoOf(fs[i]))
  }

  /** The extraction loop of `_get_layer_fields`: one entry per field, in
      order, each taking the descriptor's value or the default. */
  method ExtractLayerFields(data: LayerMetadata) returns (info: LayerFields)
    ensures info.layerName == data.name.GetOr("")
    ensures info.layerDescription == data.description.GetOr("")
    ensures info.geometryType == data.geometryType.GetOr("")
    ensures info.fields == FieldInfos(data.fields.GetOr([]))
    ensures forall i :: 0 <= i < |info.fields| ==>
              && (info.fields[i].nullable <==> data.fields.value[i].nullable != Some(false))
              && (info.fields[i].editable <==> data.fields.value[i].editable == Some(true))
              && info.fields[i].length == data.fields.value[i].length
  {
    var fs := data.fields.GetOr([]);
    var fields: seq<FieldInfo> := [];
    var i := 0;
    while i < |fs|
      invariant 0 <= i <= |fs|
      invariant fields == FieldInfos(fs[..i])
    {
      fields := fields + [FieldInfoOf(fs[i])];
      i := i + 1;
    }
    assert fs[..i] == fs;
    info := LayerFields(data.name.GetOr(""), data.description.GetOr(""), data.geometryType.GetOr(""), fields);
  }
}
