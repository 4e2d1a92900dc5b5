/** Charts: the named, versioned, raw-JSON input a Manifold is built from. */
module Charts {
  import opened Errors

  datatype Chart = Chart(name: string, version: string, rawJson: string)

  const EmptyJsonMessage := "Provided JSON for Chart is empty."

  /** `Chart::from_json`: the only validation is that the JSON text is not empty;
      otherwise the three strings are stored as given. */
  function FromJson(name: string, version: string, jsonData: string): (r: UorResult<Chart>)
    ensures r.Err? <==> jsonData == []
    ensures r.Err? ==> r.error == ChartError(EmptyJsonMessage)
    ensures r.Ok? ==> r.value.name == name && r.value.version == version && r.value.rawJson == jsonData
  {
    if jsonData == [] then Err(ChartError(EmptyJsonMessage))
    else Ok(Chart(name, version, jsonData))
  }
}
