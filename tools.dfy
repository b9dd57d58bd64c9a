/** The tool vocabulary: `AIToolModel`, one decoded tool invocation, and the
    one registered tool, `AIToolWeather`. Parameter dictionaries map each key
    to the text its value prints as. */
module Tools {
  import opened Wrappers
  import opened Text

  /** `AIToolModel`, as decoded from the payload's JSON keys `tool`,
      `description`, `pseudo_parameters`, `parameters` and
      `toolresponseformattype`; an absent key or a JSON null decodes to `None`. */
  datatype ToolCall = ToolCall(
    tool: Option<string>,
    description: Option<string>,
    pseudoParameters: Option<string>,
    parameters: Option<seq<map<string, string>>>,
    toolResponseFormatType: Option<string>)

  const WeatherToolName: string := "GetWeatherForecast"
  const WeatherReplyPrefix: string := "User asked to look for a weather in the current city> "

  /** The message of the `KeyNotFoundException` a dictionary indexer throws. */
  function KeyNotFoundMessage(key: string): string {
    "The given key '" + key + "' was not present in the dictionary."
  }

  /** `AIToolWeather`: its descriptor fields and its capability. */
  class WeatherTool {
    var tool: Option<string>
    var description: Option<string>
    var pseudoParameters: Option<string>
    var parameters: Option<seq<map<string, string>>>
    var toolResponseFormatType: Option<string>

    constructor ()
      ensures tool == Some(WeatherToolName)
      ensures description == Some("Provides weather information. It should return a formatted HTML")
      ensures pseudoParameters == Some("{ \"city\": \"string city name\" }")
      ensures parameters == None
      ensures toolResponseFormatType == Some("html")
    {
      tool := Some(WeatherToolName);
      description := Some("Provides weather information. It should return a formatted HTML");
      pseudoParameters := Some("{ \"city\": \"string city name\" }");
      parameters := None;
      toolResponseFormatType := Some("html");
    }

    /** `ExecuteAsync`: the reply names the requested city; a dictionary
        without `city` makes the indexer throw. It reads no field. */
    function Execute(arguments: map<string, string>): (r: Result<string>)
      ensures r.Ok? <==> "city" in arguments
      ensures r.Ok? ==> r.value == WeatherReplyPrefix + arguments["city"] + "\n"
      ensures r.Err? ==> r.message == KeyNotFoundMessage("city")
    {
      if "city" in arguments then
        Ok(WeatherReplyPrefix + arguments["city"] + "\n")
      else
        Err(KeyNotFoundMessage("city"))
    }

    /** The reply contains the city it was asked about. */
    lemma ReplyMentionsCity(arguments: map<string, string>)
      requires "city" in arguments
      ensures Execute(arguments).Ok? && Contains(Execute(arguments).value, arguments["city"])
    {
      ContainsInfix(WeatherReplyPrefix, arguments["city"], "\n");
    }

    /** Only the `city` entry decides the outcome. */
    lemma OnlyCityMatters(a: map<string, string>, b: map<string, string>)
      requires ("city" in a <==> "city" in b)
      requires "city" in a ==> a["city"] == b["city"]
      ensures Execute(a) == Execute(b)
    {
    }
  }
}
