/**
 * The tool registry of index.js: the two tools and the fixed name-to-tool
 * table that the round loop dispatches through.
 */
module Tools {
  import opened Wrappers

  /** What a tool call settles to, as the round loop sees it: the resolved
      string, or the text of the error its `catch` receives
      (`err.message || String(err)`). */
  datatype ToolResult = Ok(value: string) | Err(message: string)

  /** What the operating system reports for one shell command: its two
      output streams, or the error `exec` hands to its callback. */
  datatype ShellOutcome = Exited(stdout: string, stderr: string) | Failed(message: string)

  datatype Tool = GetWeatherInfo | ExecuteCommand

  /** `availableFunctions`: fixed at start-up, never changed. */
  const AvailableFunctions: map<string, Tool> :=
    map["getWeatherInfo" := GetWeatherInfo, "executeCommand" := ExecuteCommand]

  const WeatherPrefix: string := "28 DEGREE CELSIUS for "

  /** The TypeError text a JavaScript engine (V8) reports when
      `availableFunctions[tool]` is not a registered function. */
  const NotAFunction: string := "availableFunctions[tool] is not a function"

  /** A template literal renders an absent argument as "undefined". */
  function Render(arg: Option<string>): string
  {
    match arg
    case None => "undefined"
    case Some(s) => s
  }

  /** `getWeatherInfo(city)`: the same temperature for every city. */
  function WeatherReport(city: Option<string>): (r: string)
    ensures |r| == |WeatherPrefix| + |Render(city)|
    ensures r[..|WeatherPrefix|] == WeatherPrefix
    ensures r[|WeatherPrefix|..] == Render(city)
  {
    WeatherPrefix + Render(city)
  }

  /** Reads the city back out of a weather report. */
  function CityOf(report: string): (city: Option<string>)
    ensures city.Some? ==> WeatherPrefix + city.value == report
  {
    if |WeatherPrefix| <= |report| && report[..|WeatherPrefix|] == WeatherPrefix
    then Some(report[|WeatherPrefix|..])
    else None
  }

  /** Every report starts with the fixed temperature and names the rendered
      city, which can be read back from it. */
  lemma WeatherReportRoundTrip(city: Option<string>)
    ensures CityOf(WeatherReport(city)) == Some(Render(city))
    ensures forall other :: WeatherReport(other) == WeatherReport(city) ==> Render(other) == Render(city)
  {
    forall other | WeatherReport(other) == WeatherReport(city)
      ensures Render(other) == Render(city)
    {
      assert Render(other) == WeatherReport(other)[|WeatherPrefix|..];
    }
  }

  /** `executeCommand(command)`: a completed command resolves to both
      streams, labelled; an `exec` error rejects the promise. */
  function RunCommand(outcome: ShellOutcome): (r: ToolResult)
    ensures outcome.Failed? <==> r.Err?
    ensures r.Err? ==> r.message == outcome.message
    ensures r.Ok? ==> r.value == "stdout " + outcome.stdout + "\nstderr " + outcome.stderr
  {
    match outcome
    case Exited(out, err) => Ok("stdout " + out + "\nstderr " + err)
    case Failed(m) => Err(m)
  }

  /** `availableFunctions[tool]`: only the two own keys of the table name a
      tool; an absent name is looked up as the key "undefined". */
  function Lookup(name: Option<string>): (t: Option<Tool>)
    ensures t.Some? <==> name.Some? && name.value in AvailableFunctions
    ensures t.Some? ==> t.value == AvailableFunctions[name.value]
  {
    var key := Render(name);
    if key in AvailableFunctions then Some(AvailableFunctions[key]) else None
  }

  /** `await availableFunctions[tool](input)` inside its `try`: the shell
      outcome is used only when the shell tool is the one called. Every
      failure, an unregistered name included, becomes an `Err`. */
  function Invoke(name: Option<string>, input: Option<string>, shell: ShellOutcome): (r: ToolResult)
    ensures Lookup(name).None? ==> r == Err(NotAFunction)
    ensures Lookup(name) == Some(GetWeatherInfo) ==> r == Ok(WeatherReport(input))
    ensures Lookup(name) == Some(ExecuteCommand) ==> r == RunCommand(shell)
  {
    match Lookup(name)
    case None => Err(NotAFunction)
    case Some(GetWeatherInfo) => Ok(WeatherReport(input))
    case Some(ExecuteCommand) => RunCommand(shell)
  }

  /** The weather tool never fails, whatever its input and whatever the shell does. */
  lemma WeatherNeverFails(input: Option<string>, shell: ShellOutcome)
    ensures Invoke(Some("getWeatherInfo"), input, shell).Ok?
    ensures Invoke(Some("getWeatherInfo"), input, shell).value[|WeatherPrefix|..] == Render(input)
  {
  }
}
