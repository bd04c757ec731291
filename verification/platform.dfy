/**
 The host services the settings layer calls but whose code is not part of this
 model: the framework's boolean and time-span parsers, path combination, the
 process's current directory and the web host's virtual-path mapper. Each is
 an uninterpreted value carried in a `Host` record, so every property proved
 about the settings layer holds for any behaviour of these services unless a
 lemma says which behaviour it relies on.
 */
module Platform {

  /** An optional value: `None` stands for the framework's `null`. */
  datatype Option<+T> = None | Some(value: T) {

    /** The wrapped value, or `default` when there is none. */
    function GetOr(default: T): T {
      match this
      case Some(v) => v
      case None => default
    }
  }

  /** A .NET `TimeSpan`, counted in 100-nanosecond ticks. */
  datatype TimeSpan = TimeSpan(ticks: int)

  const TicksPerSecond: int := 10_000_000

  /** `TimeSpan.FromSeconds` for a whole number of seconds. */
  function FromSeconds(seconds: int): TimeSpan {
    TimeSpan(seconds * TicksPerSecond)
  }

  /**
   The process environment as seen by the settings layer.
   - `isHosted`: whether the code runs inside the web host (`HostingEnvironment.IsHosted`)
   - `mapPath`: the host's virtual-path mapper (`HostingEnvironment.MapPath`)
   - `currentDirectory`: `Environment.CurrentDirectory`
   - `combine`: `Path.Combine` of two path fragments
   - `tryParseBool`: `bool.TryParse`, `None` when the text does not parse
   - `tryParseTimeSpan`: `TimeSpan.TryParse`, `None` when the text does not parse
   */
  datatype Host = Host(
    isHosted: bool,
    mapPath: string -> string,
    currentDirectory: string,
    combine: (string, string) -> string,
    tryParseBool: string -> Option<bool>,
    tryParseTimeSpan: string -> Option<TimeSpan>
  )
}
