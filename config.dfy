/** The configuration entries handed to processors and collectors. */
module Config {
  import opened Wrappers
  import opened Values

  /** A processor's configuration: its bean name, its arguments in file order and its
      own optional read-only flag. */
  datatype ProcessorConfig = ProcessorConfig(name: Option<string>, args: seq<(string, Value)>, readOnly: Option<bool>)
  {
    /** `getArg`: the argument, or `Null` when it is absent. */
    function Arg(key: string): Value { Get(args, key) }
  }

  /** A collector's configuration: its bean name and its arguments. */
  datatype CollectorConfig = CollectorConfig(name: Option<string>, args: seq<(string, Value)>)
  {
    function Arg(key: string): Value { Get(args, key) }
  }

  /** The `batch-size` argument of the paging collectors. */
  const BatchSizeKey := "batch-size"

  /** The page size of the paging collectors when `batch-size` is not given. */
  const DefaultBatchSize := 100

  /** The `batch-size` argument: kept when absent, otherwise unboxed as an `Integer`
      (a number outside 32 bits is a `Long` and does not cast). */
  function BatchSizeOf(arg: Value, current: int): (r: Result<int, Exception>)
    ensures arg == Null ==> r == Ok(current)
    ensures arg.Int? && -0x8000_0000 <= arg.i < 0x8000_0000 ==> r == Ok(arg.i)
    ensures r.Err? <==> arg != Null && !(arg.Int? && -0x8000_0000 <= arg.i < 0x8000_0000)
    ensures r.Err? ==> r.error == ClassCast
  {
    if arg == Null then Ok(current)
    else if arg.Int? && -0x8000_0000 <= arg.i < 0x8000_0000 then Ok(arg.i)
    else Err(ClassCast)
  }
}
