/**
 * RayTracer/main.cpp: the command-line front end. Tokens after the program
 * name are searched for options; valued options override their defaults
 * through std::stoul, flags are set by presence, and the image buffer is
 * checked for shape before it is written as a PNG.
 */
module CommandLine {
  import opened Wrappers
  import opened Integers
  import opened Decimal

  /** std::find: the index of the first token equal to `option`, or |tokens| when there is none. */
  function Find(tokens: seq<string>, option: string): nat
  {
    if |tokens| == 0 || tokens[0] == option then 0 else Find(tokens[1..], option) + 1
  }

  lemma {:induction false} FindIsFirst(tokens: seq<string>, option: string)
    ensures Find(tokens, option) <= |tokens|
    ensures Find(tokens, option) < |tokens| ==> tokens[Find(tokens, option)] == option
    ensures option !in tokens[..Find(tokens, option)]
  {
    if |tokens| > 0 && tokens[0] != option {
      FindIsFirst(tokens[1..], option);
      var rest := Find(tokens[1..], option);
      assert tokens[..rest + 1] == [tokens[0]] + tokens[1..][..rest];
    }
  }

  /**
   * GetCommandOption: the token right after the first occurrence of the
   * option, or "" when the option is absent or is the last token.
   */
  function CommandOption(tokens: seq<string>, option: string): string
  {
    var i := Find(tokens, option);
    if i < |tokens| && i + 1 < |tokens| then tokens[i + 1] else ""
  }

  /** CommandOptionExists: whether std::find reaches an occurrence. */
  function OptionExists(tokens: seq<string>, option: string): bool
  {
    Find(tokens, option) < |tokens|
  }

  lemma OptionExistsIffPresent(tokens: seq<string>, option: string)
    ensures OptionExists(tokens, option) <==> option in tokens
  {
    FindIsFirst(tokens, option);
    assert tokens[..|tokens|] == tokens;
  }

  /** The value is the token following the first occurrence, and "" without one. */
  lemma CommandOptionFollowsFirst(tokens: seq<string>, option: string, i: nat)
    requires i < |tokens| && tokens[i] == option && option !in tokens[..i]
    ensures CommandOption(tokens, option) == if i + 1 < |tokens| then tokens[i + 1] else ""
  {
    FindIsFirst(tokens, option);
  }

  lemma CommandOptionAbsent(tokens: seq<string>, option: string)
    requires option !in tokens
    ensures CommandOption(tokens, option) == ""
  {
    FindIsFirst(tokens, option);
  }

  /**
   * vector<string>::max_size() under MSVC x64: PTRDIFF_MAX divided by the
   * 32 bytes of a std::string.
   */
  const VECTOR_MAX_SIZE: nat := (SIZE_T_LIMIT / 2 - 1) / 32

  /**
   * Whether arguments.reserve((size_t)argc - 1) throws std::length_error:
   * the request, converted to size_t, exceeds max_size(). With argc == 0 the
   * request wraps to SIZE_MAX.
   */
  function ReserveFails(argc: nat): (fails: bool)
    ensures argc == 0 ==> fails
  {
    ToSizeT(argc - 1) > VECTOR_MAX_SIZE
  }

  /** For every count an int argc can hold, reserve throws exactly when the program name is missing. */
  lemma ReserveFailsOnlyWithoutProgramName(argc: nat)
    requires argc < 0x8000_0000
    ensures ReserveFails(argc) <==> argc == 0
  {
  }

  /** The exceptions that escape parse_command_line_arguments. */
  datatype Failure = LengthError | StoulFailure(error: StoulError)

  class InputParser {
    var arguments: seq<string>

    /** The parser holding the copied tokens. */
    constructor (arguments: seq<string>)
      ensures this.arguments == arguments
    {
      this.arguments := arguments;
    }

    /**
     * InputParser(argc, argv): reserves argc - 1 slots, which throws
     * length_error when argc is 0, then keeps argv[1 .. argc-1] in order,
     * dropping the program name.
     */
    static method Create(argv: seq<string>) returns (r: Result<InputParser, Failure>)
      ensures r.Err? <==> ReserveFails(|argv|)
      ensures r.Err? ==> r.error == LengthError
      ensures r.Ok? ==> fresh(r.value) && r.value.arguments == argv[1..]
    {
      if ReserveFails(|argv|) {
        return Err(LengthError);
      }
      var kept: seq<string> := [];
      var i := 1;
      while i < |argv|
        invariant 1 <= i <= |argv|
        invariant kept == argv[1..i]
      {
        kept := kept + [argv[i]];
        i := i + 1;
      }
      var parser := new InputParser(kept);
      return Ok(parser);
    }

    function GetCommandOption(option: string): string
      reads this
    {
      CommandOption(arguments, option)
    }

    function CommandOptionExists(option: string): bool
      reads this
    {
      OptionExists(arguments, option)
    }
  }

  datatype CommandLineArguments = CommandLineArguments(
    RenderCPU: bool,
    RenderGPU: bool,
    GPUDebugEnabled: bool,
    TracePerformance: bool,
    Samples: nat,
    MaxBounces: nat,
    ResolutionX: nat,
    ResolutionY: nat,
    MaxThreads: nat,
    ShowHelp: bool,
    outputFilePath: string,
    inputFilePath: string)

  /** The defaults: GPU rendering, 1 sample, 4 bounces, 1920×1080, no thread cap, no paths. */
  const Defaults: CommandLineArguments := CommandLineArguments(
    RenderCPU := false, RenderGPU := true, GPUDebugEnabled := false, TracePerformance := false,
    Samples := 1, MaxBounces := 4, ResolutionX := 1920, ResolutionY := 1080, MaxThreads := 0,
    ShowHelp := false, outputFilePath := "", inputFilePath := "")

  /**
   * A valued option: its text, when non-empty, is read by stoul and replaces
   * the current value; an empty text keeps the current value.
   */
  function ReadOption(text: string, current: nat): (r: Result<nat, StoulError>)
    ensures text == "" ==> r == Ok(current)
    ensures forall n: nat :: text == NatToString(n) && n < UINT32_LIMIT ==> r == Ok(n)
    ensures forall n: nat :: text == NatToString(n) && n >= UINT32_LIMIT ==> r == Err(OutOfRange)
    ensures text != "" && (forall i :: 0 <= i < |text| ==> !IsDigit(text[i])) ==> r == Err(InvalidArgument)
    ensures r.Ok? && text != "" ==> r.value < UINT32_LIMIT
  {
    if text == "" then Ok(current) else StoulOfText(text); Stoul(text)
  }

  function TextOr(current: string, text: string): string
  {
    if text == "" then current else text
  }

  /**
   * The valued numeric options, in the order they are read: the stoul error
   * of the first of -s, -b, -x, -y, -m whose non-empty text it rejects, or
   * the arguments with each of those fields overridden by its option's number.
   */
  function ParsedNumbers(tokens: seq<string>, arguments: CommandLineArguments): Result<CommandLineArguments, StoulError>
  {
    var samples :- ReadOption(CommandOption(tokens, "-s"), arguments.Samples);
    var maxBounces :- ReadOption(CommandOption(tokens, "-b"), arguments.MaxBounces);
    var resolutionX :- ReadOption(CommandOption(tokens, "-x"), arguments.ResolutionX);
    var resolutionY :- ReadOption(CommandOption(tokens, "-y"), arguments.ResolutionY);
    var maxThreads :- ReadOption(CommandOption(tokens, "-m"), arguments.MaxThreads);
    Ok(arguments.(Samples := samples, MaxBounces := maxBounces, ResolutionX := resolutionX,
                  ResolutionY := resolutionY, MaxThreads := maxThreads))
  }

  /** The paths, each overridden only by a non-empty text. */
  function WithPaths(tokens: seq<string>, arguments: CommandLineArguments): CommandLineArguments
  {
    arguments.(outputFilePath := TextOr(arguments.outputFilePath, CommandOption(tokens, "-o")),
               inputFilePath := TextOr(arguments.inputFilePath, CommandOption(tokens, "-i")))
  }

  /** The flags, each set to whether it is present, whatever it was before. */
  function WithFlags(tokens: seq<string>, arguments: CommandLineArguments): CommandLineArguments
  {
    arguments.(RenderCPU := OptionExists(tokens, "-c"), RenderGPU := OptionExists(tokens, "-g"),
               GPUDebugEnabled := OptionExists(tokens, "-dg"), TracePerformance := OptionExists(tokens, "-t"),
               ShowHelp := OptionExists(tokens, "-h"))
  }

  /** What parsing makes of the tokens: numbers first (which may fail), then paths, then flags. */
  function Parsed(tokens: seq<string>, arguments: CommandLineArguments): Result<CommandLineArguments, StoulError>
  {
    var numbers :- ParsedNumbers(tokens, arguments);
    Ok(WithFlags(tokens, WithPaths(tokens, numbers)))
  }

  /**
   * What parse_command_line_arguments makes of argv: length_error when the
   * parser cannot reserve its slots, stoul's exception when a number is
   * rejected, and otherwise the parse of the tokens after the program name.
   */
  function ParsedArgv(argv: seq<string>, arguments: CommandLineArguments): Result<CommandLineArguments, Failure>
  {
    if ReserveFails(|argv|) then Err(LengthError)
    else
      match Parsed(argv[1..], arguments)
      case Ok(a) => Ok(a)
      case Err(e) => Err(StoulFailure(e))
  }

  /** Reads one valued option through the parser, as the source does for each of -s, -b, -x, -y, -m. */
  method ReadNumber(parser: InputParser, option: string, current: nat) returns (r: Result<nat, StoulError>)
    ensures r == ReadOption(CommandOption(parser.arguments, option), current)
  {
    var text := parser.GetCommandOption(option);
    if text != "" {
      var value :- Stoul(text);
      return Ok(value);
    }
    return Ok(current);
  }

  /** The numeric half of parse_command_line_arguments. */
  method ReadNumbers(parser: InputParser, arguments: CommandLineArguments) returns (r: Result<CommandLineArguments, StoulError>)
    ensures r == ParsedNumbers(parser.arguments, arguments)
  {
    var result := arguments;
    var samples :- ReadNumber(parser, "-s", result.Samples);
    result := result.(Samples := samples);  // the unsigned int cast keeps every value stoul returns
    var maxBounces :- ReadNumber(parser, "-b", result.MaxBounces);
    result := result.(MaxBounces := maxBounces);
    var resolutionX :- ReadNumber(parser, "-x", result.ResolutionX);
    result := result.(ResolutionX := resolutionX);
    var resolutionY :- ReadNumber(parser, "-y", result.ResolutionY);
    result := result.(ResolutionY := resolutionY);
    var maxThreads :- ReadNumber(parser, "-m", result.MaxThreads);
    result := result.(MaxThreads := maxThreads);
    return Ok(result);
  }

  /** The path half: -o and -i override only with a non-empty text. */
  method ReadPaths(parser: InputParser, arguments: CommandLineArguments) returns (result: CommandLineArguments)
    ensures result == WithPaths(parser.arguments, arguments)
  {
    result := arguments;
    var outputFilePath := parser.GetCommandOption("-o");
    if outputFilePath != "" {
      result := result.(outputFilePath := outputFilePath);
    }
    var inputFilePath := parser.GetCommandOption("-i");
    if inputFilePath != "" {
      result := result.(inputFilePath := inputFilePath);
    }
  }

  /** The flag half: each flag is overwritten by its presence. */
  method ReadFlags(parser: InputParser, arguments: CommandLineArguments) returns (result: CommandLineArguments)
    ensures result == WithFlags(parser.arguments, arguments)
  {
    result := arguments;
    result := result.(RenderCPU := parser.CommandOptionExists("-c"));
    result := result.(RenderGPU := parser.CommandOptionExists("-g"));
    result := result.(GPUDebugEnabled := parser.CommandOptionExists("-dg"));
    result := result.(TracePerformance := parser.CommandOptionExists("-t"));
    result := result.(ShowHelp := parser.CommandOptionExists("-h"));
  }

  /**
   * parse_command_line_arguments: reads the valued options in order
   * (stoul's exception ends parsing), then the paths, then sets every flag
   * by presence.
   */
  method ParseCommandLineArguments(argv: seq<string>, arguments: CommandLineArguments)
    returns (r: Result<CommandLineArguments, Failure>)
    ensures r == ParsedArgv(argv, arguments)
    ensures |argv| == 0 ==> r == Err(LengthError)
  {
    var parser :- InputParser.Create(argv);
    var numbers := ReadNumbers(parser, arguments);
    if numbers.Err? {
      return Err(StoulFailure(numbers.error));
    }
    var withPaths := ReadPaths(parser, numbers.value);
    var result := ReadFlags(parser, withPaths);
    return Ok(result);
  }

  /** A valued option with a non-empty text that stoul rejects. */
  predicate Rejected(tokens: seq<string>, option: string)
  {
    CommandOption(tokens, option) != "" && Stoul(CommandOption(tokens, option)).Err?
  }

  /** Parsing fails exactly when some numeric option's text is rejected. */
  lemma ParsedFailsOnRejected(tokens: seq<string>, arguments: CommandLineArguments)
    ensures Parsed(tokens, arguments).Err? <==>
      Rejected(tokens, "-s") || Rejected(tokens, "-b") || Rejected(tokens, "-x") ||
      Rejected(tokens, "-y") || Rejected(tokens, "-m")
  {
    assert Parsed(tokens, arguments).Err? <==> ParsedNumbers(tokens, arguments).Err?;
  }

  /** -s is read first, so its error is the one reported. */
  lemma SamplesErrorFirst(tokens: seq<string>, arguments: CommandLineArguments)
    requires Rejected(tokens, "-s")
    ensures Parsed(tokens, arguments) == Err(Stoul(CommandOption(tokens, "-s")).error)
  {
  }

  /** A readable option's number lands in its field (stoul keeps every -s value below 2^32). */
  lemma OptionValueUsed(tokens: seq<string>, arguments: CommandLineArguments)
    requires Parsed(tokens, arguments).Ok?
    requires CommandOption(tokens, "-x") != "" && CommandOption(tokens, "-s") != ""
    ensures Stoul(CommandOption(tokens, "-x")) == Ok(Parsed(tokens, arguments).value.ResolutionX)
    ensures Stoul(CommandOption(tokens, "-s")) == Ok(Parsed(tokens, arguments).value.Samples)
  {
    var numbers := ParsedNumbers(tokens, arguments).value;
    assert Parsed(tokens, arguments).value.ResolutionX == numbers.ResolutionX;
    assert Parsed(tokens, arguments).value.Samples == numbers.Samples;
  }

  /** Flags ignore their defaults: without -g the GPU is not used, although its default is on. */
  lemma FlagsSetByPresence(tokens: seq<string>, arguments: CommandLineArguments)
    requires Parsed(tokens, arguments).Ok?
    ensures Parsed(tokens, arguments).value.RenderGPU <==> "-g" in tokens
    ensures Parsed(tokens, arguments).value.RenderCPU <==> "-c" in tokens
    ensures Parsed(tokens, arguments).value.ShowHelp <==> "-h" in tokens
  {
    OptionExistsIffPresent(tokens, "-g");
    OptionExistsIffPresent(tokens, "-c");
    OptionExistsIffPresent(tokens, "-h");
  }

  /** A valued option whose text is empty leaves its default in place. */
  lemma EmptyValueKeepsDefault(tokens: seq<string>, arguments: CommandLineArguments)
    requires Parsed(tokens, arguments).Ok?
    requires CommandOption(tokens, "-s") == "" && CommandOption(tokens, "-o") == ""
    ensures Parsed(tokens, arguments).value.Samples == arguments.Samples
    ensures Parsed(tokens, arguments).value.outputFilePath == arguments.outputFilePath
  {
    var numbers := ParsedNumbers(tokens, arguments).value;
    assert numbers.Samples == arguments.Samples && numbers.outputFilePath == arguments.outputFilePath;
    assert Parsed(tokens, arguments).value == WithFlags(tokens, WithPaths(tokens, numbers));
  }

  /** main prints help and exits when -h is given or there is no output path. */
  predicate ShowsHelp(arguments: CommandLineArguments)
  {
    arguments.ShowHelp || arguments.outputFilePath == ""
  }

  /** The program name alone: defaults with the GPU switched off, and help is shown. */
  lemma NoArgumentsShowsHelp()
    ensures Parsed([], Defaults) == Ok(Defaults.(RenderGPU := false))
    ensures ShowsHelp(Parsed([], Defaults).value)
  {
  }

  /** The choices main makes after parsing. */
  datatype MainOutcome =
    | Terminated(error: Failure)             // length_error or stoul's exception escapes main
    | HelpShown                              // help text, exit(0)
    | Proceeds(arguments: CommandLineArguments, presetScene: bool, renderCPU: bool, renderGPU: bool)

  /**
   * main up to rendering: parse from the defaults, show help when asked or
   * when no output path is given, else use the preset scene when there is
   * no input path and render on each selected device.
   */
  method MainDecision(argv: seq<string>) returns (outcome: MainOutcome)
    ensures |argv| == 0 ==> outcome == Terminated(LengthError)
    ensures ParsedArgv(argv, Defaults).Err? ==> outcome == Terminated(ParsedArgv(argv, Defaults).error)
    ensures ParsedArgv(argv, Defaults).Ok? ==>
      var a := ParsedArgv(argv, Defaults).value;
      if ShowsHelp(a) then outcome == HelpShown
      else outcome == Proceeds(a, a.inputFilePath == "", a.RenderCPU, a.RenderGPU)
  {
    var parsed := ParseCommandLineArguments(argv, Defaults);
    if parsed.Err? {
      return Terminated(parsed.error);
    }
    var arguments := parsed.value;
    if arguments.ShowHelp || arguments.outputFilePath == "" {
      return HelpShown;
    }
    outcome := Proceeds(arguments, arguments.inputFilePath == "", arguments.RenderCPU, arguments.RenderGPU);
  }

  /** The PNG header write_png_file derives: width in pixels and height in rows. */
  datatype PngHeader = PngHeader(pixelWidth: nat, height: nat)

  /**
   * The shape write_png_file accepts. Height and width are converted to
   * png_uint_32 (32 bits); the height must be non-zero, the first row's
   * length a non-zero multiple of 4, and each of the first `height` rows as
   * long as the converted width.
   */
  function PngShape(rows: seq<seq<Byte>>): (h: Option<PngHeader>)
    ensures h.Some? ==> 1 <= h.value.height <= |rows| && h.value.pixelWidth >= 1
  {
    var height := ToUInt32(|rows|);
    if height == 0 then None
    else
      var width := ToUInt32(|rows[0]|);
      if width == 0 || width % 4 != 0 then None
      else if exists i :: 0 <= i < height && |rows[i]| != width then None
      else Some(PngHeader(width / 4, height))
  }

  /** The shape checks of write_png_file, in the order it makes them. */
  method CheckPngShape(rows: seq<seq<Byte>>) returns (header: Option<PngHeader>)
    ensures header == PngShape(rows)
  {
    var height := ToUInt32(|rows|);
    if height == 0 {
      return None;
    }
    var width := ToUInt32(|rows[0]|);
    if width == 0 || width % 4 != 0 {
      return None;
    }
    var pixelWidth := width / 4;
    var i := 0;
    while i < height
      invariant 0 <= i <= height
      invariant forall j :: 0 <= j < i ==> |rows[j]| == width
    {
      if width != |rows[i]| {
        return None;
      }
      i := i + 1;
    }
    return Some(PngHeader(pixelWidth, height));
  }

  /** An image buffer of Y >= 1 rows of 4·X bytes (X >= 1) passes, X pixels wide and Y high. */
  lemma ImageBufferPasses(rows: seq<seq<Byte>>, x: nat, y: nat)
    requires 1 <= x && 4 * x < UINT32_LIMIT && 1 <= y < UINT32_LIMIT
    requires |rows| == y && forall i :: 0 <= i < y ==> |rows[i]| == 4 * x
    ensures PngShape(rows) == Some(PngHeader(x, y))
  {
  }

  /** A ragged buffer is rejected. */
  lemma RaggedRejected(rows: seq<seq<Byte>>, i: nat)
    requires |rows| < UINT32_LIMIT && i < |rows| && |rows[i]| != |rows[0]|
    ensures PngShape(rows) == None
  {
  }
}
