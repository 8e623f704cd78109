/** The headless runner's command line after optparse has split it:
    opensesamerun_options fills in the default log file and the experiment
    path on optparse's result object and converts the numeric options to
    integers, and opensesamerun_ready checks that the run can start. */
module Runner {
  import opened Wrappers
  import Numeric

  /** What optparse can leave in a numeric option: the integer default
      installed with set_defaults, or the text given on the command line. */
  datatype Value = Num(n: int) | Text(s: string)

  /** The flags as they stood on the command line; None for an option that
      was not given. */
  datatype CommandLine = CommandLine(
    subject: Option<string>, logfile: Option<string>,
    width: Option<string>, height: Option<string>,
    fullscreen: bool, customResolution: bool, debug: bool, pylink: bool)

  /** optparse's result before post-processing. */
  datatype Parsed = Parsed(
    subject: Value, logfile: Option<string>, width: Value, height: Value,
    debug: bool, fullscreen: bool, pylink: bool, customResolution: bool)

  /** The options once post-processing has succeeded. */
  datatype RunOptions = RunOptions(
    subject: int, logfile: string, experiment: string, width: int, height: int,
    debug: bool, fullscreen: bool, pylink: bool, customResolution: bool)

  const SubjectError := "Subject (-s / --subject) should be numeric"
  const WidthError := "Width (-w / --width) should be numeric"
  const HeightError := "Height (-e / --height) should be numeric"

  /** A command line on which no option is given. */
  const NoOptions := CommandLine(None, None, None, None, false, false, false, false)

  /** optparse with the defaults of opensesamerun: subject 0, no log file,
      a 1024 x 768 display; a store_true flag is true exactly when given. */
  function Parse(c: CommandLine): Parsed
  {
    Parsed(
      if c.subject.Some? then Text(c.subject.value) else Num(0),
      c.logfile,
      if c.width.Some? then Text(c.width.value) else Num(1024),
      if c.height.Some? then Text(c.height.value) else Num(768),
      c.debug, c.fullscreen, c.pylink, c.customResolution)
  }

  /** Python's `int(v)`: an int stays as it is, a str is parsed; None when
      `int` raises. */
  function ToInt(v: Value): Option<int>
  {
    match v
    case Num(n) => Some(n)
    case Text(s) => Numeric.ParseInt(s)
  }

  /** Python's `"%s" % v`. */
  function Show(v: Value): string
  {
    match v
    case Num(n) => Numeric.Decimal(n)
    case Text(s) => s
  }

  /** The log file used when none is given, named after the subject value
      as it stands before the integer conversion. */
  function DefaultLogfile(subject: Value): string
  {
    "subject" + Show(subject) + ".csv"
  }

  /** The experiment path: the first command-line argument after the
      program name, whatever it is, or "" when there is none. The source's
      condition also tests `os.path.exists` without calling it, which is
      always true. */
  function Experiment(argv: seq<string>): string
  {
    if |argv| > 1 then argv[1] else ""
  }

  /** The post-processing of opensesamerun_options on optparse's result:
      either the finished options or the message of the first check that
      failed. */
  function Finish(p: Parsed, argv: seq<string>): Result<RunOptions, string>
  {
    var logfile := if p.logfile.None? then DefaultLogfile(p.subject) else p.logfile.value;
    match ToInt(p.subject)
    case None => Failure(SubjectError)
    case Some(subject) =>
      match ToInt(p.width)
      case None => Failure(WidthError)
      case Some(width) =>
        match ToInt(p.height)
        case None => Failure(HeightError)
        case Some(height) =>
          Success(RunOptions(subject, logfile, Experiment(argv), width, height,
                             p.debug, p.fullscreen, p.pylink, p.customResolution))
  }

  /** opensesamerun_options: parsing followed by post-processing. */
  function Options(c: CommandLine, argv: seq<string>): Result<RunOptions, string>
  {
    Finish(Parse(c), argv)
  }

  // ---------------------------------------------------------------------
  // Properties of opensesamerun_options

  /** With no option given: subject 0, log file subject0.csv, 1024 x 768,
      every flag false. */
  lemma OptionsDefaults(argv: seq<string>)
    ensures Options(NoOptions, argv)
         == Success(RunOptions(0, "subject0.csv", Experiment(argv), 1024, 768, false, false, false, false))
  {
    assert Numeric.Digits(0) == "0";
    assert "subject" + "0" + ".csv" == "subject0.csv";
  }

  /** The default log file carries the subject exactly as typed, while the
      subject itself is converted: `-s 007` gives subject007.csv and 7. */
  lemma OptionsLogfileFromRawSubject(c: CommandLine, argv: seq<string>, typed: string, n: int)
    requires c.subject == Some(typed) && c.logfile.None?
    requires Numeric.ParseInt(typed) == Some(n)
    requires Options(c, argv).Success?
    ensures Options(c, argv).value.logfile == "subject" + typed + ".csv"
    ensures Options(c, argv).value.subject == n
  {
  }

  /** Giving only a numeric subject succeeds. */
  lemma OptionsOnlySubject(argv: seq<string>, typed: string, n: int)
    requires Numeric.ParseInt(typed) == Some(n)
    ensures Options(NoOptions.(subject := Some(typed)), argv)
         == Success(RunOptions(n, "subject" + typed + ".csv", Experiment(argv), 1024, 768,
                               false, false, false, false))
  {
  }

  /** An explicit log file is kept as given. */
  lemma OptionsExplicitLogfile(c: CommandLine, argv: seq<string>, path: string)
    requires c.logfile == Some(path) && Options(c, argv).Success?
    ensures Options(c, argv).value.logfile == path
  {
  }

  /** The experiment is argv[1] when there is one and "" otherwise; the
      flags pass through. */
  lemma OptionsExperimentAndFlags(c: CommandLine, argv: seq<string>)
    requires Options(c, argv).Success?
    ensures var r := Options(c, argv).value;
            r.experiment == (if |argv| > 1 then argv[1] else "") &&
            r.debug == c.debug && r.fullscreen == c.fullscreen &&
            r.pylink == c.pylink && r.customResolution == c.customResolution
  {
  }

  /** The checks run in the order subject, width, height and the first
      failure decides the message; success means all three are integers,
      and they are the parsed values. */
  lemma OptionsChecks(c: CommandLine, argv: seq<string>)
    ensures var p := Parse(c); var r := Options(c, argv);
            && (r == Failure(SubjectError) <==> ToInt(p.subject).None?)
            && (r == Failure(WidthError) <==> ToInt(p.subject).Some? && ToInt(p.width).None?)
            && (r == Failure(HeightError) <==>
                  ToInt(p.subject).Some? && ToInt(p.width).Some? && ToInt(p.height).None?)
            && (r.Success? <==>
                  ToInt(p.subject).Some? && ToInt(p.width).Some? && ToInt(p.height).Some?)
            && (r.Success? ==> r.value.subject == ToInt(p.subject).value &&
                               r.value.width == ToInt(p.width).value &&
                               r.value.height == ToInt(p.height).value)
  {
  }

  /** A subject, width or height given as non-numeric text makes the whole
      call fail. */
  lemma OptionsNonNumericFails(c: CommandLine, argv: seq<string>)
    requires || (c.subject.Some? && Numeric.ParseInt(c.subject.value).None?)
             || (c.width.Some? && Numeric.ParseInt(c.width.value).None?)
             || (c.height.Some? && Numeric.ParseInt(c.height.value).None?)
    ensures Options(c, argv).Failure?
  {
  }

  // ---------------------------------------------------------------------
  // The object optparse returns, updated in place

  /** optparse's Values object for opensesamerun. Post-processing reassigns
      logfile, experiment, subject, width and height one after another. */
  class Values {
    var subject: Value
    var logfile: Option<string>
    var experiment: string
    var width: Value
    var height: Value
    const debug: bool
    const fullscreen: bool
    const pylink: bool
    const customResolution: bool

    /** The fields as a Parsed value. */
    function Snapshot(): Parsed
      reads this
    {
      Parsed(subject, logfile, width, height, debug, fullscreen, pylink, customResolution)
    }

    /** The object as optparse.parse_args hands it back. The source gives
        it no experiment attribute until post-processing; "" stands in. */
    constructor (p: Parsed)
      ensures Snapshot() == p && experiment == ""
    {
      subject, logfile, width, height := p.subject, p.logfile, p.width, p.height;
      debug, fullscreen, pylink, customResolution := p.debug, p.fullscreen, p.pylink, p.customResolution;
      experiment := "";
    }

    /** Lines 88-112 of opensesamerun_options. On a failed check the source
        calls parser.error, which exits the process; here the message is
        returned and the fields stay as far as they had got. */
    method PostProcess(argv: seq<string>) returns (error: Option<string>)
      modifies this
      ensures var r := Finish(old(Snapshot()), argv);
              && (error.None? <==> r.Success?)
              && (r.Failure? ==> error == Some(r.error))
              && (r.Success? ==>
                    && subject == Num(r.value.subject) && logfile == Some(r.value.logfile)
                    && experiment == r.value.experiment
                    && width == Num(r.value.width) && height == Num(r.value.height))
      ensures logfile.Some? && experiment == Experiment(argv)
    {
      if logfile == None {
        logfile := Some(DefaultLogfile(subject));
      }
      if |argv| > 1 {
        experiment := argv[1];
      } else {
        experiment := "";
      }
      var s := ToInt(subject);
      if s.None? {
        return Some(SubjectError);
      }
      subject := Num(s.value);
      var w := ToInt(width);
      if w.None? {
        return Some(WidthError);
      }
      width := Num(w.value);
      var h := ToInt(height);
      if h.None? {
        return Some(HeightError);
      }
      height := Num(h.value);
      return None;
    }
  }

  // ---------------------------------------------------------------------
  // opensesamerun_ready

  /** The part of the file system the readiness check touches. */
  class FileSystem {
    /** Regular files and their contents. */
    var files: map<string, string>
    const directories: set<string>
    /** The paths that `open(path, "w")` succeeds on. */
    const writable: set<string>

    /** `os.path.exists`: a file or a directory. */
    predicate Exists(path: string)
      reads this
    {
      path in files || path in directories
    }

    /** What every real file system satisfies: the empty path names
        nothing and cannot be opened, a path is not both a file and a
        directory, and a directory cannot be opened for writing. */
    predicate Valid()
      reads this
    {
      && "" !in files && "" !in directories && "" !in writable
      && files.Keys !! directories
      && writable !! directories
    }

    constructor (files: map<string, string>, directories: set<string>, writable: set<string>)
      requires "" !in files && "" !in directories && "" !in writable
      requires files.Keys !! directories && writable !! directories
      ensures Valid()
      ensures this.files == files && this.directories == directories && this.writable == writable
    {
      this.files, this.directories, this.writable := files, directories, writable;
    }

    /** `open(path, "w")`: on success the file exists and is empty. */
    method OpenForWriting(path: string) returns (ok: bool)
      requires Valid()
      modifies this
      ensures Valid()
      ensures ok == (path in writable)
      ensures files == if ok then old(files)[path := ""] else old(files)
    {
      ok := path in writable;
      if ok {
        files := files[path := ""];
      }
    }
  }

  /** Without a command-line argument after the program name the
      experiment is "", which never exists: such a run is never ready
      (by the `o.experiment == ""` clause of Ready). */
  lemma NoArgumentNoExperiment(argv: seq<string>)
    requires |argv| <= 1
    ensures Experiment(argv) == ""
  {
  }

  /** opensesamerun_ready: not ready when the experiment does not exist,
      and then the file system is untouched; otherwise ready exactly when
      the log file opens for writing, which leaves it existing and empty.
      A log file of None makes `open` raise, so the run is not ready. */
  method Ready(o: Values, fs: FileSystem) returns (ready: bool)
    requires fs.Valid()
    modifies fs
    ensures fs.Valid()
    ensures o.experiment == "" ==> !ready
    ensures !old(fs.Exists(o.experiment)) ==> !ready
    ensures old(fs.Exists(o.experiment)) ==>
              (ready <==> o.logfile.Some? && o.logfile.value in fs.writable)
    ensures ready ==> fs.files == old(fs.files)[o.logfile.value := ""]
    ensures ready ==> fs.Exists(o.logfile.value) && fs.files[o.logfile.value] == ""
    ensures !ready ==> fs.files == old(fs.files)
  {
    if !fs.Exists(o.experiment) {
      return false;
    }
    if o.logfile.None? {
      return false;
    }
    ready := fs.OpenForWriting(o.logfile.value);
  }
}
