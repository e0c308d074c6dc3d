/**
 * The STL generator for curved track: the table of part configurations,
 * the OpenSCAD parameter list for one render, the output file name, and
 * the best-effort loops that render every requested (radius,
 * configuration) pair and count the successes.
 */
module GenerateStls {
  import opened Wrappers
  import opened DecimalText
  import opened ScadDefines
  import opened Outcomes

  /** The three OpenSCAD switches, kept as the strings the table holds. */
  datatype Flags = Flags(generateTrack: string, generateBallast: string, generateBallastBuddy: string)

  datatype Configuration = Configuration(name: string, flags: Flags)

  /** The configuration table, in its iteration order. */
  const Configurations: seq<Configuration> := [
    Configuration("ballast_and_buddy", Flags("false", "true", "true")),
    Configuration("ballast", Flags("false", "true", "false")),
    Configuration("track_ballast_and_buddy", Flags("true", "true", "true")),
    Configuration("track_and_ballast", Flags("true", "true", "false"))
  ]

  predicate IsConfigName(name: string) {
    exists i :: 0 <= i < |Configurations| && Configurations[i].name == name
  }

  predicate IsSwitch(s: string) {
    s == "true" || s == "false"
  }

  /**
   * The table has four entries with distinct names; every switch is
   * "true" or "false"; ballast is generated in every configuration; and
   * no two entries switch the same parts.
   */
  lemma ConfigurationsWellFormed()
    ensures |Configurations| == 4
    ensures forall i, j :: 0 <= i < j < |Configurations| ==>
      Configurations[i].name != Configurations[j].name
      && Configurations[i].flags != Configurations[j].flags
    ensures forall i :: 0 <= i < |Configurations| ==>
      && IsSwitch(Configurations[i].flags.generateTrack)
      && Configurations[i].flags.generateBallast == "true"
      && IsSwitch(Configurations[i].flags.generateBallastBuddy)
  {
  }

  /** Dictionary lookup by name in a table of configurations. */
  function Lookup(table: seq<Configuration>, name: string): (r: Option<Flags>)
    ensures r.None? <==> forall i :: 0 <= i < |table| ==> table[i].name != name
    ensures r.Some? ==> exists i :: 0 <= i < |table| && table[i] == Configuration(name, r.value)
    decreases |table|
  {
    if |table| == 0 then None
    else if table[0].name == name then Some(table[0].flags)
    else
      var r := Lookup(table[1..], name);
      assert forall i :: 1 <= i < |table| ==> table[i] == table[1..][i - 1];
      r
  }

  /**
   * The assignments for one render, in the order they are passed: the
   * radius (as decimal text that reads back as the radius), the angle
   * text, the three switches, and the density last when one is given.
   */
  function ParamList(radius: int, angleText: string, flags: Flags, diverse: Option<int>): (ds: seq<Define>)
    ensures CarriesRender(ds, radius, angleText, flags, diverse)
  {
    IntToStringRoundTrip(radius);
    [ Define("Radius", IntToString(radius)),
      Define("SegAng", angleText),
      Define("generate_track", flags.generateTrack),
      Define("generate_ballast", flags.generateBallast),
      Define("generate_ballast_buddy", flags.generateBallastBuddy) ]
    + (match diverse
       case None => []
       case Some(v) => IntToStringRoundTrip(v); [Define("diverse", IntToString(v))])
  }

  /**
   * The OpenSCAD parameter string for one render, or the ValueError
   * message for a configuration the table does not know.  `angleText` is
   * the angle as Python formats it.
   */
  function GenerateScadParams(radius: int, angleText: string, config: string, diverse: Option<int>)
    : (r: Result<string, string>)
    ensures r.Err? <==> !IsConfigName(config)
    ensures r.Err? ==> r.error == "Unknown configuration: " + config
  {
    match Lookup(Configurations, config)
    case None => Err("Unknown configuration: " + config)
    case Some(flags) => Ok(RenderAll(ParamList(radius, angleText, flags, diverse)))
  }

  /**
   * What the renderer must receive for one render: the radius (as
   * decimal text that reads back as the radius) and the angle, then the
   * three switches, then the density when one is given and nothing else.
   */
  predicate CarriesRender(ds: seq<Define>, radius: int, angleText: string, flags: Flags, diverse: Option<int>)
  {
    && |ds| == (if diverse.Some? then 6 else 5)
    && ds[0].name == "Radius" && ParseInt(ds[0].value) == Some(radius)
    && ds[1] == Define("SegAng", angleText)
    && ds[2] == Define("generate_track", flags.generateTrack)
    && ds[3] == Define("generate_ballast", flags.generateBallast)
    && ds[4] == Define("generate_ballast_buddy", flags.generateBallastBuddy)
    && (diverse.Some? ==> ds[5].name == "diverse" && ParseInt(ds[5].value) == Some(diverse.value))
  }

  /**
   * Read back, the parameter string of a known configuration carries the
   * radius, the angle, that configuration's three switches and the
   * density when given, in that order.
   */
  lemma ScadParamsContent(radius: int, angleText: string, i: nat, diverse: Option<int>)
    requires i < |Configurations|
    requires '\'' !in angleText
    ensures GenerateScadParams(radius, angleText, Configurations[i].name, diverse).Ok?
    ensures var s := GenerateScadParams(radius, angleText, Configurations[i].name, diverse).value;
      && ParseAll(s).Some?
      && CarriesRender(ParseAll(s).value, radius, angleText, Configurations[i].flags, diverse)
  {
    var flags := Configurations[i].flags;
    LookupKnown(i);
    var ds := ParamList(radius, angleText, flags, diverse);
    ConfigurationsWellFormed();
    ParamListReadable(radius, angleText, flags, diverse);
    ParseRenderAll(ds);
  }

  /** Looking a table name up finds that entry's switches. */
  lemma LookupKnown(i: nat)
    requires i < |Configurations|
    ensures Lookup(Configurations, Configurations[i].name) == Some(Configurations[i].flags)
  {
    ConfigurationsWellFormed();
  }

  lemma DecimalHasNoQuote(i: int)
    ensures '\'' !in IntToString(i)
  {
    DecimalAlphabet(i);
  }

  /*
   * None of the six assignment names holds `=` or a quote.  The fact is
   * split over three lemmas only to keep each proof about string
   * literals small for the solver.
   */
  lemma PositionNamesReadable()
    ensures ReadableName("Radius") && ReadableName("SegAng") && ReadableName("diverse")
  {
  }

  lemma SwitchNamesReadable()
    ensures ReadableName("generate_track") && ReadableName("generate_ballast")
  {
  }

  lemma BuddyNameReadable()
    ensures ReadableName("generate_ballast_buddy")
  {
  }

  /** Switch words and decimal numbers keep every assignment readable. */
  lemma ParamListReadable(radius: int, angleText: string, flags: Flags, diverse: Option<int>)
    requires '\'' !in angleText
    requires IsSwitch(flags.generateTrack) && IsSwitch(flags.generateBallast) && IsSwitch(flags.generateBallastBuddy)
    ensures var ds := ParamList(radius, angleText, flags, diverse);
      forall k :: 0 <= k < |ds| ==> Readable(ds[k])
  {
    var ds := ParamList(radius, angleText, flags, diverse);
    PositionNamesReadable();
    SwitchNamesReadable();
    BuddyNameReadable();
    DecimalHasNoQuote(radius);
    assert Readable(ds[0]) && Readable(ds[1]);
    assert Readable(ds[2]) && Readable(ds[3]) && Readable(ds[4]);
    if diverse.Some? {
      DecimalHasNoQuote(diverse.value);
      assert Readable(ds[5]);
    }
  }

  /**
   * The output file name for one render: `r{radius}_{config}.stl`.
   * `ParseOutputFileName` is its partner.
   */
  function OutputFileName(radius: int, config: string): (name: string)
    ensures |name| == |IntToString(radius)| + |config| + 6
    ensures name[0] == 'r' && name[|name| - 4..] == ".stl"
  {
    "r" + IntToString(radius) + "_" + config + ".stl"
  }

  /** Splits an output file name back into its radius and configuration. */
  function ParseOutputFileName(name: string): Option<(int, string)>
  {
    if |name| < 5 || name[0] != 'r' || name[|name| - 4..] != ".stl" then None
    else
      var middle := name[1..|name| - 4];
      match FirstIndex(middle, '_')
      case None => None
      case Some(k) =>
        match ParseInt(middle[..k])
        case None => None
        case Some(radius) => Some((radius, middle[k + 1..]))
  }

  /** Every output file name reads back as the radius and configuration it was made from. */
  lemma OutputFileNameRoundTrip(radius: int, config: string)
    ensures ParseOutputFileName(OutputFileName(radius, config)) == Some((radius, config))
  {
    var digits := IntToString(radius);
    var name := OutputFileName(radius, config);
    assert name[1..|name| - 4] == digits + ['_'] + config;
    assert '_' !in digits by {
      if radius < 0 {
        assert digits == [digits[0]] + digits[1..];
      }
    }
    FirstIndexOfSeparator(digits, '_', config);
    assert (digits + ['_'] + config)[..|digits|] == digits;
    assert (digits + ['_'] + config)[|digits| + 1..] == config;
    IntToStringRoundTrip(radius);
  }

  /** Different (radius, configuration) pairs never share an output file. */
  lemma OutputFileNameInjective(r1: int, c1: string, r2: int, c2: string)
    ensures OutputFileName(r1, c1) == OutputFileName(r2, c2) ==> r1 == r2 && c1 == c2
  {
    OutputFileNameRoundTrip(r1, c1);
    OutputFileNameRoundTrip(r2, c2);
  }

  /**
   * One render: the parameters are built first (an unknown configuration
   * raises before anything runs), then only a zero exit status counts as
   * success; a non-zero status, a timeout or any other exception gives
   * false.  `sent` is what the render was asked for: its settings and
   * the file it writes.
   */
  method GenerateStl(radius: int, angleText: string, config: string, diverse: Option<int>, outputFile: string,
                     outcome: RenderOutcome)
    returns (rendered: Result<bool, string>, sent: Request)
    ensures rendered.Err? <==> !IsConfigName(config)
    ensures rendered.Err? ==> rendered.error == "Unknown configuration: " + config
    ensures rendered.Ok? ==> (rendered.value <==> outcome == Exited(0))
    ensures sent == Request(Job(radius, config, angleText, diverse), outputFile)
  {
    sent := Request(Job(radius, config, angleText, diverse), outputFile);
    var params := GenerateScadParams(radius, angleText, config, diverse);
    if params.Err? {
      return Err(params.error), sent;
    }
    return Ok(Succeeded(outcome)), sent;
  }

  /**
   * The usage example's `-c ballast_only` names no configuration: argparse's
   * `choices` refuses it, and building its parameters would fail too.
   */
  lemma UsageExampleConfigUnknown()
    ensures !IsConfigName("ballast_only")
    ensures GenerateScadParams(40, "22.5", "ballast_only", None).Err?
  {
  }

  /**
   * Renders every configuration of one radius, in table order, whatever
   * the earlier renders did.  `outcomes[i]` is how the render of the i-th
   * configuration ended; `attempted` lists the renders asked for and
   * `written` the files they were told to write.
   */
  method GenerateAllConfigs(radius: int, angleText: string, diverse: Option<int>, outcomes: seq<RenderOutcome>)
    returns (success: nat, total: nat, attempted: seq<Job>, written: seq<string>)
    requires |outcomes| == |Configurations|
    ensures total == |Configurations| == 4
    ensures success == CountSucceeded(outcomes) <= total
    ensures |attempted| == total
    ensures forall i :: 0 <= i < total ==> attempted[i] == Job(radius, Configurations[i].name, angleText, diverse)
    ensures written == FileNames(attempted)
  {
    success, total, attempted, written := 0, 0, [], [];
    for i := 0 to |Configurations|
      invariant total == i
      invariant success == CountSucceeded(outcomes[..i])
      invariant |attempted| == i
      invariant forall k :: 0 <= k < i ==> attempted[k] == Job(radius, Configurations[k].name, angleText, diverse)
      invariant written == FileNames(attempted)
    {
      var config := Configurations[i].name;
      total := total + 1;
      var rendered, sent := GenerateStl(radius, angleText, config, diverse, OutputFileName(radius, config), outcomes[i]);
      FileNamesSnoc(attempted, sent.job);
      attempted, written := attempted + [sent.job], written + [sent.outputFile];
      assert IsConfigName(config) by { assert Configurations[i].name == config; }
      if rendered.value {
        success := success + 1;
      }
      assert outcomes[..i + 1][..i] == outcomes[..i];
    }
    assert outcomes[..|Configurations|] == outcomes;
  }

  /**
   * One requested render: the radius and configuration, with the angle
   * text and density the command line gave, which every render receives.
   */
  datatype Job = Job(radius: int, config: string, angleText: string, diverse: Option<int>)

  /** What one render is handed: its settings and the file to write. */
  datatype Request = Request(job: Job, outputFile: string)

  /** Renders per radius: the one chosen configuration, or all of them. */
  function PerRadius(config: Option<string>): nat {
    if config.Some? then 1 else |Configurations|
  }

  /** The renders for one radius, in the order they are attempted. */
  function JobsFor(radius: int, config: Option<string>, angleText: string, diverse: Option<int>): (jobs: seq<Job>)
    ensures |jobs| == PerRadius(config)
  {
    match config
    case Some(c) => [Job(radius, c, angleText, diverse)]
    case None => seq(|Configurations|, i requires 0 <= i < |Configurations| => Job(radius, Configurations[i].name, angleText, diverse))
  }

  /** The renders for a list of radii, in the order they are attempted. */
  function Jobs(radii: seq<int>, config: Option<string>, angleText: string, diverse: Option<int>): seq<Job>
    decreases |radii|
  {
    if |radii| == 0 then []
    else Jobs(radii[..|radii| - 1], config, angleText, diverse) + JobsFor(radii[|radii| - 1], config, angleText, diverse)
  }

  /** The file each render writes, `r{radius}_{config}.stl`, in render order. */
  function FileNames(jobs: seq<Job>): (names: seq<string>)
    ensures |names| == |jobs|
  {
    seq(|jobs|, i requires 0 <= i < |jobs| => OutputFileName(jobs[i].radius, jobs[i].config))
  }

  /** One more render adds its own file at the end. */
  lemma FileNamesSnoc(jobs: seq<Job>, job: Job)
    ensures FileNames(jobs + [job]) == FileNames(jobs) + [OutputFileName(job.radius, job.config)]
  {
    var joined := jobs + [job];
    assert forall k :: 0 <= k < |jobs| ==> joined[k] == jobs[k];
    assert joined[|jobs|] == job;
  }

  /** The files of consecutive groups of renders are the files of each group in turn. */
  lemma FileNamesAppend(a: seq<Job>, b: seq<Job>)
    ensures FileNames(a + b) == FileNames(a) + FileNames(b)
  {
    var joined, parts := FileNames(a + b), FileNames(a) + FileNames(b);
    forall k | 0 <= k < |a + b|
      ensures joined[k] == parts[k]
    {
      if k < |a| {
        assert (a + b)[k] == a[k];
      } else {
        assert (a + b)[k] == b[k - |a|];
      }
    }
  }

  /** Each radius contributes `PerRadius(config)` renders. */
  lemma {:induction false} JobsCount(radii: seq<int>, config: Option<string>, angleText: string, diverse: Option<int>)
    ensures |Jobs(radii, config, angleText, diverse)| == |radii| * PerRadius(config)
    decreases |radii|
  {
    if |radii| > 0 {
      var n := |radii| - 1;
      JobsCount(radii[..n], config, angleText, diverse);
      assert |radii[..n]| * PerRadius(config) + PerRadius(config) == |radii| * PerRadius(config);
    }
  }

  /** Every planned render is for one of the requested radii. */
  lemma {:induction false} JobsRadii(radii: seq<int>, config: Option<string>, angleText: string, diverse: Option<int>)
    ensures forall k :: 0 <= k < |Jobs(radii, config, angleText, diverse)| ==>
      Jobs(radii, config, angleText, diverse)[k].radius in radii
    decreases |radii|
  {
    if |radii| > 0 {
      var n := |radii| - 1;
      JobsRadii(radii[..n], config, angleText, diverse);
      var earlier := Jobs(radii[..n], config, angleText, diverse);
      forall k | 0 <= k < |Jobs(radii, config, angleText, diverse)|
        ensures Jobs(radii, config, angleText, diverse)[k].radius in radii
      {
        if k < |earlier| {
          assert earlier[k].radius in radii[..n];
        } else {
          assert Jobs(radii, config, angleText, diverse)[k].radius == radii[n];
        }
      }
    }
  }

  /**
   * A render made with the command line's settings: its angle and density
   * unchanged, and the chosen configuration when there is one, otherwise
   * one from the table.
   */
  predicate RendersWith(job: Job, config: Option<string>, angleText: string, diverse: Option<int>) {
    && job.angleText == angleText
    && job.diverse == diverse
    && (config.Some? ==> job.config == config.value)
    && (config.None? ==> IsConfigName(job.config))
  }

  /** Every table entry's name is a configuration name. */
  lemma ConfigurationsNamed()
    ensures forall i :: 0 <= i < |Configurations| ==> IsConfigName(Configurations[i].name)
  {
  }

  /**
   * Every planned render receives the command line's angle and density
   * unchanged, and the chosen configuration when there is one.
   */
  lemma {:induction false} JobsSettings(radii: seq<int>, config: Option<string>, angleText: string, diverse: Option<int>)
    ensures forall k :: 0 <= k < |Jobs(radii, config, angleText, diverse)| ==>
      RendersWith(Jobs(radii, config, angleText, diverse)[k], config, angleText, diverse)
    decreases |radii|
  {
    if |radii| > 0 {
      var n := |radii| - 1;
      JobsSettings(radii[..n], config, angleText, diverse);
      var earlier := Jobs(radii[..n], config, angleText, diverse);
      var last := JobsFor(radii[n], config, angleText, diverse);
      var jobs := Jobs(radii, config, angleText, diverse);
      ConfigurationsNamed();
      forall k | 0 <= k < |jobs|
        ensures RendersWith(jobs[k], config, angleText, diverse)
      {
        if k < |earlier| {
          assert jobs[k] == earlier[k];
        } else {
          assert jobs[k] == last[k - |earlier|];
        }
      }
    }
  }

  /** Two renders of the same radius and configuration, which write the same file. */
  predicate SameTarget(a: Job, b: Job) {
    a.radius == b.radius && a.config == b.config
  }

  /** Requesting distinct radii, no radius and configuration is rendered twice. */
  lemma {:induction false} JobsDistinct(radii: seq<int>, config: Option<string>, angleText: string, diverse: Option<int>)
    requires forall i, j :: 0 <= i < j < |radii| ==> radii[i] != radii[j]
    ensures forall i, j :: 0 <= i < j < |Jobs(radii, config, angleText, diverse)| ==>
      !SameTarget(Jobs(radii, config, angleText, diverse)[i], Jobs(radii, config, angleText, diverse)[j])
    decreases |radii|
  {
    if |radii| > 0 {
      var n := |radii| - 1;
      var earlier := Jobs(radii[..n], config, angleText, diverse);
      var last := JobsFor(radii[n], config, angleText, diverse);
      JobsDistinct(radii[..n], config, angleText, diverse);
      JobsRadii(radii[..n], config, angleText, diverse);
      ConfigurationsWellFormed();
      var jobs := Jobs(radii, config, angleText, diverse);
      forall i, j | 0 <= i < j < |jobs|
        ensures !SameTarget(jobs[i], jobs[j])
      {
        if j < |earlier| {
          assert jobs[i] == earlier[i] && jobs[j] == earlier[j];
        } else if i < |earlier| {
          assert earlier[i].radius in radii[..n];
          assert jobs[j].radius == radii[n];
        } else {
          assert jobs[i] == last[i - |earlier|] && jobs[j] == last[j - |earlier|];
        }
      }
    }
  }

  /** Requesting distinct radii, every render writes its own file. */
  lemma FileNamesDistinct(radii: seq<int>, config: Option<string>, angleText: string, diverse: Option<int>)
    requires forall i, j :: 0 <= i < j < |radii| ==> radii[i] != radii[j]
    ensures forall i, j :: 0 <= i < j < |FileNames(Jobs(radii, config, angleText, diverse))| ==>
      FileNames(Jobs(radii, config, angleText, diverse))[i] != FileNames(Jobs(radii, config, angleText, diverse))[j]
  {
    var jobs := Jobs(radii, config, angleText, diverse);
    JobsDistinct(radii, config, angleText, diverse);
    forall i, j | 0 <= i < j < |jobs|
      ensures FileNames(jobs)[i] != FileNames(jobs)[j]
    {
      OutputFileNameInjective(jobs[i].radius, jobs[i].config, jobs[j].radius, jobs[j].config);
    }
  }

  /**
   * The radius list is not checked for repeats: asking for the same
   * radius twice renders its file twice, the second render overwriting
   * the first.
   */
  lemma RepeatedRadiusSharesFile(radius: int, config: string, angleText: string, diverse: Option<int>)
    ensures |FileNames(Jobs([radius, radius], Some(config), angleText, diverse))| == 2
    ensures FileNames(Jobs([radius, radius], Some(config), angleText, diverse))[0] == OutputFileName(radius, config)
    ensures FileNames(Jobs([radius, radius], Some(config), angleText, diverse))[1] == OutputFileName(radius, config)
  {
    var job := Job(radius, config, angleText, diverse);
    assert [radius, radius][..1] == [radius];
    assert [radius][..0] == [];
    assert Jobs([radius], Some(config), angleText, diverse) == [job];
    assert Jobs([radius, radius], Some(config), angleText, diverse) == [job, job];
  }

  /** The renders for a prefix of the radii are no more than those for all of them. */
  lemma {:induction false} JobsPrefix(radii: seq<int>, i: nat, config: Option<string>, angleText: string, diverse: Option<int>)
    requires i <= |radii|
    ensures |Jobs(radii[..i], config, angleText, diverse)| <= |Jobs(radii, config, angleText, diverse)|
    decreases |radii| - i
  {
    if i < |radii| {
      var n := |radii| - 1;
      assert radii[..n][..i] == radii[..i];
      JobsPrefix(radii[..n], i, config, angleText, diverse);
    } else {
      assert radii[..i] == radii;
    }
  }

  /**
   * The renders for one radius in the main loop: the chosen configuration
   * alone, or every configuration through `GenerateAllConfigs`.
   */
  method GenerateRadius(radius: int, angleText: string, config: Option<string>, diverse: Option<int>, outcomes: seq<RenderOutcome>)
    returns (success: nat, total: nat, attempted: seq<Job>, written: seq<string>)
    requires config.Some? ==> IsConfigName(config.value)
    requires |outcomes| == PerRadius(config)
    ensures total == PerRadius(config)
    ensures success == CountSucceeded(outcomes) <= total
    ensures attempted == JobsFor(radius, config, angleText, diverse)
    ensures written == FileNames(attempted)
  {
    if config.Some? {
      var c := config.value;
      var rendered, sent := GenerateStl(radius, angleText, c, diverse, OutputFileName(radius, c), outcomes[0]);
      success := if rendered.value then 1 else 0;
      total := 1;
      attempted, written := [sent.job], [sent.outputFile];
      assert outcomes[..0] == [];
    } else {
      success, total, attempted, written := GenerateAllConfigs(radius, angleText, diverse, outcomes);
    }
  }

  /**
   * The loop of the generator's main routine: every planned render is
   * tried once, radius by radius, whatever earlier renders did.
   */
  method RenderRadii(radii: seq<int>, angleText: string, config: Option<string>, diverse: Option<int>, outcomes: seq<RenderOutcome>)
    returns (totalSuccess: nat, totalGenerated: nat, attempted: seq<Job>, written: seq<string>)
    requires config.Some? ==> IsConfigName(config.value)
    requires |outcomes| == |Jobs(radii, config, angleText, diverse)|
    ensures attempted == Jobs(radii, config, angleText, diverse)
    ensures written == FileNames(attempted)
    ensures totalGenerated == |attempted|
    ensures totalSuccess == CountSucceeded(outcomes)
  {
    totalSuccess, totalGenerated, attempted, written := 0, 0, [], [];
    for i := 0 to |radii|
      invariant attempted == Jobs(radii[..i], config, angleText, diverse)
      invariant written == FileNames(attempted)
      invariant totalGenerated == |attempted| <= |outcomes|
      invariant totalSuccess == CountSucceeded(outcomes[..totalGenerated])
    {
      JobsStep(radii, i, config, angleText, diverse);
      totalSuccess, totalGenerated, attempted, written :=
        RenderNext(radii[i], angleText, config, diverse, outcomes, totalSuccess, totalGenerated, attempted, written);
    }
    assert radii[..|radii|] == radii;
    assert outcomes[..totalGenerated] == outcomes;
  }

  /**
   * One turn of the main loop: the renders for the next radius, added to
   * the tallies and lists of the radii before it.
   */
  method RenderNext(radius: int, angleText: string, config: Option<string>, diverse: Option<int>,
                    outcomes: seq<RenderOutcome>, success: nat, generated: nat, attempted: seq<Job>, written: seq<string>)
    returns (success': nat, generated': nat, attempted': seq<Job>, written': seq<string>)
    requires config.Some? ==> IsConfigName(config.value)
    requires written == FileNames(attempted)
    requires generated == |attempted|
    requires generated + PerRadius(config) <= |outcomes|
    requires success == CountSucceeded(outcomes[..generated])
    ensures attempted' == attempted + JobsFor(radius, config, angleText, diverse)
    ensures written' == FileNames(attempted')
    ensures generated' == |attempted'|
    ensures success' == CountSucceeded(outcomes[..generated'])
  {
    var mine := outcomes[generated..generated + PerRadius(config)];
    var won, total, jobs, files := GenerateRadius(radius, angleText, config, diverse, mine);
    FileNamesAppend(attempted, jobs);
    success', generated' := success + won, generated + total;
    CountSucceededExtend(outcomes, generated, generated', success, won);
    attempted', written' := attempted + jobs, written + files;
  }

  /**
   * One more radius appends its own renders to those of the radii before
   * it, and never reaches past the renders of the whole list.
   */
  lemma JobsStep(radii: seq<int>, i: nat, config: Option<string>, angleText: string, diverse: Option<int>)
    requires i < |radii|
    ensures Jobs(radii[..i + 1], config, angleText, diverse) == Jobs(radii[..i], config, angleText, diverse) + JobsFor(radii[i], config, angleText, diverse)
    ensures |Jobs(radii[..i + 1], config, angleText, diverse)| <= |Jobs(radii, config, angleText, diverse)|
  {
    assert radii[..i + 1][..i] == radii[..i];
    JobsPrefix(radii, i + 1, config, angleText, diverse);
  }

  /**
   * The generator's main routine.  For each radius it renders the chosen
   * configuration, or all of them; `outcomes` holds how each render
   * ended, in order.  The exit status is 1 exactly when some render
   * failed.  `config`, when given, is a table name: the command line
   * accepts nothing else.
   */
  method Run(radii: seq<int>, angleText: string, config: Option<string>, diverse: Option<int>, outcomes: seq<RenderOutcome>)
    returns (totalSuccess: nat, totalGenerated: nat, exitCode: int, attempted: seq<Job>, written: seq<string>)
    requires config.Some? ==> IsConfigName(config.value)
    requires |outcomes| == |radii| * PerRadius(config)
    ensures totalGenerated == |radii| * PerRadius(config)
    ensures totalSuccess == CountSucceeded(outcomes) <= totalGenerated
    ensures exitCode == (if totalSuccess < totalGenerated then 1 else 0)
    ensures exitCode == 1 <==> exists k :: 0 <= k < |outcomes| && !Succeeded(outcomes[k])
    ensures attempted == Jobs(radii, config, angleText, diverse)
    ensures forall k :: 0 <= k < |attempted| ==> RendersWith(attempted[k], config, angleText, diverse)
    ensures written == FileNames(attempted)
  {
    JobsCount(radii, config, angleText, diverse);
    JobsSettings(radii, config, angleText, diverse);
    totalSuccess, totalGenerated, attempted, written := RenderRadii(radii, angleText, config, diverse, outcomes);
    CountSucceededAll(outcomes);
    exitCode := if totalSuccess < totalGenerated then 1 else 0;
  }
}
