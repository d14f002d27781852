/** The `qwak models build` command line assembled from the action's inputs
    (`build_command` in register_build.py). */
module CommandBuilder {
  import opened Wrappers
  import opened Text

  /** The environment variables `build_command` reads; `None` is an unset variable. */
  datatype Config = Config(
    modelId: Option<string>,        // MODEL_ID
    modelPath: Option<string>,      // MODEL_PATH
    mainDirName: Option<string>,    // MAIN_DIR_NAME
    paramList: Option<string>,      // PARAM_LIST, comma separated
    envVars: Option<string>,        // ENV_VARS, comma separated
    tags: Option<string>,           // TAGS, comma separated
    instance: Option<string>,       // INSTANCE
    baseImage: Option<string>,      // BASE_IMAGE
    iamRoleArn: Option<string>,     // IAM_ROLE_ARN
    gpuCompatible: Option<string>,  // GPU_COMPATIBLE
    environment: Option<string>,    // ENVIRONMENT
    logsAsJson: Option<string>)     // LOGS_AS_JSON, "true" when unset

  /** What the command asks for, once every input has been interpreted:
      `Some` only for a value that is passed on, the lists already split. */
  datatype Options = Options(
    modelId: Option<string>,
    modelPath: Option<string>,
    mainDir: Option<string>,
    params: seq<string>,
    envVars: seq<string>,
    tags: seq<string>,
    instance: Option<string>,
    baseImage: Option<string>,
    iamRoleArn: Option<string>,
    gpuCompatible: bool,
    environment: Option<string>,
    jsonLogs: bool)

  /** Python truthiness of `os.getenv(name)`: set and not the empty string. */
  predicate IsSet(v: Option<string>)
  {
    v.Some? && v.value != ""
  }

  function Given(v: Option<string>): Option<string>
  {
    if IsSet(v) then v else None
  }

  function Items(v: Option<string>): seq<string>
  {
    if IsSet(v) then Split(v.value, ',') else []
  }

  /** `gpu_compatible and gpu_compatible.lower() == 'true'` */
  predicate GpuEnabled(cfg: Config)
  {
    IsSet(cfg.gpuCompatible) && Lower(cfg.gpuCompatible.value) == "true"
  }

  /** `os.getenv('LOGS_AS_JSON', 'true').lower() != 'false'` */
  predicate JsonLogsEnabled(cfg: Config)
  {
    Lower(cfg.logsAsJson.GetOr("true")) != "false"
  }

  function Normalize(cfg: Config): Options
  {
    Options(Given(cfg.modelId), Given(cfg.modelPath), Given(cfg.mainDirName),
            Items(cfg.paramList), Items(cfg.envVars), Items(cfg.tags),
            Given(cfg.instance), Given(cfg.baseImage), Given(cfg.iamRoleArn),
            GpuEnabled(cfg), Given(cfg.environment), JsonLogsEnabled(cfg))
  }

  const Prefix: seq<string> := ["qwak", "models", "build"]

  /** A flag followed by its value, or nothing. */
  function Opt(flag: string, v: Option<string>): seq<string>
  {
    if v.Some? then [flag, v.value] else []
  }

  /** A value standing alone, or nothing. */
  function Bare(v: Option<string>): seq<string>
  {
    if v.Some? then [v.value] else []
  }

  /** One `flag item` pair per item, in order. */
  function Pairs(flag: string, items: seq<string>): seq<string>
  {
    if items == [] then [] else [flag, items[0]] + Pairs(flag, items[1..])
  }

  /** A flag without a value, or nothing. */
  function Switch(flag: string, on: bool): seq<string>
  {
    if on then [flag] else []
  }

  /** The canonical token layout: the fixed prefix, then model-id, path, main-dir,
      -P*, -E*, -T*, instance, base-image, iam-role-arn, gpu-compatible,
      environment and json-logs, always in this order. */
  function Render(o: Options): (tokens: seq<string>)
    ensures |tokens| >= 3 && tokens[..3] == ["qwak", "models", "build"]
  {
    Prefix + Opt("--model-id", o.modelId) + Bare(o.modelPath) + Opt("--main-dir", o.mainDir)
    + Pairs("-P", o.params) + Pairs("-E", o.envVars) + Pairs("-T", o.tags)
    + Opt("--instance", o.instance) + Opt("--base-image", o.baseImage)
    + Opt("--iam-role-arn", o.iamRoleArn) + Switch("--gpu-compatible", o.gpuCompatible)
    + Opt("--environment", o.environment) + Switch("--json-logs", o.jsonLogs)
  }

  /** The token list `build_command` assembles for `cfg`. */
  function Tokens(cfg: Config): seq<string>
  {
    Render(Normalize(cfg))
  }

  /** The command string `build_command` returns for `cfg`. */
  function CommandLine(cfg: Config): string
  {
    Join(Tokens(cfg), ' ')
  }

  lemma {:induction false} PairsSnoc(flag: string, items: seq<string>, x: string)
    ensures Pairs(flag, items + [x]) == Pairs(flag, items) + [flag, x]
  {
    if items != [] {
      assert (items + [x])[1..] == items[1..] + [x];
      PairsSnoc(flag, items[1..], x);
    }
  }

  /** The `for` loop of `build_command` over one split list. */
  method AppendPairs(command: seq<string>, flag: string, items: seq<string>) returns (extended: seq<string>)
    ensures extended == command + Pairs(flag, items)
  {
    extended := command;
    for i := 0 to |items|
      invariant extended == command + Pairs(flag, items[..i])
    {
      assert items[..i + 1] == items[..i] + [items[i]];
      PairsSnoc(flag, items[..i], items[i]);
      extended := extended + [flag, items[i]];
    }
    assert items[..|items|] == items;
  }

  /** `if value: command.extend([flag, value])` */
  method AppendOpt(command: seq<string>, flag: string, v: Option<string>) returns (extended: seq<string>)
    ensures extended == command + Opt(flag, Given(v))
  {
    extended := command;
    if IsSet(v) {
      extended := extended + [flag, v.value];
    }
  }

  /** `if value: command.append(value)` */
  method AppendBare(command: seq<string>, v: Option<string>) returns (extended: seq<string>)
    ensures extended == command + Bare(Given(v))
  {
    extended := command;
    if IsSet(v) {
      extended := extended + [v.value];
    }
  }

  /** `if value: for item in value.split(","): command.extend([flag, item])` */
  method AppendList(command: seq<string>, flag: string, v: Option<string>) returns (extended: seq<string>)
    ensures extended == command + Pairs(flag, Items(v))
  {
    extended := command;
    if IsSet(v) {
      var items := Split(v.value, ',');
      extended := AppendPairs(extended, flag, items);
    }
  }

  /** `build_command`: the tokens are collected in order, and joined with single spaces. */
  method BuildCommand(cfg: Config) returns (line: string)
    ensures line == Join(Render(Normalize(cfg)), ' ')
  {
    ghost var o := Normalize(cfg);
    var command := ["qwak", "models", "build"];
    command := AppendOpt(command, "--model-id", cfg.modelId);
    command := AppendBare(command, cfg.modelPath);
    command := AppendOpt(command, "--main-dir", cfg.mainDirName);
    assert command == Prefix + Opt("--model-id", o.modelId) + Bare(o.modelPath) + Opt("--main-dir", o.mainDir);
    command := AppendList(command, "-P", cfg.paramList);
    command := AppendList(command, "-E", cfg.envVars);
    command := AppendList(command, "-T", cfg.tags);
    assert command == Prefix + Opt("--model-id", o.modelId) + Bare(o.modelPath) + Opt("--main-dir", o.mainDir)
      + Pairs("-P", o.params) + Pairs("-E", o.envVars) + Pairs("-T", o.tags);
    command := AppendOpt(command, "--instance", cfg.instance);
    command := AppendOpt(command, "--base-image", cfg.baseImage);
    command := AppendOpt(command, "--iam-role-arn", cfg.iamRoleArn);
    var gpuCompatible := cfg.gpuCompatible;
    if IsSet(gpuCompatible) && Lower(gpuCompatible.value) == "true" {
      command := command + ["--gpu-compatible"];
    }
    assert command == Prefix + Opt("--model-id", o.modelId) + Bare(o.modelPath) + Opt("--main-dir", o.mainDir)
      + Pairs("-P", o.params) + Pairs("-E", o.envVars) + Pairs("-T", o.tags)
      + Opt("--instance", o.instance) + Opt("--base-image", o.baseImage)
      + Opt("--iam-role-arn", o.iamRoleArn) + Switch("--gpu-compatible", o.gpuCompatible);
    command := AppendOpt(command, "--environment", cfg.environment);
    var logsAsJson := cfg.logsAsJson.GetOr("true");
    if Lower(logsAsJson) != "false" {
      command := command + ["--json-logs"];
    }
    assert command == Render(o);
    line := Join(command, ' ');
  }

  // ---------------------------------------------------------------------------
  // Reading a command back: the inverse of Render

  function TakeOpt(flag: string, ts: seq<string>): (Option<string>, seq<string>)
  {
    if |ts| >= 2 && ts[0] == flag then (Some(ts[1]), ts[2..]) else (None, ts)
  }

  function TakeBare(ts: seq<string>): (Option<string>, seq<string>)
  {
    if |ts| >= 1 && !IsFlag(ts[0]) then (Some(ts[0]), ts[1..]) else (None, ts)
  }

  function TakePairs(flag: string, ts: seq<string>): (seq<string>, seq<string>)
    decreases |ts|
  {
    if |ts| >= 2 && ts[0] == flag then
      var (items, rest) := TakePairs(flag, ts[2..]);
      ([ts[1]] + items, rest)
    else ([], ts)
  }

  function TakeSwitch(flag: string, ts: seq<string>): (bool, seq<string>)
  {
    if |ts| >= 1 && ts[0] == flag then (true, ts[1..]) else (false, ts)
  }

  /** What the three list segments carry, and the tokens after them. */
  datatype Lists = Lists(params: seq<string>, envVars: seq<string>, tags: seq<string>, rest: seq<string>)

  /** What the first six segments carry. */
  datatype Front = Front(modelId: Option<string>, modelPath: Option<string>, mainDir: Option<string>,
                         lists: Lists)

  /** What the last six segments carry. */
  datatype Back = Back(instance: Option<string>, baseImage: Option<string>, iamRoleArn: Option<string>,
                       gpuCompatible: bool, environment: Option<string>, jsonLogs: bool)

  function ReadLists(ts: seq<string>): Lists
  {
    var (params, r4) := TakePairs("-P", ts);
    var (envVars, r5) := TakePairs("-E", r4);
    var (tags, r6) := TakePairs("-T", r5);
    Lists(params, envVars, tags, r6)
  }

  function ReadFront(ts: seq<string>): Front
  {
    var (modelId, r1) := TakeOpt("--model-id", ts);
    var (modelPath, r2) := TakeBare(r1);
    var (mainDir, r3) := TakeOpt("--main-dir", r2);
    Front(modelId, modelPath, mainDir, ReadLists(r3))
  }

  function ReadBack(ts: seq<string>): Option<Back>
  {
    var (instance, r7) := TakeOpt("--instance", ts);
    var (baseImage, r8) := TakeOpt("--base-image", r7);
    var (iamRoleArn, r9) := TakeOpt("--iam-role-arn", r8);
    var (gpu, r10) := TakeSwitch("--gpu-compatible", r9);
    var (environment, r11) := TakeOpt("--environment", r10);
    var (jsonLogs, r12) := TakeSwitch("--json-logs", r11);
    if r12 != [] then None else Some(Back(instance, baseImage, iamRoleArn, gpu, environment, jsonLogs))
  }

  /** Reads a token list in the canonical layout back into the options it carries;
      `None` for a list that is not in that layout. */
  function ParseTokens(ts: seq<string>): Option<Options>
  {
    if |ts| < 3 || ts[..3] != Prefix then None
    else
      var f := ReadFront(ts[3..]);
      match ReadBack(f.lists.rest)
      case None => None
      case Some(b) =>
        Some(Options(f.modelId, f.modelPath, f.mainDir, f.lists.params, f.lists.envVars, f.lists.tags,
                     b.instance, b.baseImage, b.iamRoleArn, b.gpuCompatible, b.environment, b.jsonLogs))
  }

  /** Reads a command string back: split at spaces, then parse the tokens. */
  function ParseCommand(line: string): Option<Options>
  {
    ParseTokens(Split(line, ' '))
  }

  lemma TakeOptRender(flag: string, v: Option<string>, rest: seq<string>)
    requires rest == [] || rest[0] != flag
    ensures TakeOpt(flag, Opt(flag, v) + rest) == (v, rest)
  {
    if v.Some? {
      assert (Opt(flag, v) + rest)[2..] == rest;
    } else {
      assert Opt(flag, v) + rest == rest;
    }
  }

  lemma TakeBareRender(v: Option<string>, rest: seq<string>)
    requires v.Some? ==> !IsFlag(v.value)
    requires rest == [] || IsFlag(rest[0])
    ensures TakeBare(Bare(v) + rest) == (v, rest)
  {
    if v.Some? {
      assert (Bare(v) + rest)[1..] == rest;
    } else {
      assert Bare(v) + rest == rest;
    }
  }

  lemma {:induction false} TakePairsRender(flag: string, items: seq<string>, rest: seq<string>)
    requires rest == [] || rest[0] != flag
    ensures TakePairs(flag, Pairs(flag, items) + rest) == (items, rest)
  {
    if items != [] {
      var ts := Pairs(flag, items) + rest;
      assert ts == [flag, items[0]] + (Pairs(flag, items[1..]) + rest);
      assert ts[2..] == Pairs(flag, items[1..]) + rest;
      TakePairsRender(flag, items[1..], rest);
      assert [items[0]] + items[1..] == items;
    } else {
      assert Pairs(flag, items) + rest == rest;
    }
  }

  lemma TakeSwitchRender(flag: string, on: bool, rest: seq<string>)
    requires rest == [] || rest[0] != flag
    ensures TakeSwitch(flag, Switch(flag, on) + rest) == (on, rest)
  {
    if on {
      assert (Switch(flag, on) + rest)[1..] == rest;
    } else {
      assert Switch(flag, on) + rest == rest;
    }
  }

  /** The position of the segment a flag leads, -1 for a token that is not a flag. */
  function Position(t: string): int
  {
    if t == "--model-id" then 0
    else if t == "--main-dir" then 2
    else if t == "-P" then 3
    else if t == "-E" then 4
    else if t == "-T" then 5
    else if t == "--instance" then 6
    else if t == "--base-image" then 7
    else if t == "--iam-role-arn" then 8
    else if t == "--gpu-compatible" then 9
    else if t == "--environment" then 10
    else if t == "--json-logs" then 11
    else -1
  }

  /** One of the eleven flags the command can carry. */
  predicate IsFlag(t: string)
  {
    Position(t) >= 0
  }

  lemma {:induction false} PairsHead(flag: string, items: seq<string>)
    ensures Pairs(flag, items) == [] || Pairs(flag, items)[0] == flag
  {
  }

  /** `ts` is empty or starts with the flag of position `k` or of a later one. */
  predicate StartsAtOrAfter(ts: seq<string>, k: int)
  {
    ts == [] || Position(ts[0]) >= k
  }

  /** A segment that is empty or led by the flag of position `k`, in front of what
      starts at or after position `k + 1`, starts at or after position `k`. */
  lemma PrependSegment(segment: seq<string>, k: int, rest: seq<string>)
    requires segment == [] || Position(segment[0]) == k
    requires StartsAtOrAfter(rest, k + 1)
    ensures StartsAtOrAfter(segment + rest, k)
  {
    if segment == [] {
      assert segment + rest == rest;
    }
  }

  /** Concatenation regrouped from the left to the right; stated over plain
      sequences so that no segment is looked into. */
  lemma Nest(p: seq<string>, s1: seq<string>, s2: seq<string>, s3: seq<string>, s4: seq<string>,
             s5: seq<string>, s6: seq<string>, s7: seq<string>, s8: seq<string>, s9: seq<string>,
             s10: seq<string>, s11: seq<string>, s12: seq<string>)
    ensures p + s1 + s2 + s3 + s4 + s5 + s6 + s7 + s8 + s9 + s10 + s11 + s12
         == p + (s1 + (s2 + (s3 + (s4 + (s5 + (s6 + (s7 + (s8 + (s9 + (s10 + (s11 + s12)))))))))))
  {
  }

  /** Segments 7 to 12, nested to the right. */
  function BackTokens(o: Options): seq<string>
  {
    Opt("--instance", o.instance) + (Opt("--base-image", o.baseImage) + (Opt("--iam-role-arn", o.iamRoleArn)
    + (Switch("--gpu-compatible", o.gpuCompatible) + (Opt("--environment", o.environment)
    + Switch("--json-logs", o.jsonLogs)))))
  }

  /** Segments 4 to 12, nested to the right. */
  function ListTokens(o: Options): seq<string>
  {
    Pairs("-P", o.params) + (Pairs("-E", o.envVars) + (Pairs("-T", o.tags) + BackTokens(o)))
  }

  /** Segments 1 to 12, nested to the right. */
  function FrontTokens(o: Options): seq<string>
  {
    Opt("--model-id", o.modelId) + (Bare(o.modelPath) + (Opt("--main-dir", o.mainDir) + ListTokens(o)))
  }

  lemma RenderNested(o: Options)
    ensures Render(o) == Prefix + FrontTokens(o)
  {
    Nest(Prefix, Opt("--model-id", o.modelId), Bare(o.modelPath), Opt("--main-dir", o.mainDir),
         Pairs("-P", o.params), Pairs("-E", o.envVars), Pairs("-T", o.tags),
         Opt("--instance", o.instance), Opt("--base-image", o.baseImage),
         Opt("--iam-role-arn", o.iamRoleArn), Switch("--gpu-compatible", o.gpuCompatible),
         Opt("--environment", o.environment), Switch("--json-logs", o.jsonLogs));
  }

  /** ReadBack gives back what segments 7 to 12 carry. */
  lemma ReadBackRender(instance: Option<string>, baseImage: Option<string>, iamRoleArn: Option<string>,
                       gpu: bool, environment: Option<string>, jsonLogs: bool)
    ensures ReadBack(Opt("--instance", instance) + (Opt("--base-image", baseImage)
      + (Opt("--iam-role-arn", iamRoleArn) + (Switch("--gpu-compatible", gpu)
      + (Opt("--environment", environment) + Switch("--json-logs", jsonLogs))))))
      == Some(Back(instance, baseImage, iamRoleArn, gpu, environment, jsonLogs))
  {
    var s7, s8 := Opt("--instance", instance), Opt("--base-image", baseImage);
    var s9, s10 := Opt("--iam-role-arn", iamRoleArn), Switch("--gpu-compatible", gpu);
    var s11, s12 := Opt("--environment", environment), Switch("--json-logs", jsonLogs);
    var t13: seq<string> := [];
    var t12 := s12 + t13;
    assert t12 == s12;
    var t11 := s11 + t12;
    var t10 := s10 + t11;
    var t9 := s9 + t10;
    var t8 := s8 + t9;
    PrependSegment(s12, 11, t13);
    PrependSegment(s11, 10, t12);
    PrependSegment(s10, 9, t11);
    PrependSegment(s9, 8, t10);
    PrependSegment(s8, 7, t9);
    TakeOptRender("--instance", instance, t8);
    TakeOptRender("--base-image", baseImage, t9);
    TakeOptRender("--iam-role-arn", iamRoleArn, t10);
    TakeSwitchRender("--gpu-compatible", gpu, t11);
    TakeOptRender("--environment", environment, t12);
    TakeSwitchRender("--json-logs", jsonLogs, t13);
  }

  /** Segments 7 to 12 start at the instance segment or after it. */
  lemma BackStarts(o: Options)
    ensures StartsAtOrAfter(BackTokens(o), 6)
  {
    var s7, s8 := Opt("--instance", o.instance), Opt("--base-image", o.baseImage);
    var s9, s10 := Opt("--iam-role-arn", o.iamRoleArn), Switch("--gpu-compatible", o.gpuCompatible);
    var s11, s12 := Opt("--environment", o.environment), Switch("--json-logs", o.jsonLogs);
    if s7 == [] && s8 == [] && s9 == [] && s10 == [] && s11 == [] {
      assert BackTokens(o) == s12;
    }
    PrependSegment(s11, 10, s12);
    PrependSegment(s10, 9, s11 + s12);
    PrependSegment(s9, 8, s10 + (s11 + s12));
    PrependSegment(s8, 7, s9 + (s10 + (s11 + s12)));
    PrependSegment(s7, 6, s8 + (s9 + (s10 + (s11 + s12))));
  }

  /** ReadLists gives back the three lists, and leaves what follows them. */
  lemma ReadListsRender(params: seq<string>, envVars: seq<string>, tags: seq<string>, rest: seq<string>)
    requires StartsAtOrAfter(rest, 6)
    ensures StartsAtOrAfter(Pairs("-P", params) + (Pairs("-E", envVars) + (Pairs("-T", tags) + rest)), 3)
    ensures ReadLists(Pairs("-P", params) + (Pairs("-E", envVars) + (Pairs("-T", tags) + rest)))
      == Lists(params, envVars, tags, rest)
  {
    var s4, s5, s6 := Pairs("-P", params), Pairs("-E", envVars), Pairs("-T", tags);
    var t6 := s6 + rest;
    var t5 := s5 + t6;
    PairsHead("-P", params);
    PairsHead("-E", envVars);
    PairsHead("-T", tags);
    PrependSegment(s6, 5, rest);
    PrependSegment(s5, 4, t6);
    PrependSegment(s4, 3, t5);
    TakePairsRender("-P", params, t5);
    TakePairsRender("-E", envVars, t6);
    TakePairsRender("-T", tags, rest);
  }

  /** Neither a value that is not a flag nor a flag of a later segment is `--model-id`. */
  lemma ModelIdNotAhead(t: string)
    requires !IsFlag(t) || Position(t) >= 2
    ensures t != "--model-id"
  {
  }

  /** ReadFront gives back model-id, path and main-dir, and hands the rest to ReadLists. */
  lemma ReadFrontRender(modelId: Option<string>, modelPath: Option<string>, mainDir: Option<string>,
                        rest: seq<string>)
    requires modelPath.Some? ==> !IsFlag(modelPath.value)
    requires StartsAtOrAfter(rest, 3)
    ensures ReadFront(Opt("--model-id", modelId) + (Bare(modelPath) + (Opt("--main-dir", mainDir) + rest)))
      == Front(modelId, modelPath, mainDir, ReadLists(rest))
  {
    var s1, s2, s3 := Opt("--model-id", modelId), Bare(modelPath), Opt("--main-dir", mainDir);
    var t3 := s3 + rest;
    var t2 := s2 + t3;
    PrependSegment(s3, 2, rest);
    if t2 != [] {
      ModelIdNotAhead(t2[0]);
    }
    TakeOptRender("--model-id", modelId, t2);
    TakeBareRender(modelPath, t3);
    TakeOptRender("--main-dir", mainDir, rest);
  }

  /** The canonical layout loses nothing: parsing it gives back the options, provided
      the bare model path cannot be mistaken for a flag. */
  lemma ParseRender(o: Options)
    requires o.modelPath.Some? ==> !IsFlag(o.modelPath.value)
    ensures ParseTokens(Render(o)) == Some(o)
  {
    var ts := Render(o);
    assert ts[..3] == Prefix && ts[3..] == FrontTokens(o) by {
      RenderNested(o);
    }
    assert ReadFront(FrontTokens(o))
        == Front(o.modelId, o.modelPath, o.mainDir, Lists(o.params, o.envVars, o.tags, BackTokens(o))) by {
      BackStarts(o);
      ReadListsRender(o.params, o.envVars, o.tags, BackTokens(o));
      ReadFrontRender(o.modelId, o.modelPath, o.mainDir, ListTokens(o));
    }
    assert ReadBack(BackTokens(o))
        == Some(Back(o.instance, o.baseImage, o.iamRoleArn, o.gpuCompatible, o.environment, o.jsonLogs)) by {
      ReadBackRender(o.instance, o.baseImage, o.iamRoleArn, o.gpuCompatible, o.environment, o.jsonLogs);
    }
  }
}
