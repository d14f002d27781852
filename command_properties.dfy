/** What the command `build_command` assembles promises as a whole: the flag rules
    read case-insensitively, lists come out one pair per comma-separated piece, and
    the command string carries every option, so that reading it back gives them all. */
module CommandProperties {
  import opened Wrappers
  import opened Text
  import opened CommandBuilder

  // ---------------------------------------------------------------------------
  // The two switches

  /** `--gpu-compatible` is chosen exactly when GPU_COMPATIBLE is some spelling of
      `true` that ignores case. */
  lemma GpuSwitchIff(cfg: Config)
    ensures Normalize(cfg).gpuCompatible
        <==> cfg.gpuCompatible.Some? && EqualsIgnoringCase(cfg.gpuCompatible.value, "true")
  {
    if cfg.gpuCompatible.Some? {
      LowerMatchesIgnoringCase(cfg.gpuCompatible.value, "true");
    }
  }

  /** `--json-logs` is chosen unless LOGS_AS_JSON is some spelling of `false` that
      ignores case; an unset LOGS_AS_JSON chooses it. */
  lemma JsonLogsSwitchIff(cfg: Config)
    ensures Normalize(cfg).jsonLogs
        <==> cfg.logsAsJson.None? || !EqualsIgnoringCase(cfg.logsAsJson.value, "false")
  {
    if cfg.logsAsJson.Some? {
      LowerMatchesIgnoringCase(cfg.logsAsJson.value, "false");
    } else {
      assert Lower("true") == "true";
    }
  }

  // ---------------------------------------------------------------------------
  // The three lists

  /** A set list value yields one item per comma-separated piece, empty pieces
      included, and the items joined with commas give the value back; an unset or
      empty value yields no item. */
  lemma ItemsOfList(v: Option<string>)
    ensures IsSet(v) ==> |Items(v)| == Count(v.value, ',') + 1 && Join(Items(v), ',') == v.value
    ensures !IsSet(v) ==> Items(v) == []
  {
  }

  /** `Pairs` puts the flag before every item, items in order. */
  lemma {:induction false} PairsShape(flag: string, items: seq<string>)
    ensures |Pairs(flag, items)| == 2 * |items|
    ensures forall i :: 0 <= i < |items| ==> Pairs(flag, items)[2 * i] == flag
    ensures forall i :: 0 <= i < |items| ==> Pairs(flag, items)[2 * i + 1] == items[i]
  {
    if items != [] {
      PairsShape(flag, items[1..]);
      var tail := Pairs(flag, items[1..]);
      assert Pairs(flag, items) == [flag, items[0]] + tail;
      forall i | 1 <= i < |items|
        ensures Pairs(flag, items)[2 * i] == flag && Pairs(flag, items)[2 * i + 1] == items[i]
      {
        assert Pairs(flag, items)[2 * i] == tail[2 * (i - 1)];
        assert Pairs(flag, items)[2 * i + 1] == tail[2 * (i - 1) + 1];
      }
    }
  }

  // ---------------------------------------------------------------------------
  // Reading the command string back

  /** No token of `ts` holds the character `c`. */
  predicate Avoids(ts: seq<string>, c: char)
  {
    forall i :: 0 <= i < |ts| ==> c !in ts[i]
  }

  lemma AvoidsConcat(a: seq<string>, b: seq<string>, c: char)
    requires Avoids(a, c) && Avoids(b, c)
    ensures Avoids(a + b, c)
  {
    forall i | 0 <= i < |a + b| ensures c !in (a + b)[i] {
      if i >= |a| {
        assert (a + b)[i] == b[i - |a|];
      }
    }
  }

  lemma {:induction false} PairsAvoid(flag: string, items: seq<string>, c: char)
    requires c !in flag && Avoids(items, c)
    ensures Avoids(Pairs(flag, items), c)
  {
    if items != [] {
      PairsAvoid(flag, items[1..], c);
      AvoidsConcat([flag, items[0]], Pairs(flag, items[1..]), c);
    }
  }

  lemma OptAvoids(flag: string, v: Option<string>, c: char)
    requires c !in flag && (v.Some? ==> c !in v.value)
    ensures Avoids(Opt(flag, v), c)
  {
  }

  lemma BareAvoids(v: Option<string>, c: char)
    requires v.Some? ==> c !in v.value
    ensures Avoids(Bare(v), c)
  {
  }

  lemma SwitchAvoids(flag: string, on: bool, c: char)
    requires c !in flag
    ensures Avoids(Switch(flag, on), c)
  {
  }

  /** The pieces of a list value free of `c` are free of `c`. */
  lemma ItemsAvoid(v: Option<string>, c: char)
    requires v.Some? ==> c !in v.value
    ensures Avoids(Items(v), c)
  {
    if IsSet(v) {
      SplitPiecesAvoid(v.value, ',', c);
    }
  }

  /** Concatenating thirteen pieces none of which holds `c`, from the left. */
  lemma AvoidsAll(p: seq<string>, s1: seq<string>, s2: seq<string>, s3: seq<string>, s4: seq<string>,
                  s5: seq<string>, s6: seq<string>, s7: seq<string>, s8: seq<string>, s9: seq<string>,
                  s10: seq<string>, s11: seq<string>, s12: seq<string>, c: char)
    requires Avoids(p, c) && Avoids(s1, c) && Avoids(s2, c) && Avoids(s3, c) && Avoids(s4, c)
    requires Avoids(s5, c) && Avoids(s6, c) && Avoids(s7, c) && Avoids(s8, c) && Avoids(s9, c)
    requires Avoids(s10, c) && Avoids(s11, c) && Avoids(s12, c)
    ensures Avoids(p + s1 + s2 + s3 + s4 + s5 + s6 + s7 + s8 + s9 + s10 + s11 + s12, c)
  {
    AvoidsConcat(p, s1, c);
    AvoidsConcat(p + s1, s2, c);
    AvoidsConcat(p + s1 + s2, s3, c);
    AvoidsConcat(p + s1 + s2 + s3, s4, c);
    AvoidsConcat(p + s1 + s2 + s3 + s4, s5, c);
    AvoidsConcat(p + s1 + s2 + s3 + s4 + s5, s6, c);
    AvoidsConcat(p + s1 + s2 + s3 + s4 + s5 + s6, s7, c);
    AvoidsConcat(p + s1 + s2 + s3 + s4 + s5 + s6 + s7, s8, c);
    AvoidsConcat(p + s1 + s2 + s3 + s4 + s5 + s6 + s7 + s8, s9, c);
    AvoidsConcat(p + s1 + s2 + s3 + s4 + s5 + s6 + s7 + s8 + s9, s10, c);
    AvoidsConcat(p + s1 + s2 + s3 + s4 + s5 + s6 + s7 + s8 + s9 + s10, s11, c);
    AvoidsConcat(p + s1 + s2 + s3 + s4 + s5 + s6 + s7 + s8 + s9 + s10 + s11, s12, c);
  }

  /** Every value and list item the options carry is free of spaces. */
  predicate SpaceFree(o: Options)
  {
    && (o.modelId.Some? ==> ' ' !in o.modelId.value)
    && (o.modelPath.Some? ==> ' ' !in o.modelPath.value)
    && (o.mainDir.Some? ==> ' ' !in o.mainDir.value)
    && Avoids(o.params, ' ') && Avoids(o.envVars, ' ') && Avoids(o.tags, ' ')
    && (o.instance.Some? ==> ' ' !in o.instance.value)
    && (o.baseImage.Some? ==> ' ' !in o.baseImage.value)
    && (o.iamRoleArn.Some? ==> ' ' !in o.iamRoleArn.value)
    && (o.environment.Some? ==> ' ' !in o.environment.value)
  }

  /** The segments up to the lists hold no space when the values hold none. */
  lemma FrontAvoidsSpace(o: Options)
    requires SpaceFree(o)
    ensures Avoids(Prefix, ' ') && Avoids(Opt("--model-id", o.modelId), ' ') && Avoids(Bare(o.modelPath), ' ')
    ensures Avoids(Opt("--main-dir", o.mainDir), ' ') && Avoids(Pairs("-P", o.params), ' ')
    ensures Avoids(Pairs("-E", o.envVars), ' ') && Avoids(Pairs("-T", o.tags), ' ')
  {
    OptAvoids("--model-id", o.modelId, ' ');
    BareAvoids(o.modelPath, ' ');
    OptAvoids("--main-dir", o.mainDir, ' ');
    PairsAvoid("-P", o.params, ' ');
    PairsAvoid("-E", o.envVars, ' ');
    PairsAvoid("-T", o.tags, ' ');
  }

  /** The segments after the lists hold no space when the values hold none. */
  lemma BackAvoidsSpace(o: Options)
    requires SpaceFree(o)
    ensures Avoids(Opt("--instance", o.instance), ' ') && Avoids(Opt("--base-image", o.baseImage), ' ')
    ensures Avoids(Opt("--iam-role-arn", o.iamRoleArn), ' ')
    ensures Avoids(Switch("--gpu-compatible", o.gpuCompatible), ' ')
    ensures Avoids(Opt("--environment", o.environment), ' ') && Avoids(Switch("--json-logs", o.jsonLogs), ' ')
  {
    OptAvoids("--instance", o.instance, ' ');
    OptAvoids("--base-image", o.baseImage, ' ');
    OptAvoids("--iam-role-arn", o.iamRoleArn, ' ');
    SwitchAvoids("--gpu-compatible", o.gpuCompatible, ' ');
    OptAvoids("--environment", o.environment, ' ');
    SwitchAvoids("--json-logs", o.jsonLogs, ' ');
  }

  /** With space-free values, no token of the command holds a space. */
  lemma RenderAvoidsSpace(o: Options)
    requires SpaceFree(o)
    ensures Avoids(Render(o), ' ')
  {
    FrontAvoidsSpace(o);
    BackAvoidsSpace(o);
    AvoidsAll(Prefix, Opt("--model-id", o.modelId), Bare(o.modelPath), Opt("--main-dir", o.mainDir),
              Pairs("-P", o.params), Pairs("-E", o.envVars), Pairs("-T", o.tags),
              Opt("--instance", o.instance), Opt("--base-image", o.baseImage),
              Opt("--iam-role-arn", o.iamRoleArn), Switch("--gpu-compatible", o.gpuCompatible),
              Opt("--environment", o.environment), Switch("--json-logs", o.jsonLogs), ' ');
  }

  /** No option that reaches the command holds a space, so none is cut in two
      when the command string is split at spaces. */
  predicate ConfigSpaceFree(cfg: Config)
  {
    && (cfg.modelId.Some? ==> ' ' !in cfg.modelId.value)
    && (cfg.modelPath.Some? ==> ' ' !in cfg.modelPath.value)
    && (cfg.mainDirName.Some? ==> ' ' !in cfg.mainDirName.value)
    && (cfg.paramList.Some? ==> ' ' !in cfg.paramList.value)
    && (cfg.envVars.Some? ==> ' ' !in cfg.envVars.value)
    && (cfg.tags.Some? ==> ' ' !in cfg.tags.value)
    && (cfg.instance.Some? ==> ' ' !in cfg.instance.value)
    && (cfg.baseImage.Some? ==> ' ' !in cfg.baseImage.value)
    && (cfg.iamRoleArn.Some? ==> ' ' !in cfg.iamRoleArn.value)
    && (cfg.environment.Some? ==> ' ' !in cfg.environment.value)
  }

  /** The model path is emitted without a flag in front of it, so it must not
      look like one of the flags. */
  predicate PathReadable(cfg: Config)
  {
    IsSet(cfg.modelPath) ==> !IsFlag(cfg.modelPath.value)
  }

  lemma NormalizeSpaceFree(cfg: Config)
    requires ConfigSpaceFree(cfg)
    ensures SpaceFree(Normalize(cfg))
  {
    var o := Normalize(cfg);
    assert o.params == Items(cfg.paramList) && o.envVars == Items(cfg.envVars) && o.tags == Items(cfg.tags);
    ItemsAvoid(cfg.paramList, ' ');
    ItemsAvoid(cfg.envVars, ' ');
    ItemsAvoid(cfg.tags, ' ');
  }

  /** The command string `build_command` returns carries every option it was built
      from: splitting it at spaces and reading the tokens back gives the options. */
  lemma CommandRoundTrip(cfg: Config)
    requires ConfigSpaceFree(cfg) && PathReadable(cfg)
    ensures ParseCommand(CommandLine(cfg)) == Some(Normalize(cfg))
  {
    var o := Normalize(cfg);
    NormalizeSpaceFree(cfg);
    RenderAvoidsSpace(o);
    SplitJoin(Render(o), ' ');
    ParseRender(o);
  }

  /** Two option sets that render to the same tokens are the same options. */
  lemma RenderInjective(o1: Options, o2: Options)
    requires o1.modelPath.Some? ==> !IsFlag(o1.modelPath.value)
    requires o2.modelPath.Some? ==> !IsFlag(o2.modelPath.value)
    requires Render(o1) == Render(o2)
    ensures o1 == o2
  {
    ParseRender(o1);
    ParseRender(o2);
  }

  /** Two configurations that give the same command string choose the same options. */
  lemma CommandDeterminesOptions(cfg1: Config, cfg2: Config)
    requires ConfigSpaceFree(cfg1) && PathReadable(cfg1)
    requires ConfigSpaceFree(cfg2) && PathReadable(cfg2)
    requires CommandLine(cfg1) == CommandLine(cfg2)
    ensures Normalize(cfg1) == Normalize(cfg2)
  {
    CommandRoundTrip(cfg1);
    CommandRoundTrip(cfg2);
  }

  /** Model id `123`, model path `/path/to/model`, GPU_COMPATIBLE `true` and
      LOGS_AS_JSON `true`, nothing else set. */
  const SampleConfig := Config(Some("123"), Some("/path/to/model"), None, None, None, None,
                               None, None, None, Some("true"), None, Some("true"))

  /** The tokens for the sample configuration: the model id behind its flag, the
      bare path, `--gpu-compatible`, and `--json-logs` by default. */
  lemma SampleTokens()
    ensures Tokens(SampleConfig)
         == ["qwak", "models", "build", "--model-id", "123", "/path/to/model", "--gpu-compatible", "--json-logs"]
  {
    assert Lower("true") == "true";
    assert Normalize(SampleConfig)
        == Options(Some("123"), Some("/path/to/model"), None, [], [], [], None, None, None, true, None, true);
  }

  // ---------------------------------------------------------------------------
  // Why the round trip needs its two conditions

  /** MODEL_PATH set to `--gpu-compatible`, nothing else set. */
  const PathLikeFlag := Config(None, Some("--gpu-compatible"), None, None, None, None,
                               None, None, None, None, None, None)

  /** GPU_COMPATIBLE set to `true`, nothing else set. */
  const GpuOnly := Config(None, None, None, None, None, None,
                          None, None, None, Some("true"), None, None)

  /** A model path spelled like a flag gives the same command as that flag: the
      command string does not tell which of the two inputs was set. */
  lemma PathFlagCollision()
    ensures !PathReadable(PathLikeFlag) && ConfigSpaceFree(PathLikeFlag)
    ensures CommandLine(PathLikeFlag) == CommandLine(GpuOnly)
    ensures Normalize(PathLikeFlag) != Normalize(GpuOnly)
  {
    assert Lower("true") == "true";
    assert Normalize(PathLikeFlag)
        == Options(None, Some("--gpu-compatible"), None, [], [], [], None, None, None, false, None, true);
    assert Normalize(GpuOnly)
        == Options(None, None, None, [], [], [], None, None, None, true, None, true);
    assert Tokens(PathLikeFlag) == ["qwak", "models", "build", "--gpu-compatible", "--json-logs"];
    assert Tokens(GpuOnly) == ["qwak", "models", "build", "--gpu-compatible", "--json-logs"];
  }

  /** MODEL_ID set to `a b`, nothing else set. */
  const SpacedModelId := Config(Some("a b"), None, None, None, None, None,
                                None, None, None, None, None, None)

  /** MODEL_ID set to `a` and MODEL_PATH to `b`, nothing else set. */
  const ModelIdAndPath := Config(Some("a"), Some("b"), None, None, None, None,
                                 None, None, None, None, None, None)

  /** The tokens for a model id holding a space: the id is one token. */
  lemma SpacedModelIdTokens()
    ensures Tokens(SpacedModelId) == ["qwak", "models", "build", "--model-id", "a b", "--json-logs"]
  {
    assert Lower("true") == "true";
    assert Normalize(SpacedModelId)
        == Options(Some("a b"), None, None, [], [], [], None, None, None, false, None, true);
  }

  /** The tokens for model id `a` and model path `b`. */
  lemma ModelIdAndPathTokens()
    ensures Tokens(ModelIdAndPath) == ["qwak", "models", "build", "--model-id", "a", "b", "--json-logs"]
  {
    assert Lower("true") == "true";
    assert Normalize(ModelIdAndPath)
        == Options(Some("a"), Some("b"), None, [], [], [], None, None, None, false, None, true);
  }

  /** A value holding a space gives the same command string as its two halves
      passed as two tokens. */
  lemma SpaceCollision()
    ensures !ConfigSpaceFree(SpacedModelId) && PathReadable(SpacedModelId)
    ensures CommandLine(SpacedModelId) == CommandLine(ModelIdAndPath)
    ensures Normalize(SpacedModelId) != Normalize(ModelIdAndPath)
  {
    assert ' ' in "a b" by { assert "a b"[1] == ' '; }
    assert Normalize(SpacedModelId).modelPath == None && Normalize(ModelIdAndPath).modelPath == Some("b");
    var p, q := ["qwak", "models", "build", "--model-id"], ["--json-logs"];
    SpacedModelIdTokens();
    ModelIdAndPathTokens();
    assert "a" + [' '] + "b" == "a b";
    assert Tokens(SpacedModelId) == p + ["a" + [' '] + "b"] + q;
    assert Tokens(ModelIdAndPath) == p + ["a", "b"] + q;
    JoinMerges(p, "a", "b", q, ' ');
  }
}
