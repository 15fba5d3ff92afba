/** The generator script: it loads the multi-language template, parses the `-o`
    overrides, resolves the `-l` language and writes its five family fields, merges the
    overrides, applies the `--train`/`--val`/`--dict`/`--data_dir` shortcuts and writes
    `rec_<family>_lite_train.yml`, deleting an older file of that name first.

    `Run` states a whole run as a function of its inputs; the class `Generator` owns
    the configuration (`global_config`) and its methods change it in place the way the
    script does, each proved to agree with the function that specifies it. */
module ConfigGenerator {
  import opened Outcomes
  import opened ConfigValues
  import opened Languages
  import opened OptionParser
  import opened Merge

  /** The template, looked up in the working directory. */
  const TemplateName: string := "rec_multi_language_lite_train.yml"

  /** The command line after argument parsing. An option that was not given is the empty
      sequence or the empty string: the script tests each path option for truth, so an
      empty path counts as absent. */
  datatype Args = Args(
    opt: seq<string>,
    language: seq<string>,
    train: string,
    val: string,
    dict: string,
    dataDir: string)

  /** What the filesystem answers below the project root (three levels above the
      working directory): its files and its directories. */
  datatype Root = Root(files: set<string>, dirs: set<string>)
  {
    /** `os.path.exists` (`loss_file`). */
    predicate Exists(name: string)
    {
      name in files || name in dirs
    }
  }

  /** The files in the working directory, and the tree below the project root. */
  datatype Disk = Disk(here: set<string>, root: Root)

  /** The effects a run has on the working directory, in order. */
  datatype Event = Removed(name: string) | Written(name: string, config: Config)

  /** The effects, and the error that ended the run if one did. */
  datatype Outcome = Outcome(events: seq<Event>, error: Option<Error>)

  const DictPath: Path := ["Global", "character_dict_path"]
  const SaveDir: Path := ["Global", "save_model_dir"]
  const CharType: Path := ["Global", "character_type"]
  const TrainLabels: Path := ["Train", "dataset", "label_file_list"]
  const EvalLabels: Path := ["Eval", "dataset", "label_file_list"]
  const TrainDataDir: Path := ["Train", "dataset", "data_dir"]
  const EvalDataDir: Path := ["Eval", "dataset", "data_dir"]

  /** The default dictionary of a family, relative to the project root. */
  function DictFile(f: string): string
  {
    "ppocr/utils/dict/" + f + "_dict.txt"
  }

  /** The file a run writes for a family. */
  function OutputName(f: string): string
  {
    "rec_" + f + "_lite_train.yml"
  }

  /** The five fields derived from the family, in the order they are assigned. */
  function FamilyFields(f: string): seq<(Path, Value)>
  {
    [(DictPath, Str(DictFile(f))),
     (SaveDir, Str("./output/rec_" + f + "_lite")),
     (TrainLabels, List([Str("train_data/" + f + "_train.txt")])),
     (EvalLabels, List([Str("train_data/" + f + "_val.txt")])),
     (CharType, Str(f))]
  }

  /** The mappings the fixed fields live in all exist. */
  predicate Shaped(c: Config)
  {
    IsDictAt(c, ["Global"]) && IsDictAt(c, ["Train", "dataset"]) && IsDictAt(c, ["Eval", "dataset"])
  }

  /** `_set_language`: the first `-l` token is classified, the family fields are written,
      and the family's dictionary must be a file below the project root. */
  function SetLanguageSpec(c: Config, language: seq<string>, root: Root): Result<(string, Config)>
  {
    if language == [] then Err(MissingLanguage)
    else
      var f :- Classify(language[0]);
      SetFamilySpec(c, f, root)
  }

  /** The part of `_set_language` after the token is resolved to `f`: the five fields are
      written, then the family's dictionary must exist under the project root. */
  function SetFamilySpec(c: Config, f: string, root: Root): Result<(string, Config)>
  {
    var c' :- SetAll(c, FamilyFields(f));
    if DictFile(f) in root.files then Ok((f, c')) else Err(MissingDictionary(f))
  }

  /** One shortcut: when given, its fields are written, then the path must exist. */
  function Shortcut(c: Config, given: string, ws: seq<(Path, Value)>, root: Root): Result<Config>
    requires forall i :: 0 <= i < |ws| ==> ws[i].0 != []
  {
    if given == "" then Ok(c)
    else
      var c' :- SetAll(c, ws);
      if root.Exists(given) then Ok(c') else Err(MissingFile(given))
  }

  function TrainWrites(train: string): seq<(Path, Value)> { [(TrainLabels, List([Str(train)]))] }
  function ValWrites(val: string): seq<(Path, Value)> { [(EvalLabels, List([Str(val)]))] }
  function DictWrites(dict: string): seq<(Path, Value)> { [(DictPath, Str(dict))] }
  function DataDirWrites(dir: string): seq<(Path, Value)>
  {
    [(EvalDataDir, Str(dir)), (TrainDataDir, Str(dir))]
  }

  /** The four shortcuts, in the order the script applies them. */
  function Shortcuts(c: Config, args: Args, root: Root): Result<Config>
  {
    var c1 :- Shortcut(c, args.train, TrainWrites(args.train), root);
    var c2 :- Shortcut(c1, args.val, ValWrites(args.val), root);
    var c3 :- Shortcut(c2, args.dict, DictWrites(args.dict), root);
    Shortcut(c3, args.dataDir, DataDirWrites(args.dataDir), root)
  }

  /** Everything before the disk is touched: the options are parsed, the language is
      set, the overrides are merged. The result is the family and the merged
      configuration. */
  function Prepare(template: Config, args: Args, root: Root, load: string -> Option<Value>)
    : Result<(string, Config)>
  {
    var opts :- ParseSpec(args.opt, load);
    var set_ :- SetLanguageSpec(template, args.language, root);
    var merged :- MergeAll(set_.1, opts);
    Ok((set_.0, merged))
  }

  /** The rest of a run: an older output is removed, then the shortcuts are applied and
      checked, and the output is written last. */
  function Finish(f: string, c: Config, args: Args, disk: Disk): Outcome
  {
    var name := OutputName(f);
    var removed := if name in disk.here then [Removed(name)] else [];
    match Shortcuts(c, args, disk.root)
    case Err(e) => Outcome(removed, Some(e))
    case Ok(c') => Outcome(removed + [Written(name, c')], None)
  }

  /** A whole run; the template must be present before anything else happens. */
  function Run(template: Config, args: Args, disk: Disk, load: string -> Option<Value>): Outcome
  {
    if TemplateName !in disk.here then Outcome([], Some(MissingTemplate))
    else
      match Prepare(template, args, disk.root, load)
      case Err(e) => Outcome([], Some(e))
      case Ok((f, c)) => Finish(f, c, args, disk)
  }

  /** No two family fields lie on one path. */
  lemma FamilyFieldsIndependent(f: string)
    ensures Independent(FamilyFields(f))
  {
    var ws := FamilyFields(f);
    forall i, j | 0 <= i < |ws| && 0 <= j < |ws| && i != j
      ensures !(ws[i].0 <= ws[j].0)
    {
      assert ws[i].0[0] != ws[j].0[0] || ws[i].0[1] != ws[j].0[1];
    }
  }

  /** The family fields can all be written exactly when the template has its `Global`,
      `Train.dataset` and `Eval.dataset` mappings. */
  lemma FamilyFieldsOkIff(c: Config, f: string)
    ensures SetAll(c, FamilyFields(f)).Ok? <==> Shaped(c)
  {
    var ws := FamilyFields(f);
    FamilyFieldsIndependent(f);
    SetAllOkIff(c, ws);
    assert Container(ws[0].0) == ["Global"] && Container(ws[1].0) == ["Global"];
    assert Container(ws[2].0) == ["Train", "dataset"] && Container(ws[3].0) == ["Eval", "dataset"];
    assert Container(ws[4].0) == ["Global"];
  }

  /** When setting the language succeeds and when it fails, and with which error: the
      token is checked first, then the template's shape, then the dictionary file. */
  lemma SetLanguageOutcome(c: Config, language: seq<string>, root: Root)
    ensures var r := SetLanguageSpec(c, language, root);
      (language == [] ==> r == Err(MissingLanguage)) &&
      (language != [] ==>
        var t := language[0];
        (!(t in SupportList || t in MultiLang) ==> r == Err(UnsupportedLanguage(t))) &&
        ((t in SupportList || t in MultiLang) ==>
          var f := Classify(t).value;
          (!Shaped(c) ==> r.Err? && r.error.InvalidPath?) &&
          (Shaped(c) && DictFile(f) !in root.files ==> r == Err(MissingDictionary(f))) &&
          (Shaped(c) && DictFile(f) in root.files ==> r.Ok? && r.value.0 == f)))
  {
    if language != [] && Classify(language[0]).Ok? {
      var f := Classify(language[0]).value;
      FamilyFieldsOkIff(c, f);
      if !Shaped(c) {
        SetAllErr(c, FamilyFields(f));
      }
    }
  }

  /** After the language is set, each of the five fields holds the family's value
      (`FamilyFields`) and every path unrelated to them reads as in the template. */
  lemma SetLanguageEffect(c: Config, language: seq<string>, root: Root, q: Path)
    requires SetLanguageSpec(c, language, root).Ok?
    ensures var (f, c') := SetLanguageSpec(c, language, root).value;
      var ws := FamilyFields(f);
      f == Classify(language[0]).value &&
      (forall i :: 0 <= i < |ws| ==> Get(Dict(c'), ws[i].0) == Some(ws[i].1)) &&
      ((forall i :: 0 <= i < |ws| ==> !(q <= ws[i].0) && !(ws[i].0 <= q)) ==>
        Get(Dict(c'), q) == Get(Dict(c), q))
  {
    var f := Classify(language[0]).value;
    FamilyFieldsIndependent(f);
    SetAllEffect(c, FamilyFields(f), q);
  }

  /** One shortcut that went through: nothing happens when it is not given; otherwise
      its path exists and its fields hold the given value; paths unrelated to its fields
      read as before either way. */
  lemma ShortcutEffect(c: Config, given: string, ws: seq<(Path, Value)>, root: Root, q: Path)
    requires Independent(ws) && Shortcut(c, given, ws, root).Ok?
    ensures var r := Shortcut(c, given, ws, root).value;
      (given == "" ==> r == c) &&
      (given != "" ==> root.Exists(given) &&
                       forall i :: 0 <= i < |ws| ==> Get(Dict(r), ws[i].0) == Some(ws[i].1)) &&
      ((forall i :: 0 <= i < |ws| ==> !(q <= ws[i].0) && !(ws[i].0 <= q)) ==>
        Get(Dict(r), q) == Get(Dict(c), q))
  {
    if given != "" {
      SetAllEffect(c, ws, q);
    }
  }

  /** The intermediate configurations of the shortcut block. */
  function AfterTrain(c: Config, args: Args, root: Root): Result<Config>
  {
    Shortcut(c, args.train, TrainWrites(args.train), root)
  }

  function AfterVal(c: Config, args: Args, root: Root): Result<Config>
  {
    var c1 :- AfterTrain(c, args, root);
    Shortcut(c1, args.val, ValWrites(args.val), root)
  }

  function AfterDict(c: Config, args: Args, root: Root): Result<Config>
  {
    var c2 :- AfterVal(c, args, root);
    Shortcut(c2, args.dict, DictWrites(args.dict), root)
  }

  /** The writes of each shortcut lie on unrelated paths. */
  lemma ShortcutWritesIndependent(args: Args)
    ensures Independent(TrainWrites(args.train)) && Independent(ValWrites(args.val))
    ensures Independent(DictWrites(args.dict)) && Independent(DataDirWrites(args.dataDir))
  {
    var ws := DataDirWrites(args.dataDir);
    assert ws[0].0[0] != ws[1].0[0];
  }

  /** Each step of the shortcut block keeps every path unrelated to its own fields. */
  lemma ShortcutsKeep(c: Config, args: Args, root: Root, q: Path)
    requires Shortcuts(c, args, root).Ok?
    ensures AfterTrain(c, args, root).Ok? && AfterVal(c, args, root).Ok? && AfterDict(c, args, root).Ok?
    ensures var c1, c2, c3 := AfterTrain(c, args, root).value, AfterVal(c, args, root).value,
                              AfterDict(c, args, root).value;
      var r := Shortcuts(c, args, root).value;
      (Unrelated(q, EvalDataDir) && Unrelated(q, TrainDataDir) ==> Get(Dict(r), q) == Get(Dict(c3), q)) &&
      (Unrelated(q, DictPath) ==> Get(Dict(c3), q) == Get(Dict(c2), q)) &&
      (Unrelated(q, EvalLabels) ==> Get(Dict(c2), q) == Get(Dict(c1), q)) &&
      (Unrelated(q, TrainLabels) ==> Get(Dict(c1), q) == Get(Dict(c), q))
  {
    var c1, c2, c3 := AfterTrain(c, args, root).value, AfterVal(c, args, root).value,
                      AfterDict(c, args, root).value;
    ShortcutWritesIndependent(args);
    ShortcutEffect(c, args.train, TrainWrites(args.train), root, q);
    ShortcutEffect(c1, args.val, ValWrites(args.val), root, q);
    ShortcutEffect(c2, args.dict, DictWrites(args.dict), root, q);
    ShortcutEffect(c3, args.dataDir, DataDirWrites(args.dataDir), root, q);
  }

  /** The fields the shortcut block writes lie on pairwise unrelated paths. */
  lemma ShortcutPathsApart()
    ensures Unrelated(TrainLabels, EvalLabels) && Unrelated(TrainLabels, DictPath)
    ensures Unrelated(TrainLabels, EvalDataDir) && Unrelated(TrainLabels, TrainDataDir)
    ensures Unrelated(EvalLabels, DictPath) && Unrelated(EvalLabels, EvalDataDir)
    ensures Unrelated(EvalLabels, TrainDataDir) && Unrelated(DictPath, EvalDataDir)
    ensures Unrelated(DictPath, TrainDataDir) && Unrelated(EvalDataDir, TrainDataDir)
  {
    ApartAt(TrainLabels, EvalLabels, 0);
    ApartAt(TrainLabels, DictPath, 0);
    ApartAt(TrainLabels, EvalDataDir, 0);
    ApartAt(TrainLabels, TrainDataDir, 2);
    ApartAt(EvalLabels, DictPath, 0);
    ApartAt(EvalLabels, EvalDataDir, 2);
    ApartAt(EvalLabels, TrainDataDir, 0);
    ApartAt(DictPath, EvalDataDir, 0);
    ApartAt(DictPath, TrainDataDir, 0);
    ApartAt(EvalDataDir, TrainDataDir, 0);
  }

  /** `--train`: a given path exists and the training label list is that one path; when
      absent, the list is as the overrides left it. */
  lemma ShortcutTrain(c: Config, args: Args, root: Root)
    requires Shortcuts(c, args, root).Ok?
    ensures var r := Shortcuts(c, args, root).value;
      (args.train != "" ==> root.Exists(args.train) &&
                            Get(Dict(r), TrainLabels) == Some(List([Str(args.train)]))) &&
      (args.train == "" ==> Get(Dict(r), TrainLabels) == Get(Dict(c), TrainLabels))
  {
    ShortcutWritesIndependent(args);
    ShortcutPathsApart();
    ShortcutsKeep(c, args, root, TrainLabels);
    ShortcutEffect(c, args.train, TrainWrites(args.train), root, TrainLabels);
  }

  /** `--val`: the same for the evaluation label list. */
  lemma ShortcutVal(c: Config, args: Args, root: Root)
    requires Shortcuts(c, args, root).Ok?
    ensures var r := Shortcuts(c, args, root).value;
      (args.val != "" ==> root.Exists(args.val) &&
                          Get(Dict(r), EvalLabels) == Some(List([Str(args.val)]))) &&
      (args.val == "" ==> Get(Dict(r), EvalLabels) == Get(Dict(c), EvalLabels))
  {
    ShortcutWritesIndependent(args);
    ShortcutPathsApart();
    ShortcutsKeep(c, args, root, EvalLabels);
    var c1 := AfterTrain(c, args, root).value;
    ShortcutEffect(c1, args.val, ValWrites(args.val), root, EvalLabels);
  }

  /** `--dict`: a given path exists and is the dictionary field. */
  lemma ShortcutDict(c: Config, args: Args, root: Root)
    requires Shortcuts(c, args, root).Ok?
    ensures var r := Shortcuts(c, args, root).value;
      (args.dict != "" ==> root.Exists(args.dict) &&
                           Get(Dict(r), DictPath) == Some(Str(args.dict))) &&
      (args.dict == "" ==> Get(Dict(r), DictPath) == Get(Dict(c), DictPath))
  {
    ShortcutWritesIndependent(args);
    ShortcutPathsApart();
    ShortcutsKeep(c, args, root, DictPath);
    var c2 := AfterVal(c, args, root).value;
    ShortcutEffect(c2, args.dict, DictWrites(args.dict), root, DictPath);
  }

  /** `--data_dir`: a given path exists and is both dataset roots. */
  lemma ShortcutDataDir(c: Config, args: Args, root: Root)
    requires Shortcuts(c, args, root).Ok?
    ensures var r := Shortcuts(c, args, root).value;
      (args.dataDir != "" ==> root.Exists(args.dataDir) &&
                              Get(Dict(r), TrainDataDir) == Some(Str(args.dataDir)) &&
                              Get(Dict(r), EvalDataDir) == Some(Str(args.dataDir))) &&
      (args.dataDir == "" ==> Get(Dict(r), TrainDataDir) == Get(Dict(c), TrainDataDir) &&
                              Get(Dict(r), EvalDataDir) == Get(Dict(c), EvalDataDir))
  {
    ShortcutWritesIndependent(args);
    ShortcutPathsApart();
    ShortcutsKeep(c, args, root, TrainDataDir);
    ShortcutsKeep(c, args, root, EvalDataDir);
    var c3 := AfterDict(c, args, root).value;
    assert DataDirWrites(args.dataDir)[1].0 == TrainDataDir;
    ShortcutEffect(c3, args.dataDir, DataDirWrites(args.dataDir), root, TrainDataDir);
    ShortcutEffect(c3, args.dataDir, DataDirWrites(args.dataDir), root, EvalDataDir);
  }

  /** The shortcut block changes nothing outside its five fields. */
  lemma ShortcutsFrame(c: Config, args: Args, root: Root, q: Path)
    requires Shortcuts(c, args, root).Ok?
    requires Unrelated(q, TrainLabels) && Unrelated(q, EvalLabels) && Unrelated(q, DictPath)
    requires Unrelated(q, TrainDataDir) && Unrelated(q, EvalDataDir)
    ensures Get(Dict(Shortcuts(c, args, root).value), q) == Get(Dict(c), q)
  {
    ShortcutsKeep(c, args, root, q);
  }

  /** The output never has the template's name, so a run never deletes or overwrites
      its own template: no accepted token resolves to "multi_language". */
  lemma OutputNeverTemplate(token: string)
    requires Classify(token).Ok?
    ensures OutputName(Classify(token).value) != TemplateName
  {
    ClassifyRange(token);
    var f := Classify(token).value;
    assert |OutputName(f)| == |f| + 19 && |TemplateName| == 33;
    assert |f| != 14;
  }

  /** A prepared run resolved its first `-l` token to the family it names. */
  lemma PrepareFamily(template: Config, args: Args, root: Root, load: string -> Option<Value>)
    requires Prepare(template, args, root, load).Ok?
    ensures args.language != [] && Classify(args.language[0]).Ok?
    ensures Prepare(template, args, root, load).value.0 == Classify(args.language[0]).value
  {
    var set_ := SetLanguageSpec(template, args.language, root);
    assert set_.Ok?;
  }

  /** Without overrides, preparing a run is setting the language. */
  lemma PrepareWithoutOptions(template: Config, args: Args, root: Root, load: string -> Option<Value>)
    requires args.opt == []
    ensures Prepare(template, args, root, load) == SetLanguageSpec(template, args.language, root)
  {
    assert ParseSpec([], load) == Ok([]);
  }

  /** A family is set only once its dictionary was found. */
  lemma SetFamilyChecked(c: Config, f: string, root: Root)
    requires SetFamilySpec(c, f, root).Ok?
    ensures SetFamilySpec(c, f, root).value.0 == f && DictFile(f) in root.files
  {
  }

  /** Overrides are merged after the family fields are written, so the last override wins
      over them: an override of `Global.character_dict_path` is what the prepared
      configuration holds, while the dictionary check has already tested the family's own
      dictionary. */
  lemma PrepareOverrideWins(template: Config, args: Args, root: Root, load: string -> Option<Value>)
    requires Prepare(template, args, root, load).Ok?
    ensures ParseSpec(args.opt, load).Ok?
    ensures var opts := ParseSpec(args.opt, load).value;
      var (f, c) := Prepare(template, args, root, load).value;
      DictFile(f) in root.files &&
      (opts != [] && '.' in opts[|opts| - 1].0 ==>
         Get(Dict(c), KeyPath(opts[|opts| - 1].0)) == Some(opts[|opts| - 1].1))
  {
    var opts := ParseSpec(args.opt, load).value;
    var r := SetLanguageSpec(template, args.language, root);
    assert r.Ok?;
    var set_ := r.value;
    SetFamilyChecked(template, Classify(args.language[0]).value, root);
    assert Prepare(template, args, root, load).value == (set_.0, MergeAll(set_.1, opts).value);
    if opts != [] {
      LastOverrideWins(set_.1, opts);
    }
  }

  /** A run touches the disk only when the template is there and the run was prepared;
      then it is finished with the prepared family and configuration. */
  lemma RunStages(template: Config, args: Args, disk: Disk, load: string -> Option<Value>)
    ensures var p := Prepare(template, args, disk.root, load);
      Run(template, args, disk, load) ==
        if TemplateName in disk.here && p.Ok? then Finish(p.value.0, p.value.1, args, disk)
        else Outcome([], Some(if TemplateName !in disk.here then MissingTemplate else p.error))
  {
  }

  /** The shape of a run's effects: at most an older output removed, then the output
      written, both named `name`; the output is written exactly when there is no error;
      only a file that was there is removed. */
  predicate WellFormedEffects(o: Outcome, here: set<string>, name: string)
  {
    |o.events| <= 2 &&
    (o.error.None? <==> |o.events| > 0 && o.events[|o.events| - 1].Written?) &&
    (forall i :: 0 <= i < |o.events| - 1 ==> o.events[i].Removed?) &&
    (forall i :: 0 <= i < |o.events| && o.events[i].Removed? ==> o.events[i].name in here) &&
    (forall i :: 0 <= i < |o.events| ==> o.events[i].name == name) &&
    (name in here <==> |o.events| > 0 && o.events[0] == Removed(name))
  }

  /** The last stage has that shape, under the family's output name. */
  lemma FinishEffects(f: string, c: Config, args: Args, disk: Disk)
    ensures WellFormedEffects(Finish(f, c, args, disk), disk.here, OutputName(f))
  {
  }

  /** The disk is touched only once the template was found, the options parsed, the
      language set and the overrides merged; then the effects have the shape above, under
      the family's output name, which is never the template's. A run that stops earlier
      has no effects at all. */
  lemma RunEffects(template: Config, args: Args, disk: Disk, load: string -> Option<Value>)
    ensures var o := Run(template, args, disk, load);
      var p := Prepare(template, args, disk.root, load);
      if TemplateName in disk.here && p.Ok? then
        WellFormedEffects(o, disk.here, OutputName(p.value.0)) &&
        OutputName(p.value.0) != TemplateName
      else
        o.events == [] && o.error.Some?
  {
    RunStages(template, args, disk, load);
    var p := Prepare(template, args, disk.root, load);
    if TemplateName in disk.here && p.Ok? {
      FinishEffects(p.value.0, p.value.1, args, disk);
      PrepareFamily(template, args, disk.root, load);
      OutputNeverTemplate(args.language[0]);
    }
  }

  /** Shortcuts are applied last: a given shortcut's value is what the written output
      holds, whatever the family and the overrides put there. */
  lemma FinishShortcutsWin(f: string, c: Config, args: Args, disk: Disk)
    requires Finish(f, c, args, disk).error == None
    ensures var o := Finish(f, c, args, disk);
      |o.events| > 0 && o.events[|o.events| - 1].Written? &&
      var w := o.events[|o.events| - 1].config;
      (args.train != "" ==> Get(Dict(w), TrainLabels) == Some(List([Str(args.train)]))) &&
      (args.val != "" ==> Get(Dict(w), EvalLabels) == Some(List([Str(args.val)]))) &&
      (args.dict != "" ==> Get(Dict(w), DictPath) == Some(Str(args.dict))) &&
      (args.dataDir != "" ==> Get(Dict(w), TrainDataDir) == Some(Str(args.dataDir)) &&
                              Get(Dict(w), EvalDataDir) == Some(Str(args.dataDir)))
  {
    FinishEffects(f, c, args, disk);
    ShortcutTrain(c, args, disk.root);
    ShortcutVal(c, args, disk.root);
    ShortcutDict(c, args, disk.root);
    ShortcutDataDir(c, args, disk.root);
  }

  /** The same for a whole run. */
  lemma RunShortcutsWin(template: Config, args: Args, disk: Disk, load: string -> Option<Value>)
    requires Run(template, args, disk, load).error == None
    ensures var o := Run(template, args, disk, load);
      |o.events| > 0 && o.events[|o.events| - 1].Written? &&
      var w := o.events[|o.events| - 1].config;
      (args.train != "" ==> Get(Dict(w), TrainLabels) == Some(List([Str(args.train)]))) &&
      (args.val != "" ==> Get(Dict(w), EvalLabels) == Some(List([Str(args.val)]))) &&
      (args.dict != "" ==> Get(Dict(w), DictPath) == Some(Str(args.dict))) &&
      (args.dataDir != "" ==> Get(Dict(w), TrainDataDir) == Some(Str(args.dataDir)) &&
                              Get(Dict(w), EvalDataDir) == Some(Str(args.dataDir)))
  {
    var p := Prepare(template, args, disk.root, load);
    RunStages(template, args, disk, load);
    assert TemplateName in disk.here && p.Ok?;
    assert Run(template, args, disk, load) == Finish(p.value.0, p.value.1, args, disk);
    FinishShortcutsWin(p.value.0, p.value.1, args, disk);
  }

  /** Preparing the `it` case without overrides resolves to the Latin family and sets
      its five fields. */
  lemma PrepareItalian(template: Config, args: Args, root: Root, load: string -> Option<Value>)
    requires Shaped(template)
    requires args.opt == [] && args.language == ["it"]
    requires DictFile("latin") in root.files
    ensures var p := Prepare(template, args, root, load);
      var ws := FamilyFields("latin");
      p.Ok? && p.value.0 == "latin" &&
      forall i :: 0 <= i < |ws| ==> Get(Dict(p.value.1), ws[i].0) == Some(ws[i].1)
  {
    ClassifyLatinRegistryCodes();
    PrepareWithoutOptions(template, args, root, load);
    SetLanguageOutcome(template, args.language, root);
    SetLanguageEffect(template, args.language, root, []);
  }

  /** The Latin family's five values, written out. */
  lemma LatinFields()
    ensures var ws := FamilyFields("latin");
      |ws| == 5 &&
      ws[0] == (DictPath, Str(DictFile("latin"))) &&
      ws[1] == (SaveDir, Str("./output/rec_latin_lite")) &&
      ws[2] == (TrainLabels, List([Str("train_data/latin_train.txt")])) &&
      ws[3] == (EvalLabels, List([Str("train_data/latin_val.txt")])) &&
      ws[4] == (CharType, Str("latin"))
  {
    assert "./output/rec_" + "latin" + "_lite" == "./output/rec_latin_lite";
    assert "train_data/" + "latin" + "_train.txt" == "train_data/latin_train.txt";
    assert "train_data/" + "latin" + "_val.txt" == "train_data/latin_val.txt";
  }

  /** The end-to-end case: token `it`, no overrides or shortcuts, the Latin dictionary
      present. The run writes `rec_latin_lite_train.yml` with the Latin fields. */
  lemma RunItalian(template: Config, args: Args, disk: Disk, load: string -> Option<Value>)
    requires TemplateName in disk.here && Shaped(template)
    requires args == Args([], ["it"], "", "", "", "")
    requires DictFile("latin") in disk.root.files
    ensures var o := Run(template, args, disk, load);
      o.error == None && |o.events| > 0 &&
      var w := o.events[|o.events| - 1];
      w.Written? && w.name == OutputName("latin") &&
      Get(Dict(w.config), DictPath) == Some(Str(DictFile("latin"))) &&
      Get(Dict(w.config), SaveDir) == Some(Str("./output/rec_latin_lite")) &&
      Get(Dict(w.config), TrainLabels) == Some(List([Str("train_data/latin_train.txt")])) &&
      Get(Dict(w.config), EvalLabels) == Some(List([Str("train_data/latin_val.txt")])) &&
      Get(Dict(w.config), CharType) == Some(Str("latin"))
  {
    PrepareItalian(template, args, disk.root, load);
    LatinFields();
    RunStages(template, args, disk, load);
    var c := Prepare(template, args, disk.root, load).value.1;
    assert Shortcuts(c, args, disk.root) == Ok(c);
    FinishEffects("latin", c, args, disk);
  }

  /** The same case without the dictionary file: the run stops with nothing removed or
      written. */
  lemma RunItalianNoDictionary(template: Config, args: Args, disk: Disk, load: string -> Option<Value>)
    requires TemplateName in disk.here && Shaped(template)
    requires args.language != [] && args.language[0] == "it"
    requires DictFile("latin") !in disk.root.files
    requires ParseSpec(args.opt, load).Ok?
    ensures Run(template, args, disk, load) == Outcome([], Some(MissingDictionary("latin")))
  {
    ClassifyLatinRegistryCodes();
    SetLanguageOutcome(template, args.language, disk.root);
  }

  /** The last stage with an older output present and a `--train` path that does not
      exist: the older output is removed, then the run stops. */
  lemma FinishRemovesBeforeShortcutCheck(f: string, c: Config, args: Args, disk: Disk)
    requires IsDictAt(c, ["Train", "dataset"])
    requires OutputName(f) in disk.here
    requires args.train != "" && !disk.root.Exists(args.train)
    ensures Finish(f, c, args, disk) == Outcome([Removed(OutputName(f))], Some(MissingFile(args.train)))
  {
    assert Container(TrainLabels) == ["Train", "dataset"];
    SetAllStep(c, TrainWrites(args.train));
  }

  /** An older output is removed before the shortcut paths are checked, so a missing
      `--train` path still deletes it. */
  lemma RunRemovesBeforeShortcutCheck(template: Config, args: Args, disk: Disk, load: string -> Option<Value>)
    requires TemplateName in disk.here && Shaped(template)
    requires args.opt == [] && args.language != [] && Classify(args.language[0]).Ok?
    requires DictFile(Classify(args.language[0]).value) in disk.root.files
    requires OutputName(Classify(args.language[0]).value) in disk.here
    requires args.train != "" && !disk.root.Exists(args.train)
    ensures Run(template, args, disk, load) ==
      Outcome([Removed(OutputName(Classify(args.language[0]).value))], Some(MissingFile(args.train)))
  {
    var f := Classify(args.language[0]).value;
    PrepareWithoutOptions(template, args, disk.root, load);
    SetLanguageOutcome(template, args.language, disk.root);
    SetLanguageEffect(template, args.language, disk.root, []);
    var c := SetLanguageSpec(template, args.language, disk.root).value.1;
    assert FamilyFields(f)[2].0 == TrainLabels;
    GetContainer(Dict(c), TrainLabels);
    assert Container(TrainLabels) == ["Train", "dataset"];
    RunStages(template, args, disk, load);
    FinishRemovesBeforeShortcutCheck(f, c, args, disk);
  }

  /** Finishing again once the output exists writes the same configuration under the
      same name, after removing the older file. */
  lemma FinishAgain(f: string, c: Config, args: Args, disk: Disk)
    requires Finish(f, c, args, disk).error == None
    ensures var o := Finish(f, c, args, disk);
      |o.events| > 0 &&
      var w := o.events[|o.events| - 1];
      Finish(f, c, args, disk.(here := disk.here + {w.name})) == Outcome([Removed(w.name), w], None)
  {
    FinishEffects(f, c, args, disk);
  }

  /** Running again once the output exists writes the same configuration under the same
      name, after removing the first run's file. */
  lemma RunAgain(template: Config, args: Args, disk: Disk, load: string -> Option<Value>)
    requires Run(template, args, disk, load).error == None
    ensures var o := Run(template, args, disk, load);
      |o.events| > 0 &&
      var w := o.events[|o.events| - 1];
      Run(template, args, disk.(here := disk.here + {w.name}), load) ==
        Outcome([Removed(w.name), w], None)
  {
    var p := Prepare(template, args, disk.root, load);
    RunStages(template, args, disk, load);
    assert p.Ok?;
    var o := Finish(p.value.0, p.value.1, args, disk);
    FinishAgain(p.value.0, p.value.1, args, disk);
    var w := o.events[|o.events| - 1];
    var disk' := disk.(here := disk.here + {w.name});
    RunStages(template, args, disk', load);
    assert disk'.root == disk.root;
  }

  /** A method's error-or-success result together with the state it left behind. */
  function Done(r: Result<()>, c: Config): Result<Config>
  {
    if r.Ok? then Ok(c) else Err(r.error)
  }

  /** The owner of `global_config`. */
  class Generator {
    var config: Config

    constructor(template: Config)
      ensures config == template
    {
      config := template;
    }

    /** `cur = config[p0]; cur = cur[p1]; ...; cur[last] = v`: the walk fails at the first
        missing key or non-mapping, before anything is assigned. */
    method Assign(p: Path, v: Value) returns (r: Result<()>)
      requires p != []
      modifies this
      ensures Done(r, config) == Write(old(config), p, v)
      ensures r.Err? ==> config == old(config)
    {
      var cur := Dict(config);
      var i := 0;
      while i < |p| - 1
        invariant 0 <= i <= |p| - 1
        invariant config == old(config)
        invariant Get(Dict(config), p[..i]) == Some(cur)
      {
        GetSnoc(Dict(config), p[..i], p[i]);
        assert p[..i] + [p[i]] == p[..i + 1];
        if !cur.Dict? || p[i] !in cur.entries {
          GetAppend(Dict(config), p[..i + 1], p[i + 1..|p| - 1]);
          assert p[..i + 1] + p[i + 1..|p| - 1] == Container(p);
          return Err(InvalidPath(p));
        }
        cur := cur.entries[p[i]];
        i := i + 1;
      }
      assert p[..i] == Container(p);
      if !cur.Dict? {
        return Err(InvalidPath(p));
      }
      config := SetPath(config, p, v).value;
      return Ok(());
    }

    /** The five family fields (`FamilyFields`), assigned one after the other; the first
        assignment whose walk fails ends the step. */
    method SetFamily(ws: seq<(Path, Value)>) returns (r: Result<()>)
      requires |ws| == 5 && forall i :: 0 <= i < |ws| ==> ws[i].0 != []
      modifies this
      ensures Done(r, config) == SetAll(old(config), ws)
    {
      ghost var c0 := config;
      SetAllStep(config, ws);
      var a := Assign(ws[0].0, ws[0].1);
      if a.Err? {
        return Err(a.error);
      }
      SetAllStep(config, ws[1..]);
      a := Assign(ws[1].0, ws[1].1);
      if a.Err? {
        return Err(a.error);
      }
      assert ws[1..][1..] == ws[2..];
      SetAllStep(config, ws[2..]);
      a := Assign(ws[2].0, ws[2].1);
      if a.Err? {
        return Err(a.error);
      }
      assert ws[2..][1..] == ws[3..];
      SetAllStep(config, ws[3..]);
      a := Assign(ws[3].0, ws[3].1);
      if a.Err? {
        return Err(a.error);
      }
      assert ws[3..][1..] == ws[4..];
      SetAllStep(config, ws[4..]);
      a := Assign(ws[4].0, ws[4].1);
      if a.Err? {
        return Err(a.error);
      }
      assert ws[4..][1..] == [];
      assert SetAll(c0, ws) == Ok(config);
      return Ok(());
    }

    /** `_set_language`. */
    method SetLanguage(language: seq<string>, root: Root) returns (r: Result<string>)
      modifies this
      ensures var s := SetLanguageSpec(old(config), language, root);
              (r.Ok? <==> s.Ok?) &&
              (r.Ok? ==> r.value == s.value.0 && config == s.value.1) &&
              (r.Err? ==> r.error == s.error)
    {
      if language == [] {
        return Err(MissingLanguage);
      }
      var lang := Classify(language[0]);
      if lang.Err? {
        return Err(lang.error);
      }
      r := ApplyFamily(lang.value, root);
    }

    /** `_set_language` once the token is resolved to `f`. */
    method ApplyFamily(f: string, root: Root) returns (r: Result<string>)
      modifies this
      ensures var s := SetFamilySpec(old(config), f, root);
              (r.Ok? <==> s.Ok?) &&
              (r.Ok? ==> r.value == s.value.0 && config == s.value.1) &&
              (r.Err? ==> r.error == s.error)
    {
      var a := SetFamily(FamilyFields(f));
      if a.Err? {
        return Err(a.error);
      }
      if DictFile(f) !in root.files {
        return Err(MissingDictionary(f));
      }
      return Ok(f);
    }

    /** `merge_config`: the overrides in order, each plain key assigned or `update`d at
        the top, each dotted key assigned through a walk from its root. */
    method MergeConfig(opts: Options) returns (r: Result<()>)
      modifies this
      ensures Done(r, config) == MergeAll(old(config), opts)
    {
      for i := 0 to |opts|
        invariant MergeAll(old(config), opts) == MergeAll(config, opts[i..])
      {
        var (key, value) := opts[i];
        assert opts[i..][0] == opts[i] && opts[i..][1..] == opts[i + 1..];
        if '.' !in key {
          if value.Dict? && key in config {
            if !config[key].Dict? {
              return Err(NotAMapping(key));
            }
            config := config[key := Dict(config[key].entries + value.entries)];
          } else {
            config := config[key := value];
          }
        } else {
          var subKeys := KeyPath(key);
          if subKeys[0] !in config {
            return Err(UnknownRootKey(subKeys[0]));
          }
          var a := Assign(subKeys, value);
          if a.Err? {
            return Err(a.error);
          }
        }
      }
      assert opts[|opts|..] == [];
      return Ok(());
    }

    /** One `if FLAGS.x:` block with a single field: the field is assigned, then the
        path must exist below the project root. */
    method ApplyShortcut(given: string, p: Path, v: Value, root: Root) returns (r: Result<()>)
      requires p != []
      modifies this
      ensures Done(r, config) == Shortcut(old(config), given, [(p, v)], root)
    {
      if given != "" {
        SetAllStep(config, [(p, v)]);
        r := Assign(p, v);
        if r.Err? {
          return;
        }
        if !root.Exists(given) {
          return Err(MissingFile(given));
        }
      }
      return Ok(());
    }

    /** The `--data_dir` block: the evaluation root, then the training root, then the
        existence check. */
    method ApplyDataDir(dir: string, root: Root) returns (r: Result<()>)
      modifies this
      ensures Done(r, config) == Shortcut(old(config), dir, DataDirWrites(dir), root)
    {
      if dir != "" {
        ghost var ws := DataDirWrites(dir);
        SetAllStep(config, ws);
        r := Assign(EvalDataDir, Str(dir));
        if r.Err? {
          return;
        }
        SetAllStep(config, ws[1..]);
        r := Assign(TrainDataDir, Str(dir));
        if r.Err? {
          return;
        }
        assert ws[1..][1..] == [];
        if !root.Exists(dir) {
          return Err(MissingFile(dir));
        }
      }
      return Ok(());
    }

    /** The shortcut block, in the script's order. */
    method ApplyShortcuts(args: Args, root: Root) returns (r: Result<()>)
      modifies this
      ensures Done(r, config) == Shortcuts(old(config), args, root)
    {
      r := ApplyShortcut(args.train, TrainLabels, List([Str(args.train)]), root);
      if r.Err? {
        return;
      }
      r := ApplyShortcut(args.val, EvalLabels, List([Str(args.val)]), root);
      if r.Err? {
        return;
      }
      r := ApplyShortcut(args.dict, DictPath, Str(args.dict), root);
      if r.Err? {
        return;
      }
      r := ApplyDataDir(args.dataDir, root);
    }
  }

  /** The script's main program, from the loaded template to the events on disk. */
  method Generate(template: Config, args: Args, disk: Disk, load: string -> Option<Value>)
    returns (out: Outcome)
    ensures out == Run(template, args, disk, load)
  {
    if TemplateName !in disk.here {
      return Outcome([], Some(MissingTemplate));
    }
    var g := new Generator(template);
    var parsed := ParseOpt(args.opt, load);
    if parsed.Err? {
      return Outcome([], Some(parsed.error));
    }
    var lang := g.SetLanguage(args.language, disk.root);
    if lang.Err? {
      return Outcome([], Some(lang.error));
    }
    var merged := g.MergeConfig(parsed.value);
    if merged.Err? {
      return Outcome([], Some(merged.error));
    }
    var name := OutputName(lang.value);
    var events := if name in disk.here then [Removed(name)] else [];
    var shortcuts := g.ApplyShortcuts(args, disk.root);
    if shortcuts.Err? {
      return Outcome(events, Some(shortcuts.error));
    }
    return Outcome(events + [Written(name, g.config)], None);
  }
}
