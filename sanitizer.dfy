/** The InputSanitizer object: it holds the validated configuration, the
    general CP2K settings inside it and the two job trees, and each stage
    rewrites the job trees in place. The pure definitions of the stages and
    their properties are in module InputValidation; every method here is
    proved to do what those definitions say. */
module Sanitizer {
  import opened Wrappers
  import opened Values
  import opened PyText
  import opened SettingsTree
  import opened InputValidation
  import opened Sanitize

  /** What print_final_input dumps: every top-level value converted. */
  function Printed(input: map<string, Value>): (xs: map<string, Value>)
    ensures xs.Keys == input.Keys
    ensures forall k :: k in input ==> xs[k] == RecursiveTraverse(input[k])
  {
    map k | k in input :: RecursiveTraverse(input[k])
  }

  /** The dump holds no `Settings` when every top-level value converts fully. */
  lemma PrintedPlain(input: map<string, Value>)
    requires forall k :: k in input ==> Convertible(input[k])
    ensures forall k :: k in Printed(input) ==> NoSettings(Printed(input)[k])
  {
    forall k | k in input ensures NoSettings(Printed(input)[k]) {
      TraverseNoSettings(input[k]);
    }
  }

  /** Dumping the dump again changes nothing. */
  lemma PrintedIdempotent(input: map<string, Value>)
    requires forall k :: k in input ==> Convertible(input[k])
    ensures Printed(Printed(input)) == Printed(input)
  {
    forall k | k in input ensures Printed(Printed(input))[k] == Printed(input)[k] {
      TraverseIdempotent(input[k]);
    }
  }

  /** What print_final_input writes for a sanitized loaded input is plain
      YAML data: no `Settings` is left anywhere in it. */
  lemma SanitizedPrintedPlain(input: map<string, Value>, atoms: seq<string>, valence: map<string, int>,
                              makeTemplate: Value -> map<string, Value>,
                              absPath: string -> string, absolute: string -> string)
    requires ValidInput(input) && Loaded(input) && TemplatesClean(makeTemplate)
    requires SanitizedInput(input, atoms, valence, makeTemplate, absPath, absolute).Success?
    ensures var out := SanitizedInput(input, atoms, valence, makeTemplate, absPath, absolute).value.0;
      forall k :: k in Printed(out) ==> NoSettings(Printed(out)[k])
  {
    var out := SanitizedInput(input, atoms, valence, makeTemplate, absPath, absolute).value.0;
    SanitizedConvertible(input, atoms, valence, makeTemplate, absPath, absolute);
    PrintedPlain(out);
  }

  class InputSanitizer {
    /** `self.user_input`. Its `cp2k_general_settings` entry is the same dict
        as `self.general`. */
    var userInput: map<string, Value>
    /** `self.general`. The sanitizer never rebinds it nor writes any of its
        keys but the two job trees, which are held in `main` and `guess`. */
    const general: map<string, Value>
    /** `self.general['cp2k_settings_main']` and `self.general['cp2k_settings_guess']`. */
    var main: Value
    var guess: Value

    /** The general settings with the current job trees. */
    function General(): map<string, Value>
      reads this
    {
      general[MAIN_KEY := main][GUESS_KEY := guess]
    }

    /** The configuration as the caller sees it. */
    function UserInput(): map<string, Value>
      reads this
    {
      userInput[GENERAL := Dict(Plain, General())]
    }

    function Tree(j: Job): Value
      reads this
    {
      if j == Main then main else guess
    }

    /** What the schema guarantees of the general settings; they never change. */
    ghost predicate GeneralOk() {
      GeneralValid(general)
    }

    /** The general settings the stages read. */
    function Gen(): General
      requires GeneralOk()
    {
      ReadGeneral(general)
    }

    ghost predicate Valid()
      reads this
    {
      UserValid(userInput) && JobValid(main) && JobValid(guess)
    }

    /** After create_settings both job trees are `Settings` all the way down. */
    ghost predicate Wrapped()
      reads this
    {
      main.IsSettings() && AllSettings(main) && guess.IsSettings() && AllSettings(guess)
    }

    constructor (input: map<string, Value>)
      requires ValidInput(input)
      ensures Valid() && GeneralOk()
      ensures UserInput() == input
      ensures general == input[GENERAL].entries && main == general[MAIN_KEY] && guess == general[GUESS_KEY]
    {
      userInput := input;
      general := input[GENERAL].entries;
      main := input[GENERAL].entries[MAIN_KEY];
      guess := input[GENERAL].entries[GUESS_KEY];
      new;
      assert General() == general;
    }

    /** The assignment of keyword k on job tree j: `s.specific.cp2k. ... = v`.
        On a tree the invariant admits it cannot fail (KeywordDescendable). */
    method Assign(j: Job, k: Keyword, v: Value)
      requires Valid() && Wrapped() && AllSettings(v)
      modifies this
      ensures Valid() && Wrapped() && userInput == old(userInput)
      ensures main == if j == Main then SetPath(old(main), PathOf(k), v) else old(main)
      ensures guess == if j == Guess then SetPath(old(guess), PathOf(k), v) else old(guess)
    {
      var p := PathOf(k);
      KeywordIsLeaf(k);
      SetPathShaped(Tree(j), p, v);
      SetPathAllSettings(Tree(j), p, v);
      if j == Main {
        main := SetPath(main, p, v);
      } else {
        guess := SetPath(guess, p, v);
      }
    }

    /** Reading the section `s.p[0]. ... .p[n]`, which creates it when absent;
        on a tree the invariant admits this cannot fail (ShapedDescendable). */
    method TouchSection(j: Job, p: seq<string>)
      requires Valid() && Wrapped()
      requires p != [] && SectionChain(p)
      modifies this
      ensures Valid() && Wrapped() && userInput == old(userInput)
      ensures main == if j == Main then Touch(old(main), p) else old(main)
      ensures guess == if j == Guess then Touch(old(guess), p) else old(guess)
    {
      if Lookup(Tree(j), p).None? {
        SetPathShaped(Tree(j), p, Dict(Settings, map[]));
        SetPathAllSettings(Tree(j), p, Dict(Settings, map[]));
        if j == Main {
          main := SetPath(main, p, Dict(Settings, map[]));
        } else {
          guess := SetPath(guess, p, Dict(Settings, map[]));
        }
      }
    }

    /** create_settings: both job trees become `Settings`. */
    method CreateSettings()
      requires Valid()
      modifies this
      ensures Valid() && Wrapped() && userInput == old(userInput)
      ensures main == ToSettings(old(main)) && guess == ToSettings(old(guess))
    {
      ToSettingsShaped(main);
      ToSettingsShaped(guess);
      main := ToSettings(main);
      guess := ToSettings(guess);
    }

    /** The overlay step of apply_templates on job tree j, once `specific`
        exists: the "template" key is deleted from it and the template is
        overlaid with what remains. */
    method OverlayTemplate(j: Job, makeTemplate: Value -> map<string, Value>)
      requires Valid() && Wrapped() && TemplatesOk(makeTemplate)
      requires SPECIFIC in Tree(j).entries
      modifies this
      ensures Valid() && Wrapped() && userInput == old(userInput)
      ensures main == if j == Main then Overlaid(old(main), makeTemplate) else old(main)
      ensures guess == if j == Guess then Overlaid(old(guess), makeTemplate) else old(guess)
    {
      OverlaidKeepsShape(Tree(j), makeTemplate);
      var t := Tree(j);
      var spec := t.entries[SPECIFIC];
      if TEMPLATE in spec.entries {
        var template := Dict(Settings, makeTemplate(spec.entries[TEMPLATE]));
        var rest := spec.(entries := spec.entries - {TEMPLATE});
        if j == Main {
          main := t.(entries := t.entries[SPECIFIC := Merge(template, rest)]);
        } else {
          guess := t.(entries := t.entries[SPECIFIC := Merge(template, rest)]);
        }
      }
    }

    /** apply_templates, over both job trees. */
    method ApplyTemplates(makeTemplate: Value -> map<string, Value>)
      requires Valid() && Wrapped() && TemplatesOk(makeTemplate)
      modifies this
      ensures Valid() && Wrapped() && userInput == old(userInput)
      ensures main == WithTemplate(old(main), makeTemplate) && guess == WithTemplate(old(guess), makeTemplate)
    {
      for i := 0 to JOB_COUNT
        invariant Valid() && Wrapped() && userInput == old(userInput)
        invariant main == if i >= 1 then WithTemplate(old(main), makeTemplate) else old(main)
        invariant guess == if i >= 2 then WithTemplate(old(guess), makeTemplate) else old(guess)
      {
        var j := JobAt(i);
        TouchSection(j, [SPECIFIC]);
        assert Lookup(Tree(j), [SPECIFIC]).Some?;
        OverlayTemplate(j, makeTemplate);
      }
    }

    /** add_mo_index_range: the window around the HOMO is stored in the
        input, and the main tree (only) prints it. */
    method AddMoIndexRange()
      requires Valid() && Wrapped() && Get(userInput, NHOMO).Int? && Computes(userInput)
      modifies this
      ensures Valid() && Wrapped()
      ensures userInput == UserKeywords(old(userInput))
      ensures main == MoStage(Main, old(main), ReadWindow(old(userInput)))
      ensures guess == old(guess)
    {
      var activeSpace := userInput[ACTIVE_SPACE].items;
      var nHomo := userInput[NHOMO].i;
      var lo, hi := nHomo - activeSpace[0].i, nHomo + activeSpace[1].i;
      assert ReadWindow(userInput) == Some(Window(nHomo, lo, hi));
      userInput := userInput[MO_INDEX_RANGE := Tuple([Int(lo), Int(hi)])];
      assert userInput == UserKeywords(old(userInput));
      PrintMoKeywords(nHomo, lo, hi);
    }

    /** The CP2K keywords add_mo_index_range writes to the main tree. */
    method PrintMoKeywords(nHomo: int, lo: int, hi: int)
      requires Valid() && Wrapped()
      modifies this
      ensures Valid() && Wrapped() && userInput == old(userInput)
      ensures main == WithMoKeywords(old(main), nHomo, lo, hi) && guess == old(guess)
    {
      KeywordPaths();
      Assign(Main, MoIndexRangeKey, Str(MoIndexRangeText(lo, hi)));
      Assign(Main, AddedMosKey, Int(AddedMos(hi, nHomo)));
      Assign(Main, AddLastKey, Str("numeric"));
      Assign(Main, QsScfKey, Int(0));
      Assign(Main, EigenvaluesKey, Str(""));
      Assign(Main, EigenvectorsKey, Str(""));
      Assign(Main, NdigitsKey, Int(36));
    }

    /** add_restart_point: the guess tree (only) restarts from the named
        wave-function file. */
    method AddRestartPoint(absolute: string -> string)
      requires Valid() && Wrapped() && GeneralOk()
      modifies this
      ensures Valid() && Wrapped() && userInput == old(userInput)
      ensures main == old(main)
      ensures guess == RestartStage(Guess, old(guess), Gen(), absolute)
    {
      KeywordPaths();
      var wfn := Gen().wfnRestart;
      if wfn.Some? && wfn.value != "" {
        Assign(Guess, WfnRestartKey, Str(absolute(wfn.value)));
      }
    }

    /** `dft["basis_set_file_name"].append(file)` on job tree j. */
    method AppendBasisFile(j: Job, file: Value)
      requires Valid() && Wrapped()
      requires Lookup(Tree(j), BASIS_FILE_PATH).Some? && Lookup(Tree(j), BASIS_FILE_PATH).value.List?
      modifies this
      ensures Valid() && Wrapped() && userInput == old(userInput)
      ensures var files := Lookup(old(Tree(j)), BASIS_FILE_PATH).value.items;
        && main == (if j == Main then SetPath(old(main), BASIS_FILE_PATH, List(files + [file])) else old(main))
        && guess == (if j == Guess then SetPath(old(guess), BASIS_FILE_PATH, List(files + [file])) else old(guess))
    {
      KeywordPaths();
      var files := Lookup(Tree(j), BASIS_FILE_PATH).value.items;
      Assign(j, BasisFilesKey, List(files + [file]));
    }

    /** The two ADMM appends of select_basis_file on job tree j. */
    method AppendAdmmFiles(j: Job, pathBasis: string, absPath: string -> string)
      requires Valid() && Wrapped()
      requires Lookup(Tree(j), BASIS_FILE_PATH) == Some(List(BasisFileList(pathBasis, false, absPath)))
      modifies this
      ensures Valid() && Wrapped() && userInput == old(userInput)
      ensures var full := List(BasisFileList(pathBasis, true, absPath));
        && main == (if j == Main then SetPath(old(main), BASIS_FILE_PATH, full) else old(main))
        && guess == (if j == Guess then SetPath(old(guess), BASIS_FILE_PATH, full) else old(guess))
    {
      ghost var t := Tree(j);
      var full := BasisFileList(pathBasis, true, absPath);
      AppendBasisFile(j, full[1]);
      AppendBasisFile(j, full[2]);
      BasisFileListExtends(pathBasis, absPath);
      SetPathTwice(t, BASIS_FILE_PATH, List(BasisFileList(pathBasis, false, absPath) + [full[1]]), List(full));
    }

    /** select_basis_file: the list of basis files starts with BASIS_MOLOPT;
        `dft.xc` is read, creating it when absent, and unless it names the
        PBE functional the two ADMM files are appended. */
    method SelectBasisFile(j: Job, absPath: string -> string)
      requires Valid() && Wrapped() && GeneralOk() && Gen().pathBasis.Some?
      modifies this
      ensures Valid() && Wrapped() && userInput == old(userInput)
      ensures main == if j == Main then SelectedBasis(old(main), Gen().pathBasis.value, absPath) else old(main)
      ensures guess == if j == Guess then SelectedBasis(old(guess), Gen().pathBasis.value, absPath) else old(guess)
    {
      KeywordPaths();
      var pathBasis := Gen().pathBasis.value;
      Assign(j, BasisFilesKey, List(BasisFileList(pathBasis, false, absPath)));
      TouchXcKeepsBasisFiles(Tree(j));
      TouchSection(j, XC_PATH);
      if UsesAdmm(Tree(j)) {
        AppendAdmmFiles(j, pathBasis, absPath);
      }
    }

    /** add_basis: with a basis directory, both trees get the basis and
        potential names, the potential file and the basis files. */
    method AddBasis(absPath: string -> string)
      requires Valid() && Wrapped() && GeneralOk()
      modifies this
      ensures Valid() && Wrapped() && userInput == old(userInput)
      ensures main == BasisStage(old(main), Gen(), absPath) && guess == BasisStage(old(guess), Gen(), absPath)
    {
      KeywordPaths();
      var gen := Gen();
      if gen.pathBasis.Some? {
        for i := 0 to JOB_COUNT
          invariant Valid() && Wrapped() && userInput == old(userInput)
          invariant main == if i >= 1 then BasisStage(old(main), gen, absPath) else old(main)
          invariant guess == if i >= 2 then BasisStage(old(guess), gen, absPath) else old(guess)
        {
          var j := JobAt(i);
          Assign(j, BasisNameKey, Str(gen.basis));
          Assign(j, PotentialNameKey, gen.potential);
          Assign(j, PotentialFileKey, Str(absPath(Join(gen.pathBasis.value, "GTH_POTENTIALS"))));
          SelectBasisFile(j, absPath);
        }
      }
    }

    /** add_cell_parameters: the cell parameters, unless a file gives them,
        and no angles, in both trees. */
    method AddCellParameters()
      requires Valid() && Wrapped() && GeneralOk()
      modifies this
      ensures Valid() && Wrapped() && userInput == old(userInput)
      ensures main == WithCell(old(main), Gen().cellParameters, Gen().fileCellParameters)
      ensures guess == WithCell(old(guess), Gen().cellParameters, Gen().fileCellParameters)
    {
      KeywordPaths();
      var gen := Gen();
      for i := 0 to JOB_COUNT
        invariant Valid() && Wrapped() && userInput == old(userInput)
        invariant main == if i >= 1 then WithCell(old(main), gen.cellParameters, gen.fileCellParameters) else old(main)
        invariant guess == if i >= 2 then WithCell(old(guess), gen.cellParameters, gen.fileCellParameters) else old(guess)
      {
        var j := JobAt(i);
        if gen.fileCellParameters == Null {
          Assign(j, CellParametersKey, gen.cellParameters);
          Assign(j, CellAnglesKey, Null);
        } else {
          Assign(j, CellParametersKey, Null);
        }
        Assign(j, CellAnglesKey, Null);
      }
    }

    /** add_periodic, on both trees. */
    method AddPeriodic()
      requires Valid() && Wrapped() && GeneralOk()
      modifies this
      ensures Valid() && Wrapped() && userInput == old(userInput)
      ensures main == SetPath(old(main), PERIODIC_PATH, Gen().periodic)
      ensures guess == SetPath(old(guess), PERIODIC_PATH, Gen().periodic)
    {
      KeywordPaths();
      var gen := Gen();
      for i := 0 to JOB_COUNT
        invariant Valid() && Wrapped() && userInput == old(userInput)
        invariant main == if i >= 1 then SetPath(old(main), PERIODIC_PATH, gen.periodic) else old(main)
        invariant guess == if i >= 2 then SetPath(old(guess), PERIODIC_PATH, gen.periodic) else old(guess)
      {
        Assign(JobAt(i), PeriodicKey, gen.periodic);
      }
    }

    /** add_charge, on both trees. */
    method AddCharge()
      requires Valid() && Wrapped() && GeneralOk()
      modifies this
      ensures Valid() && Wrapped() && userInput == old(userInput)
      ensures main == SetPath(old(main), CHARGE_PATH, Int(Gen().charge))
      ensures guess == SetPath(old(guess), CHARGE_PATH, Int(Gen().charge))
    {
      KeywordPaths();
      var gen := Gen();
      for i := 0 to JOB_COUNT
        invariant Valid() && Wrapped() && userInput == old(userInput)
        invariant main == if i >= 1 then SetPath(old(main), CHARGE_PATH, Int(gen.charge)) else old(main)
        invariant guess == if i >= 2 then SetPath(old(guess), CHARGE_PATH, Int(gen.charge)) else old(guess)
      {
        Assign(JobAt(i), ChargeKey, Int(gen.charge));
      }
    }

    /** add_multiplicity: above 1, the multiplicity and an unrestricted
        calculation on both trees; otherwise nothing. */
    method AddMultiplicity()
      requires Valid() && Wrapped() && GeneralOk()
      modifies this
      ensures Valid() && Wrapped() && userInput == old(userInput)
      ensures main == MultiplicityStage(old(main), Gen()) && guess == MultiplicityStage(old(guess), Gen())
    {
      KeywordPaths();
      var gen := Gen();
      if gen.multiplicity > 1 {
        for i := 0 to JOB_COUNT
          invariant Valid() && Wrapped() && userInput == old(userInput)
          invariant main == if i >= 1 then MultiplicityStage(old(main), gen) else old(main)
          invariant guess == if i >= 2 then MultiplicityStage(old(guess), gen) else old(guess)
        {
          var j := JobAt(i);
          Assign(j, MultiplicityKey, Int(gen.multiplicity));
          Assign(j, UksKey, Str(""));
        }
      }
    }

    /** add_executable, on both trees. */
    method AddExecutable()
      requires Valid() && Wrapped() && GeneralOk()
      modifies this
      ensures Valid() && Wrapped() && userInput == old(userInput)
      ensures main == SetPath(old(main), EXECUTABLE_PATH, Gen().executable)
      ensures guess == SetPath(old(guess), EXECUTABLE_PATH, Gen().executable)
    {
      KeywordPaths();
      var gen := Gen();
      Assign(Main, ExecutableKey, gen.executable);
      Assign(Guess, ExecutableKey, gen.executable);
    }

    /** The first step of add_missing_keywords: when `nHOMO` is None it is
        computed from the molecule (compute_homo_index); a missing valence
        entry is the error. */
    method StoreHomoIndex(atoms: seq<string>, valence: map<string, int>) returns (err: Option<Error>, unpaired: bool)
      requires Valid() && GeneralOk()
      modifies this
      ensures Valid() && main == old(main) && guess == old(guess)
      ensures var h := HomoStage(old(userInput), Gen(), atoms, valence);
        && (err.Some? <==> h.Failure?)
        && (h.Failure? ==> err.value == h.error && userInput == old(userInput))
        && (h.Success? ==> userInput == h.value.0 && unpaired == h.value.1)
    {
      err, unpaired := None, false;
      if Get(userInput, NHOMO) == Null {
        var gen := Gen();
        var homo := ComputeHomoIndex(atoms, gen.basis, valence, gen.charge);
        if homo.Failure? {
          err := Some(homo.error);
          return;
        }
        userInput := userInput[NHOMO := Int(homo.value.index)];
        unpaired := homo.value.unpaired;
      }
    }

    /** add_missing_keywords. */
    method AddMissingKeywords(atoms: seq<string>, valence: map<string, int>,
                              absPath: string -> string, absolute: string -> string)
      returns (err: Option<Error>, unpaired: bool)
      requires Valid() && Wrapped() && GeneralOk()
      modifies this
      ensures Valid() && Wrapped()
      ensures var h := HomoStage(old(userInput), Gen(), atoms, valence);
        && (err.Some? <==> h.Failure?)
        && (h.Failure? ==> err.value == h.error && userInput == old(userInput) && main == old(main) && guess == old(guess))
        && (h.Success? ==>
              var w := ReadWindow(h.value.0);
              && unpaired == h.value.1 && userInput == UserKeywords(h.value.0)
              && main == JobKeywords(Main, old(main), w, Gen(), absPath, absolute)
              && guess == JobKeywords(Guess, old(guess), w, Gen(), absPath, absolute))
    {
      err, unpaired := StoreHomoIndex(atoms, valence);
      if err.Some? {
        return;
      }
      AddKeywordsFromHomo(absPath, absolute);
    }

    /** add_missing_keywords once `nHOMO` is known: the MO window when
        orbitals are computed, then the restart point, the basis and the
        shared stages. */
    method AddKeywordsFromHomo(absPath: string -> string, absolute: string -> string)
      requires Valid() && Wrapped() && GeneralOk() && Get(userInput, NHOMO).Int?
      modifies this
      ensures Valid() && Wrapped()
      ensures userInput == UserKeywords(old(userInput))
      ensures main == JobKeywords(Main, old(main), ReadWindow(old(userInput)), Gen(), absPath, absolute)
      ensures guess == JobKeywords(Guess, old(guess), ReadWindow(old(userInput)), Gen(), absPath, absolute)
    {
      AddWindow();
      AddRestartPoint(absolute);
      AddBasis(absPath);
      AddSharedKeywords();
    }

    /** The `compute_orbitals` branch of add_missing_keywords. */
    method AddWindow()
      requires Valid() && Wrapped() && Get(userInput, NHOMO).Int?
      modifies this
      ensures Valid() && Wrapped()
      ensures userInput == UserKeywords(old(userInput))
      ensures main == MoStage(Main, old(main), ReadWindow(old(userInput)))
      ensures guess == MoStage(Guess, old(guess), ReadWindow(old(userInput)))
    {
      if Truthy(Get(userInput, COMPUTE_ORBITALS)) {
        AddMoIndexRange();
      }
    }

    /** The last four stages of add_missing_keywords, on both trees. */
    method AddSharedKeywords()
      requires Valid() && Wrapped() && GeneralOk()
      modifies this
      ensures Valid() && Wrapped() && userInput == old(userInput)
      ensures main == SharedStages(old(main), Gen()) && guess == SharedStages(old(guess), Gen())
    {
      AddCellParameters();
      AddPeriodic();
      AddCharge();
      AddMultiplicity();
    }

    /** print_final_input: a copy of the input with every top-level value
        converted to plain dictionaries, which the source writes to
        input_parameters.yml. */
    method PrintFinalInput() returns (xs: map<string, Value>)
      ensures xs == Printed(UserInput())
    {
      var input := UserInput();
      xs := input;
      var todo := input.Keys;
      while todo != {}
        invariant todo <= input.Keys && xs.Keys == input.Keys
        invariant forall k :: k in todo ==> xs[k] == input[k]
        invariant forall k :: k in input && k !in todo ==> xs[k] == RecursiveTraverse(input[k])
        decreases todo
      {
        var k :| k in todo;
        xs := xs[k := RecursiveTraverse(input[k])];
        todo := todo - {k};
      }
      assert forall k :: k in input ==> xs[k] == Printed(input)[k];
    }

    /** sanitize: the stages in order. On a missing valence entry the source
        raises; here the error is returned and nothing is printed. */
    method Sanitize(atoms: seq<string>, valence: map<string, int>, makeTemplate: Value -> map<string, Value>,
                    absPath: string -> string, absolute: string -> string)
      returns (r: Result<(map<string, Value>, bool), Error>, printed: Option<map<string, Value>>)
      requires Valid() && GeneralOk() && TemplatesOk(makeTemplate)
      modifies this
      ensures ValidInput(old(UserInput()))
      ensures r == SanitizedInput(old(UserInput()), atoms, valence, makeTemplate, absPath, absolute)
      ensures r.Success? ==> UserInput() == r.value.0 && printed == Some(Printed(r.value.0))
      ensures r.Failure? ==> printed == None
    {
      ghost var user, m, gs := userInput, main, guess;
      SanitizedParts(user, general, m, gs, atoms, valence, makeTemplate, absPath, absolute);
      CreateSettings();
      ApplyTemplates(makeTemplate);
      var err, unpaired := AddMissingKeywords(atoms, valence, absPath, absolute);
      if err.Some? {
        r, printed := Failure(err.value), None;
        return;
      }
      AddExecutable();
      var xs := PrintFinalInput();
      r, printed := Success((UserInput(), unpaired)), Some(xs);
    }
  }
}
