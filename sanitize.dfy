/** The whole sanitize call on a validated input, as one function of the
    input, and what it guarantees about the configuration it returns. */
module Sanitize {
  import opened Wrappers
  import opened Values
  import opened PyText
  import opened SettingsTree
  import opened InputValidation

  /** The top-level keys the HOMO and MO stages read are not the general
      settings. */
  lemma GeneralIgnoredUser(user: map<string, Value>, x: Value)
    requires UserValid(user)
    ensures var u := user[GENERAL := x];
      && UserValid(u) && Get(u, NHOMO) == Get(user, NHOMO) && (Computes(u) <==> Computes(user))
      && Get(u, ACTIVE_SPACE) == Get(user, ACTIVE_SPACE)
  {
    TopLevelKeysDistinct();
    var u := user[GENERAL := x];
    assert Get(u, COMPUTE_ORBITALS) == Get(user, COMPUTE_ORBITALS);
  }

  /** compute_homo_index neither reads nor writes the general settings entry
      of the input. */
  lemma GeneralIgnoredHomo(user: map<string, Value>, x: Value, gen: General, atoms: seq<string>, valence: map<string, int>)
    requires UserValid(user)
    ensures UserValid(user[GENERAL := x])
    ensures var h := HomoStage(user, gen, atoms, valence);
      var h' := HomoStage(user[GENERAL := x], gen, atoms, valence);
      && (h'.Failure? <==> h.Failure?)
      && (h.Failure? ==> h'.error == h.error)
      && (h.Success? ==> h'.value == (h.value.0[GENERAL := x], h.value.1))
  {
    GeneralIgnoredUser(user, x);
    TopLevelKeysDistinct();
    var h := HomoStage(user, gen, atoms, valence);
    if h.Success? && Get(user, NHOMO) == Null {
      assert HomoStage(user[GENERAL := x], gen, atoms, valence).value.0 == h.value.0[GENERAL := x];
    }
  }

  /** Nor does add_mo_index_range. */
  lemma GeneralIgnoredWindow(user: map<string, Value>, x: Value)
    requires UserValid(user) && Get(user, NHOMO).Int?
    ensures UserValid(user[GENERAL := x]) && Get(user[GENERAL := x], NHOMO).Int?
    ensures ReadWindow(user[GENERAL := x]) == ReadWindow(user)
    ensures UserKeywords(user[GENERAL := x]) == UserKeywords(user)[GENERAL := x]
  {
    GeneralIgnoredUser(user, x);
    TopLevelKeysDistinct();
  }

  /** A validated input reassembled from its parts is still valid, and the
      stages read the same general settings from it. */
  lemma Reassembled(user: map<string, Value>, g: map<string, Value>, m: Value, gs: Value)
    requires UserValid(user) && GeneralValid(g) && JobValid(m) && JobValid(gs)
    ensures ValidInput(user[GENERAL := Dict(Plain, g[MAIN_KEY := m][GUESS_KEY := gs])])
    ensures ReadGeneral(g[MAIN_KEY := m][GUESS_KEY := gs]) == ReadGeneral(g)
  {
    GeneralIgnoredUser(user, Dict(Plain, g[MAIN_KEY := m][GUESS_KEY := gs]));
  }

  /** The general settings with new job trees m and gs; every other general
      setting as it was. */
  function WithJobs(g: map<string, Value>, m: Value, gs: Value): (r: map<string, Value>)
    requires MAIN_KEY in g && GUESS_KEY in g
    ensures r.Keys == g.Keys && r[MAIN_KEY] == m && r[GUESS_KEY] == gs
    ensures forall k :: k in g && k != MAIN_KEY && k != GUESS_KEY ==> r[k] == g[k]
  {
    TopLevelKeysDistinct();
    g[MAIN_KEY := m][GUESS_KEY := gs]
  }

  /** Job tree j of the input after create_settings and apply_templates. */
  function TemplatedTree(input: map<string, Value>, makeTemplate: Value -> map<string, Value>, j: Job): Value
    requires ValidInput(input)
  {
    WithTemplate(ToSettings(input[GENERAL].entries[JobKey(j)]), makeTemplate)
  }

  /** sanitize on a validated input: the input it returns with whether the
      electron count is odd, or the missing valence entry. It fails exactly
      when `nHOMO` is left None and an atom has no valence entry. */
  function SanitizedInput(input: map<string, Value>, atoms: seq<string>, valence: map<string, int>,
                          makeTemplate: Value -> map<string, Value>,
                          absPath: string -> string, absolute: string -> string)
    : (r: Result<(map<string, Value>, bool), Error>)
    requires ValidInput(input)
    ensures r.Failure? <==> Get(input, NHOMO) == Null && !AllKnown(atoms, input[GENERAL].entries[BASIS].s, valence)
    ensures r.Failure? ==> r.error == ElectronCount(atoms, input[GENERAL].entries[BASIS].s, valence).error
    ensures r.Success? ==>
              && GENERAL in r.value.0 && r.value.0[GENERAL].Dict? && r.value.0[GENERAL].kind == Plain
              && r.value.0[GENERAL].entries.Keys == input[GENERAL].entries.Keys
  {
    TopLevelKeysDistinct();
    var g := input[GENERAL].entries;
    var gen := ReadGeneral(g);
    match HomoStage(input, gen, atoms, valence)
    case Failure(e) => Failure(e)
    case Success((u, odd)) =>
      var w := ReadWindow(u);
      var m := FinalJob(Main, TemplatedTree(input, makeTemplate, Main), w, gen, absPath, absolute);
      var gs := FinalJob(Guess, TemplatedTree(input, makeTemplate, Guess), w, gen, absPath, absolute);
      Success((UserKeywords(u)[GENERAL := Dict(Plain, WithJobs(g, m, gs))], odd))
  }

  /** sanitize on an input assembled from its top level `user`, its general
      settings g and its job trees m and gs: the HOMO stage runs on `user`,
      and the job trees are replaced in place among the general settings. */
  lemma SanitizedParts(user: map<string, Value>, g: map<string, Value>, m: Value, gs: Value,
                       atoms: seq<string>, valence: map<string, int>, makeTemplate: Value -> map<string, Value>,
                       absPath: string -> string, absolute: string -> string)
    requires UserValid(user) && GeneralValid(g) && JobValid(m) && JobValid(gs)
    ensures ValidInput(user[GENERAL := Dict(Plain, g[MAIN_KEY := m][GUESS_KEY := gs])])
    ensures var r := SanitizedInput(user[GENERAL := Dict(Plain, g[MAIN_KEY := m][GUESS_KEY := gs])],
                                    atoms, valence, makeTemplate, absPath, absolute);
      var gen := ReadGeneral(g);
      var h := HomoStage(user, gen, atoms, valence);
      && (h.Failure? ==> r == Failure(h.error))
      && (h.Success? ==>
            var w := ReadWindow(h.value.0);
            var m' := FinalJob(Main, WithTemplate(ToSettings(m), makeTemplate), w, gen, absPath, absolute);
            var gs' := FinalJob(Guess, WithTemplate(ToSettings(gs), makeTemplate), w, gen, absPath, absolute);
            r == Success((UserKeywords(h.value.0)[GENERAL := Dict(Plain, g[MAIN_KEY := m'][GUESS_KEY := gs'])], h.value.1)))
  {
    var x := Dict(Plain, g[MAIN_KEY := m][GUESS_KEY := gs]);
    Reassembled(user, g, m, gs);
    GeneralIgnoredHomo(user, x, ReadGeneral(g), atoms, valence);
    if HomoStage(user, ReadGeneral(g), atoms, valence).Success? {
      SanitizedPartsSuccess(user, g, m, gs, atoms, valence, makeTemplate, absPath, absolute);
    }
  }

  lemma SanitizedPartsSuccess(user: map<string, Value>, g: map<string, Value>, m: Value, gs: Value,
                              atoms: seq<string>, valence: map<string, int>, makeTemplate: Value -> map<string, Value>,
                              absPath: string -> string, absolute: string -> string)
    requires UserValid(user) && GeneralValid(g) && JobValid(m) && JobValid(gs)
    requires HomoStage(user, ReadGeneral(g), atoms, valence).Success?
    ensures ValidInput(user[GENERAL := Dict(Plain, g[MAIN_KEY := m][GUESS_KEY := gs])])
    ensures var r := SanitizedInput(user[GENERAL := Dict(Plain, g[MAIN_KEY := m][GUESS_KEY := gs])],
                                    atoms, valence, makeTemplate, absPath, absolute);
      var gen := ReadGeneral(g);
      var h := HomoStage(user, gen, atoms, valence);
      var w := ReadWindow(h.value.0);
      var m' := FinalJob(Main, WithTemplate(ToSettings(m), makeTemplate), w, gen, absPath, absolute);
      var gs' := FinalJob(Guess, WithTemplate(ToSettings(gs), makeTemplate), w, gen, absPath, absolute);
      r == Success((UserKeywords(h.value.0)[GENERAL := Dict(Plain, g[MAIN_KEY := m'][GUESS_KEY := gs'])], h.value.1))
  {
    var x := Dict(Plain, g[MAIN_KEY := m][GUESS_KEY := gs]);
    var gen := ReadGeneral(g);
    var u := HomoStage(user, gen, atoms, valence).value.0;
    PartsRead(user, g, m, gs, atoms, valence, makeTemplate);
    SanitizedUnfold(user[GENERAL := x], atoms, valence, makeTemplate, absPath, absolute);
    var w := ReadWindow(u);
    var m' := FinalJob(Main, WithTemplate(ToSettings(m), makeTemplate), w, gen, absPath, absolute);
    var gs' := FinalJob(Guess, WithTemplate(ToSettings(gs), makeTemplate), w, gen, absPath, absolute);
    JobsReplaced(g, m, gs, m', gs');
    UpdatedTwice(UserKeywords(u), GENERAL, x, Dict(Plain, g[MAIN_KEY := m'][GUESS_KEY := gs']));
  }

  /** What the stages read from an input assembled from its parts: the
      general settings, the HOMO stage's output and the MO window are those
      of the parts, and so are the templated job trees (PartsTemplated). */
  lemma PartsRead(user: map<string, Value>, g: map<string, Value>, m: Value, gs: Value,
                  atoms: seq<string>, valence: map<string, int>, makeTemplate: Value -> map<string, Value>)
    requires UserValid(user) && GeneralValid(g) && JobValid(m) && JobValid(gs)
    requires HomoStage(user, ReadGeneral(g), atoms, valence).Success?
    ensures var x := Dict(Plain, g[MAIN_KEY := m][GUESS_KEY := gs]);
      var input := user[GENERAL := x];
      var h := HomoStage(user, ReadGeneral(g), atoms, valence).value;
      && ValidInput(input)
      && ReadGeneral(input[GENERAL].entries) == ReadGeneral(g)
      && HomoStage(input, ReadGeneral(g), atoms, valence) == Success((h.0[GENERAL := x], h.1))
      && UserValid(h.0) && Get(h.0, NHOMO).Int?
      && UserValid(h.0[GENERAL := x]) && Get(h.0[GENERAL := x], NHOMO).Int?
      && ReadWindow(h.0[GENERAL := x]) == ReadWindow(h.0)
      && UserKeywords(h.0[GENERAL := x]) == UserKeywords(h.0)[GENERAL := x]
      && TemplatedTree(input, makeTemplate, Main) == WithTemplate(ToSettings(m), makeTemplate)
      && TemplatedTree(input, makeTemplate, Guess) == WithTemplate(ToSettings(gs), makeTemplate)
  {
    var x := Dict(Plain, g[MAIN_KEY := m][GUESS_KEY := gs]);
    Reassembled(user, g, m, gs);
    GeneralIgnoredHomo(user, x, ReadGeneral(g), atoms, valence);
    GeneralIgnoredWindow(HomoStage(user, ReadGeneral(g), atoms, valence).value.0, x);
    PartsTemplated(user, g, m, gs, makeTemplate);
  }

  /** The job trees of an assembled input are the parts m and gs. */
  lemma PartsTemplated(user: map<string, Value>, g: map<string, Value>, m: Value, gs: Value,
                       makeTemplate: Value -> map<string, Value>)
    requires UserValid(user) && GeneralValid(g) && JobValid(m) && JobValid(gs)
    ensures var input := user[GENERAL := Dict(Plain, g[MAIN_KEY := m][GUESS_KEY := gs])];
      && ValidInput(input)
      && TemplatedTree(input, makeTemplate, Main) == WithTemplate(ToSettings(m), makeTemplate)
      && TemplatedTree(input, makeTemplate, Guess) == WithTemplate(ToSettings(gs), makeTemplate)
  {
    TopLevelKeysDistinct();
    var input := user[GENERAL := Dict(Plain, g[MAIN_KEY := m][GUESS_KEY := gs])];
    Reassembled(user, g, m, gs);
    assert input[GENERAL].entries[JobKey(Main)] == m && input[GENERAL].entries[JobKey(Guess)] == gs;
  }

  /** sanitize on a validated input whose HOMO stage succeeds. */
  lemma SanitizedUnfold(input: map<string, Value>, atoms: seq<string>, valence: map<string, int>,
                        makeTemplate: Value -> map<string, Value>,
                        absPath: string -> string, absolute: string -> string)
    requires ValidInput(input)
    requires HomoStage(input, ReadGeneral(input[GENERAL].entries), atoms, valence).Success?
    ensures var g := input[GENERAL].entries;
      var gen := ReadGeneral(g);
      var h := HomoStage(input, gen, atoms, valence).value;
      var w := ReadWindow(h.0);
      SanitizedInput(input, atoms, valence, makeTemplate, absPath, absolute)
        == Success((UserKeywords(h.0)[GENERAL := Dict(Plain, WithJobs(g, FinalJob(Main, TemplatedTree(input, makeTemplate, Main), w, gen, absPath, absolute),
                                                                       FinalJob(Guess, TemplatedTree(input, makeTemplate, Guess), w, gen, absPath, absolute)))], h.1))
  {
  }

  lemma JobsReplaced(g: map<string, Value>, m: Value, gs: Value, m': Value, gs': Value)
    ensures g[MAIN_KEY := m][GUESS_KEY := gs][MAIN_KEY := m'][GUESS_KEY := gs'] == g[MAIN_KEY := m'][GUESS_KEY := gs']
  {
  }

  lemma UpdatedTwice(u: map<string, Value>, k: string, x: Value, d: Value)
    ensures u[k := x][k := d] == u[k := d]
  {
  }

  /** What the top level of the result is made of: the HOMO stage's output
      u, the MO window stored in it, and general settings d. */
  lemma TopLevelResult(input: map<string, Value>, u: map<string, Value>, d: Value)
    requires GENERAL in input && UserValid(input) && UserValid(u) && Get(u, NHOMO).Int?
    requires u.Keys == input.Keys + {NHOMO}
    requires forall k :: k in input && k != NHOMO ==> u[k] == input[k]
    ensures var out := UserKeywords(u)[GENERAL := d];
      && out.Keys == input.Keys + {NHOMO} + (if Computes(input) then {MO_INDEX_RANGE} else {})
      && (forall k :: k in input && k != NHOMO && k != GENERAL && (k == MO_INDEX_RANGE ==> !Computes(input)) ==>
            out[k] == input[k])
      && out[NHOMO] == u[NHOMO]
      && (Computes(input) ==>
            var a := Get(input, ACTIVE_SPACE).items;
            out[MO_INDEX_RANGE] == StoredRange(u[NHOMO].i, a))
  {
    TopLevelKeysDistinct();
    assert Get(u, COMPUTE_ORBITALS) == Get(input, COMPUTE_ORBITALS);
    assert Get(u, ACTIVE_SPACE) == Get(input, ACTIVE_SPACE);
  }

  /** The top-level keys of the result: `nHOMO` is always there and
      `mo_index_range` is added when orbitals are computed; every other key
      but the general settings keeps its value. */
  lemma SanitizedKeys(input: map<string, Value>, atoms: seq<string>, valence: map<string, int>,
                      makeTemplate: Value -> map<string, Value>,
                      absPath: string -> string, absolute: string -> string)
    requires ValidInput(input)
    requires SanitizedInput(input, atoms, valence, makeTemplate, absPath, absolute).Success?
    ensures var out := SanitizedInput(input, atoms, valence, makeTemplate, absPath, absolute).value.0;
      && out.Keys == input.Keys + {NHOMO} + (if Computes(input) then {MO_INDEX_RANGE} else {})
      && forall k :: k in input && k != NHOMO && k != GENERAL && (k == MO_INDEX_RANGE ==> !Computes(input)) ==>
           out[k] == input[k]
  {
    var g := input[GENERAL].entries;
    var h := HomoStage(input, ReadGeneral(g), atoms, valence).value;
    var gen := ReadGeneral(g);
    var w := ReadWindow(h.0);
    var d := Dict(Plain, WithJobs(g, FinalJob(Main, TemplatedTree(input, makeTemplate, Main), w, gen, absPath, absolute),
                                     FinalJob(Guess, TemplatedTree(input, makeTemplate, Guess), w, gen, absPath, absolute)));
    assert SanitizedInput(input, atoms, valence, makeTemplate, absPath, absolute) == Success((UserKeywords(h.0)[GENERAL := d], h.1));
    TopLevelResult(input, h.0, d);
  }

  /** In the general settings of the result only the two job trees change. */
  lemma SanitizedGeneral(input: map<string, Value>, atoms: seq<string>, valence: map<string, int>,
                         makeTemplate: Value -> map<string, Value>,
                         absPath: string -> string, absolute: string -> string)
    requires ValidInput(input)
    requires SanitizedInput(input, atoms, valence, makeTemplate, absPath, absolute).Success?
    ensures var out := SanitizedInput(input, atoms, valence, makeTemplate, absPath, absolute).value.0;
      var g := input[GENERAL].entries;
      forall k :: k in g && k != MAIN_KEY && k != GUESS_KEY ==> out[GENERAL].entries[k] == g[k]
  {
  }

  /** `nHOMO` of the result is the user's, or else the computed HOMO index,
      and only a computed index can be odd. */
  lemma SanitizedHomo(input: map<string, Value>, atoms: seq<string>, valence: map<string, int>,
                      makeTemplate: Value -> map<string, Value>,
                      absPath: string -> string, absolute: string -> string)
    requires ValidInput(input)
    requires SanitizedInput(input, atoms, valence, makeTemplate, absPath, absolute).Success?
    ensures var r := SanitizedInput(input, atoms, valence, makeTemplate, absPath, absolute).value;
      var g := input[GENERAL].entries;
      && NHOMO in r.0 && r.0[NHOMO].Int?
      && (Get(input, NHOMO) != Null ==> r.0[NHOMO] == input[NHOMO] && !r.1)
      && (Get(input, NHOMO) == Null ==>
            var h := ComputeHomoIndex(atoms, g[BASIS].s, valence, g[CHARGE].i).value;
            r.0[NHOMO] == Int(h.index) && r.1 == h.unpaired)
  {
    var g := input[GENERAL].entries;
    var h := HomoStage(input, ReadGeneral(g), atoms, valence).value;
    var gen := ReadGeneral(g);
    var w := ReadWindow(h.0);
    var d := Dict(Plain, WithJobs(g, FinalJob(Main, TemplatedTree(input, makeTemplate, Main), w, gen, absPath, absolute),
                                     FinalJob(Guess, TemplatedTree(input, makeTemplate, Guess), w, gen, absPath, absolute)));
    assert SanitizedInput(input, atoms, valence, makeTemplate, absPath, absolute) == Success((UserKeywords(h.0)[GENERAL := d], h.1));
    TopLevelResult(input, h.0, d);
  }

  /** With orbitals computed, `mo_index_range` holds `active_space[0]`
      orbitals up to the HOMO and `active_space[1]` above it. */
  lemma SanitizedMoRange(input: map<string, Value>, atoms: seq<string>, valence: map<string, int>,
                         makeTemplate: Value -> map<string, Value>,
                         absPath: string -> string, absolute: string -> string)
    requires ValidInput(input) && Computes(input)
    requires SanitizedInput(input, atoms, valence, makeTemplate, absPath, absolute).Success?
    ensures var out := SanitizedInput(input, atoms, valence, makeTemplate, absPath, absolute).value.0;
      var a := Get(input, ACTIVE_SPACE).items;
      && NHOMO in out && out[NHOMO].Int? && MO_INDEX_RANGE in out
      && out[MO_INDEX_RANGE] == StoredRange(out[NHOMO].i, a)
  {
    var g := input[GENERAL].entries;
    var h := HomoStage(input, ReadGeneral(g), atoms, valence).value;
    var gen := ReadGeneral(g);
    var w := ReadWindow(h.0);
    var d := Dict(Plain, WithJobs(g, FinalJob(Main, TemplatedTree(input, makeTemplate, Main), w, gen, absPath, absolute),
                                     FinalJob(Guess, TemplatedTree(input, makeTemplate, Guess), w, gen, absPath, absolute)));
    assert SanitizedInput(input, atoms, valence, makeTemplate, absPath, absolute) == Success((UserKeywords(h.0)[GENERAL := d], h.1));
    TopLevelResult(input, h.0, d);
  }

  /** Job tree j of a sanitized input. */
  function JobTree(out: map<string, Value>, j: Job): Value
    requires GENERAL in out && out[GENERAL].Dict? && MAIN_KEY in out[GENERAL].entries && GUESS_KEY in out[GENERAL].entries
  {
    out[GENERAL].entries[JobKey(j)]
  }

  /** On success, job tree j is the templated tree run through the keyword
      stages and add_executable. */
  lemma SanitizedJob(input: map<string, Value>, atoms: seq<string>, valence: map<string, int>,
                     makeTemplate: Value -> map<string, Value>,
                     absPath: string -> string, absolute: string -> string, j: Job)
    requires ValidInput(input)
    requires SanitizedInput(input, atoms, valence, makeTemplate, absPath, absolute).Success?
    ensures var r := SanitizedInput(input, atoms, valence, makeTemplate, absPath, absolute);
      var u := HomoStage(input, ReadGeneral(input[GENERAL].entries), atoms, valence).value.0;
      JobTree(r.value.0, j) ==
        FinalJob(j, TemplatedTree(input, makeTemplate, j), ReadWindow(u), ReadGeneral(input[GENERAL].entries), absPath, absolute)
  {
    TopLevelKeysDistinct();
    var g := input[GENERAL].entries;
    var h := HomoStage(input, ReadGeneral(g), atoms, valence).value;
    var gen := ReadGeneral(g);
    var w := ReadWindow(h.0);
    var d := Dict(Plain, WithJobs(g, FinalJob(Main, TemplatedTree(input, makeTemplate, Main), w, gen, absPath, absolute),
                                     FinalJob(Guess, TemplatedTree(input, makeTemplate, Guess), w, gen, absPath, absolute)));
    assert SanitizedInput(input, atoms, valence, makeTemplate, absPath, absolute) == Success((UserKeywords(h.0)[GENERAL := d], h.1));
  }

  /** Both job trees of the result carry the cell, the periodicity, the
      charge, the multiplicity and the executable of the general settings. */
  lemma SanitizedShared(input: map<string, Value>, atoms: seq<string>, valence: map<string, int>,
                        makeTemplate: Value -> map<string, Value>,
                        absPath: string -> string, absolute: string -> string, j: Job)
    requires ValidInput(input)
    requires SanitizedInput(input, atoms, valence, makeTemplate, absPath, absolute).Success?
    ensures var t := JobTree(SanitizedInput(input, atoms, valence, makeTemplate, absPath, absolute).value.0, j);
      var gen := ReadGeneral(input[GENERAL].entries);
      && Lookup(t, CELL_ANGLES_PATH) == Some(Null)
      && Lookup(t, CELL_PARAMETERS_PATH) == Some(if gen.fileCellParameters == Null then gen.cellParameters else Null)
      && Lookup(t, PERIODIC_PATH) == Some(gen.periodic)
      && Lookup(t, CHARGE_PATH) == Some(Int(gen.charge))
      && (gen.multiplicity > 1 ==> Lookup(t, MULTIPLICITY_PATH) == Some(Int(gen.multiplicity)) && Lookup(t, UKS_PATH) == Some(Str("")))
      && Lookup(t, EXECUTABLE_PATH) == Some(gen.executable)
  {
    var gen := ReadGeneral(input[GENERAL].entries);
    var u := HomoStage(input, gen, atoms, valence).value.0;
    SanitizedJob(input, atoms, valence, makeTemplate, absPath, absolute, j);
    PipelineShared(j, TemplatedTree(input, makeTemplate, j), ReadWindow(u), gen, absPath, absolute);
  }

  /** The tuple stored in `mo_index_range` holds the window's bounds. */
  lemma StoredWindow(u: map<string, Value>)
    requires UserValid(u) && Get(u, NHOMO).Int? && Computes(u)
    ensures var w := ReadWindow(u).value;
      UserKeywords(u)[MO_INDEX_RANGE] == Tuple([Int(w.lo), Int(w.hi)]) && Get(u, NHOMO) == Int(w.nHomo)
  {
  }

  /** Keywords that print a window print the tuple stored for it. */
  lemma ReadBack(u: map<string, Value>, w: Window, r: Value)
    requires UserValid(u) && Get(u, NHOMO).Int? && Computes(u) && ReadWindow(u) == Some(w)
    requires Lookup(r, MO_INDEX_RANGE_PATH) == Some(Str(MoIndexRangeText(w.lo, w.hi)))
    requires Lookup(r, ADDED_MOS_PATH) == Some(Int(AddedMos(w.hi, w.nHomo)))
    ensures var range := UserKeywords(u)[MO_INDEX_RANGE].items;
      && Lookup(r, MO_INDEX_RANGE_PATH) == Some(Str(MoIndexRangeText(range[0].i, range[1].i)))
      && Lookup(r, ADDED_MOS_PATH) == Some(Int(AddedMos(range[1].i, Get(u, NHOMO).i)))
  {
    StoredWindow(u);
  }

  /** The MO keywords of the main tree print the window stored in the input. */
  lemma PipelineMoRead(u: map<string, Value>, t: Value, gen: General, absPath: string -> string, absolute: string -> string)
    requires UserValid(u) && Get(u, NHOMO).Int? && Computes(u)
    ensures var r := FinalJob(Main, t, ReadWindow(u), gen, absPath, absolute);
      var range := UserKeywords(u)[MO_INDEX_RANGE].items;
      && Lookup(r, MO_INDEX_RANGE_PATH) == Some(Str(MoIndexRangeText(range[0].i, range[1].i)))
      && Lookup(r, ADDED_MOS_PATH) == Some(Int(AddedMos(range[1].i, Get(u, NHOMO).i)))
  {
    var w := ReadWindow(u).value;
    assert ReadWindow(u) == Some(w);
    PipelineMo(t, w, gen, absPath, absolute);
    ReadBack(u, w, FinalJob(Main, t, ReadWindow(u), gen, absPath, absolute));
  }

  /** With orbitals computed, the result stores the window of the input
      the HOMO stage returns. */
  lemma SanitizedWindow(input: map<string, Value>, atoms: seq<string>, valence: map<string, int>,
                        makeTemplate: Value -> map<string, Value>,
                        absPath: string -> string, absolute: string -> string)
    requires ValidInput(input) && Computes(input)
    requires SanitizedInput(input, atoms, valence, makeTemplate, absPath, absolute).Success?
    ensures var out := SanitizedInput(input, atoms, valence, makeTemplate, absPath, absolute).value.0;
      var u := HomoStage(input, ReadGeneral(input[GENERAL].entries), atoms, valence).value.0;
      && UserValid(u) && Get(u, NHOMO).Int? && Computes(u)
      && NHOMO in out && MO_INDEX_RANGE in out
      && out[NHOMO] == Get(u, NHOMO) && out[MO_INDEX_RANGE] == UserKeywords(u)[MO_INDEX_RANGE]
  {
    var g := input[GENERAL].entries;
    var h := HomoStage(input, ReadGeneral(g), atoms, valence).value;
    var gen := ReadGeneral(g);
    var w := ReadWindow(h.0);
    var d := Dict(Plain, WithJobs(g, FinalJob(Main, TemplatedTree(input, makeTemplate, Main), w, gen, absPath, absolute),
                                     FinalJob(Guess, TemplatedTree(input, makeTemplate, Guess), w, gen, absPath, absolute)));
    assert SanitizedInput(input, atoms, valence, makeTemplate, absPath, absolute) == Success((UserKeywords(h.0)[GENERAL := d], h.1));
    TopLevelResult(input, h.0, d);
  }

  /** The keywords printed from the window, read through the result. */
  lemma OutReadBack(out: map<string, Value>, u: map<string, Value>, r: Value)
    requires UserValid(u) && Get(u, NHOMO).Int? && Computes(u)
    requires NHOMO in out && MO_INDEX_RANGE in out
    requires out[NHOMO] == Get(u, NHOMO) && out[MO_INDEX_RANGE] == UserKeywords(u)[MO_INDEX_RANGE]
    requires var range := UserKeywords(u)[MO_INDEX_RANGE].items;
      && Lookup(r, MO_INDEX_RANGE_PATH) == Some(Str(MoIndexRangeText(range[0].i, range[1].i)))
      && Lookup(r, ADDED_MOS_PATH) == Some(Int(AddedMos(range[1].i, Get(u, NHOMO).i)))
    ensures && out[NHOMO].Int? && out[MO_INDEX_RANGE].Tuple? && |out[MO_INDEX_RANGE].items| == 2
      && out[MO_INDEX_RANGE].items[0].Int? && out[MO_INDEX_RANGE].items[1].Int?
      && var lo := out[MO_INDEX_RANGE].items[0].i;
         var hi := out[MO_INDEX_RANGE].items[1].i;
         && Lookup(r, MO_INDEX_RANGE_PATH) == Some(Str(MoIndexRangeText(lo, hi)))
         && Lookup(r, ADDED_MOS_PATH) == Some(Int(AddedMos(hi, out[NHOMO].i)))
  {
    StoredWindow(u);
  }

  /** With orbitals computed, the main tree prints the window stored in
      `mo_index_range` (MoIndexRangeTextRoundTrip reads the text back as the
      1-based lower bound and the upper bound) and adds the orbitals above
      the HOMO up to the upper bound. */
  lemma SanitizedMoKeywords(input: map<string, Value>, atoms: seq<string>, valence: map<string, int>,
                            makeTemplate: Value -> map<string, Value>,
                            absPath: string -> string, absolute: string -> string)
    requires ValidInput(input) && Computes(input)
    requires SanitizedInput(input, atoms, valence, makeTemplate, absPath, absolute).Success?
    ensures var out := SanitizedInput(input, atoms, valence, makeTemplate, absPath, absolute).value.0;
      && NHOMO in out && out[NHOMO].Int? && MO_INDEX_RANGE in out
      && out[MO_INDEX_RANGE].Tuple? && |out[MO_INDEX_RANGE].items| == 2
      && out[MO_INDEX_RANGE].items[0].Int? && out[MO_INDEX_RANGE].items[1].Int?
      && var lo := out[MO_INDEX_RANGE].items[0].i;
         var hi := out[MO_INDEX_RANGE].items[1].i;
         var t := JobTree(out, Main);
         && Lookup(t, MO_INDEX_RANGE_PATH) == Some(Str(MoIndexRangeText(lo, hi)))
         && Lookup(t, ADDED_MOS_PATH) == Some(Int(AddedMos(hi, out[NHOMO].i)))
  {
    var gen := ReadGeneral(input[GENERAL].entries);
    var u := HomoStage(input, gen, atoms, valence).value.0;
    var out := SanitizedInput(input, atoms, valence, makeTemplate, absPath, absolute).value.0;
    SanitizedWindow(input, atoms, valence, makeTemplate, absPath, absolute);
    SanitizedJob(input, atoms, valence, makeTemplate, absPath, absolute, Main);
    PipelineMoRead(u, TemplatedTree(input, makeTemplate, Main), gen, absPath, absolute);
    OutReadBack(out, u, JobTree(out, Main));
  }

  /** The stored window's upper bound lies `active_space[1]` above the HOMO. */
  lemma AboveHomo(range: Value, nHomo: int, a: seq<Value>)
    requires |a| >= 2 && a[0].Int? && a[1].Int? && range == StoredRange(nHomo, a)
    ensures range.Tuple? && |range.items| == 2 && range.items[1].Int?
    ensures AddedMos(range.items[1].i, nHomo) == a[1].i
  {
  }

  /** With orbitals computed, `added_mos` on the main tree is
      `active_space[1]`. */
  lemma SanitizedAddedMos(input: map<string, Value>, atoms: seq<string>, valence: map<string, int>,
                          makeTemplate: Value -> map<string, Value>,
                          absPath: string -> string, absolute: string -> string)
    requires ValidInput(input) && Computes(input)
    requires SanitizedInput(input, atoms, valence, makeTemplate, absPath, absolute).Success?
    ensures var out := SanitizedInput(input, atoms, valence, makeTemplate, absPath, absolute).value.0;
      Lookup(JobTree(out, Main), ADDED_MOS_PATH) == Some(Int(Get(input, ACTIVE_SPACE).items[1].i))
  {
    var out := SanitizedInput(input, atoms, valence, makeTemplate, absPath, absolute).value.0;
    SanitizedMoKeywords(input, atoms, valence, makeTemplate, absPath, absolute);
    SanitizedMoRange(input, atoms, valence, makeTemplate, absPath, absolute);
    AboveHomo(out[MO_INDEX_RANGE], out[NHOMO].i, Get(input, ACTIVE_SPACE).items);
  }

  /** The general settings of a loaded input hold no `Settings`. */
  lemma LoadedGeneral(input: map<string, Value>)
    requires ValidInput(input) && Loaded(input)
    ensures forall k :: k in input[GENERAL].entries ==> NoSettings(input[GENERAL].entries[k])
  {
    assert NoSettings(input[GENERAL]);
  }

  /** The keyword stages keep a loaded, templated job tree clean. */
  lemma PipelineClean(g: map<string, Value>, makeTemplate: Value -> map<string, Value>, w: Option<Window>,
                      absPath: string -> string, absolute: string -> string, j: Job)
    requires GeneralValid(g) && TemplatesClean(makeTemplate)
    requires forall k :: k in g ==> NoSettings(g[k])
    ensures CleanTree(FinalJob(j, WithTemplate(ToSettings(g[JobKey(j)]), makeTemplate), w, ReadGeneral(g), absPath, absolute))
  {
    GeneralCleanRead(g);
    ToSettingsClean(g[JobKey(j)]);
    WithTemplateClean(ToSettings(g[JobKey(j)]), makeTemplate);
    FinalJobClean(j, WithTemplate(ToSettings(g[JobKey(j)]), makeTemplate), w, ReadGeneral(g), absPath, absolute);
  }

  /** Both job trees of a sanitized loaded input are clean. */
  lemma SanitizedJobsClean(input: map<string, Value>, atoms: seq<string>, valence: map<string, int>,
                           makeTemplate: Value -> map<string, Value>,
                           absPath: string -> string, absolute: string -> string, j: Job)
    requires ValidInput(input) && Loaded(input) && TemplatesClean(makeTemplate)
    requires SanitizedInput(input, atoms, valence, makeTemplate, absPath, absolute).Success?
    ensures CleanTree(JobTree(SanitizedInput(input, atoms, valence, makeTemplate, absPath, absolute).value.0, j))
  {
    var u := HomoStage(input, ReadGeneral(input[GENERAL].entries), atoms, valence).value.0;
    SanitizedJob(input, atoms, valence, makeTemplate, absPath, absolute, j);
    LoadedGeneral(input);
    PipelineClean(input[GENERAL].entries, makeTemplate, ReadWindow(u), absPath, absolute, j);
  }

  /** General settings that keep every loaded value but the two job trees,
      which are clean, convert fully. */
  lemma GeneralConvertible(g: map<string, Value>, m: Value, gs: Value)
    requires MAIN_KEY in g && GUESS_KEY in g
    requires forall k :: k in g ==> NoSettings(g[k])
    requires CleanTree(m) && CleanTree(gs)
    ensures Convertible(Dict(Plain, WithJobs(g, m, gs)))
  {
    var d := WithJobs(g, m, gs);
    forall k | k in d ensures Convertible(d[k]) {
      if k == MAIN_KEY {
        CleanConvertible(m);
      } else if k == GUESS_KEY {
        CleanConvertible(gs);
      } else {
        NoSettingsConvertible(g[k]);
      }
    }
  }

  /** The general settings of the result: the input's, with the two job
      trees run through the keyword stages. */
  lemma SanitizedGeneralParts(input: map<string, Value>, atoms: seq<string>, valence: map<string, int>,
                              makeTemplate: Value -> map<string, Value>,
                              absPath: string -> string, absolute: string -> string)
    requires ValidInput(input)
    requires SanitizedInput(input, atoms, valence, makeTemplate, absPath, absolute).Success?
    ensures var g := input[GENERAL].entries;
      var gen := ReadGeneral(g);
      var w := ReadWindow(HomoStage(input, gen, atoms, valence).value.0);
      SanitizedInput(input, atoms, valence, makeTemplate, absPath, absolute).value.0[GENERAL] ==
        Dict(Plain, WithJobs(g, FinalJob(Main, TemplatedTree(input, makeTemplate, Main), w, gen, absPath, absolute),
                                FinalJob(Guess, TemplatedTree(input, makeTemplate, Guess), w, gen, absPath, absolute)))
  {
  }

  /** The general settings of a loaded input, with both job trees run
      through the keyword stages, convert fully. */
  lemma StagedGeneralConvertible(input: map<string, Value>, makeTemplate: Value -> map<string, Value>, w: Option<Window>,
                                 absPath: string -> string, absolute: string -> string)
    requires ValidInput(input) && Loaded(input) && TemplatesClean(makeTemplate)
    ensures var g := input[GENERAL].entries;
      var gen := ReadGeneral(g);
      Convertible(Dict(Plain, WithJobs(g, FinalJob(Main, TemplatedTree(input, makeTemplate, Main), w, gen, absPath, absolute),
                                          FinalJob(Guess, TemplatedTree(input, makeTemplate, Guess), w, gen, absPath, absolute))))
  {
    var g := input[GENERAL].entries;
    LoadedGeneral(input);
    PipelineClean(g, makeTemplate, w, absPath, absolute, Main);
    PipelineClean(g, makeTemplate, w, absPath, absolute, Guess);
    var gen := ReadGeneral(g);
    GeneralConvertible(g, FinalJob(Main, TemplatedTree(input, makeTemplate, Main), w, gen, absPath, absolute),
                          FinalJob(Guess, TemplatedTree(input, makeTemplate, Guess), w, gen, absPath, absolute));
  }

  /** The general settings of a sanitized loaded input convert fully. */
  lemma SanitizedGeneralConvertible(input: map<string, Value>, atoms: seq<string>, valence: map<string, int>,
                                    makeTemplate: Value -> map<string, Value>,
                                    absPath: string -> string, absolute: string -> string)
    requires ValidInput(input) && Loaded(input) && TemplatesClean(makeTemplate)
    requires SanitizedInput(input, atoms, valence, makeTemplate, absPath, absolute).Success?
    ensures Convertible(SanitizedInput(input, atoms, valence, makeTemplate, absPath, absolute).value.0[GENERAL])
  {
    var u := HomoStage(input, ReadGeneral(input[GENERAL].entries), atoms, valence).value.0;
    SanitizedGeneralParts(input, atoms, valence, makeTemplate, absPath, absolute);
    StagedGeneralConvertible(input, makeTemplate, ReadWindow(u), absPath, absolute);
  }

  /** A top level that keeps every loaded value but the general settings,
      which convert, `nHOMO` and `mo_index_range`, converts fully. */
  lemma TopConvertible(input: map<string, Value>, out: map<string, Value>, computes: bool, a: seq<Value>)
    requires forall k :: k in input ==> NoSettings(input[k])
    requires out.Keys == input.Keys + {NHOMO} + (if computes then {MO_INDEX_RANGE} else {})
    requires forall k :: k in input && k != NHOMO && k != GENERAL && (k == MO_INDEX_RANGE ==> !computes) ==>
               out[k] == input[k]
    requires GENERAL in out && Convertible(out[GENERAL])
    requires NHOMO in out && out[NHOMO].Int?
    requires computes ==> |a| >= 2 && a[0].Int? && a[1].Int? && MO_INDEX_RANGE in out &&
                          out[MO_INDEX_RANGE] == StoredRange(out[NHOMO].i, a)
    ensures forall k :: k in out ==> Convertible(out[k])
  {
    forall k | k in out ensures Convertible(out[k]) {
      if k == MO_INDEX_RANGE && computes {
        assert NoSettings(out[k]);
      } else if k != GENERAL && k != NHOMO {
        NoSettingsConvertible(input[k]);
      }
    }
  }

  /** With a loaded input and templates that hold no `Settings` but their own
      sections, every value of the sanitized input converts to plain data. */
  lemma SanitizedConvertible(input: map<string, Value>, atoms: seq<string>, valence: map<string, int>,
                             makeTemplate: Value -> map<string, Value>,
                             absPath: string -> string, absolute: string -> string)
    requires ValidInput(input) && Loaded(input) && TemplatesClean(makeTemplate)
    requires SanitizedInput(input, atoms, valence, makeTemplate, absPath, absolute).Success?
    ensures var out := SanitizedInput(input, atoms, valence, makeTemplate, absPath, absolute).value.0;
      forall k :: k in out ==> Convertible(out[k])
  {
    var g := input[GENERAL].entries;
    var gen := ReadGeneral(g);
    var h := HomoStage(input, gen, atoms, valence).value;
    var w := ReadWindow(h.0);
    var d := Dict(Plain, WithJobs(g, FinalJob(Main, TemplatedTree(input, makeTemplate, Main), w, gen, absPath, absolute),
                                     FinalJob(Guess, TemplatedTree(input, makeTemplate, Guess), w, gen, absPath, absolute)));
    var out := UserKeywords(h.0)[GENERAL := d];
    assert SanitizedInput(input, atoms, valence, makeTemplate, absPath, absolute) == Success((out, h.1));
    TopLevelResult(input, h.0, d);
    SanitizedGeneralConvertible(input, atoms, valence, makeTemplate, absPath, absolute);
    var a := if Computes(input) then Get(input, ACTIVE_SPACE).items else [];
    TopConvertible(input, out, Computes(input), a);
  }
}
