/** The input sanitizer of nanoqm's workflows: after schema validation it
    derives the HOMO index and the MO window, and copies the shared physical
    settings into the two CP2K job trees, "main" and "guess". */
module InputValidation {
  import opened Wrappers
  import opened Values
  import opened PyText
  import opened SettingsTree

  // Keys of the validated input.
  const GENERAL := "cp2k_general_settings"
  const NHOMO := "nHOMO"
  const COMPUTE_ORBITALS := "compute_orbitals"
  const ACTIVE_SPACE := "active_space"
  const MO_INDEX_RANGE := "mo_index_range"

  // Keys of the general settings.
  const MAIN_KEY := "cp2k_settings_main"
  const GUESS_KEY := "cp2k_settings_guess"
  const BASIS := "basis"
  const POTENTIAL := "potential"
  const CHARGE := "charge"
  const MULTIPLICITY := "multiplicity"
  const PERIODIC := "periodic"
  const EXECUTABLE := "executable"
  const CELL_PARAMETERS := "cell_parameters"
  const CELL_ANGLES := "cell_angles"
  const FILE_CELL_PARAMETERS := "file_cell_parameters"
  const PATH_BASIS := "path_basis"
  const WFN_RESTART := "wfn_restart_file_name"

  // Paths in a job tree.
  const SPECIFIC := "specific"
  const TEMPLATE := "template"
  const DFT: seq<string> := [SPECIFIC, "cp2k", "force_eval", "dft"]
  const MO: seq<string> := DFT + ["print", "mo"]
  const PERIODIC_PATH: seq<string> := [SPECIFIC, "cp2k", "force_eval", "subsys", "cell", "periodic"]
  const CHARGE_PATH: seq<string> := DFT + ["charge"]
  const MULTIPLICITY_PATH: seq<string> := DFT + ["multiplicity"]
  const UKS_PATH: seq<string> := DFT + ["uks"]
  const WFN_PATH: seq<string> := DFT + ["wfn_restart_file_name"]
  const POTENTIAL_FILE_PATH: seq<string> := DFT + ["potential_file_name"]
  const BASIS_FILE_PATH: seq<string> := DFT + ["basis_set_file_name"]
  const XC_PATH: seq<string> := DFT + ["xc"]
  const XC_PBE_PATH: seq<string> := XC_PATH + ["xc_functional pbe"]
  const MO_INDEX_RANGE_PATH: seq<string> := MO + ["mo_index_range"]
  const ADD_LAST_PATH: seq<string> := MO + ["add_last"]
  const QS_SCF_PATH: seq<string> := MO + ["each", "qs_scf"]
  const EIGENVALUES_PATH: seq<string> := MO + ["eigenvalues"]
  const EIGENVECTORS_PATH: seq<string> := MO + ["eigenvectors"]
  const NDIGITS_PATH: seq<string> := MO + ["ndigits"]
  const ADDED_MOS_PATH: seq<string> := DFT + ["scf", "added_mos"]
  const BASIS_NAME_PATH: seq<string> := [BASIS]
  const POTENTIAL_NAME_PATH: seq<string> := [POTENTIAL]
  const EXECUTABLE_PATH: seq<string> := [EXECUTABLE]
  const CELL_PARAMETERS_PATH: seq<string> := [CELL_PARAMETERS]
  const CELL_ANGLES_PATH: seq<string> := [CELL_ANGLES]

  /** The CP2K keywords the sanitizer assigns in a job tree. */
  datatype Keyword =
    | MoIndexRangeKey | AddedMosKey | AddLastKey | QsScfKey | EigenvaluesKey | EigenvectorsKey | NdigitsKey
    | WfnRestartKey | BasisNameKey | PotentialNameKey | PotentialFileKey | BasisFilesKey
    | CellParametersKey | CellAnglesKey | PeriodicKey | ChargeKey | MultiplicityKey | UksKey | ExecutableKey

  function PathOf(k: Keyword): seq<string> {
    match k
    case MoIndexRangeKey => MO_INDEX_RANGE_PATH
    case AddedMosKey => ADDED_MOS_PATH
    case AddLastKey => ADD_LAST_PATH
    case QsScfKey => QS_SCF_PATH
    case EigenvaluesKey => EIGENVALUES_PATH
    case EigenvectorsKey => EIGENVECTORS_PATH
    case NdigitsKey => NDIGITS_PATH
    case WfnRestartKey => WFN_PATH
    case BasisNameKey => BASIS_NAME_PATH
    case PotentialNameKey => POTENTIAL_NAME_PATH
    case PotentialFileKey => POTENTIAL_FILE_PATH
    case BasisFilesKey => BASIS_FILE_PATH
    case CellParametersKey => CELL_PARAMETERS_PATH
    case CellAnglesKey => CELL_ANGLES_PATH
    case PeriodicKey => PERIODIC_PATH
    case ChargeKey => CHARGE_PATH
    case MultiplicityKey => MULTIPLICITY_PATH
    case UksKey => UKS_PATH
    case ExecutableKey => EXECUTABLE_PATH
  }

  /** Unfolds PathOf for the class's proofs; the paths themselves are
      specified by KeywordIsLeaf and KeywordDescendable. */
  lemma KeywordPaths()
    ensures PathOf(MoIndexRangeKey) == MO_INDEX_RANGE_PATH
    ensures PathOf(AddedMosKey) == ADDED_MOS_PATH
    ensures PathOf(AddLastKey) == ADD_LAST_PATH
    ensures PathOf(QsScfKey) == QS_SCF_PATH
    ensures PathOf(EigenvaluesKey) == EIGENVALUES_PATH
    ensures PathOf(EigenvectorsKey) == EIGENVECTORS_PATH
    ensures PathOf(NdigitsKey) == NDIGITS_PATH
    ensures PathOf(WfnRestartKey) == WFN_PATH
    ensures PathOf(BasisNameKey) == BASIS_NAME_PATH
    ensures PathOf(PotentialNameKey) == POTENTIAL_NAME_PATH
    ensures PathOf(PotentialFileKey) == POTENTIAL_FILE_PATH
    ensures PathOf(BasisFilesKey) == BASIS_FILE_PATH
    ensures PathOf(CellParametersKey) == CELL_PARAMETERS_PATH
    ensures PathOf(CellAnglesKey) == CELL_ANGLES_PATH
    ensures PathOf(PeriodicKey) == PERIODIC_PATH
    ensures PathOf(ChargeKey) == CHARGE_PATH
    ensures PathOf(MultiplicityKey) == MULTIPLICITY_PATH
    ensures PathOf(UksKey) == UKS_PATH
    ensures PathOf(ExecutableKey) == EXECUTABLE_PATH
  {
  }

  /** Every keyword lies below CP2K sections and is not itself a section. */
  lemma KeywordIsLeaf(k: Keyword)
    ensures var p := PathOf(k); p != [] && SectionChain(p) && p[|p| - 1] !in SECTIONS
  {
  }

  /** Every assignment the stages make succeeds on a job tree of the
      sanitizer's shape: no attribute on the way is taken of a non-mapping. */
  lemma KeywordDescendable(t: Value, k: Keyword)
    requires t.IsSettings() && Shaped(t) && AllSettings(t)
    ensures Descendable(t, PathOf(k))
  {
    KeywordIsLeaf(k);
    ShapedDescendable(t, PathOf(k));
  }

  /** The two job trees, in the order the sanitizer visits them. */
  datatype Job = Main | Guess

  /** The stages visit `cp2k_settings_main`, then `cp2k_settings_guess`. */
  const JOB_COUNT := 2

  function JobAt(i: int): Job {
    if i == 0 then Main else Guess
  }

  datatype Error = MissingValence(key: string)

  // ---------------------------------------------------------------------
  // HOMO index

  /** The key of the valence-electron table: element symbol, a dash, basis name. */
  function ValenceKey(symbol: string, basis: string): string {
    symbol + "-" + basis
  }

  /** Element symbols hold no dash, so a key names one symbol and one basis. */
  lemma ValenceKeyInjective(symbol1: string, basis1: string, symbol2: string, basis2: string)
    requires '-' !in symbol1 && '-' !in symbol2
    requires ValenceKey(symbol1, basis1) == ValenceKey(symbol2, basis2)
    ensures symbol1 == symbol2 && basis1 == basis2
  {
    var key := ValenceKey(symbol1, basis1);
    assert key[|symbol1|] == '-' && key[|symbol2|] == '-';
    assert forall i :: 0 <= i < |symbol1| ==> key[i] == symbol1[i];
    assert forall i :: 0 <= i < |symbol2| ==> key[i] == symbol2[i];
    assert symbol1 == key[..|symbol1|] == symbol2;
    assert basis1 == key[|symbol1| + 1..] == basis2;
  }

  predicate AllKnown(atoms: seq<string>, basis: string, valence: map<string, int>) {
    forall i :: 0 <= i < |atoms| ==> ValenceKey(atoms[i], basis) in valence
  }

  /** Atom i is the first one whose symbol has no table entry. */
  predicate FirstUnknown(atoms: seq<string>, basis: string, valence: map<string, int>, i: int) {
    0 <= i < |atoms| && ValenceKey(atoms[i], basis) !in valence &&
    forall j :: 0 <= j < i ==> ValenceKey(atoms[j], basis) in valence
  }

  /** The sum of the valence electrons of the atoms, in order; the first atom
      without an entry raises KeyError. */
  function ElectronCount(atoms: seq<string>, basis: string, valence: map<string, int>): (r: Result<int, Error>)
    ensures r.Success? <==> AllKnown(atoms, basis, valence)
    ensures r.Failure? ==> exists i :: FirstUnknown(atoms, basis, valence, i) &&
                                        r.error == MissingValence(ValenceKey(atoms[i], basis))
  {
    if atoms == [] then Success(0)
    else
      var key := ValenceKey(atoms[0], basis);
      if key !in valence then
        assert FirstUnknown(atoms, basis, valence, 0);
        Failure(MissingValence(key))
      else
        match ElectronCount(atoms[1..], basis, valence)
        case Failure(e) =>
          ghost var i :| FirstUnknown(atoms[1..], basis, valence, i) && e == MissingValence(ValenceKey(atoms[1..][i], basis));
          assert FirstUnknown(atoms, basis, valence, i + 1);
          Failure(e)
        case Success(n) => Success(valence[key] + n)
  }

  /** Appending an atom adds its valence electrons. */
  lemma {:induction false} ElectronCountAppend(atoms: seq<string>, symbol: string, basis: string, valence: map<string, int>)
    requires AllKnown(atoms, basis, valence) && ValenceKey(symbol, basis) in valence
    ensures ElectronCount(atoms + [symbol], basis, valence).value ==
            ElectronCount(atoms, basis, valence).value + valence[ValenceKey(symbol, basis)]
  {
    if atoms != [] {
      assert (atoms + [symbol])[1..] == atoms[1..] + [symbol];
      ElectronCountAppend(atoms[1..], symbol, basis, valence);
    }
  }

  /** The electron count N is the valence electrons minus the total charge;
      the HOMO index is N // 2 + N % 2, and an odd N only raises a warning. */
  datatype Homo = Homo(index: int, unpaired: bool)

  function ComputeHomoIndex(atoms: seq<string>, basis: string, valence: map<string, int>, charge: int): (r: Result<Homo, Error>)
    ensures r.Failure? <==> !AllKnown(atoms, basis, valence)
    ensures r.Failure? ==> r.error == ElectronCount(atoms, basis, valence).error
    ensures r.Success? ==>
              var n := ElectronCount(atoms, basis, valence).value - charge;
              n <= 2 * r.value.index <= n + 1 && (r.value.unpaired <==> n % 2 != 0)
  {
    match ElectronCount(atoms, basis, valence)
    case Failure(e) => Failure(e)
    case Success(total) =>
      var n := total - charge;
      Success(Homo(n / 2 + n % 2, n % 2 != 0))
  }

  /** The HOMO index is the least index whose orbitals, two electrons each,
      hold all N electrons. */
  lemma HomoIndexIsLeast(atoms: seq<string>, basis: string, valence: map<string, int>, charge: int, k: int)
    requires AllKnown(atoms, basis, valence)
    requires 2 * k >= ElectronCount(atoms, basis, valence).value - charge
    ensures ComputeHomoIndex(atoms, basis, valence, charge).value.index <= k
  {
  }

  // ---------------------------------------------------------------------
  // MO window

  /** `added_mos`: the orbitals above the HOMO up to the window's upper bound. */
  function AddedMos(hi: int, nHomo: int): int {
    hi - nHomo
  }

  /** CP2K's MO_INDEX_RANGE keyword: the 1-based lower bound and the upper bound. */
  function MoIndexRangeText(lo: int, hi: int): string {
    IntToString(lo + 1) + " " + IntToString(hi)
  }

  function SpaceIndex(s: string): (k: nat)
    ensures k <= |s| && (forall i :: 0 <= i < k ==> s[i] != ' ') && (k < |s| ==> s[k] == ' ')
  {
    if s == [] || s[0] == ' ' then 0 else 1 + SpaceIndex(s[1..])
  }

  /** How the keyword is read back: two integers separated by a space. */
  function ParseMoIndexRange(s: string): Option<(int, int)> {
    var k := SpaceIndex(s);
    if k == |s| then None
    else
      match (ParseInt(s[..k]), ParseInt(s[k + 1..]))
      case (Some(a), Some(b)) => Some((a, b))
      case _ => None
  }

  lemma MoIndexRangeTextRoundTrip(lo: int, hi: int)
    ensures ParseMoIndexRange(MoIndexRangeText(lo, hi)) == Some((lo + 1, hi))
  {
    var a, b := IntToString(lo + 1), IntToString(hi);
    var s := MoIndexRangeText(lo, hi);
    var k := SpaceIndex(s);
    assert s[|a|] == ' ';
    assert k == |a|;
    assert s[..k] == a && s[k + 1..] == b;
    IntToStringRoundTrip(lo + 1);
    IntToStringRoundTrip(hi);
  }

  /** The print and scf keywords of the MO window, written to one job tree. */
  function WithMoKeywords(t: Value, nHomo: int, lo: int, hi: int): Value {
    var t1 := SetPath(t, MO_INDEX_RANGE_PATH, Str(MoIndexRangeText(lo, hi)));
    var t2 := SetPath(t1, ADDED_MOS_PATH, Int(AddedMos(hi, nHomo)));
    WithMoSwitches(t2)
  }

  /** The five `print.mo` switches, written after the window. */
  function WithMoSwitches(t: Value): Value {
    var t3 := SetPath(t, ADD_LAST_PATH, Str("numeric"));
    var t4 := SetPath(t3, QS_SCF_PATH, Int(0));
    var t5 := SetPath(t4, EIGENVALUES_PATH, Str(""));
    var t6 := SetPath(t5, EIGENVECTORS_PATH, Str(""));
    SetPath(t6, NDIGITS_PATH, Int(36))
  }

  lemma BranchesExtend(p: seq<string>, s: seq<string>, q: seq<string>)
    requires Branches(p, q)
    ensures Branches(p + s, q)
  {
    var i :| 0 <= i < |p| && i < |q| && p[i] != q[i];
    assert (p + s)[i] == p[i];
  }

  /** Every keyword of the MO window holds its value. */
  lemma MoKeywordsStated(t: Value, nHomo: int, lo: int, hi: int)
    ensures var r := WithMoKeywords(t, nHomo, lo, hi);
      && Lookup(r, MO_INDEX_RANGE_PATH) == Some(Str(MoIndexRangeText(lo, hi)))
      && Lookup(r, ADDED_MOS_PATH) == Some(Int(AddedMos(hi, nHomo)))
      && Lookup(r, ADD_LAST_PATH) == Some(Str("numeric"))
      && Lookup(r, QS_SCF_PATH) == Some(Int(0))
      && Lookup(r, EIGENVALUES_PATH) == Some(Str(""))
      && Lookup(r, EIGENVECTORS_PATH) == Some(Str(""))
      && Lookup(r, NDIGITS_PATH) == Some(Int(36))
  {
    MoWindowKeywords(t, nHomo, lo, hi);
    MoPrintKeywords(t, nHomo, lo, hi);
  }

  /** The keywords that print the window survive the writes after them. */
  lemma MoWindowKeywords(t: Value, nHomo: int, lo: int, hi: int)
    ensures var r := WithMoKeywords(t, nHomo, lo, hi);
      && Lookup(r, MO_INDEX_RANGE_PATH) == Some(Str(MoIndexRangeText(lo, hi)))
      && Lookup(r, ADDED_MOS_PATH) == Some(Int(AddedMos(hi, nHomo)))
  {
    MoRangeKeyword(t, nHomo, lo, hi);
    AddedMosKeyword(t, nHomo, lo, hi);
  }

  lemma MoRangeKeyword(t: Value, nHomo: int, lo: int, hi: int)
    ensures Lookup(WithMoKeywords(t, nHomo, lo, hi), MO_INDEX_RANGE_PATH) == Some(Str(MoIndexRangeText(lo, hi)))
  {
    var t1 := SetPath(t, MO_INDEX_RANGE_PATH, Str(MoIndexRangeText(lo, hi)));
    var t2 := SetPath(t1, ADDED_MOS_PATH, Int(AddedMos(hi, nHomo)));
    SetPathFrameAt(t1, ADDED_MOS_PATH, Int(AddedMos(hi, nHomo)), MO_INDEX_RANGE_PATH, 4);
    MoSwitchesFrameAt(t2, MO_INDEX_RANGE_PATH, 6);
  }

  lemma AddedMosKeyword(t: Value, nHomo: int, lo: int, hi: int)
    ensures Lookup(WithMoKeywords(t, nHomo, lo, hi), ADDED_MOS_PATH) == Some(Int(AddedMos(hi, nHomo)))
  {
    var t1 := SetPath(t, MO_INDEX_RANGE_PATH, Str(MoIndexRangeText(lo, hi)));
    MoSwitchesFrameAt(SetPath(t1, ADDED_MOS_PATH, Int(AddedMos(hi, nHomo))), ADDED_MOS_PATH, 4);
  }

  /** The switches leave alone a path that leaves `print.mo` at depth i. */
  lemma MoSwitchesFrameAt(t: Value, q: seq<string>, i: nat)
    requires i < 7 && i < |q|
    requires q[i] != ADD_LAST_PATH[i] && q[i] != QS_SCF_PATH[i] && q[i] != EIGENVALUES_PATH[i]
    requires q[i] != EIGENVECTORS_PATH[i] && q[i] != NDIGITS_PATH[i]
    ensures Lookup(WithMoSwitches(t), q) == Lookup(t, q)
  {
    var t3 := SetPath(t, ADD_LAST_PATH, Str("numeric"));
    var t4 := SetPath(t3, QS_SCF_PATH, Int(0));
    var t5 := SetPath(t4, EIGENVALUES_PATH, Str(""));
    var t6 := SetPath(t5, EIGENVECTORS_PATH, Str(""));
    SetPathFrameAt(t, ADD_LAST_PATH, Str("numeric"), q, i);
    SetPathFrameAt(t3, QS_SCF_PATH, Int(0), q, i);
    SetPathFrameAt(t4, EIGENVALUES_PATH, Str(""), q, i);
    SetPathFrameAt(t5, EIGENVECTORS_PATH, Str(""), q, i);
    SetPathFrameAt(t6, NDIGITS_PATH, Int(36), q, i);
  }

  /** The print.mo switches survive the writes after them. */
  lemma MoPrintKeywords(t: Value, nHomo: int, lo: int, hi: int)
    ensures var r := WithMoKeywords(t, nHomo, lo, hi);
      && Lookup(r, ADD_LAST_PATH) == Some(Str("numeric"))
      && Lookup(r, QS_SCF_PATH) == Some(Int(0))
      && Lookup(r, EIGENVALUES_PATH) == Some(Str(""))
      && Lookup(r, EIGENVECTORS_PATH) == Some(Str(""))
      && Lookup(r, NDIGITS_PATH) == Some(Int(36))
  {
    var t1 := SetPath(t, MO_INDEX_RANGE_PATH, Str(MoIndexRangeText(lo, hi)));
    MoSwitchesStated(SetPath(t1, ADDED_MOS_PATH, Int(AddedMos(hi, nHomo))));
  }

  lemma MoSwitchesStated(t: Value)
    ensures var r := WithMoSwitches(t);
      && Lookup(r, ADD_LAST_PATH) == Some(Str("numeric"))
      && Lookup(r, QS_SCF_PATH) == Some(Int(0))
      && Lookup(r, EIGENVALUES_PATH) == Some(Str(""))
      && Lookup(r, EIGENVECTORS_PATH) == Some(Str(""))
      && Lookup(r, NDIGITS_PATH) == Some(Int(36))
  {
    var t3 := SetPath(t, ADD_LAST_PATH, Str("numeric"));
    var t4 := SetPath(t3, QS_SCF_PATH, Int(0));
    var t5 := SetPath(t4, EIGENVALUES_PATH, Str(""));
    var t6 := SetPath(t5, EIGENVECTORS_PATH, Str(""));
    // add_last
    SetPathFrameAt(t3, QS_SCF_PATH, Int(0), ADD_LAST_PATH, 6);
    SetPathFrameAt(t4, EIGENVALUES_PATH, Str(""), ADD_LAST_PATH, 6);
    SetPathFrameAt(t5, EIGENVECTORS_PATH, Str(""), ADD_LAST_PATH, 6);
    SetPathFrameAt(t6, NDIGITS_PATH, Int(36), ADD_LAST_PATH, 6);
    // each.qs_scf
    SetPathFrameAt(t4, EIGENVALUES_PATH, Str(""), QS_SCF_PATH, 6);
    SetPathFrameAt(t5, EIGENVECTORS_PATH, Str(""), QS_SCF_PATH, 6);
    SetPathFrameAt(t6, NDIGITS_PATH, Int(36), QS_SCF_PATH, 6);
    // eigenvalues, eigenvectors
    SetPathFrameAt(t5, EIGENVECTORS_PATH, Str(""), EIGENVALUES_PATH, 6);
    SetPathFrameAt(t6, NDIGITS_PATH, Int(36), EIGENVALUES_PATH, 6);
    SetPathFrameAt(t6, NDIGITS_PATH, Int(36), EIGENVECTORS_PATH, 6);
  }

  /** Nothing outside the print.mo section and the added_mos keyword changes. */
  lemma MoKeywordsFrame(t: Value, nHomo: int, lo: int, hi: int, q: seq<string>)
    requires Branches(MO, q) && Branches(ADDED_MOS_PATH, q)
    ensures Lookup(WithMoKeywords(t, nHomo, lo, hi), q) == Lookup(t, q)
  {
    var t1 := SetPath(t, MO_INDEX_RANGE_PATH, Str(MoIndexRangeText(lo, hi)));
    BranchesExtend(MO, ["mo_index_range"], q);
    SetPathFrame(t, MO_INDEX_RANGE_PATH, Str(MoIndexRangeText(lo, hi)), q);
    SetPathFrame(t1, ADDED_MOS_PATH, Int(AddedMos(hi, nHomo)), q);
    MoSwitchesFrame(SetPath(t1, ADDED_MOS_PATH, Int(AddedMos(hi, nHomo))), q);
  }

  lemma MoSwitchesFrame(t: Value, q: seq<string>)
    requires Branches(MO, q)
    ensures Lookup(WithMoSwitches(t), q) == Lookup(t, q)
  {
    var t3 := SetPath(t, ADD_LAST_PATH, Str("numeric"));
    var t4 := SetPath(t3, QS_SCF_PATH, Int(0));
    var t5 := SetPath(t4, EIGENVALUES_PATH, Str(""));
    var t6 := SetPath(t5, EIGENVECTORS_PATH, Str(""));
    BranchesExtend(MO, ["add_last"], q);
    BranchesExtend(MO, ["each", "qs_scf"], q);
    BranchesExtend(MO, ["eigenvalues"], q);
    BranchesExtend(MO, ["eigenvectors"], q);
    BranchesExtend(MO, ["ndigits"], q);
    SetPathFrame(t, ADD_LAST_PATH, Str("numeric"), q);
    SetPathFrame(t3, QS_SCF_PATH, Int(0), q);
    SetPathFrame(t4, EIGENVALUES_PATH, Str(""), q);
    SetPathFrame(t5, EIGENVECTORS_PATH, Str(""), q);
    SetPathFrame(t6, NDIGITS_PATH, Int(36), q);
  }

  // ---------------------------------------------------------------------
  // LookupConcat and the stages that read before they write

  lemma {:induction false} LookupConcat(t: Value, p: seq<string>, q: seq<string>)
    ensures Lookup(t, p + q) == match Lookup(t, p) case None => None case Some(x) => Lookup(x, q)
    decreases |p|
  {
    if p == [] {
      assert p + q == q;
    } else {
      assert (p + q)[0] == p[0] && (p + q)[1..] == p[1..] + q;
      if t.Dict? && p[0] in t.entries {
        LookupConcat(t.entries[p[0]], p[1..], q);
      }
    }
  }

  /** `dft.xc.get("xc_functional pbe") is None`: the functional is not PBE,
      so the auxiliary ADMM basis files are needed. */
  predicate UsesAdmm(t: Value) {
    match Lookup(t, XC_PBE_PATH)
    case None => true
    case Some(x) => x == Null
  }

  /** The basis-set files: BASIS_MOLOPT, then BASIS_ADMM_MOLOPT and BASIS_ADMM
      when ADMM is used, each as an absolute path in the basis directory. */
  function BasisFileList(pathBasis: string, admm: bool, absPath: string -> string): (r: seq<Value>)
    ensures |r| == if admm then 3 else 1
    ensures r[0] == Str(absPath(Join(pathBasis, "BASIS_MOLOPT")))
    ensures admm ==> && r[1] == Str(absPath(Join(pathBasis, "BASIS_ADMM_MOLOPT")))
                     && r[2] == Str(absPath(Join(pathBasis, "BASIS_ADMM")))
  {
    var molopt := [Str(absPath(Join(pathBasis, "BASIS_MOLOPT")))];
    if admm then molopt + [Str(absPath(Join(pathBasis, "BASIS_ADMM_MOLOPT"))), Str(absPath(Join(pathBasis, "BASIS_ADMM")))]
    else molopt
  }

  /** The ADMM list extends the plain one by two files. */
  lemma BasisFileListExtends(pathBasis: string, absPath: string -> string)
    ensures var full := BasisFileList(pathBasis, true, absPath);
            BasisFileList(pathBasis, false, absPath) + [full[1]] + [full[2]] == full
  {
  }

  /** select_basis_file on one job tree: the list is set, `dft.xc` is read
      (creating it when absent), and the ADMM files are appended. */
  function SelectedBasis(t: Value, pathBasis: string, absPath: string -> string): Value {
    var t1 := SetPath(t, BASIS_FILE_PATH, List(BasisFileList(pathBasis, false, absPath)));
    var t2 := Touch(t1, XC_PATH);
    if UsesAdmm(t2) then SetPath(t2, BASIS_FILE_PATH, List(BasisFileList(pathBasis, true, absPath))) else t2
  }

  /** add_basis on one job tree. */
  function WithBasis(t: Value, basis: Value, potential: Value, pathBasis: string, absPath: string -> string): Value {
    SelectedBasis(BasisNames(t, basis, potential, Str(absPath(Join(pathBasis, "GTH_POTENTIALS")))), pathBasis, absPath)
  }

  /** Whether ADMM is used is decided by the tree as it was before the stage. */
  lemma SelectedBasisAdmm(t: Value, pathBasis: string, absPath: string -> string)
    ensures var t1 := SetPath(t, BASIS_FILE_PATH, List(BasisFileList(pathBasis, false, absPath)));
            UsesAdmm(Touch(t1, XC_PATH)) == UsesAdmm(t)
  {
    var t1 := SetPath(t, BASIS_FILE_PATH, List(BasisFileList(pathBasis, false, absPath)));
    SetPathFrameAt(t, BASIS_FILE_PATH, List(BasisFileList(pathBasis, false, absPath)), XC_PBE_PATH, 4);
    if Lookup(t1, XC_PATH).None? {
      LookupConcat(t1, XC_PATH, ["xc_functional pbe"]);
      LookupConcat(SetPath(t1, XC_PATH, Dict(Settings, map[])), XC_PATH, ["xc_functional pbe"]);
    }
  }

  /** Reading `dft.xc` leaves the list of basis files alone. */
  lemma TouchXcKeepsBasisFiles(t: Value)
    ensures Lookup(Touch(t, XC_PATH), BASIS_FILE_PATH) == Lookup(t, BASIS_FILE_PATH)
  {
    if Lookup(t, XC_PATH).None? {
      SetPathFrameAt(t, XC_PATH, Dict(Settings, map[]), BASIS_FILE_PATH, 4);
    }
  }

  /** After select_basis_file the list holds three files exactly when the
      functional is not PBE. */
  lemma SelectedBasisStated(t: Value, pathBasis: string, absPath: string -> string)
    ensures Lookup(SelectedBasis(t, pathBasis, absPath), BASIS_FILE_PATH)
              == Some(List(BasisFileList(pathBasis, UsesAdmm(t), absPath)))
  {
    var t1 := SetPath(t, BASIS_FILE_PATH, List(BasisFileList(pathBasis, false, absPath)));
    SelectedBasisAdmm(t, pathBasis, absPath);
    if Lookup(t1, XC_PATH).None? {
      SetPathFrameAt(t1, XC_PATH, Dict(Settings, map[]), BASIS_FILE_PATH, 4);
    }
  }

  /** Nothing outside the list and `dft.xc` changes. */
  lemma SelectedBasisFrame(t: Value, pathBasis: string, absPath: string -> string, q: seq<string>)
    requires Branches(BASIS_FILE_PATH, q) && Branches(XC_PATH, q)
    ensures Lookup(SelectedBasis(t, pathBasis, absPath), q) == Lookup(t, q)
  {
    var t1 := SetPath(t, BASIS_FILE_PATH, List(BasisFileList(pathBasis, false, absPath)));
    var t2 := Touch(t1, XC_PATH);
    SetPathFrame(t, BASIS_FILE_PATH, List(BasisFileList(pathBasis, false, absPath)), q);
    if Lookup(t1, XC_PATH).None? {
      SetPathFrame(t1, XC_PATH, Dict(Settings, map[]), q);
    }
    if UsesAdmm(t2) {
      SetPathFrame(t2, BASIS_FILE_PATH, List(BasisFileList(pathBasis, true, absPath)), q);
    }
  }

  /** The first three assignments of add_basis. */
  function BasisNames(t: Value, basis: Value, potential: Value, potentialFile: Value): Value {
    SetPath(SetPath(SetPath(t, BASIS_NAME_PATH, basis), POTENTIAL_NAME_PATH, potential), POTENTIAL_FILE_PATH, potentialFile)
  }

  lemma BasisNamesStated(t: Value, basis: Value, potential: Value, potentialFile: Value)
    ensures var r := BasisNames(t, basis, potential, potentialFile);
      && Lookup(r, BASIS_NAME_PATH) == Some(basis)
      && Lookup(r, POTENTIAL_NAME_PATH) == Some(potential)
      && Lookup(r, POTENTIAL_FILE_PATH) == Some(potentialFile)
  {
    var t1 := SetPath(t, BASIS_NAME_PATH, basis);
    var t2 := SetPath(t1, POTENTIAL_NAME_PATH, potential);
    SetPathFrameAt(t1, POTENTIAL_NAME_PATH, potential, BASIS_NAME_PATH, 0);
    SetPathFrameAt(t2, POTENTIAL_FILE_PATH, potentialFile, BASIS_NAME_PATH, 0);
    SetPathFrameAt(t2, POTENTIAL_FILE_PATH, potentialFile, POTENTIAL_NAME_PATH, 0);
  }

  lemma BasisNamesFrame(t: Value, basis: Value, potential: Value, potentialFile: Value, q: seq<string>)
    requires Branches(POTENTIAL_FILE_PATH, q) && Branches(BASIS_NAME_PATH, q) && Branches(POTENTIAL_NAME_PATH, q)
    ensures Lookup(BasisNames(t, basis, potential, potentialFile), q) == Lookup(t, q)
  {
    var t1 := SetPath(t, BASIS_NAME_PATH, basis);
    var t2 := SetPath(t1, POTENTIAL_NAME_PATH, potential);
    SetPathFrame(t, BASIS_NAME_PATH, basis, q);
    SetPathFrame(t1, POTENTIAL_NAME_PATH, potential, q);
    SetPathFrame(t2, POTENTIAL_FILE_PATH, potentialFile, q);
  }

  /** q lies outside everything add_basis writes. */
  predicate BasisUntouched(q: seq<string>) {
    Branches(BASIS_NAME_PATH, q) && Branches(POTENTIAL_NAME_PATH, q) && Branches(POTENTIAL_FILE_PATH, q) &&
    Branches(BASIS_FILE_PATH, q) && Branches(XC_PATH, q)
  }

  /** After add_basis: the basis and potential names, the potential file and
      the basis-file list (of length 3 exactly when the functional is not
      PBE) are set. */
  lemma BasisStated(t: Value, basis: Value, potential: Value, pathBasis: string, absPath: string -> string)
    ensures var r := WithBasis(t, basis, potential, pathBasis, absPath);
      && Lookup(r, BASIS_NAME_PATH) == Some(basis)
      && Lookup(r, POTENTIAL_NAME_PATH) == Some(potential)
      && Lookup(r, POTENTIAL_FILE_PATH) == Some(Str(absPath(Join(pathBasis, "GTH_POTENTIALS"))))
      && Lookup(r, BASIS_FILE_PATH) == Some(List(BasisFileList(pathBasis, UsesAdmm(t), absPath)))
  {
    var pf := Str(absPath(Join(pathBasis, "GTH_POTENTIALS")));
    var t3 := BasisNames(t, basis, potential, pf);
    BasisNamesStated(t, basis, potential, pf);
    SelectedBasisStated(t3, pathBasis, absPath);
    assert XC_PBE_PATH[4] != POTENTIAL_FILE_PATH[4];
    assert XC_PBE_PATH[0] != BASIS_NAME_PATH[0] && XC_PBE_PATH[0] != POTENTIAL_NAME_PATH[0];
    BasisNamesFrame(t, basis, potential, pf, XC_PBE_PATH);
    assert BASIS_FILE_PATH[0] != BASIS_NAME_PATH[0] && XC_PATH[0] != BASIS_NAME_PATH[0];
    assert BASIS_FILE_PATH[0] != POTENTIAL_NAME_PATH[0] && XC_PATH[0] != POTENTIAL_NAME_PATH[0];
    assert BASIS_FILE_PATH[4] != POTENTIAL_FILE_PATH[4] && XC_PATH[4] != POTENTIAL_FILE_PATH[4];
    SelectedBasisFrame(t3, pathBasis, absPath, BASIS_NAME_PATH);
    SelectedBasisFrame(t3, pathBasis, absPath, POTENTIAL_NAME_PATH);
    SelectedBasisFrame(t3, pathBasis, absPath, POTENTIAL_FILE_PATH);
  }

  /** Nothing outside those keys and `dft.xc` changes. */
  lemma BasisFrame(t: Value, basis: Value, potential: Value, pathBasis: string, absPath: string -> string, q: seq<string>)
    requires BasisUntouched(q)
    ensures Lookup(WithBasis(t, basis, potential, pathBasis, absPath), q) == Lookup(t, q)
  {
    var pf := Str(absPath(Join(pathBasis, "GTH_POTENTIALS")));
    BasisNamesFrame(t, basis, potential, pf, q);
    SelectedBasisFrame(BasisNames(t, basis, potential, pf), pathBasis, absPath, q);
  }

  // ---------------------------------------------------------------------
  // Cell, multiplicity

  /** add_cell_parameters on one job tree, including its second, redundant
      clearing of the angles. */
  function WithCell(t: Value, cellParameters: Value, fileCellParameters: Value): Value {
    if fileCellParameters == Null then
      SetPath(SetPath(SetPath(t, CELL_PARAMETERS_PATH, cellParameters), CELL_ANGLES_PATH, Null), CELL_ANGLES_PATH, Null)
    else
      SetPath(SetPath(t, CELL_PARAMETERS_PATH, Null), CELL_ANGLES_PATH, Null)
  }

  /** The angles always end up None; the parameters are the general ones
      unless a cell-parameters file is given, and None otherwise. */
  lemma CellStated(t: Value, cellParameters: Value, fileCellParameters: Value)
    ensures var r := WithCell(t, cellParameters, fileCellParameters);
      && Lookup(r, CELL_ANGLES_PATH) == Some(Null)
      && Lookup(r, CELL_PARAMETERS_PATH) == Some(if fileCellParameters == Null then cellParameters else Null)
  {
    var v := if fileCellParameters == Null then cellParameters else Null;
    var t1 := SetPath(t, CELL_PARAMETERS_PATH, v);
    var t2 := SetPath(t1, CELL_ANGLES_PATH, Null);
    SetPathTwice(t1, CELL_ANGLES_PATH, Null, Null);
    assert WithCell(t, cellParameters, fileCellParameters) == t2;
    SetPathFrameAt(t1, CELL_ANGLES_PATH, Null, CELL_PARAMETERS_PATH, 0);
  }

  /** Nothing but the two cell keys changes. */
  lemma CellFrame(t: Value, cellParameters: Value, fileCellParameters: Value, q: seq<string>)
    requires Branches(CELL_PARAMETERS_PATH, q) && Branches(CELL_ANGLES_PATH, q)
    ensures Lookup(WithCell(t, cellParameters, fileCellParameters), q) == Lookup(t, q)
  {
    var v := if fileCellParameters == Null then cellParameters else Null;
    var t1 := SetPath(t, CELL_PARAMETERS_PATH, v);
    SetPathTwice(t1, CELL_ANGLES_PATH, Null, Null);
    SetPathFrame(t, CELL_PARAMETERS_PATH, v, q);
    SetPathFrame(t1, CELL_ANGLES_PATH, Null, q);
  }

  /** add_multiplicity on one job tree, for a multiplicity above 1. */
  function WithMultiplicity(t: Value, multiplicity: int): Value {
    SetPath(SetPath(t, MULTIPLICITY_PATH, Int(multiplicity)), UKS_PATH, Str(""))
  }

  lemma MultiplicityStated(t: Value, multiplicity: int)
    ensures var r := WithMultiplicity(t, multiplicity);
      Lookup(r, MULTIPLICITY_PATH) == Some(Int(multiplicity)) && Lookup(r, UKS_PATH) == Some(Str(""))
  {
    var t1 := SetPath(t, MULTIPLICITY_PATH, Int(multiplicity));
    SetPathFrameAt(t1, UKS_PATH, Str(""), MULTIPLICITY_PATH, 4);
  }

  lemma MultiplicityFrame(t: Value, multiplicity: int, q: seq<string>)
    requires Branches(MULTIPLICITY_PATH, q) && Branches(UKS_PATH, q)
    ensures Lookup(WithMultiplicity(t, multiplicity), q) == Lookup(t, q)
  {
    var t1 := SetPath(t, MULTIPLICITY_PATH, Int(multiplicity));
    SetPathFrame(t, MULTIPLICITY_PATH, Int(multiplicity), q);
    SetPathFrame(t1, UKS_PATH, Str(""), q);
  }

  /** add_multiplicity leaves the cell, the periodicity and the charge alone. */
  lemma MultiplicityKeepsShared(t: Value, multiplicity: int)
    ensures var r := WithMultiplicity(t, multiplicity);
      && Lookup(r, CELL_PARAMETERS_PATH) == Lookup(t, CELL_PARAMETERS_PATH)
      && Lookup(r, CELL_ANGLES_PATH) == Lookup(t, CELL_ANGLES_PATH)
      && Lookup(r, PERIODIC_PATH) == Lookup(t, PERIODIC_PATH)
      && Lookup(r, CHARGE_PATH) == Lookup(t, CHARGE_PATH)
  {
    assert MULTIPLICITY_PATH[0] != CELL_PARAMETERS_PATH[0] && UKS_PATH[0] != CELL_PARAMETERS_PATH[0];
    MultiplicityFrame(t, multiplicity, CELL_PARAMETERS_PATH);
    assert MULTIPLICITY_PATH[0] != CELL_ANGLES_PATH[0] && UKS_PATH[0] != CELL_ANGLES_PATH[0];
    MultiplicityFrame(t, multiplicity, CELL_ANGLES_PATH);
    assert MULTIPLICITY_PATH[3] != PERIODIC_PATH[3] && UKS_PATH[3] != PERIODIC_PATH[3];
    MultiplicityFrame(t, multiplicity, PERIODIC_PATH);
    assert MULTIPLICITY_PATH[4] != CHARGE_PATH[4] && UKS_PATH[4] != CHARGE_PATH[4];
    MultiplicityFrame(t, multiplicity, CHARGE_PATH);
  }

  // ---------------------------------------------------------------------
  // Templates

  /** What a template factory must produce: a CP2K tree of the same shape.
      The factory is a function of the template value alone. The general
      settings and the geometry it also reads are taken to be fixed for one
      sanitizer, and it is assumed not to read the job trees: the source
      passes it the general settings after the main tree has already been
      templated, when it builds the guess tree's template. */
  ghost predicate TemplatesOk(makeTemplate: Value -> map<string, Value>) {
    forall v :: Shaped(Dict(Settings, makeTemplate(v))) && AllSettings(Dict(Settings, makeTemplate(v)))
  }

  /** The overlay step of apply_templates: when `specific` names a template,
      the key is deleted and the template is overlaid with what remains. */
  function Overlaid(t: Value, makeTemplate: Value -> map<string, Value>): Value {
    if t.Dict? && SPECIFIC in t.entries && t.entries[SPECIFIC].Dict? && TEMPLATE in t.entries[SPECIFIC].entries then
      var spec := t.entries[SPECIFIC];
      var template := Dict(Settings, makeTemplate(spec.entries[TEMPLATE]));
      var rest := spec.(entries := spec.entries - {TEMPLATE});
      t.(entries := t.entries[SPECIFIC := Merge(template, rest)])
    else t
  }

  /** apply_templates on one job tree: `s['specific']` is read, which
      creates it when absent, and the template is applied. */
  function WithTemplate(t: Value, makeTemplate: Value -> map<string, Value>): Value {
    Overlaid(Touch(t, [SPECIFIC]), makeTemplate)
  }

  /** After a template is applied, `specific` holds a "template" key only if
      the template itself supplies one, and every value the user set
      elsewhere in `specific` is kept. */
  lemma TemplateApplied(t: Value, makeTemplate: Value -> map<string, Value>, p: seq<string>)
    requires t.Dict? && SPECIFIC in t.entries && t.entries[SPECIFIC].IsSettings()
    requires TEMPLATE in t.entries[SPECIFIC].entries
    ensures var spec := t.entries[SPECIFIC];
            var r := WithTemplate(t, makeTemplate).entries[SPECIFIC];
            TEMPLATE in r.entries <==> TEMPLATE in makeTemplate(spec.entries[TEMPLATE])
    ensures var spec := t.entries[SPECIFIC];
            var rest := spec.(entries := spec.entries - {TEMPLATE});
            Lookup(rest, p).Some? && !Lookup(rest, p).value.IsSettings() ==>
              Lookup(WithTemplate(t, makeTemplate), [SPECIFIC] + p) == Lookup(rest, p)
  {
    var spec := t.entries[SPECIFIC];
    var rest := spec.(entries := spec.entries - {TEMPLATE});
    var template := Dict(Settings, makeTemplate(spec.entries[TEMPLATE]));
    var r := WithTemplate(t, makeTemplate);
    assert [SPECIFIC][1..] == [];
    assert Lookup(t, [SPECIFIC]) == Some(spec);
    assert r.entries[SPECIFIC] == Merge(template, rest);
    if Lookup(rest, p).Some? && !Lookup(rest, p).value.IsSettings() {
      MergeUserWins(template, rest, p);
      LookupConcat(r, [SPECIFIC], p);
    }
  }

  /** Applying a template keeps the job tree a `Settings` of the sanitizer's shape. */
  lemma OverlaidKeepsShape(t: Value, makeTemplate: Value -> map<string, Value>)
    requires TemplatesOk(makeTemplate)
    requires t.IsSettings() && Shaped(t) && AllSettings(t)
    ensures var r := Overlaid(t, makeTemplate);
      r.IsSettings() && Shaped(r) && AllSettings(r)
  {
    if t.Dict? && SPECIFIC in t.entries && t.entries[SPECIFIC].Dict? && TEMPLATE in t.entries[SPECIFIC].entries {
      var spec := t.entries[SPECIFIC];
      var template := Dict(Settings, makeTemplate(spec.entries[TEMPLATE]));
      var rest := spec.(entries := spec.entries - {TEMPLATE});
      MergeShaped(template, rest);
      MergeAllSettings(template, rest);
    }
  }

  /** Templates that, like the YAML files qmflows reads them from, hold no
      `Settings` but their own sections. */
  ghost predicate TemplatesClean(makeTemplate: Value -> map<string, Value>) {
    forall v :: CleanTree(Dict(Settings, makeTemplate(v)))
  }

  lemma OverlaidClean(t: Value, makeTemplate: Value -> map<string, Value>)
    requires TemplatesClean(makeTemplate) && CleanTree(t)
    ensures CleanTree(Overlaid(t, makeTemplate))
  {
    if t.Dict? && SPECIFIC in t.entries && t.entries[SPECIFIC].Dict? && TEMPLATE in t.entries[SPECIFIC].entries {
      var spec := t.entries[SPECIFIC];
      var template := Dict(Settings, makeTemplate(spec.entries[TEMPLATE]));
      var rest := spec.(entries := spec.entries - {TEMPLATE});
      MergeClean(template, rest);
    }
  }

  /** Applying a template keeps a clean job tree clean. */
  lemma WithTemplateClean(t: Value, makeTemplate: Value -> map<string, Value>)
    requires TemplatesClean(makeTemplate) && CleanTree(t)
    ensures CleanTree(WithTemplate(t, makeTemplate))
  {
    TouchClean(t, [SPECIFIC]);
    OverlaidClean(Touch(t, [SPECIFIC]), makeTemplate);
  }

  // ---------------------------------------------------------------------
  // Final conversion

  /** `Settings.as_dict()`: the mapping and every `Settings` reached through
      mappings become plain dicts; any other value, a list or tuple included,
      is kept as it is. */
  function AsDict(v: Value): (r: Value)
    requires v.IsSettings()
    ensures r.Dict? && r.kind == Plain && r.entries.Keys == v.entries.Keys
  {
    Dict(Plain, map k | k in v.entries :: if v.entries[k].IsSettings() then AsDict(v.entries[k]) else v.entries[k])
  }

  /** recursive_traverse: a `Settings` goes through `as_dict`, a plain dict
      is rebuilt key for key, and anything else is returned as it is. */
  function RecursiveTraverse(v: Value): (r: Value)
    ensures !v.Dict? ==> r == v
    ensures v.Dict? ==> r.Dict? && r.kind == Plain && r.entries.Keys == v.entries.Keys
  {
    match v
    case Dict(Settings, _) => AsDict(v)
    case Dict(Plain, m) => Dict(Plain, map k | k in m :: RecursiveTraverse(m[k]))
    case _ => v
  }

  /** A value without `Settings` is returned unchanged. */
  lemma {:induction false} TraversePlainIdentity(v: Value)
    requires NoSettings(v)
    ensures RecursiveTraverse(v) == v
  {
    match v
    case Dict(_, m) =>
      forall k | k in m ensures RecursiveTraverse(v).entries[k] == m[k] {
        TraversePlainIdentity(m[k]);
      }
    case _ =>
  }

  lemma {:induction false} AsDictOfSettings(v: Value)
    requires v.Dict? && NoSettings(v)
    ensures AsDict(ToSettings(v)) == v
  {
    var s := ToSettings(v);
    forall k | k in v.entries ensures AsDict(s).entries[k] == v.entries[k] {
      if v.entries[k].Dict? {
        AsDictOfSettings(v.entries[k]);
      }
    }
  }

  /** Wrapping a YAML value into `Settings` and converting it back gives the
      value again. */
  lemma TraverseRoundTrip(v: Value)
    requires NoSettings(v)
    ensures RecursiveTraverse(ToSettings(v)) == v
  {
    if v.Dict? {
      AsDictOfSettings(v);
    }
  }

  /** A tree the conversion turns fully plain: inside a `Settings` every value
      is a nested `Settings` or holds none, anywhere else there is no
      `Settings` in a list or a tuple. */
  predicate Convertible(v: Value) {
    match v
    case Dict(Plain, m) => forall k :: k in m ==> Convertible(m[k])
    case Dict(Settings, m) => forall k :: k in m ==> (m[k].IsSettings() && Convertible(m[k])) || NoSettings(m[k])
    case _ => NoSettings(v)
  }

  lemma {:induction false} AsDictNoSettings(v: Value)
    requires v.IsSettings() && Convertible(v)
    ensures NoSettings(AsDict(v))
  {
    forall k | k in v.entries ensures NoSettings(AsDict(v).entries[k]) {
      if v.entries[k].IsSettings() {
        AsDictNoSettings(v.entries[k]);
      }
    }
  }

  /** What the audit file holds has no `Settings` left. */
  lemma {:induction false} TraverseNoSettings(v: Value)
    requires Convertible(v)
    ensures NoSettings(RecursiveTraverse(v))
  {
    match v
    case Dict(Settings, _) => AsDictNoSettings(v);
    case Dict(Plain, m) =>
      forall k | k in m ensures NoSettings(RecursiveTraverse(v).entries[k]) {
        TraverseNoSettings(m[k]);
      }
    case _ =>
  }

  /** Converting twice is converting once. */
  lemma TraverseIdempotent(v: Value)
    requires Convertible(v)
    ensures RecursiveTraverse(RecursiveTraverse(v)) == RecursiveTraverse(v)
  {
    TraverseNoSettings(v);
    TraversePlainIdentity(RecursiveTraverse(v));
  }

  /** A clean tree converts fully. */
  lemma {:induction false} CleanConvertible(v: Value)
    requires CleanTree(v)
    ensures Convertible(v)
  {
    if v.Dict? {
      forall k | k in v.entries
        ensures (v.entries[k].IsSettings() && Convertible(v.entries[k])) || NoSettings(v.entries[k])
      {
        if v.entries[k].Dict? {
          CleanConvertible(v.entries[k]);
        }
      }
    }
  }

  /** So does a value with no `Settings` at all. */
  lemma {:induction false} NoSettingsConvertible(v: Value)
    requires NoSettings(v)
    ensures Convertible(v)
  {
    if v.Dict? {
      forall k | k in v.entries ensures Convertible(v.entries[k]) {
        NoSettingsConvertible(v.entries[k]);
      }
    }
  }

  // ---------------------------------------------------------------------
  // What the schema guarantees

  /** `active_space`: how many orbitals below and above the HOMO to print. */
  predicate ActiveSpaceOk(v: Value) {
    (v.List? || v.Tuple?) && |v.items| >= 2 && v.items[0].Int? && v.items[1].Int?
  }

  predicate Computes(user: map<string, Value>) {
    Truthy(Get(user, COMPUTE_ORBITALS))
  }

  /** The top-level keys the sanitizer reads. */
  predicate UserValid(user: map<string, Value>) {
    (Get(user, NHOMO).Null? || Get(user, NHOMO).Int?) &&
    (Computes(user) ==> ActiveSpaceOk(Get(user, ACTIVE_SPACE)))
  }

  /** The general settings after the schema filled in its defaults. Values
      copied into a job tree hold no plain mapping (qmflows would wrap one). */
  predicate GeneralValid(g: map<string, Value>) {
    MAIN_KEY in g && GUESS_KEY in g &&
    Get(g, BASIS).Str? && Get(g, CHARGE).Int? && Get(g, MULTIPLICITY).Int? &&
    PATH_BASIS in g && (g[PATH_BASIS].Null? || g[PATH_BASIS].Str?) &&
    WFN_RESTART in g && (g[WFN_RESTART].Null? || g[WFN_RESTART].Str?) &&
    POTENTIAL in g && PERIODIC in g && EXECUTABLE in g && CELL_PARAMETERS in g && FILE_CELL_PARAMETERS in g &&
    AllSettings(g[POTENTIAL]) && AllSettings(g[PERIODIC]) && AllSettings(g[EXECUTABLE]) && AllSettings(g[CELL_PARAMETERS])
  }

  /** A job tree of the sanitizer's shape. */
  predicate JobValid(t: Value) {
    t.Dict? && Shaped(t)
  }

  /** The validated input, as the schema returns it from the YAML file. */
  predicate ValidInput(input: map<string, Value>) {
    GENERAL in input && input[GENERAL].Dict? && input[GENERAL].kind == Plain &&
    UserValid(input) && GeneralValid(input[GENERAL].entries) &&
    JobValid(input[GENERAL].entries[MAIN_KEY]) && JobValid(input[GENERAL].entries[GUESS_KEY])
  }

  /** What the YAML loader returns holds no `Settings`. */
  predicate Loaded(input: map<string, Value>) {
    forall k :: k in input ==> NoSettings(input[k])
  }

  function JobKey(j: Job): string {
    match j
    case Main => MAIN_KEY
    case Guess => GUESS_KEY
  }

  /** The general settings the stages read, once the schema has checked them. */
  datatype General = General(
    basis: string, potential: Value, charge: int, multiplicity: int,
    periodic: Value, executable: Value, cellParameters: Value, fileCellParameters: Value,
    pathBasis: Option<string>, wfnRestart: Option<string>)

  /** A string setting that may be None. */
  function OptionalStr(v: Value): (r: Option<string>)
    requires v.Null? || v.Str?
    ensures r.None? <==> v == Null
    ensures r.Some? ==> v == Str(r.value)
  {
    if v.Null? then None else Some(v.s)
  }

  function ReadGeneral(g: map<string, Value>): General
    requires GeneralValid(g)
  {
    General(g[BASIS].s, g[POTENTIAL], g[CHARGE].i, g[MULTIPLICITY].i,
            g[PERIODIC], g[EXECUTABLE], g[CELL_PARAMETERS], g[FILE_CELL_PARAMETERS],
            OptionalStr(g[PATH_BASIS]), OptionalStr(g[WFN_RESTART]))
  }

  /** Replacing a job tree changes nothing the stages read. */
  lemma ReadGeneralJob(g: map<string, Value>, j: Job, t: Value)
    requires GeneralValid(g)
    ensures GeneralValid(g[JobKey(j) := t]) && ReadGeneral(g[JobKey(j) := t]) == ReadGeneral(g)
  {
  }

  // ---------------------------------------------------------------------
  // The HOMO index and the MO window in the input

  /** compute_homo_index, run when `nHOMO` is None: the new top-level input
      and whether the electron count is odd. The index is computed only when
      the input leaves `nHOMO` None; this fails exactly when an atom has no
      valence entry, and otherwise stores the index and nothing else. */
  function HomoStage(user: map<string, Value>, gen: General, atoms: seq<string>, valence: map<string, int>)
    : (r: Result<(map<string, Value>, bool), Error>)
    requires UserValid(user)
    ensures r.Failure? <==> Get(user, NHOMO) == Null && !AllKnown(atoms, gen.basis, valence)
    ensures r.Failure? ==> r.error == ElectronCount(atoms, gen.basis, valence).error
    ensures r.Success? ==> UserValid(r.value.0) && Get(r.value.0, NHOMO).Int? && r.value.0.Keys == user.Keys + {NHOMO}
    ensures r.Success? ==> (Computes(r.value.0) <==> Computes(user))
    ensures r.Success? ==> forall k :: k in user && k != NHOMO ==> r.value.0[k] == user[k]
    ensures r.Success? && Get(user, NHOMO) != Null ==> r.value.0 == user && !r.value.1
    ensures r.Success? && Get(user, NHOMO) == Null ==>
              var h := ComputeHomoIndex(atoms, gen.basis, valence, gen.charge).value;
              r.value.0[NHOMO] == Int(h.index) && r.value.1 == h.unpaired
  {
    if Get(user, NHOMO) != Null then Success((user, false))
    else
      match ComputeHomoIndex(atoms, gen.basis, valence, gen.charge)
      case Failure(e) => Failure(e)
      case Success(h) =>
        var u := user[NHOMO := Int(h.index)];
        assert Get(u, COMPUTE_ORBITALS) == Get(user, COMPUTE_ORBITALS);
        assert Get(u, ACTIVE_SPACE) == Get(user, ACTIVE_SPACE);
        Success((u, h.unpaired))
  }

  /** The MO window: `active_space[0]` orbitals up to the HOMO and
      `active_space[1]` above it, when orbitals are computed. */
  datatype Window = Window(nHomo: int, lo: int, hi: int)

  function ReadWindow(user: map<string, Value>): (w: Option<Window>)
    requires UserValid(user) && Get(user, NHOMO).Int?
    ensures w.Some? <==> Computes(user)
    ensures w.Some? ==>
              var a := Get(user, ACTIVE_SPACE).items;
              && w.value.nHomo == Get(user, NHOMO).i
              && w.value.nHomo - w.value.lo == a[0].i && w.value.hi - w.value.nHomo == a[1].i
  {
    if Computes(user) then
      var n := Get(user, NHOMO).i;
      var a := Get(user, ACTIVE_SPACE).items;
      Some(Window(n, n - a[0].i, n + a[1].i))
    else None
  }

  /** The top-level keys the sanitizer reads and writes are distinct. */
  lemma TopLevelKeysDistinct()
    ensures MO_INDEX_RANGE != NHOMO && MO_INDEX_RANGE != COMPUTE_ORBITALS && MO_INDEX_RANGE != ACTIVE_SPACE
    ensures GENERAL != NHOMO && GENERAL != COMPUTE_ORBITALS && GENERAL != ACTIVE_SPACE && GENERAL != MO_INDEX_RANGE
    ensures MAIN_KEY != GUESS_KEY
  {
  }

  /** The MO window as add_mo_index_range stores it in the input:
      `active_space[0]` orbitals up to the HOMO and `active_space[1]` above. */
  function StoredRange(nHomo: int, activeSpace: seq<Value>): Value
    requires |activeSpace| >= 2 && activeSpace[0].Int? && activeSpace[1].Int?
  {
    Tuple([Int(nHomo - activeSpace[0].i), Int(nHomo + activeSpace[1].i)])
  }

  /** The window is stored back into the input as a tuple. */
  function UserKeywords(user: map<string, Value>): (r: map<string, Value>)
    requires UserValid(user) && Get(user, NHOMO).Int?
    ensures UserValid(r) && Get(r, NHOMO) == Get(user, NHOMO) && (Computes(r) <==> Computes(user))
    ensures r.Keys == if Computes(user) then user.Keys + {MO_INDEX_RANGE} else user.Keys
    ensures forall k :: k in user && k != MO_INDEX_RANGE ==> r[k] == user[k]
    ensures Computes(user) ==> r[MO_INDEX_RANGE] == StoredRange(Get(user, NHOMO).i, Get(user, ACTIVE_SPACE).items)
    ensures !Computes(user) ==> r == user
  {
    TopLevelKeysDistinct();
    match ReadWindow(user)
    case None => user
    case Some(w) =>
      var r := user[MO_INDEX_RANGE := StoredRange(w.nHomo, Get(user, ACTIVE_SPACE).items)];
      assert Get(r, NHOMO) == Get(user, NHOMO) && Get(r, COMPUTE_ORBITALS) == Get(user, COMPUTE_ORBITALS);
      assert Get(r, ACTIVE_SPACE) == Get(user, ACTIVE_SPACE);
      r
  }

  // ---------------------------------------------------------------------
  // The keyword stages on one job tree

  /** add_mo_index_range writes the main tree only. */
  function MoStage(j: Job, t: Value, w: Option<Window>): Value {
    if j == Main && w.Some? then WithMoKeywords(t, w.value.nHomo, w.value.lo, w.value.hi) else t
  }

  /** `wfn is not None and wfn`. */
  predicate Restarts(gen: General) {
    gen.wfnRestart.Some? && gen.wfnRestart.value != ""
  }

  /** add_restart_point writes the guess tree only. */
  function RestartStage(j: Job, t: Value, gen: General, absolute: string -> string): Value {
    if j == Guess && Restarts(gen) then SetPath(t, WFN_PATH, Str(absolute(gen.wfnRestart.value))) else t
  }

  function BasisStage(t: Value, gen: General, absPath: string -> string): Value {
    match gen.pathBasis
    case None => t
    case Some(pb) => WithBasis(t, Str(gen.basis), gen.potential, pb, absPath)
  }

  function MultiplicityStage(t: Value, gen: General): Value {
    if gen.multiplicity > 1 then WithMultiplicity(t, gen.multiplicity) else t
  }

  /** The stages both job trees share: add_cell_parameters, add_periodic,
      add_charge and add_multiplicity. */
  function SharedStages(t: Value, gen: General): Value {
    var t1 := WithCell(t, gen.cellParameters, gen.fileCellParameters);
    var t2 := SetPath(t1, PERIODIC_PATH, gen.periodic);
    var t3 := SetPath(t2, CHARGE_PATH, Int(gen.charge));
    MultiplicityStage(t3, gen)
  }

  /** add_missing_keywords after the HOMO index, on one job tree. */
  function JobKeywords(j: Job, t: Value, w: Option<Window>, gen: General,
                       absPath: string -> string, absolute: string -> string): Value {
    SharedStages(BasisStage(RestartStage(j, MoStage(j, t, w), gen, absolute), gen, absPath), gen)
  }

  /** The job tree sanitize returns: the keywords, then the executable. */
  function FinalJob(j: Job, t: Value, w: Option<Window>, gen: General,
                    absPath: string -> string, absolute: string -> string): Value {
    SetPath(JobKeywords(j, t, w, gen, absPath, absolute), EXECUTABLE_PATH, gen.executable)
  }

  /** q lies outside every path the shared stages write. */
  predicate SharedUntouched(gen: General, q: seq<string>) {
    && Branches(CELL_PARAMETERS_PATH, q) && Branches(CELL_ANGLES_PATH, q)
    && Branches(PERIODIC_PATH, q) && Branches(CHARGE_PATH, q)
    && (gen.multiplicity > 1 ==> Branches(MULTIPLICITY_PATH, q) && Branches(UKS_PATH, q))
  }

  /** The cell, the periodicity and the charge survive the writes after them. */
  lemma CellPeriodicChargeStated(t: Value, gen: General)
    ensures var r := SetPath(SetPath(WithCell(t, gen.cellParameters, gen.fileCellParameters), PERIODIC_PATH, gen.periodic),
                             CHARGE_PATH, Int(gen.charge));
      && Lookup(r, CELL_ANGLES_PATH) == Some(Null)
      && Lookup(r, CELL_PARAMETERS_PATH) == Some(if gen.fileCellParameters == Null then gen.cellParameters else Null)
      && Lookup(r, PERIODIC_PATH) == Some(gen.periodic)
      && Lookup(r, CHARGE_PATH) == Some(Int(gen.charge))
  {
    var t1 := WithCell(t, gen.cellParameters, gen.fileCellParameters);
    var t2 := SetPath(t1, PERIODIC_PATH, gen.periodic);
    CellStated(t, gen.cellParameters, gen.fileCellParameters);
    SetPathFrameAt(t1, PERIODIC_PATH, gen.periodic, CELL_PARAMETERS_PATH, 0);
    SetPathFrameAt(t1, PERIODIC_PATH, gen.periodic, CELL_ANGLES_PATH, 0);
    SetPathFrameAt(t2, CHARGE_PATH, Int(gen.charge), CELL_PARAMETERS_PATH, 0);
    SetPathFrameAt(t2, CHARGE_PATH, Int(gen.charge), CELL_ANGLES_PATH, 0);
    SetPathFrameAt(t2, CHARGE_PATH, Int(gen.charge), PERIODIC_PATH, 3);
  }

  /** The shared stages set the cell, the periodicity, the charge and, above
      1, the multiplicity with an unrestricted (UKS) calculation. */
  lemma SharedStagesStated(t: Value, gen: General)
    ensures var r := SharedStages(t, gen);
      && Lookup(r, CELL_ANGLES_PATH) == Some(Null)
      && Lookup(r, CELL_PARAMETERS_PATH) == Some(if gen.fileCellParameters == Null then gen.cellParameters else Null)
      && Lookup(r, PERIODIC_PATH) == Some(gen.periodic)
      && Lookup(r, CHARGE_PATH) == Some(Int(gen.charge))
      && (gen.multiplicity > 1 ==> Lookup(r, MULTIPLICITY_PATH) == Some(Int(gen.multiplicity)) && Lookup(r, UKS_PATH) == Some(Str("")))
  {
    var t1 := WithCell(t, gen.cellParameters, gen.fileCellParameters);
    var t2 := SetPath(t1, PERIODIC_PATH, gen.periodic);
    var t3 := SetPath(t2, CHARGE_PATH, Int(gen.charge));
    CellPeriodicChargeStated(t, gen);
    if gen.multiplicity > 1 {
      MultiplicityStated(t3, gen.multiplicity);
      MultiplicityKeepsShared(t3, gen.multiplicity);
    }
  }

  /** Nothing else changes. */
  lemma SharedStagesFrame(t: Value, gen: General, q: seq<string>)
    requires SharedUntouched(gen, q)
    ensures Lookup(SharedStages(t, gen), q) == Lookup(t, q)
  {
    var t1 := WithCell(t, gen.cellParameters, gen.fileCellParameters);
    var t2 := SetPath(t1, PERIODIC_PATH, gen.periodic);
    var t3 := SetPath(t2, CHARGE_PATH, Int(gen.charge));
    CellFrame(t, gen.cellParameters, gen.fileCellParameters, q);
    SetPathFrame(t1, PERIODIC_PATH, gen.periodic, q);
    SetPathFrame(t2, CHARGE_PATH, Int(gen.charge), q);
    if gen.multiplicity > 1 {
      MultiplicityFrame(t3, gen.multiplicity, q);
    }
  }

  /** A keyword of the dft section that add_basis and the shared stages do
      not write is left alone by them and by add_executable. */
  lemma DftKeyUntouched(gen: General, q: seq<string>)
    requires |q| > 4 && q[0] == SPECIFIC && q[3] == "dft"
    requires q[4] !in {"potential_file_name", "basis_set_file_name", "xc", "charge", "multiplicity", "uks"}
    ensures BasisUntouched(q) && SharedUntouched(gen, q) && Branches(EXECUTABLE_PATH, q)
  {
    assert POTENTIAL_FILE_PATH[4] != q[4] && BASIS_FILE_PATH[4] != q[4] && XC_PATH[4] != q[4];
    assert CHARGE_PATH[4] != q[4] && MULTIPLICITY_PATH[4] != q[4] && UKS_PATH[4] != q[4];
    assert BASIS_NAME_PATH[0] != q[0] && POTENTIAL_NAME_PATH[0] != q[0] && EXECUTABLE_PATH[0] != q[0];
    assert CELL_PARAMETERS_PATH[0] != q[0] && CELL_ANGLES_PATH[0] != q[0] && PERIODIC_PATH[3] != q[3];
  }

  /** q lies outside every path the keyword stages and add_executable write
      in job j. */
  predicate Untouched(j: Job, w: Option<Window>, gen: General, q: seq<string>) {
    && (j == Main && w.Some? ==> Branches(MO, q) && Branches(ADDED_MOS_PATH, q))
    && (j == Guess && Restarts(gen) ==> Branches(WFN_PATH, q))
    && (gen.pathBasis.Some? ==> BasisUntouched(q))
    && SharedUntouched(gen, q)
    && Branches(EXECUTABLE_PATH, q)
  }

  /** Nothing the stages do not name changes. */
  lemma PipelineFrame(j: Job, t: Value, w: Option<Window>, gen: General,
                      absPath: string -> string, absolute: string -> string, q: seq<string>)
    requires Untouched(j, w, gen, q)
    ensures Lookup(FinalJob(j, t, w, gen, absPath, absolute), q) == Lookup(t, q)
  {
    var t1 := MoStage(j, t, w);
    var t2 := RestartStage(j, t1, gen, absolute);
    var t3 := BasisStage(t2, gen, absPath);
    if j == Main && w.Some? {
      MoKeywordsFrame(t, w.value.nHomo, w.value.lo, w.value.hi, q);
    }
    if j == Guess && Restarts(gen) {
      SetPathFrame(t1, WFN_PATH, Str(absolute(gen.wfnRestart.value)), q);
    }
    if gen.pathBasis.Some? {
      BasisFrame(t2, Str(gen.basis), gen.potential, gen.pathBasis.value, absPath, q);
    }
    SharedStagesFrame(t3, gen, q);
    SetPathFrame(SharedStages(t3, gen), EXECUTABLE_PATH, gen.executable, q);
  }

  /** Both job trees end up with the same cell, periodicity, charge,
      multiplicity and executable, all taken from the general settings. */
  lemma PipelineShared(j: Job, t: Value, w: Option<Window>, gen: General,
                       absPath: string -> string, absolute: string -> string)
    ensures var r := FinalJob(j, t, w, gen, absPath, absolute);
      && Lookup(r, CELL_ANGLES_PATH) == Some(Null)
      && Lookup(r, CELL_PARAMETERS_PATH) == Some(if gen.fileCellParameters == Null then gen.cellParameters else Null)
      && Lookup(r, PERIODIC_PATH) == Some(gen.periodic)
      && Lookup(r, CHARGE_PATH) == Some(Int(gen.charge))
      && (gen.multiplicity > 1 ==> Lookup(r, MULTIPLICITY_PATH) == Some(Int(gen.multiplicity)) && Lookup(r, UKS_PATH) == Some(Str("")))
      && Lookup(r, EXECUTABLE_PATH) == Some(gen.executable)
  {
    var t3 := BasisStage(RestartStage(j, MoStage(j, t, w), gen, absolute), gen, absPath);
    var k := SharedStages(t3, gen);
    SharedStagesStated(t3, gen);
    SetPathFrameAt(k, EXECUTABLE_PATH, gen.executable, CELL_ANGLES_PATH, 0);
    SetPathFrameAt(k, EXECUTABLE_PATH, gen.executable, CELL_PARAMETERS_PATH, 0);
    SetPathFrameAt(k, EXECUTABLE_PATH, gen.executable, PERIODIC_PATH, 0);
    SetPathFrameAt(k, EXECUTABLE_PATH, gen.executable, CHARGE_PATH, 0);
    SetPathFrameAt(k, EXECUTABLE_PATH, gen.executable, MULTIPLICITY_PATH, 0);
    SetPathFrameAt(k, EXECUTABLE_PATH, gen.executable, UKS_PATH, 0);
  }

  /** A dft keyword no stage after add_restart_point writes keeps the value
      it had after the MO and restart stages. */
  lemma AfterRestartKeeps(t2: Value, gen: General, absPath: string -> string, q: seq<string>)
    requires |q| > 4 && q[0] == SPECIFIC && q[3] == "dft"
    requires q[4] !in {"potential_file_name", "basis_set_file_name", "xc", "charge", "multiplicity", "uks"}
    ensures Lookup(SetPath(SharedStages(BasisStage(t2, gen, absPath), gen), EXECUTABLE_PATH, gen.executable), q) == Lookup(t2, q)
  {
    var t3 := BasisStage(t2, gen, absPath);
    DftKeyUntouched(gen, q);
    if gen.pathBasis.Some? {
      BasisFrame(t2, Str(gen.basis), gen.potential, gen.pathBasis.value, absPath, q);
    }
    SharedStagesFrame(t3, gen, q);
    SetPathFrame(SharedStages(t3, gen), EXECUTABLE_PATH, gen.executable, q);
  }

  /** The seven keys add_mo_index_range writes survive the later stages. */
  lemma LaterStagesKeepMo(t1: Value, gen: General, absPath: string -> string)
    ensures var r := SetPath(SharedStages(BasisStage(t1, gen, absPath), gen), EXECUTABLE_PATH, gen.executable);
      && Lookup(r, MO_INDEX_RANGE_PATH) == Lookup(t1, MO_INDEX_RANGE_PATH)
      && Lookup(r, ADDED_MOS_PATH) == Lookup(t1, ADDED_MOS_PATH)
      && Lookup(r, ADD_LAST_PATH) == Lookup(t1, ADD_LAST_PATH)
      && Lookup(r, QS_SCF_PATH) == Lookup(t1, QS_SCF_PATH)
      && Lookup(r, EIGENVALUES_PATH) == Lookup(t1, EIGENVALUES_PATH)
      && Lookup(r, EIGENVECTORS_PATH) == Lookup(t1, EIGENVECTORS_PATH)
      && Lookup(r, NDIGITS_PATH) == Lookup(t1, NDIGITS_PATH)
  {
    AfterRestartKeeps(t1, gen, absPath, MO_INDEX_RANGE_PATH);
    AfterRestartKeeps(t1, gen, absPath, ADDED_MOS_PATH);
    AfterRestartKeeps(t1, gen, absPath, ADD_LAST_PATH);
    AfterRestartKeeps(t1, gen, absPath, QS_SCF_PATH);
    AfterRestartKeeps(t1, gen, absPath, EIGENVALUES_PATH);
    AfterRestartKeeps(t1, gen, absPath, EIGENVECTORS_PATH);
    AfterRestartKeeps(t1, gen, absPath, NDIGITS_PATH);
  }

  /** The main tree prints the MO window when orbitals are computed. */
  lemma PipelineMo(t: Value, w: Window, gen: General, absPath: string -> string, absolute: string -> string)
    ensures var r := FinalJob(Main, t, Some(w), gen, absPath, absolute);
      && Lookup(r, MO_INDEX_RANGE_PATH) == Some(Str(MoIndexRangeText(w.lo, w.hi)))
      && Lookup(r, ADDED_MOS_PATH) == Some(Int(AddedMos(w.hi, w.nHomo)))
      && Lookup(r, ADD_LAST_PATH) == Some(Str("numeric"))
      && Lookup(r, QS_SCF_PATH) == Some(Int(0))
      && Lookup(r, EIGENVALUES_PATH) == Some(Str(""))
      && Lookup(r, EIGENVECTORS_PATH) == Some(Str(""))
      && Lookup(r, NDIGITS_PATH) == Some(Int(36))
  {
    var t1 := MoStage(Main, t, Some(w));
    MoKeywordsStated(t, w.nHomo, w.lo, w.hi);
    assert RestartStage(Main, t1, gen, absolute) == t1;
    LaterStagesKeepMo(t1, gen, absPath);
  }

  /** The guess tree restarts from the wave-function file when one is named. */
  lemma PipelineRestart(t: Value, w: Option<Window>, gen: General, absPath: string -> string, absolute: string -> string)
    requires Restarts(gen)
    ensures Lookup(FinalJob(Guess, t, w, gen, absPath, absolute), WFN_PATH) == Some(Str(absolute(gen.wfnRestart.value)))
  {
    AfterRestartKeeps(RestartStage(Guess, MoStage(Guess, t, w), gen, absolute), gen, absPath, WFN_PATH);
  }

  /** The MO and restart stages leave the exchange-correlation functional alone. */
  lemma EarlyStagesKeepAdmm(j: Job, t: Value, w: Option<Window>, gen: General, absolute: string -> string)
    ensures UsesAdmm(RestartStage(j, MoStage(j, t, w), gen, absolute)) == UsesAdmm(t)
  {
    var t1 := MoStage(j, t, w);
    if j == Main && w.Some? {
      assert MO[4] != XC_PBE_PATH[4] && ADDED_MOS_PATH[4] != XC_PBE_PATH[4];
      MoKeywordsFrame(t, w.value.nHomo, w.value.lo, w.value.hi, XC_PBE_PATH);
    }
    if j == Guess && Restarts(gen) {
      SetPathFrameAt(t1, WFN_PATH, Str(absolute(gen.wfnRestart.value)), XC_PBE_PATH, 4);
    }
  }

  /** A key add_basis writes survives the later stages. */
  lemma BasisKeyKept(t3: Value, gen: General, q: seq<string>)
    requires q != []
    requires (q[0] != SPECIFIC && q[0] != CELL_PARAMETERS && q[0] != CELL_ANGLES && q[0] != EXECUTABLE) ||
             (|q| > 4 && q[0] == SPECIFIC && q[3] == "dft" && q[4] in {"potential_file_name", "basis_set_file_name"})
    ensures Lookup(SetPath(SharedStages(t3, gen), EXECUTABLE_PATH, gen.executable), q) == Lookup(t3, q)
  {
    assert CELL_PARAMETERS_PATH[0] != q[0] && CELL_ANGLES_PATH[0] != q[0] && EXECUTABLE_PATH[0] != q[0];
    if q[0] != SPECIFIC {
      assert PERIODIC_PATH[0] != q[0] && CHARGE_PATH[0] != q[0];
      assert MULTIPLICITY_PATH[0] != q[0] && UKS_PATH[0] != q[0];
    } else {
      assert PERIODIC_PATH[3] != q[3] && CHARGE_PATH[4] != q[4];
      assert MULTIPLICITY_PATH[4] != q[4] && UKS_PATH[4] != q[4];
    }
    SharedStagesFrame(t3, gen, q);
    SetPathFrame(SharedStages(t3, gen), EXECUTABLE_PATH, gen.executable, q);
  }

  /** The four keys add_basis writes survive the later stages. */
  lemma LaterStagesKeepBasis(t3: Value, gen: General)
    ensures var r := SetPath(SharedStages(t3, gen), EXECUTABLE_PATH, gen.executable);
      && Lookup(r, BASIS_NAME_PATH) == Lookup(t3, BASIS_NAME_PATH)
      && Lookup(r, POTENTIAL_NAME_PATH) == Lookup(t3, POTENTIAL_NAME_PATH)
      && Lookup(r, POTENTIAL_FILE_PATH) == Lookup(t3, POTENTIAL_FILE_PATH)
      && Lookup(r, BASIS_FILE_PATH) == Lookup(t3, BASIS_FILE_PATH)
  {
    BasisKeyKept(t3, gen, BASIS_NAME_PATH);
    BasisKeyKept(t3, gen, POTENTIAL_NAME_PATH);
    BasisKeyKept(t3, gen, POTENTIAL_FILE_PATH);
    BasisKeyKept(t3, gen, BASIS_FILE_PATH);
  }

  /** With a basis directory, both trees name the basis, the potential and
      their files; the basis files contain the ADMM ones exactly when the
      functional is not PBE. */
  lemma PipelineBasis(j: Job, t: Value, w: Option<Window>, gen: General,
                      absPath: string -> string, absolute: string -> string)
    requires gen.pathBasis.Some?
    ensures var r := FinalJob(j, t, w, gen, absPath, absolute);
      var pb := gen.pathBasis.value;
      && Lookup(r, BASIS_NAME_PATH) == Some(Str(gen.basis))
      && Lookup(r, POTENTIAL_NAME_PATH) == Some(gen.potential)
      && Lookup(r, POTENTIAL_FILE_PATH) == Some(Str(absPath(Join(pb, "GTH_POTENTIALS"))))
      && Lookup(r, BASIS_FILE_PATH) == Some(List(BasisFileList(pb, UsesAdmm(t), absPath)))
  {
    var t2 := RestartStage(j, MoStage(j, t, w), gen, absolute);
    var t3 := BasisStage(t2, gen, absPath);
    EarlyStagesKeepAdmm(j, t, w, gen, absolute);
    BasisStated(t2, Str(gen.basis), gen.potential, gen.pathBasis.value, absPath);
    LaterStagesKeepBasis(t3, gen);
    assert FinalJob(j, t, w, gen, absPath, absolute) == SetPath(SharedStages(t3, gen), EXECUTABLE_PATH, gen.executable);
  }

  // ---------------------------------------------------------------------
  // Clean job trees

  /** The general settings the stages copy into a job tree are clean. */
  predicate GeneralClean(gen: General) {
    CleanTree(gen.potential) && CleanTree(gen.periodic) &&
    CleanTree(gen.executable) && CleanTree(gen.cellParameters)
  }

  /** Loaded general settings are: a value the schema lets through holds no
      plain mapping, and one the loader returns holds no `Settings`. */
  lemma GeneralCleanRead(g: map<string, Value>)
    requires GeneralValid(g) && forall k :: k in g ==> NoSettings(g[k])
    ensures GeneralClean(ReadGeneral(g))
  {
  }

  lemma MoSwitchesClean(t: Value)
    requires CleanTree(t)
    ensures CleanTree(WithMoSwitches(t))
  {
    var t3 := SetPath(t, ADD_LAST_PATH, Str("numeric"));
    var t4 := SetPath(t3, QS_SCF_PATH, Int(0));
    var t5 := SetPath(t4, EIGENVALUES_PATH, Str(""));
    var t6 := SetPath(t5, EIGENVECTORS_PATH, Str(""));
    SetPathClean(t, ADD_LAST_PATH, Str("numeric"));
    SetPathClean(t3, QS_SCF_PATH, Int(0));
    SetPathClean(t4, EIGENVALUES_PATH, Str(""));
    SetPathClean(t5, EIGENVECTORS_PATH, Str(""));
    SetPathClean(t6, NDIGITS_PATH, Int(36));
  }

  lemma MoStageClean(j: Job, t: Value, w: Option<Window>)
    requires CleanTree(t)
    ensures CleanTree(MoStage(j, t, w))
  {
    if j == Main && w.Some? {
      var nHomo, lo, hi := w.value.nHomo, w.value.lo, w.value.hi;
      var t1 := SetPath(t, MO_INDEX_RANGE_PATH, Str(MoIndexRangeText(lo, hi)));
      SetPathClean(t, MO_INDEX_RANGE_PATH, Str(MoIndexRangeText(lo, hi)));
      SetPathClean(t1, ADDED_MOS_PATH, Int(AddedMos(hi, nHomo)));
      MoSwitchesClean(SetPath(t1, ADDED_MOS_PATH, Int(AddedMos(hi, nHomo))));
    }
  }

  lemma BasisNamesClean(t: Value, basis: Value, potential: Value, potentialFile: Value)
    requires CleanTree(t) && CleanTree(basis) && CleanTree(potential) && CleanTree(potentialFile)
    ensures CleanTree(BasisNames(t, basis, potential, potentialFile))
  {
    var t1 := SetPath(t, BASIS_NAME_PATH, basis);
    SetPathClean(t, BASIS_NAME_PATH, basis);
    SetPathClean(t1, POTENTIAL_NAME_PATH, potential);
    SetPathClean(SetPath(t1, POTENTIAL_NAME_PATH, potential), POTENTIAL_FILE_PATH, potentialFile);
  }

  lemma SelectedBasisClean(t: Value, pathBasis: string, absPath: string -> string)
    requires CleanTree(t)
    ensures CleanTree(SelectedBasis(t, pathBasis, absPath))
  {
    var short := List(BasisFileList(pathBasis, false, absPath));
    var full := List(BasisFileList(pathBasis, true, absPath));
    assert CleanTree(short) && CleanTree(full);
    var t1 := SetPath(t, BASIS_FILE_PATH, short);
    SetPathClean(t, BASIS_FILE_PATH, short);
    TouchClean(t1, XC_PATH);
    SetPathClean(Touch(t1, XC_PATH), BASIS_FILE_PATH, full);
  }

  lemma BasisStageClean(t: Value, gen: General, absPath: string -> string)
    requires CleanTree(t) && CleanTree(gen.potential)
    ensures CleanTree(BasisStage(t, gen, absPath))
  {
    if gen.pathBasis.Some? {
      var pb := gen.pathBasis.value;
      var file := Str(absPath(Join(pb, "GTH_POTENTIALS")));
      BasisNamesClean(t, Str(gen.basis), gen.potential, file);
      SelectedBasisClean(BasisNames(t, Str(gen.basis), gen.potential, file), pb, absPath);
    }
  }

  lemma SharedStagesClean(t: Value, gen: General)
    requires CleanTree(t) && GeneralClean(gen)
    ensures CleanTree(SharedStages(t, gen))
  {
    var v := if gen.fileCellParameters == Null then gen.cellParameters else Null;
    var c1 := SetPath(t, CELL_PARAMETERS_PATH, v);
    SetPathClean(t, CELL_PARAMETERS_PATH, v);
    SetPathClean(c1, CELL_ANGLES_PATH, Null);
    SetPathClean(SetPath(c1, CELL_ANGLES_PATH, Null), CELL_ANGLES_PATH, Null);
    var t1 := WithCell(t, gen.cellParameters, gen.fileCellParameters);
    var t2 := SetPath(t1, PERIODIC_PATH, gen.periodic);
    var t3 := SetPath(t2, CHARGE_PATH, Int(gen.charge));
    SetPathClean(t1, PERIODIC_PATH, gen.periodic);
    SetPathClean(t2, CHARGE_PATH, Int(gen.charge));
    if gen.multiplicity > 1 {
      SetPathClean(t3, MULTIPLICITY_PATH, Int(gen.multiplicity));
      SetPathClean(SetPath(t3, MULTIPLICITY_PATH, Int(gen.multiplicity)), UKS_PATH, Str(""));
    }
  }

  /** Every stage writes a clean value, so a clean job tree
      stays clean to the end. */
  lemma FinalJobClean(j: Job, t: Value, w: Option<Window>, gen: General,
                            absPath: string -> string, absolute: string -> string)
    requires CleanTree(t) && GeneralClean(gen)
    ensures CleanTree(FinalJob(j, t, w, gen, absPath, absolute))
  {
    var t1 := MoStage(j, t, w);
    MoStageClean(j, t, w);
    if j == Guess && Restarts(gen) {
      SetPathClean(t1, WFN_PATH, Str(absolute(gen.wfnRestart.value)));
    }
    var t2 := RestartStage(j, t1, gen, absolute);
    BasisStageClean(t2, gen, absPath);
    var t3 := BasisStage(t2, gen, absPath);
    SharedStagesClean(t3, gen);
    SetPathClean(SharedStages(t3, gen), EXECUTABLE_PATH, gen.executable);
  }
}
