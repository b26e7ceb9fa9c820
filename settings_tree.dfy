/** The nested settings trees of the two CP2K jobs, with the operations of
    qmflows' `Settings` that the sanitizer uses: attribute-path reads and
    assignments (which create missing sections), conversion of a dict into a
    `Settings`, and `overlay`, the recursive merge in which the right-hand
    tree wins. */
module SettingsTree {
  import opened Wrappers
  import opened Values

  /** The value at a key path, descending through mappings; None when a key
      is missing or a value on the way is not a mapping. */
  function Lookup(t: Value, p: seq<string>): Option<Value>
    decreases |p|
  {
    if p == [] then Some(t)
    else if t.Dict? && p[0] in t.entries then Lookup(t.entries[p[0]], p[1..])
    else None
  }

  function EntriesOf(t: Value): map<string, Value> {
    if t.Dict? then t.entries else map[]
  }

  function KindOf(t: Value): Kind {
    if t.Dict? then t.kind else Settings
  }

  /** `s.a.b.c = v` on a `Settings`: every missing section on the way is
      created as an empty `Settings`. A non-mapping met on the way (where
      the source raises AttributeError) is replaced by a fresh section; the
      sanitizer's invariant rules that case out (see ShapedDescendable). */
  function SetPath(t: Value, p: seq<string>, v: Value): (r: Value)
    requires p != []
    ensures r.Dict? && Lookup(r, p) == Some(v)
    ensures r.entries.Keys == EntriesOf(t).Keys + {p[0]}
    ensures r.kind == KindOf(t)
    decreases |p|
  {
    var m := EntriesOf(t);
    if |p| == 1 then Dict(KindOf(t), m[p[0] := v])
    else
      var child := if p[0] in m then m[p[0]] else Dict(Settings, map[]);
      Dict(KindOf(t), m[p[0] := SetPath(child, p[1..], v)])
  }

  /** A read through attribute access (`s.a.b`): qmflows' `Settings` inserts
      an empty section for a missing key. */
  function Touch(t: Value, p: seq<string>): (r: Value)
    requires p != []
    ensures Lookup(r, p).Some?
    ensures Lookup(t, p).Some? ==> r == t
    ensures Lookup(t, p).None? ==> Lookup(r, p) == Some(Dict(Settings, map[]))
  {
    if Lookup(t, p).None? then SetPath(t, p, Dict(Settings, map[])) else t
  }

  /** p and q name different keys at some depth, so neither lies inside the other. */
  predicate Branches(p: seq<string>, q: seq<string>) {
    exists i :: 0 <= i < |p| && i < |q| && p[i] != q[i]
  }

  /** Assigning at p leaves every path that branches off p as it was. */
  lemma {:induction false} SetPathFrameAt(t: Value, p: seq<string>, v: Value, q: seq<string>, i: nat)
    requires p != [] && i < |p| && i < |q| && p[i] != q[i]
    ensures Lookup(SetPath(t, p, v), q) == Lookup(t, q)
    decreases i
  {
    var m := EntriesOf(t);
    if p[0] != q[0] {
      OtherEntry(t, p, v, q[0]);
    } else if |p| > 1 {
      var child := if p[0] in m then m[p[0]] else Dict(Settings, map[]);
      SetPathFrameAt(child, p[1..], v, q[1..], i - 1);
    }
  }

  /** An assignment at p leaves the top-level entries other than p[0] alone. */
  lemma OtherEntry(t: Value, p: seq<string>, v: Value, k: string)
    requires p != [] && k != p[0]
    ensures k in SetPath(t, p, v).entries <==> k in EntriesOf(t)
    ensures k in EntriesOf(t) ==> SetPath(t, p, v).entries[k] == EntriesOf(t)[k]
  {
  }

  lemma SetPathFrame(t: Value, p: seq<string>, v: Value, q: seq<string>)
    requires p != [] && Branches(p, q)
    ensures Lookup(SetPath(t, p, v), q) == Lookup(t, q)
  {
    var i :| 0 <= i < |p| && i < |q| && p[i] != q[i];
    SetPathFrameAt(t, p, v, q, i);
  }

  /** A read that creates a section leaves every path branching off it alone. */
  lemma TouchFrame(t: Value, p: seq<string>, q: seq<string>)
    requires p != [] && Branches(p, q)
    ensures Lookup(Touch(t, p), q) == Lookup(t, q)
  {
    if Lookup(t, p).None? {
      SetPathFrame(t, p, Dict(Settings, map[]), q);
    }
  }

  /** A second assignment at the same path overwrites the first. */
  lemma {:induction false} SetPathTwice(t: Value, p: seq<string>, a: Value, b: Value)
    requires p != []
    ensures SetPath(SetPath(t, p, a), p, b) == SetPath(t, p, b)
    decreases |p|
  {
    var m := EntriesOf(t);
    if |p| == 1 {
      OverwriteEntry(m, p[0], a, b);
    } else {
      var child := if p[0] in m then m[p[0]] else Dict(Settings, map[]);
      SetPathTwice(child, p[1..], a, b);
      SetPathTwiceStep(t, p, a, b);
    }
  }

  /** The step of SetPathTwice below the first key. */
  lemma SetPathTwiceStep(t: Value, p: seq<string>, a: Value, b: Value)
    requires |p| > 1
    requires var m := EntriesOf(t);
      var child := if p[0] in m then m[p[0]] else Dict(Settings, map[]);
      SetPath(SetPath(child, p[1..], a), p[1..], b) == SetPath(child, p[1..], b)
    ensures SetPath(SetPath(t, p, a), p, b) == SetPath(t, p, b)
  {
    var m := EntriesOf(t);
    var child := if p[0] in m then m[p[0]] else Dict(Settings, map[]);
    var x := SetPath(child, p[1..], a);
    var r1 := SetPath(t, p, a);
    assert r1.entries == m[p[0] := x];
    assert SetPath(r1, p, b) == Dict(KindOf(t), r1.entries[p[0] := SetPath(x, p[1..], b)]);
    OverwriteEntry(m, p[0], x, SetPath(child, p[1..], b));
  }

  lemma OverwriteEntry(m: map<string, Value>, k: string, x: Value, y: Value)
    ensures m[k := x][k := y] == m[k := y]
  {
  }

  /** CP2K section names: the keys the sanitizer descends through. */
  const SECTIONS: set<string> :=
    {"specific", "cp2k", "force_eval", "dft", "subsys", "cell", "print", "mo", "each", "scf", "xc"}

  /** Every key of p but the last is a section name. */
  predicate SectionChain(p: seq<string>) {
    forall i :: 0 <= i < |p| - 1 ==> p[i] in SECTIONS
  }

  /** Every value stored under a section name, all the way down such names,
      is a mapping. */
  predicate Shaped(t: Value) {
    match t
    case Dict(_, m) => forall k :: k in m && k in SECTIONS ==> m[k].Dict? && Shaped(m[k])
    case _ => true
  }

  /** Every mapping reachable through mappings is a `Settings`: qmflows
      converts nested dicts when it builds or assigns into a `Settings`. */
  predicate AllSettings(t: Value) {
    match t
    case Dict(kind, m) => kind == Settings && forall k :: k in m ==> AllSettings(m[k])
    case _ => true
  }

  /** What wrapping a YAML value in `Settings` gives: every mapping reached
      through mappings is a `Settings`, and a value that is not a mapping
      holds no `Settings` in its lists or tuples. */
  predicate CleanTree(t: Value) {
    match t
    case Dict(kind, m) => kind == Settings && forall k :: k in m ==> CleanTree(m[k])
    case _ => NoSettings(t)
  }

  /** The assignment `t.p[0].p[1]... = v` succeeds in the source: each
      object it takes an attribute of exists as a `Settings` or is created. */
  predicate Descendable(t: Value, p: seq<string>)
    decreases |p|
  {
    p == [] || (t.IsSettings() && (p[0] !in t.entries || |p| == 1 || Descendable(t.entries[p[0]], p[1..])))
  }

  /** On a tree of the sanitizer's shape every path through section names
      can be assigned without error. */
  lemma {:induction false} ShapedDescendable(t: Value, p: seq<string>)
    requires t.IsSettings() && Shaped(t) && AllSettings(t) && SectionChain(p)
    ensures Descendable(t, p)
    decreases |p|
  {
    if |p| > 1 && p[0] in t.entries {
      assert p[0] in SECTIONS;
      assert SectionChain(p[1..]) by {
        forall i | 0 <= i < |p[1..]| - 1 ensures p[1..][i] in SECTIONS {
          assert p[1..][i] == p[i + 1];
        }
      }
      ShapedDescendable(t.entries[p[0]], p[1..]);
    }
  }

  /** An assignment along section names keeps the shape, provided a value put
      under a section name is itself a shaped mapping. */
  lemma {:induction false} SetPathShaped(t: Value, p: seq<string>, v: Value)
    requires p != [] && Shaped(t) && SectionChain(p)
    requires p[|p| - 1] in SECTIONS ==> v.Dict? && Shaped(v)
    ensures Shaped(SetPath(t, p, v))
    decreases |p|
  {
    var m := EntriesOf(t);
    if |p| > 1 {
      assert p[0] in SECTIONS;
      var child := if p[0] in m then m[p[0]] else Dict(Settings, map[]);
      assert SectionChain(p[1..]) by {
        forall i | 0 <= i < |p[1..]| - 1 ensures p[1..][i] in SECTIONS {
          assert p[1..][i] == p[i + 1];
        }
      }
      assert p[1..][|p[1..]| - 1] == p[|p| - 1];
      SetPathShaped(child, p[1..], v);
    }
  }

  /** An assignment keeps every mapping a `Settings` when the value does. */
  lemma {:induction false} SetPathAllSettings(t: Value, p: seq<string>, v: Value)
    requires p != [] && AllSettings(t) && AllSettings(v)
    ensures AllSettings(SetPath(t, p, v))
    decreases |p|
  {
    var m := EntriesOf(t);
    if |p| > 1 {
      var child := if p[0] in m then m[p[0]] else Dict(Settings, map[]);
      SetPathAllSettings(child, p[1..], v);
    }
  }

  /** `Settings(d)`: the dict and every dict nested in it become `Settings`. */
  function ToSettings(v: Value): (r: Value)
    ensures AllSettings(r)
    ensures v.Dict? <==> r.Dict?
    ensures v.Dict? ==> r.entries.Keys == v.entries.Keys
    ensures !v.Dict? ==> r == v
  {
    match v
    case Dict(_, m) => Dict(Settings, map k | k in m :: ToSettings(m[k]))
    case _ => v
  }

  lemma {:induction false} ToSettingsShaped(v: Value)
    requires Shaped(v)
    ensures Shaped(ToSettings(v))
  {
    match v
    case Dict(_, m) =>
      forall k | k in m && k in SECTIONS ensures ToSettings(v).entries[k].Dict? && Shaped(ToSettings(v).entries[k]) {
        ToSettingsShaped(m[k]);
      }
    case _ =>
  }

  /** `Settings(d)` on a value without `Settings` gives a clean tree. */
  lemma {:induction false} ToSettingsClean(v: Value)
    requires NoSettings(v)
    ensures CleanTree(ToSettings(v))
  {
    match v
    case Dict(_, m) =>
      forall k | k in m ensures CleanTree(ToSettings(v).entries[k]) {
        ToSettingsClean(m[k]);
      }
    case _ =>
  }

  /** Assigning a clean value into a clean tree keeps it clean. */
  lemma {:induction false} SetPathClean(t: Value, p: seq<string>, v: Value)
    requires p != [] && CleanTree(t) && CleanTree(v)
    ensures CleanTree(SetPath(t, p, v))
    decreases |p|
  {
    var m := EntriesOf(t);
    if |p| > 1 {
      var child := if p[0] in m then m[p[0]] else Dict(Settings, map[]);
      SetPathClean(child, p[1..], v);
    }
  }

  lemma TouchClean(t: Value, p: seq<string>)
    requires p != [] && CleanTree(t)
    ensures CleanTree(Touch(t, p))
  {
    if Lookup(t, p).None? {
      SetPathClean(t, p, Dict(Settings, map[]));
    }
  }

  /** `base.overlay(over)`: a copy of `base` recursively updated with `over`.
      Where both hold a `Settings` the two are merged; anywhere else the
      value of `over` wins. */
  function Merge(base: Value, over: Value): (r: Value)
    ensures base.IsSettings() && over.IsSettings() ==>
              r.IsSettings() && r.entries.Keys == base.entries.Keys + over.entries.Keys
    ensures !(base.IsSettings() && over.IsSettings()) ==> r == over
    decreases base
  {
    if base.IsSettings() && over.IsSettings() then
      Dict(Settings, map k | k in base.entries.Keys + over.entries.Keys ::
        if k in over.entries then
          (if k in base.entries then Merge(base.entries[k], over.entries[k]) else over.entries[k])
        else base.entries[k])
    else over
  }

  /** A value the user set (anything but a section) survives the overlay. */
  lemma {:induction false} MergeUserWins(base: Value, over: Value, p: seq<string>)
    requires Lookup(over, p).Some? && !Lookup(over, p).value.IsSettings()
    ensures Lookup(Merge(base, over), p) == Lookup(over, p)
    decreases |p|
  {
    if p != [] && base.IsSettings() && over.IsSettings() {
      var k := p[0];
      if k in base.entries {
        MergeUserWins(base.entries[k], over.entries[k], p[1..]);
      }
    }
  }

  /** p is unset in `over` below sections both trees share. */
  predicate UnsetIn(base: Value, over: Value, p: seq<string>)
    decreases |p|
  {
    p != [] && base.IsSettings() && over.IsSettings() &&
    (p[0] !in over.entries || (p[0] in base.entries && UnsetIn(base.entries[p[0]], over.entries[p[0]], p[1..])))
  }

  /** The template supplies the value of every key the user left unset. */
  lemma {:induction false} MergeKeepsDefaults(base: Value, over: Value, p: seq<string>)
    requires UnsetIn(base, over, p)
    ensures Lookup(Merge(base, over), p) == Lookup(base, p)
    decreases |p|
  {
    var k := p[0];
    if k in over.entries {
      MergeKeepsDefaults(base.entries[k], over.entries[k], p[1..]);
    }
  }

  lemma {:induction false} MergeShaped(base: Value, over: Value)
    requires Shaped(base) && Shaped(over)
    ensures Shaped(Merge(base, over))
    decreases base
  {
    if base.IsSettings() && over.IsSettings() {
      var r := Merge(base, over);
      forall k | k in r.entries && k in SECTIONS ensures r.entries[k].Dict? && Shaped(r.entries[k]) {
        if k in over.entries && k in base.entries {
          MergeShaped(base.entries[k], over.entries[k]);
        }
      }
    }
  }

  lemma {:induction false} MergeAllSettings(base: Value, over: Value)
    requires AllSettings(base) && AllSettings(over)
    ensures AllSettings(Merge(base, over))
    decreases base
  {
    if base.IsSettings() && over.IsSettings() {
      var r := Merge(base, over);
      forall k | k in r.entries ensures AllSettings(r.entries[k]) {
        if k in over.entries && k in base.entries {
          MergeAllSettings(base.entries[k], over.entries[k]);
        }
      }
    }
  }

  lemma {:induction false} MergeClean(base: Value, over: Value)
    requires CleanTree(base) && CleanTree(over)
    ensures CleanTree(Merge(base, over))
    decreases base
  {
    if base.IsSettings() && over.IsSettings() {
      var r := Merge(base, over);
      forall k | k in r.entries ensures CleanTree(r.entries[k]) {
        if k in over.entries && k in base.entries {
          MergeClean(base.entries[k], over.entries[k]);
        }
      }
    }
  }
}
