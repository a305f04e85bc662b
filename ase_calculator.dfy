/** The bookkeeping of `AMSCalculator`, the ASE calculator that runs AMS
    engines through PLAMS. Two copies of the module exist
    (`plams_experimental` and the older `plasm_experimental`); they share one
    model, and `Variant` records the two places where they differ.

    What is modelled: the boolean-string canonicaliser `is_ams_true`, the
    extractors' `set_settings`/`check_settings`, the Voigt-order selection of
    stress components, the class-wide per-name run counter, the ordered
    extractor list, `implemented_properties`, `ensure_property`,
    `results_from_ams_results`, the guards of `calculate`, the construction
    of the run request, `stop_worker` and the Pipe/Job dispatch of `__new__`.
    PLAMS, ASE and the AMS driver themselves are foreign: their results come
    in as parameters. */
module AseCalculator {
  import opened Common
  import opened Text

  /** Which copy of the module: `plams_experimental` or `plasm_experimental`. */
  datatype Variant = Plams | Plasm

  datatype Error =
    | AttributeError(attribute: string)
    | NotImplementedError(message: string)
    | TypeError(message: string)
    | ValueError(message: string)
    | RuntimeError(message: string)
    | IndexError

  /** How a call that may raise ended. */
  datatype Outcome = Done | Raised(error: Error)

  // ---------------------------------------------------------------------------
  // PLAMS Settings, flattened to the leaves
  // ---------------------------------------------------------------------------

  /** A key path such as `input.ams.Properties.Gradients`. */
  type Path = seq<string>

  /** A leaf value. `Node` stands for a nested `Settings` object; reading a
      missing key of a `Settings` yields an empty one. */
  datatype Value = Str(s: string) | Bool(b: bool) | Int(i: int) | Real(r: real) | NoneValue | Node

  /** A nested `Settings` object, as the map from the path of each leaf to its value. */
  type Settings = map<Path, Value>

  const InputAmsPath: Path := ["input", "ams"]
  const PropertiesPath: Path := ["input", "ams", "Properties"]
  const GradientsPath: Path := ["input", "ams", "Properties", "Gradients"]
  const StressTensorPath: Path := ["input", "ams", "Properties", "StressTensor"]
  const TaskPath: Path := ["input", "ams", "Task"]
  const SystemPath: Path := ["input", "ams", "system"]
  const EngineRestartPath: Path := ["input", "ams", "EngineRestart"]
  const AmsWorkerPath: Path := ["amsworker"]
  const PrevResultsPath: Path := ["amsworker", "prev_results"]

  /** `p` lies in the subtree rooted at `prefix` (or is `prefix` itself). */
  predicate Under(p: Path, prefix: Path) {
    |prefix| <= |p| && p[..|prefix|] == prefix
  }

  /** `key in settings.a.b`: some leaf lies at or below the path. */
  predicate Has(s: Settings, p: Path) {
    exists q :: q in s && Under(q, p)
  }

  /** `settings.a.b.c` read on a copy: the leaf, or an empty `Settings`. */
  function Lookup(s: Settings, p: Path): Value {
    if p in s then s[p] else Node
  }

  // ---------------------------------------------------------------------------
  // canonicalize_string, is_ams_true, is_ams_false
  // ---------------------------------------------------------------------------

  /** `canonicalize_string`: a string is lowered, then stripped; any other
      value has no `lower` and comes back unchanged. */
  function Canonicalize(v: Value): (r: Value)
    ensures !v.Str? ==> r == v
    ensures r.Str? ==> NoCapitals(r.s)
    ensures r.Str? && r.s != [] ==> !IsSpace(r.s[0]) && !IsSpace(r.s[|r.s| - 1])
  {
    match v
    case Str(s) =>
      var c := Strip(Lower(s));
      StrippedLowerHasNoCapitals(s);
      Str(c)
    case _ => v
  }

  /** No ASCII capital letter occurs in `s`. */
  predicate NoCapitals(s: string) {
    forall i :: 0 <= i < |s| ==> !('A' <= s[i] <= 'Z')
  }

  lemma NoCapitalsInSlice(s: string, a: nat, b: nat)
    requires NoCapitals(s) && a <= b <= |s|
    ensures NoCapitals(s[a..b])
  {
    forall i | 0 <= i < b - a
      ensures !('A' <= s[a..b][i] <= 'Z')
    {
      assert s[a..b][i] == s[a + i];
    }
  }

  lemma StrippedLowerHasNoCapitals(s: string)
    ensures NoCapitals(Strip(Lower(s)))
  {
    var l := Lower(s);
    forall i | 0 <= i < |l|
      ensures !('A' <= l[i] <= 'Z')
    {
      assert l[i] == ToLower(s[i]);
    }
    var left := StripLeft(l);
    NoCapitalsInSlice(l, |l| - |left|, |l|);
    var right := StripRight(left);
    NoCapitalsInSlice(left, 0, |right|);
  }

  lemma LowerKeepsNoCapitals(s: string)
    requires NoCapitals(s)
    ensures Lower(s) == s
  {
    forall i | 0 <= i < |s|
      ensures Lower(s)[i] == s[i]
    {
      assert Lower(s)[i] == ToLower(s[i]);
    }
  }

  /** Canonicalising is idempotent. */
  lemma CanonicalizeIdempotent(v: Value)
    ensures Canonicalize(Canonicalize(v)) == Canonicalize(v)
  {
    if v.Str? {
      var c := Strip(Lower(v.s));
      assert Canonicalize(v) == Str(c);
      StrippedLowerHasNoCapitals(v.s);
      LowerKeepsNoCapitals(c);
      assert Canonicalize(Str(c)) == Str(Strip(c));
      StripIdempotent(Lower(v.s));
    }
  }

  /** The numeric value Python's `==` sees in a bool, an int or a float. */
  function Numeric(v: Value): Option<real> {
    match v
    case Bool(b) => Some(if b then 1.0 else 0.0)
    case Int(i) => Some(i as real)
    case Real(r) => Some(r)
    case _ => None
  }

  /** Python's `==` between two values: `True == 1 == 1.0`. */
  predicate PyEquals(a: Value, b: Value) {
    if Numeric(a).Some? && Numeric(b).Some? then Numeric(a) == Numeric(b) else a == b
  }

  /** `is_ams_true`: `canonicalize_string(value) in [True, "true", "yes"]`. */
  predicate IsAmsTrue(v: Value) {
    var c := Canonicalize(v);
    PyEquals(c, Bool(true)) || PyEquals(c, Str("true")) || PyEquals(c, Str("yes"))
  }

  predicate IsAmsFalse(v: Value) {
    !IsAmsTrue(v)
  }

  /** Exactly these values count as true: a string reading "true" or "yes"
      once lowered and stripped, and the numbers equal to `True`, which are
      `True`, `1` and `1.0`. Everything else, `None` and a missing key
      included, counts as false. */
  lemma IsAmsTrueIff(v: Value)
    ensures IsAmsTrue(v) <==>
      || (v.Str? && (Strip(Lower(v.s)) == "true" || Strip(Lower(v.s)) == "yes"))
      || v == Bool(true) || v == Int(1) || v == Real(1.0)
    ensures IsAmsFalse(v) <==> !IsAmsTrue(v)
  {
    if v.Str? {
      StrIsAmsTrue(v.s);
    } else {
      NonStrIsAmsTrue(v);
    }
  }

  /** A string is compared after canonicalising, and never as a number. */
  lemma StrIsAmsTrue(s: string)
    ensures IsAmsTrue(Str(s)) <==> Strip(Lower(s)) == "true" || Strip(Lower(s)) == "yes"
  {
    var c := Strip(Lower(s));
    assert Canonicalize(Str(s)) == Str(c);
    assert Numeric(Str(c)).None?;
    assert IsAmsTrue(Str(s)) == (Str(c) == Str("true") || Str(c) == Str("yes"));
  }

  /** Any other value is left alone by canonicalising and compared by number. */
  lemma NonStrIsAmsTrue(v: Value)
    requires !v.Str?
    ensures IsAmsTrue(v) <==> v == Bool(true) || v == Int(1) || v == Real(1.0)
  {
    assert Canonicalize(v) == v;
    match v
    case Bool(b) =>
      assert Numeric(v) == Some(if b then 1.0 else 0.0);
    case Int(i) =>
      assert Numeric(v) == Some(i as real);
      assert IsAmsTrue(v) == (i as real == 1.0);
    case Real(r) =>
      assert Numeric(v) == Some(r);
    case NoneValue =>
      assert Numeric(v) == None;
    case Node =>
      assert Numeric(v) == None;
  }

  lemma LowerYes()
    ensures Lower("Yes") == "yes"
  {
    assert Lower("es") == "es";
  }

  lemma LowerTrue()
    ensures Lower(" TRUE\n") == " true\n"
  {
    assert Lower("\n") == "\n";
    assert Lower("E\n") == "e\n";
    assert Lower("UE\n") == "ue\n";
    assert Lower("RUE\n") == "rue\n";
    assert Lower("TRUE\n") == "true\n";
  }

  /** "Yes", the value `set_settings` writes, reads as true. */
  lemma YesIsTrue()
    ensures IsAmsTrue(Str("Yes"))
  {
    CanonicalYes();
  }

  lemma CanonicalYes()
    ensures Canonicalize(Str("Yes")) == Str("yes")
  {
    LowerYes();
    StripFixedPoint("yes");
  }

  /** Case and surrounding whitespace do not matter: " TRUE\n" reads as true. */
  lemma PaddedTrueIsTrue()
    ensures IsAmsTrue(Str(" TRUE\n"))
  {
    CanonicalPaddedTrue();
  }

  lemma CanonicalPaddedTrue()
    ensures Canonicalize(Str(" TRUE\n")) == Str("true")
  {
    LowerTrue();
    StripPaddedTrue();
  }

  lemma StripPaddedTrue()
    ensures Strip(" true\n") == "true"
  {
    StripLeftPaddedTrue();
    StripRightPaddedTrue();
  }

  lemma StripLeftPaddedTrue()
    ensures StripLeft(" true\n") == "true\n"
  {
    StripLeftDropsSpace();
    StripLeftKeepsT();
  }

  lemma StripLeftDropsSpace()
    ensures StripLeft(" true\n") == StripLeft("true\n")
  {
    assert IsSpace(' ');
    assert " true\n"[1..] == "true\n";
  }

  lemma StripLeftKeepsT()
    ensures StripLeft("true\n") == "true\n"
  {
    assert !IsSpace('t');
  }

  lemma StripRightPaddedTrue()
    ensures StripRight("true\n") == "true"
  {
    assert "true\n"[..4] == "true";
    assert StripRight("true") == "true";
  }

  /** "No", the number 2 and a missing key read as false. */
  lemma OtherValuesAreFalse()
    ensures IsAmsFalse(Str("No"))
    ensures IsAmsFalse(Int(2)) && IsAmsFalse(Node)
  {
    CanonicalNo();
  }

  lemma CanonicalNo()
    ensures Canonicalize(Str("No")) == Str("no")
  {
    LowerNo();
    StripFixedPoint("no");
  }

  lemma LowerNo()
    ensures Lower("No") == "no"
  {
    assert Lower("o") == "o";
  }

  // ---------------------------------------------------------------------------
  // Property extractors
  // ---------------------------------------------------------------------------

  /** The extractor classes. `Custom` is a user extractor from
      `settings["Extractors"]`: it either keeps the base class's
      `set_settings`/`check_settings` (`flag == None`) or, like the force and
      stress extractors, depends on one boolean flag of the settings. */
  datatype Kind = Energy | Forces | Stress | Charges | Custom(extractorName: string, flag: Option<Path>)

  /** The `name` class attribute. */
  function Name(k: Kind): string {
    match k
    case Energy => "energy"
    case Forces => "forces"
    case Stress => "stress"
    case Charges => "charges"
    case Custom(n, _) => n
  }

  /** The settings flag the extractor's `set_settings` writes and its
      `check_settings` reads, if it overrides them. */
  function Flag(k: Kind): Option<Path> {
    match k
    case Forces => Some(GradientsPath)
    case Stress => Some(StressTensorPath)
    case Custom(_, flag) => flag
    case _ => None
  }

  /** An extractor object; Python compares them by identity. */
  class Extractor {
    const kind: Kind

    constructor (kind: Kind)
      ensures this.kind == kind
    {
      this.kind := kind;
    }
  }

  /** `extractor.set_settings(settings)`: the force and stress extractors set
      their flag to "Yes" and return the settings; the base class returns
      `None`. */
  function SetSettings(k: Kind, s: Settings): (r: Option<Settings>)
    ensures Flag(k).None? <==> r.None?
    ensures r.Some? ==> r.value.Keys == s.Keys + {Flag(k).value}
    ensures r.Some? ==> forall p :: p in s && p != Flag(k).value ==> r.value[p] == s[p]
  {
    match Flag(k)
    case None => None
    case Some(p) => Some(s[p := Str("Yes")])
  }

  /** `extractor.check_settings(settings)`: the base class accepts anything,
      `None` included; the force and stress extractors read their flag from
      `settings.copy()`, which fails on `None`. */
  function CheckSettings(k: Kind, s: Option<Settings>): Result<bool, Error> {
    match Flag(k)
    case None => Ok(true)
    case Some(p) => if s.None? then Err(AttributeError("copy")) else Ok(IsAmsTrue(Lookup(s.value, p)))
  }

  predicate Accepted(k: Kind, s: Settings) {
    CheckSettings(k, Some(s)) == Ok(true)
  }

  /** Whatever `set_settings` returns passes `check_settings`: the flag it
      writes reads as true, and for the base class both `None` and anything
      else are accepted. */
  lemma SetThenCheck(k: Kind, s: Settings)
    ensures CheckSettings(k, SetSettings(k, s)) == Ok(true)
  {
    if Flag(k).Some? {
      YesIsTrue();
    }
  }

  /** The base `check_settings` is always true. */
  lemma BaseCheckAlwaysTrue(k: Kind, s: Option<Settings>)
    requires Flag(k).None?
    ensures CheckSettings(k, s) == Ok(true)
  {
  }

  // ---------------------------------------------------------------------------
  // StressExtractor.extract: Voigt order
  // ---------------------------------------------------------------------------

  /** `D = sum(atoms.get_pbc())`: the number of periodic directions. */
  function PeriodicDimension(pbc: seq<bool>): nat {
    if pbc == [] then 0 else PeriodicDimension(pbc[..|pbc| - 1]) + (if pbc[|pbc| - 1] then 1 else 0)
  }

  /** The directions `pbc` marks periodic. */
  function PeriodicDirections(pbc: seq<bool>): set<nat> {
    set i: nat | i < |pbc| && pbc[i]
  }

  /** The sum counts exactly the periodic directions, so it is at most the
      number of directions. */
  lemma {:induction false} PeriodicDimensionCounts(pbc: seq<bool>)
    ensures PeriodicDimension(pbc) == |PeriodicDirections(pbc)|
    ensures PeriodicDimension(pbc) <= |pbc|
    decreases |pbc|
  {
    if pbc != [] {
      var n := |pbc| - 1;
      var front := pbc[..n];
      PeriodicDimensionCounts(front);
      assert PeriodicDirections(pbc) == PeriodicDirections(front) + (if pbc[n] then {n} else {});
      assert n !in PeriodicDirections(front);
    }
  }

  /** The tensor entry behind each of the six Voigt components xx, yy, zz, yz, xz, xy. */
  const VoigtPairs: seq<(nat, nat)> := [(0, 0), (1, 1), (2, 2), (1, 2), (0, 2), (0, 1)]

  predicate Present(st: seq<seq<real>>, i: nat, j: nat) {
    i < |st| && j < |st[i]|
  }

  /** A component is read from the tensor only when both its indices are
      below the periodic dimension. */
  predicate Reads(k: nat, d: nat)
    requires k < 6
  {
    VoigtPairs[k].0 < d && VoigtPairs[k].1 < d
  }

  /** The component selection of `StressExtractor.extract` (without the
      Hartree/Bohr^D scaling): the nested `if D >= 1`, `D >= 2`, `D >= 3`
      blocks, each reading its entries in the source's order; an entry that
      is not there raises IndexError. */
  function StressVoigt(st: seq<seq<real>>, d: nat): (r: Result<seq<real>, Error>)
    ensures r.Ok? ==> |r.value| == 6
  {
    if d < 1 then Ok([0.0, 0.0, 0.0, 0.0, 0.0, 0.0])
    else if !Present(st, 0, 0) then Err(IndexError)
    else if d < 2 then Ok([st[0][0], 0.0, 0.0, 0.0, 0.0, 0.0])
    else if !Present(st, 1, 1) || !Present(st, 0, 1) then Err(IndexError)
    else if d < 3 then Ok([st[0][0], st[1][1], 0.0, 0.0, 0.0, st[0][1]])
    else if !Present(st, 2, 2) || !Present(st, 1, 2) || !Present(st, 0, 2) then Err(IndexError)
    else Ok([st[0][0], st[1][1], st[2][2], st[1][2], st[0][2], st[0][1]])
  }

  /** The stress is the 6-vector xx, yy, zz, yz, xz, xy: component k is the
      tensor entry `VoigtPairs[k]` when both its indices are below D and 0
      otherwise; the selection fails exactly when an entry it needs is missing. */
  lemma StressVoigtOrder(st: seq<seq<real>>, d: nat)
    ensures StressVoigt(st, d).Ok? <==>
      forall k :: 0 <= k < 6 && Reads(k, d) ==> Present(st, VoigtPairs[k].0, VoigtPairs[k].1)
    ensures StressVoigt(st, d).Ok? ==> forall k :: 0 <= k < 6 ==>
      StressVoigt(st, d).value[k] == if Reads(k, d) then st[VoigtPairs[k].0][VoigtPairs[k].1] else 0.0
  {
    var r := StressVoigt(st, d);
    if !r.Ok? {
      if d < 2 {
        assert Reads(0, d);
      } else if !Present(st, 1, 1) {
        assert Reads(1, d);
      } else if !Present(st, 0, 1) {
        assert Reads(5, d);
      } else if !Present(st, 2, 2) {
        assert Reads(2, d);
      } else if !Present(st, 1, 2) {
        assert Reads(3, d);
      } else {
        assert Reads(4, d);
      }
    }
  }

  /** Fewer periodic directions never read more of the tensor: a
      non-periodic system gives six zeros whatever the tensor is. */
  lemma NonPeriodicStressIsZero(st: seq<seq<real>>)
    ensures StressVoigt(st, 0) == Ok([0.0, 0.0, 0.0, 0.0, 0.0, 0.0])
    ensures PeriodicDimension([false, false, false]) == 0
  {
    assert [false, false, false][..2] == [false, false];
    assert [false, false][..1] == [false];
  }

  // ---------------------------------------------------------------------------
  // Extraction of results
  // ---------------------------------------------------------------------------

  /** An ASE `Atoms` object: what `calculate` compares and copies. ASE's
      `==` compares the atomic numbers, the positions, the unit cell and the
      periodic directions, which is equality of this value. */
  datatype Atoms = Atoms(symbols: seq<string>, positions: seq<seq<real>>, cell: seq<seq<real>>, pbc: seq<bool>)

  datatype Quantity = Scalar(x: real) | Vector(xs: seq<real>) | Matrix(rows: seq<seq<real>>)

  /** What the foreign `AMSResults` object yields: whether the run succeeded,
      the raw quantities the built-in extractors read, the values user
      extractors compute keyed by name, and the path of the engine's rkf file. */
  datatype AmsResults = AmsResults(ok: bool, energy: real, gradients: seq<seq<real>>,
                                   stressTensor: seq<seq<real>>, charges: seq<real>,
                                   custom: map<string, Quantity>, engineFile: string)

  function Negated(m: seq<seq<real>>): (r: seq<seq<real>>)
    ensures |r| == |m|
    ensures forall i :: 0 <= i < |m| ==> |r[i]| == |m[i]| && forall j :: 0 <= j < |m[i]| ==> r[i][j] == -m[i][j]
  {
    seq(|m|, i requires 0 <= i < |m| => seq(|m[i]|, j requires 0 <= j < |m[i]| => -m[i][j]))
  }

  /** `extractor.extract(ams_results, atoms)` without the unit conversion:
      energy and charges are taken as they are, forces are minus the
      gradients, stress is the Voigt selection, and a user extractor without
      a value of its own falls back on the base class, which raises
      NotImplementedError. */
  function Extract(k: Kind, run: AmsResults, atoms: Atoms): Result<Quantity, Error> {
    match k
    case Energy => Ok(Scalar(run.energy))
    case Forces => Ok(Matrix(Negated(run.gradients)))
    case Stress =>
      var v := StressVoigt(run.stressTensor, PeriodicDimension(atoms.pbc));
      if v.Err? then Err(v.error) else Ok(Vector(v.value))
    case Charges => Ok(Vector(run.charges))
    case Custom(n, _) => if n in run.custom then Ok(run.custom[n]) else Err(NotImplementedError(""))
  }

  /** The names of the extractors whose check passes. */
  function AcceptedNames(es: seq<Extractor>, s: Settings): set<string> {
    set i | 0 <= i < |es| && Accepted(es[i].kind, s) :: Name(es[i].kind)
  }

  lemma AcceptedNamesSnoc(es: seq<Extractor>, s: Settings)
    requires es != []
    ensures AcceptedNames(es, s) ==
      AcceptedNames(es[..|es| - 1], s) + (if Accepted(es[|es| - 1].kind, s) then {Name(es[|es| - 1].kind)} else {})
  {
    var init := es[..|es| - 1];
    forall n | n in AcceptedNames(es, s)
      ensures n in AcceptedNames(init, s) || (Accepted(es[|es| - 1].kind, s) && n == Name(es[|es| - 1].kind))
    {
      var i :| 0 <= i < |es| && Accepted(es[i].kind, s) && Name(es[i].kind) == n;
      if i < |es| - 1 {
        assert init[i] == es[i];
      }
    }
    forall n | n in AcceptedNames(init, s)
      ensures n in AcceptedNames(es, s)
    {
      var i :| 0 <= i < |init| && Accepted(init[i].kind, s) && Name(init[i].kind) == n;
      assert es[i] == init[i];
    }
  }

  /** `results` after the first extractors, and the exception that stopped
      the loop, if any. */
  datatype Filled = Filled(results: map<string, Quantity>, raised: Option<Error>)

  /** `results_from_ams_results`: each extractor whose check passes writes
      its value under its name, in list order; an extraction that raises
      stops the loop with the earlier writes kept. */
  function Fill(results: map<string, Quantity>, es: seq<Extractor>, s: Settings, run: AmsResults, atoms: Atoms): Filled
  {
    if es == [] then Filled(results, None)
    else
      var f := Fill(results, es[..|es| - 1], s, run, atoms);
      var k := es[|es| - 1].kind;
      if f.raised.Some? || !Accepted(k, s) then f
      else match Extract(k, run, atoms)
        case Err(x) => Filled(f.results, Some(x))
        case Ok(q) => Filled(f.results[Name(k) := q], None)
  }

  /** The value of `name` came from an accepted extractor of that name. */
  ghost predicate ProducedBy(es: seq<Extractor>, s: Settings, run: AmsResults, atoms: Atoms, name: string, q: Quantity) {
    exists i :: 0 <= i < |es| && Accepted(es[i].kind, s) && Name(es[i].kind) == name && Extract(es[i].kind, run, atoms) == Ok(q)
  }

  /** `results_from_ams_results` writes only the names of accepted
      extractors and leaves every other entry alone. */
  lemma {:induction false} FillWritesOnlyAcceptedNames(results: map<string, Quantity>, es: seq<Extractor>,
                                                      s: Settings, run: AmsResults, atoms: Atoms)
    ensures Fill(results, es, s, run, atoms).results.Keys <= results.Keys + AcceptedNames(es, s)
    ensures forall n :: n in results && n !in AcceptedNames(es, s) ==>
      n in Fill(results, es, s, run, atoms).results && Fill(results, es, s, run, atoms).results[n] == results[n]
  {
    if es != [] {
      FillWritesOnlyAcceptedNames(results, es[..|es| - 1], s, run, atoms);
      AcceptedNamesSnoc(es, s);
    }
  }

  /** When no extraction raises, every accepted name is written, with a
      value an accepted extractor of that name produced. */
  lemma {:induction false} FillWritesEveryAcceptedName(results: map<string, Quantity>, es: seq<Extractor>,
                                                      s: Settings, run: AmsResults, atoms: Atoms)
    requires Fill(results, es, s, run, atoms).raised.None?
    ensures forall n :: n in AcceptedNames(es, s) ==>
      n in Fill(results, es, s, run, atoms).results
      && ProducedBy(es, s, run, atoms, n, Fill(results, es, s, run, atoms).results[n])
  {
    if es != [] {
      var init := es[..|es| - 1];
      var last := |es| - 1;
      var f := Fill(results, init, s, run, atoms);
      var r := Fill(results, es, s, run, atoms);
      assert f.raised.None?;
      FillWritesEveryAcceptedName(results, init, s, run, atoms);
      AcceptedNamesSnoc(es, s);
      forall n | n in AcceptedNames(es, s)
        ensures n in r.results && ProducedBy(es, s, run, atoms, n, r.results[n])
      {
        if Accepted(es[last].kind, s) && n == Name(es[last].kind) {
          assert Extract(es[last].kind, run, atoms) == Ok(r.results[n]);
        } else {
          assert n in AcceptedNames(init, s);
          var i :| 0 <= i < |init| && Accepted(init[i].kind, s) && Name(init[i].kind) == n
                   && Extract(init[i].kind, run, atoms) == Ok(f.results[n]);
          assert es[i] == init[i];
        }
      }
    }
  }

  /** Once an extraction has raised, the rest of the list changes nothing. */
  lemma {:induction false} FillStopsAtRaise(results: map<string, Quantity>, es: seq<Extractor>, j: nat,
                                           s: Settings, run: AmsResults, atoms: Atoms)
    requires j <= |es|
    requires Fill(results, es[..j], s, run, atoms).raised.Some?
    ensures Fill(results, es, s, run, atoms) == Fill(results, es[..j], s, run, atoms)
    decreases |es| - j
  {
    if j < |es| {
      assert es[..j] == es[..|es| - 1][..j];
      FillStopsAtRaise(results, es[..|es| - 1], j, s, run, atoms);
    } else {
      assert es[..j] == es;
    }
  }

  // ---------------------------------------------------------------------------
  // The extractor list and implemented_properties
  // ---------------------------------------------------------------------------

  /** The list starts with the energy, force, stress and charge extractors. */
  predicate StartsWithDefaults(es: seq<Extractor>) {
    |es| >= 4 && es[0].kind == Energy && es[1].kind == Forces && es[2].kind == Stress && es[3].kind == Charges
  }

  /** `[e for e in extractors if e not in listed]`, by identity. */
  function NotListed(es: seq<Extractor>, listed: seq<Extractor>): (r: seq<Extractor>)
    ensures |r| <= |es|
  {
    if es == [] then [] else (if es[0] in listed then [] else [es[0]]) + NotListed(es[1..], listed)
  }

  /** The filter keeps exactly the extractors that are not listed. */
  lemma {:induction false} NotListedMembers(es: seq<Extractor>, listed: seq<Extractor>)
    ensures forall e :: e in NotListed(es, listed) <==> e in es && e !in listed
  {
    if es != [] {
      NotListedMembers(es[1..], listed);
      assert es == [es[0]] + es[1..];
    }
  }

  /** Nothing is dropped when no extractor is already listed, duplicates
      within `es` included. */
  lemma {:induction false} NotListedKeepsAll(es: seq<Extractor>, listed: seq<Extractor>)
    requires forall e :: e in es ==> e !in listed
    ensures NotListed(es, listed) == es
  {
    if es != [] {
      NotListedKeepsAll(es[1..], listed);
    }
  }

  /** `implemented_properties`: the names of the extractors whose check
      passes, in list order; the first check that raises propagates. */
  function Implemented(es: seq<Extractor>, s: Option<Settings>): (r: Result<seq<string>, Error>)
    ensures s.Some? ==> r.Ok? && |r.value| <= |es|
  {
    if es == [] then Ok([])
    else match CheckSettings(es[0].kind, s)
      case Err(e) => Err(e)
      case Ok(b) =>
        match Implemented(es[1..], s)
        case Err(e) => Err(e)
        case Ok(rest) => Ok((if b then [Name(es[0].kind)] else []) + rest)
  }

  /** A name is listed exactly when some extractor of that name accepts the settings. */
  lemma {:induction false} ImplementedMembers(es: seq<Extractor>, s: Settings)
    ensures forall n :: n in Implemented(es, Some(s)).value <==> n in AcceptedNames(es, s)
  {
    if es != [] {
      ImplementedMembers(es[1..], s);
      forall n | n in AcceptedNames(es, s)
        ensures n in Implemented(es, Some(s)).value
      {
        var i :| 0 <= i < |es| && Accepted(es[i].kind, s) && Name(es[i].kind) == n;
        if i > 0 {
          assert es[1..][i - 1] == es[i];
          assert n in AcceptedNames(es[1..], s);
        }
      }
      forall n | n in AcceptedNames(es[1..], s)
        ensures n in AcceptedNames(es, s)
      {
        var i :| 0 <= i < |es[1..]| && Accepted(es[1..][i].kind, s) && Name(es[1..][i].kind) == n;
        assert es[i + 1] == es[1..][i];
      }
    }
  }

  /** With the default extractors first, the list reads "energy", then
      "forces" and "stress" when their flags read true, then "charges",
      then whatever the user extractors add. */
  lemma DefaultImplemented(es: seq<Extractor>, s: Settings)
    requires StartsWithDefaults(es)
    ensures Implemented(es, Some(s)) == Ok(
      ["energy"]
      + ((if IsAmsTrue(Lookup(s, GradientsPath)) then ["forces"] else [])
      + ((if IsAmsTrue(Lookup(s, StressTensorPath)) then ["stress"] else [])
      + (["charges"]
      + Implemented(es[4..], Some(s)).value))))
  {
    var r0 := Implemented(es, Some(s)).value;
    var r1 := Implemented(es[1..], Some(s)).value;
    var r2 := Implemented(es[2..], Some(s)).value;
    var r3 := Implemented(es[3..], Some(s)).value;
    var rest := Implemented(es[4..], Some(s)).value;
    var forces := if IsAmsTrue(Lookup(s, GradientsPath)) then ["forces"] else [];
    var stress := if IsAmsTrue(Lookup(s, StressTensorPath)) then ["stress"] else [];
    AcceptedDefaults(s);
    ImplementedStep(es, 3, s);
    assert r3 == ["charges"] + rest;
    ImplementedStep(es, 2, s);
    assert r2 == stress + r3;
    ImplementedStep(es, 1, s);
    assert r1 == forces + r2;
    ImplementedHead(es, s);
    assert r0 == ["energy"] + r1;
    assert Implemented(es, Some(s)) == Ok(r0);
  }

  lemma ImplementedHead(es: seq<Extractor>, s: Settings)
    requires es != []
    ensures Implemented(es, Some(s)).value ==
      (if Accepted(es[0].kind, s) then [Name(es[0].kind)] else []) + Implemented(es[1..], Some(s)).value
  {
  }

  /** Which default extractors accept a given settings object. */
  lemma AcceptedDefaults(s: Settings)
    ensures Accepted(Energy, s) && Accepted(Charges, s)
    ensures Accepted(Forces, s) == IsAmsTrue(Lookup(s, GradientsPath))
    ensures Accepted(Stress, s) == IsAmsTrue(Lookup(s, StressTensorPath))
  {
  }

  /** One step of the list comprehension of `implemented_properties`. */
  lemma ImplementedStep(es: seq<Extractor>, i: nat, s: Settings)
    requires i < |es|
    ensures Implemented(es[i..], Some(s)).value ==
      (if Accepted(es[i].kind, s) then [Name(es[i].kind)] else []) + Implemented(es[i + 1..], Some(s)).value
  {
    assert es[i..][1..] == es[i + 1..];
  }

  /** Once the settings are `None`, `implemented_properties` raises: the
      force extractor's check fails on `None.copy()`. */
  lemma ImplementedWithoutSettings(es: seq<Extractor>)
    requires StartsWithDefaults(es)
    ensures Implemented(es, None) == Err(AttributeError("copy"))
  {
    assert es[1..][0] == es[1];
  }

  // ---------------------------------------------------------------------------
  // ensure_property
  // ---------------------------------------------------------------------------

  /** The `properties` argument: a single string or a list of them. */
  datatype PropertyRequest = One(name: string) | Many(names: seq<string>)

  /** `if isinstance(properties, str): properties = [properties]`. */
  function Requested(p: PropertyRequest): (r: seq<string>)
    ensures p.One? ==> r == [p.name]
    ensures p.Many? ==> r == p.names
  {
    match p
    case One(n) => [n]
    case Many(ns) => ns
  }

  /** `self.settings`, `self.properties_updated` and the exception raised so far. */
  datatype Progress = Progress(settings: Option<Settings>, updated: bool, raised: Option<Error>)

  /** One pass of the inner loop: an extractor whose name is the property
      replaces the settings by `set_settings(settings.copy())`. */
  function Visit(k: Kind, prop: string, st: Progress): Progress {
    if prop != Name(k) then st
    else if st.settings.None? then st.(raised := Some(AttributeError("copy")))
    else Progress(SetSettings(k, st.settings.value), true, None)
  }

  /** The inner loop over the extractors for one property. */
  function Scan(es: seq<Extractor>, prop: string, st: Progress): Progress {
    if es == [] then st
    else
      var t := Scan(es[..|es| - 1], prop, st);
      if t.raised.Some? then t else Visit(es[|es| - 1].kind, prop, t)
  }

  /** The exception for a property no extractor knows: NotImplementedError
      in `plams_experimental`; `plasm_experimental` calls the constant
      `NotImplemented`, which is not callable, so the call raises TypeError. */
  function Missing(variant: Variant, prop: string): Error {
    match variant
    case Plams => NotImplementedError("No extractor known for property " + prop)
    case Plasm => TypeError("'NotImplementedType' object is not callable")
  }

  /** `ensure_property` over the first properties. `property_found` is set
      on every pass of the inner loop, whether or not the names match, so a
      property counts as found whenever the list is non-empty. */
  function Ensure(variant: Variant, es: seq<Extractor>, props: seq<string>, st: Progress): Progress {
    if props == [] then st
    else
      var t := Ensure(variant, es, props[..|props| - 1], st);
      if t.raised.Some? then t
      else
        var u := Scan(es, props[|props| - 1], t);
        if u.raised.Some? then u
        else if es == [] then u.(raised := Some(Missing(variant, props[|props| - 1])))
        else u
  }

  lemma {:induction false} ScanStopsAtRaise(es: seq<Extractor>, j: nat, prop: string, st: Progress)
    requires j <= |es|
    requires Scan(es[..j], prop, st).raised.Some?
    ensures Scan(es, prop, st) == Scan(es[..j], prop, st)
    decreases |es| - j
  {
    if j < |es| {
      assert es[..j] == es[..|es| - 1][..j];
      ScanStopsAtRaise(es[..|es| - 1], j, prop, st);
    } else {
      assert es[..j] == es;
    }
  }

  lemma {:induction false} EnsureStopsAtRaise(variant: Variant, es: seq<Extractor>, props: seq<string>, i: nat, st: Progress)
    requires i <= |props|
    requires Ensure(variant, es, props[..i], st).raised.Some?
    ensures Ensure(variant, es, props, st) == Ensure(variant, es, props[..i], st)
    decreases |props| - i
  {
    if i < |props| {
      assert props[..i] == props[..|props| - 1][..i];
      EnsureStopsAtRaise(variant, es, props[..|props| - 1], i, st);
    } else {
      assert props[..i] == props;
    }
  }

  /** A property no extractor is named after leaves everything as it was. */
  lemma {:induction false} ScanUnknownProperty(es: seq<Extractor>, prop: string, st: Progress)
    requires forall i :: 0 <= i < |es| ==> Name(es[i].kind) != prop
    ensures Scan(es, prop, st) == st
  {
    if es != [] {
      ScanUnknownProperty(es[..|es| - 1], prop, st);
    }
  }

  /** When exactly one extractor is named after the property, the inner loop
      amounts to that extractor's visit. */
  lemma {:induction false} ScanSingleMatch(es: seq<Extractor>, j: nat, prop: string, st: Progress)
    requires j < |es| && Name(es[j].kind) == prop
    requires forall i :: 0 <= i < |es| && i != j ==> Name(es[i].kind) != prop
    requires st.raised.None?
    ensures Scan(es, prop, st) == Visit(es[j].kind, prop, st)
  {
    var init := es[..|es| - 1];
    if j == |es| - 1 {
      ScanUnknownProperty(init, prop, st);
    } else {
      ScanSingleMatch(init, j, prop, st);
    }
  }

  /** With a non-empty extractor list the "no extractor known" error never
      happens: the only exception `ensure_property` can raise is the
      AttributeError of `None.copy()`, and an unknown property passes
      silently. */
  lemma {:induction false} EnsureNeverMissing(variant: Variant, es: seq<Extractor>, props: seq<string>, st: Progress)
    requires es != [] && st.raised.None?
    ensures Ensure(variant, es, props, st).raised.None?
         || Ensure(variant, es, props, st).raised == Some(AttributeError("copy"))
  {
    if props != [] {
      EnsureNeverMissing(variant, es, props[..|props| - 1], st);
      ScanRaisesOnlyCopy(es, props[|props| - 1], Ensure(variant, es, props[..|props| - 1], st));
    }
  }

  lemma {:induction false} ScanRaisesOnlyCopy(es: seq<Extractor>, prop: string, st: Progress)
    requires st.raised.None? || st.raised == Some(AttributeError("copy"))
    ensures Scan(es, prop, st).raised.None? || Scan(es, prop, st).raised == Some(AttributeError("copy"))
  {
    if es != [] {
      ScanRaisesOnlyCopy(es[..|es| - 1], prop, st);
    }
  }

  /** Ensuring "energy" on the default list replaces the settings by the
      `None` the base `set_settings` returns. */
  lemma EnsureEnergyDropsSettings(es: seq<Extractor>, s: Settings, updated: bool)
    requires StartsWithDefaults(es)
    requires forall i :: 4 <= i < |es| ==> Name(es[i].kind) != "energy"
    ensures Scan(es, "energy", Progress(Some(s), updated, None)) == Progress(None, true, None)
  {
    DefaultNameUnique(es, 0);
    ScanSingleMatch(es, 0, "energy", Progress(Some(s), updated, None));
    assert Visit(Energy, "energy", Progress(Some(s), updated, None)) == Progress(None, true, None);
  }

  /** The four default extractors have four different names, so a name no
      user extractor takes belongs to exactly one of them. */
  lemma DefaultNameUnique(es: seq<Extractor>, j: nat)
    requires StartsWithDefaults(es) && j < 4
    requires forall i :: 4 <= i < |es| ==> Name(es[i].kind) != Name(es[j].kind)
    ensures forall i :: 0 <= i < |es| && i != j ==> Name(es[i].kind) != Name(es[j].kind)
  {
    assert Name(Energy)[0] == 'e' && Name(Forces)[0] == 'f' && Name(Stress)[0] == 's' && Name(Charges)[0] == 'c';
    forall i | 0 <= i < |es| && i != j
      ensures Name(es[i].kind) != Name(es[j].kind)
    {
      if i < 4 {
        assert Name(es[i].kind)[0] != Name(es[j].kind)[0];
      }
    }
  }

  /** Ensuring "forces" on the default list sets the gradients flag, after
      which "forces" is an implemented property. */
  lemma EnsureForcesImplementsForces(es: seq<Extractor>, s: Settings, updated: bool)
    requires StartsWithDefaults(es)
    requires forall i :: 4 <= i < |es| ==> Name(es[i].kind) != "forces"
    ensures Scan(es, "forces", Progress(Some(s), updated, None)) == Progress(Some(s[GradientsPath := Str("Yes")]), true, None)
    ensures "forces" in Implemented(es, Some(s[GradientsPath := Str("Yes")])).value
  {
    DefaultNameUnique(es, 1);
    ScanSingleMatch(es, 1, "forces", Progress(Some(s), updated, None));
    VisitForces(s, updated);
    ForcesAcceptedOnceSet(es, s);
  }

  lemma VisitForces(s: Settings, updated: bool)
    ensures Visit(Forces, "forces", Progress(Some(s), updated, None)) == Progress(Some(s[GradientsPath := Str("Yes")]), true, None)
  {
    assert Flag(Forces) == Some(GradientsPath);
  }

  lemma ForcesAcceptedOnceSet(es: seq<Extractor>, s: Settings)
    requires StartsWithDefaults(es)
    ensures "forces" in Implemented(es, Some(s[GradientsPath := Str("Yes")])).value
  {
    var t := s[GradientsPath := Str("Yes")];
    SetThenCheck(Forces, s);
    assert Accepted(es[1].kind, t);
    assert "forces" in AcceptedNames(es, t);
    ImplementedMembers(es, t);
  }

  // ---------------------------------------------------------------------------
  // The class-wide run counter
  // ---------------------------------------------------------------------------

  /** The next value of the counter of `name`, and the table after it: a
      missing name is first set to 0, then incremented. */
  function Tick(counts: map<string, int>, name: string): (map<string, int>, int) {
    var current := if name in counts then counts[name] else 0;
    (counts[name := current + 1], current + 1)
  }

  /** `k` successive reads of the counter of `name`. */
  function Ticks(counts: map<string, int>, name: string, k: nat): (map<string, int>, seq<int>) {
    if k == 0 then (counts, [])
    else
      var (c, ns) := Ticks(counts, name, k - 1);
      var (c2, n) := Tick(c, name);
      (c2, ns + [n])
  }

  /** The first read of a name returns 1, every read after it one more than
      the last; other names are not touched. */
  lemma {:induction false} TicksCount(counts: map<string, int>, name: string, k: nat)
    requires name !in counts
    ensures |Ticks(counts, name, k).1| == k
    ensures forall i :: 0 <= i < k ==> Ticks(counts, name, k).1[i] == i + 1
    ensures k > 0 ==> Ticks(counts, name, k).0 == counts[name := k]
    ensures forall m :: m in counts ==> m in Ticks(counts, name, k).0 && Ticks(counts, name, k).0[m] == counts[m]
  {
    if k > 0 {
      TicksCount(counts, name, k - 1);
    }
  }

  /** After `set_counter(v)` the next read returns v + 1, and different
      names are independent. */
  lemma SetCounterThenTick(counts: map<string, int>, name: string, other: string, v: int)
    requires other != name
    ensures Tick(counts[name := v], name).1 == v + 1
    ensures other in counts ==> Tick(counts, name).0[other] == counts[other]
    ensures Tick(Tick(counts, name).0, name).1 == Tick(counts, name).1 + 1
  {
  }

  /** The class attribute `_counter`: one table shared by every calculator
      of the module. */
  class CounterTable {
    var counts: map<string, int>

    constructor ()
      ensures counts == map[]
    {
      counts := map[];
    }
  }

  /** `str(n)` of an int. */
  function IntString(n: int): string {
    if n < 0 then "-" + Decimal(-n) else Decimal(n)
  }

  // ---------------------------------------------------------------------------
  // The calculator
  // ---------------------------------------------------------------------------

  /** The class `AMSCalculator.__new__` creates. */
  datatype CalculatorKind = PipeCalculator | JobCalculator

  /** The interactive AMS worker process, as the settings it is started with. */
  datatype Worker = Worker(settings: Settings, useRestartCache: bool)

  /** The pair `AMSWorker.stop()` returns. */
  datatype StopReport = StopReport(first: Option<string>, second: Option<string>)

  /** What a calculation submits: to the worker, the run name, the settings
      it solves with and the previous results; as an AMSJob, the run name
      and the job settings. */
  datatype RunRequest =
    | PipeRun(name: string, settings: Settings, prev: Option<AmsResults>)
    | JobRun(name: string, settings: Settings)

  /** `worker_settings`: the settings without `input.ams.Task` and
      `input.ams.Properties`. */
  function WorkerSettings(s: Settings): Settings {
    map p | p in s && !Under(p, TaskPath) && !Under(p, PropertiesPath) :: s[p]
  }

  /** The worker is started with no task and with no property flags, so
      neither the force nor the stress flag reads true in its settings, and
      every other key is kept. */
  lemma WorkerSettingsDropsRequests(s: Settings)
    ensures !Has(WorkerSettings(s), TaskPath) && !Has(WorkerSettings(s), PropertiesPath)
    ensures CheckSettings(Forces, Some(WorkerSettings(s))) == Ok(false)
    ensures CheckSettings(Stress, Some(WorkerSettings(s))) == Ok(false)
    ensures forall p :: p in s && !Under(p, TaskPath) && !Under(p, PropertiesPath) ==> p in WorkerSettings(s) && WorkerSettings(s)[p] == s[p]
  {
    var w := WorkerSettings(s);
    assert Under(GradientsPath, PropertiesPath);
    assert Under(StressTensorPath, PropertiesPath);
    assert Lookup(w, GradientsPath) == Node;
    assert Lookup(w, StressTensorPath) == Node;
  }

  /** The settings handed to the worker: `input.ams` and `amsworker` of the
      job settings, with `amsworker.prev_results` taken over by the previous
      results themselves. */
  function PipeSettings(js: Settings): Settings {
    map p | p in js && (Under(p, InputAmsPath) || (Under(p, AmsWorkerPath) && !Under(p, PrevResultsPath))) :: js[p]
  }

  /** An AMSJob restarts its engine from the previous run's rkf file when
      `restart` is set and there is a previous run. */
  function JobSettings(js: Settings, restart: bool, prev: Option<AmsResults>): Settings {
    if restart && prev.Some? then js[EngineRestartPath := Str(prev.value.engineFile)] else js
  }

  function RequestFor(kind: CalculatorKind, runName: string, js: Settings, restart: bool, prev: Option<AmsResults>): RunRequest {
    match kind
    case PipeCalculator => PipeRun(runName, PipeSettings(js), prev)
    case JobCalculator => JobRun(runName, JobSettings(js, restart, prev))
  }

  /** The message of the RuntimeError `calculate` raises before `plams.init()`. */
  function InitMessage(variant: Variant): string {
    match variant
    case Plams => "Call plams.init() before calculating results using AMSCalculator."
    case Plasm => "Before AMSCalculator can calculate results you need to call plams.init()"
  }

  /** `calculate` returns at once: the same atoms again, no system change,
      every requested property present and no property ensured since. */
  predicate Cached(current: Option<Atoms>, results: map<string, Quantity>, updated: bool,
                   atoms: Option<Atoms>, properties: seq<string>, systemChanges: seq<string>) {
    atoms.Some? && current == atoms && systemChanges == []
    && (forall p :: p in properties ==> p in results) && !updated
  }

  /** Atoms that differ from the stored ones in any of their symbols,
      positions, cell or periodic directions are never served from the
      cache, so `calculate` runs again. */
  lemma ChangedAtomsAreNotCached(current: Atoms, results: map<string, Quantity>, updated: bool,
                                 atoms: Atoms, properties: seq<string>, systemChanges: seq<string>)
    requires current.symbols != atoms.symbols || current.positions != atoms.positions
          || current.cell != atoms.cell || current.pbc != atoms.pbc
    ensures !Cached(Some(current), results, updated, Some(atoms), properties, systemChanges)
  {
  }

  class Calculator {
    const variant: Variant
    const kind: CalculatorKind
    const name: string
    const restart: bool
    const amsworker: bool
    const extractors: seq<Extractor>
    /** The class-wide `_counter` dictionary. */
    const counters: CounterTable
    /** `worker_settings`, which only the pipe calculator has. */
    const workerSettings: Option<Settings>
    var settings: Option<Settings>
    var atoms: Option<Atoms>
    var results: map<string, Quantity>
    var propertiesUpdated: bool
    var prevResults: Option<AmsResults>
    var worker: Option<Worker>

    predicate Valid() {
      StartsWithDefaults(extractors) && (kind == PipeCalculator <==> workerSettings.Some?)
    }

    /** `AMSCalculator(settings, name, amsworker, restart, molecule)`:
        `__new__` picks the pipe calculator when `amsworker` is set and the
        job calculator otherwise. `userExtractors` is `settings["Extractors"]`;
        `systemAtoms` is what the foreign conversion makes of the system in
        `settings.input.ams.system`, and `molecule` the converted molecule
        argument, which counts only when it has atoms. */
    constructor (variant: Variant, settings: Settings, userExtractors: seq<Extractor>, name: string,
                 amsworker: bool, restart: bool, molecule: Option<Atoms>, systemAtoms: Option<Atoms>,
                 counters: CounterTable)
      ensures Valid()
      ensures kind == (if amsworker then PipeCalculator else JobCalculator)
      ensures fresh(extractors[..4]) && extractors[4..] == userExtractors
      ensures kind == PipeCalculator ==> workerSettings == Some(WorkerSettings(settings))
      ensures this.variant == variant && this.name == name && this.restart == restart
      ensures this.amsworker == amsworker && this.counters == counters
      ensures this.settings == Some(settings)
      ensures atoms == if Has(settings, SystemPath) then systemAtoms
                       else if molecule.Some? && molecule.value.symbols != [] then molecule
                       else None
      ensures results == map[] && !propertiesUpdated && prevResults == None && worker == None
    {
      var energy := new Extractor(Energy);
      var forces := new Extractor(Forces);
      var stress := new Extractor(Stress);
      var charges := new Extractor(Charges);
      var defaults := [energy, forces, stress, charges];
      NotListedKeepsAll(userExtractors, defaults);
      this.variant := variant;
      this.kind := if amsworker then PipeCalculator else JobCalculator;
      this.name := name;
      this.restart := restart;
      this.amsworker := amsworker;
      this.counters := counters;
      this.extractors := defaults + NotListed(userExtractors, defaults);
      this.workerSettings := if amsworker then Some(WorkerSettings(settings)) else None;
      this.settings := Some(settings);
      this.atoms := if Has(settings, SystemPath) then systemAtoms
                    else if molecule.Some? && molecule.value.symbols != [] then molecule
                    else None;
      this.results := map[];
      this.propertiesUpdated := false;
      this.prevResults := None;
      this.worker := None;
    }

    /** The `counter` property: the next value for this calculator's name. */
    method Counter() returns (n: int)
      modifies counters
      ensures (counters.counts, n) == Tick(old(counters.counts), name)
    {
      var current := if name in counters.counts then counters.counts[name] else 0;
      counters.counts := counters.counts[name := current + 1];
      n := current + 1;
    }

    method SetCounter(value: int)
      modifies counters
      ensures counters.counts == old(counters.counts)[name := value]
    {
      counters.counts := counters.counts[name := value];
    }

    /** `ensure_property`: for each property, every extractor of that name
        rewrites the settings and marks them updated. */
    method EnsureProperty(request: PropertyRequest) returns (raised: Option<Error>)
      modifies this
      ensures Ensure(variant, extractors, Requested(request), Progress(old(settings), old(propertiesUpdated), None))
           == Progress(settings, propertiesUpdated, raised)
      ensures atoms == old(atoms) && results == old(results)
      ensures prevResults == old(prevResults) && worker == old(worker)
    {
      var props := Requested(request);
      ghost var start := Progress(settings, propertiesUpdated, None);
      var i := 0;
      while i < |props|
        invariant 0 <= i <= |props|
        invariant Ensure(variant, extractors, props[..i], start) == Progress(settings, propertiesUpdated, None)
        invariant atoms == old(atoms) && results == old(results)
        invariant prevResults == old(prevResults) && worker == old(worker)
      {
        assert props[..i + 1][..i] == props[..i];
        var found;
        found, raised := VisitExtractors(props[i]);
        if raised.Some? {
          EnsureStopsAtRaise(variant, extractors, props, i + 1, start);
          return;
        }
        if !found {
          raised := Some(Missing(variant, props[i]));
          EnsureStopsAtRaise(variant, extractors, props, i + 1, start);
          return;
        }
        i := i + 1;
      }
      assert props[..i] == props;
      raised := None;
    }

    /** The inner loop of `ensure_property` for one property. */
    method VisitExtractors(prop: string) returns (found: bool, raised: Option<Error>)
      modifies this
      ensures Scan(extractors, prop, Progress(old(settings), old(propertiesUpdated), None))
           == Progress(settings, propertiesUpdated, raised)
      ensures found == (extractors != [])
      ensures atoms == old(atoms) && results == old(results)
      ensures prevResults == old(prevResults) && worker == old(worker)
    {
      ghost var before := Progress(settings, propertiesUpdated, None);
      found := false;
      var j := 0;
      while j < |extractors|
        invariant 0 <= j <= |extractors|
        invariant found == (j > 0)
        invariant Scan(extractors[..j], prop, before) == Progress(settings, propertiesUpdated, None)
        invariant atoms == old(atoms) && results == old(results)
        invariant prevResults == old(prevResults) && worker == old(worker)
      {
        var e := extractors[j];
        assert extractors[..j + 1][..j] == extractors[..j];
        if prop == Name(e.kind) {
          if settings.None? {
            ScanStopsAtRaise(extractors, j + 1, prop, before);
            return true, Some(AttributeError("copy"));
          }
          settings := SetSettings(e.kind, settings.value);
          propertiesUpdated := true;
        }
        found := true;
        j := j + 1;
      }
      assert extractors[..j] == extractors;
      raised := None;
    }

    /** `results_from_ams_results`. */
    method ResultsFromAmsResults(run: AmsResults, jobSettings: Settings) returns (raised: Option<Error>)
      requires atoms.Some?
      modifies this
      ensures atoms == old(atoms) && settings == old(settings) && propertiesUpdated == old(propertiesUpdated)
      ensures Fill(old(results), extractors, jobSettings, run, atoms.value) == Filled(results, raised)
      ensures prevResults == old(prevResults) && worker == old(worker)
    {
      var i := 0;
      while i < |extractors|
        invariant 0 <= i <= |extractors|
        invariant atoms == old(atoms) && settings == old(settings) && propertiesUpdated == old(propertiesUpdated)
        invariant Fill(old(results), extractors[..i], jobSettings, run, atoms.value) == Filled(results, None)
        invariant prevResults == old(prevResults) && worker == old(worker)
      {
        var k := extractors[i].kind;
        assert extractors[..i + 1][..i] == extractors[..i];
        if CheckSettings(k, Some(jobSettings)) == Ok(true) {
          var q := Extract(k, run, atoms.value);
          if q.Err? {
            raised := Some(q.error);
            FillStopsAtRaise(old(results), extractors, i + 1, jobSettings, run, atoms.value);
            return;
          }
          results := results[Name(k) := q.value];
        }
        i := i + 1;
      }
      assert extractors[..i] == extractors;
      raised := None;
    }

    /** `_get_ams_results` up to the foreign call: starts the worker if the
        pipe calculator has none, reads the counter for the run name and
        builds the request. */
    method Submit(jobSettings: Settings) returns (request: RunRequest)
      requires Valid()
      modifies this, counters
      ensures counters.counts == Tick(old(counters.counts), name).0
      ensures request == RequestFor(kind, name + IntString(Tick(old(counters.counts), name).1),
                                    jobSettings, restart, prevResults)
      ensures worker == if kind == PipeCalculator && old(worker).None?
                        then Some(Worker(workerSettings.value, restart)) else old(worker)
      ensures atoms == old(atoms) && settings == old(settings) && results == old(results)
      ensures propertiesUpdated == old(propertiesUpdated) && prevResults == old(prevResults)
    {
      if kind == PipeCalculator && worker.None? {
        worker := Some(Worker(workerSettings.value, restart));
      }
      var n := Counter();
      request := RequestFor(kind, name + IntString(n), jobSettings, restart, prevResults);
    }

    /** `calculate(atoms, properties, system_changes)`. `initialised` is
        PLAMS's `config.init`; `run` is what the foreign AMS run returns for
        the request. */
    method Calculate(atoms: Option<Atoms>, properties: seq<string>, systemChanges: seq<string>,
                     initialised: bool, run: AmsResults)
      returns (outcome: Outcome, request: Option<RunRequest>)
      requires Valid()
      modifies this, counters
      ensures Cached(old(this.atoms), old(results), old(propertiesUpdated), atoms, properties, systemChanges) ==>
        outcome == Done && request == None && unchanged(this, counters)
      ensures !Cached(old(this.atoms), old(results), old(propertiesUpdated), atoms, properties, systemChanges) ==>
        && this.atoms == (if atoms.Some? then atoms else old(this.atoms))
        && !propertiesUpdated
        && (request.Some? <==> this.atoms.Some? && initialised && settings.Some?)
        && (this.atoms.None? ==> outcome == Raised(ValueError("No atoms object was set.")))
        && (this.atoms.Some? && !initialised ==> outcome == Raised(RuntimeError(InitMessage(variant))))
        && (this.atoms.Some? && initialised && settings.None? ==> outcome == Raised(AttributeError("copy")))
      ensures settings == old(settings)
      ensures request.None? ==> results == old(results) && prevResults == old(prevResults)
                                && worker == old(worker) && counters.counts == old(counters.counts)
      ensures request.Some? ==>
        counters.counts == Tick(old(counters.counts), name).0
        && request.value == RequestFor(kind, name + IntString(Tick(old(counters.counts), name).1),
                                       settings.value, restart, old(prevResults))
        && worker == (if kind == PipeCalculator && old(worker).None?
                      then Some(Worker(workerSettings.value, restart)) else old(worker))
      ensures request.Some? && !run.ok ==> outcome == Done && results == map[] && prevResults == old(prevResults)
      ensures request.Some? && run.ok ==>
        var f := Fill(old(results), extractors, settings.value, run, this.atoms.value);
        results == f.results
        && outcome == (if f.raised.None? then Done else Raised(f.raised.value))
        && prevResults == (if f.raised.None? then Some(run) else old(prevResults))
    {
      if atoms.Some? {
        if this.atoms == atoms && systemChanges == [] && (forall p :: p in properties ==> p in results) && !propertiesUpdated {
          return Done, None;
        }
        this.atoms := atoms;
      }
      outcome, request := Recalculate(initialised, run);
    }

    /** `calculate` once the cached answer is ruled out and the new atoms,
        if any, are stored. */
    method Recalculate(initialised: bool, run: AmsResults) returns (outcome: Outcome, request: Option<RunRequest>)
      requires Valid()
      modifies this, counters
      ensures atoms == old(atoms) && settings == old(settings) && !propertiesUpdated
      ensures request.Some? <==> atoms.Some? && initialised && settings.Some?
      ensures atoms.None? ==> outcome == Raised(ValueError("No atoms object was set."))
      ensures atoms.Some? && !initialised ==> outcome == Raised(RuntimeError(InitMessage(variant)))
      ensures atoms.Some? && initialised && settings.None? ==> outcome == Raised(AttributeError("copy"))
      ensures request.None? ==> results == old(results) && prevResults == old(prevResults)
                                && worker == old(worker) && counters.counts == old(counters.counts)
      ensures request.Some? ==>
        counters.counts == Tick(old(counters.counts), name).0
        && request.value == RequestFor(kind, name + IntString(Tick(old(counters.counts), name).1),
                                       settings.value, restart, old(prevResults))
        && worker == (if kind == PipeCalculator && old(worker).None?
                      then Some(Worker(workerSettings.value, restart)) else old(worker))
      ensures request.Some? && !run.ok ==> outcome == Done && results == map[] && prevResults == old(prevResults)
      ensures request.Some? && run.ok ==>
        var f := Fill(old(results), extractors, settings.value, run, atoms.value);
        results == f.results
        && outcome == (if f.raised.None? then Done else Raised(f.raised.value))
        && prevResults == (if f.raised.None? then Some(run) else old(prevResults))
    {
      propertiesUpdated := false;
      if atoms.None? {
        return Raised(ValueError("No atoms object was set.")), None;
      }
      if !initialised {
        return Raised(RuntimeError(InitMessage(variant))), None;
      }
      if settings.None? {
        return Raised(AttributeError("copy")), None;
      }
      var r;
      outcome, r := RunAndCollect(run);
      request := Some(r);
    }

    /** The part of `calculate` after its guards: submit the run; a failed
        run empties `results`, a successful one fills them and becomes the
        previous results. */
    method RunAndCollect(run: AmsResults) returns (outcome: Outcome, request: RunRequest)
      requires Valid() && atoms.Some? && settings.Some?
      modifies this, counters
      ensures atoms == old(atoms) && settings == old(settings) && propertiesUpdated == old(propertiesUpdated)
      ensures counters.counts == Tick(old(counters.counts), name).0
      ensures request == RequestFor(kind, name + IntString(Tick(old(counters.counts), name).1),
                                    settings.value, restart, old(prevResults))
      ensures worker == if kind == PipeCalculator && old(worker).None?
                        then Some(Worker(workerSettings.value, restart)) else old(worker)
      ensures !run.ok ==> outcome == Done && results == map[] && prevResults == old(prevResults)
      ensures run.ok ==>
        var f := Fill(old(results), extractors, settings.value, run, atoms.value);
        results == f.results
        && outcome == (if f.raised.None? then Done else Raised(f.raised.value))
        && prevResults == (if f.raised.None? then Some(run) else old(prevResults))
    {
      request := Submit(settings.value);
      if !run.ok {
        results := map[];
        return Done, request;
      }
      var raised := ResultsFromAmsResults(run, settings.value);
      if raised.Some? {
        return Raised(raised.value), request;
      }
      prevResults := Some(run);
      outcome := Done;
    }

    /** `stop_worker`: stops a running worker and returns what it reports;
        with no worker the answer is `(None, None)`. Either way there is no
        worker afterwards. */
    method StopWorker(reported: StopReport) returns (r: StopReport)
      modifies this
      ensures worker == None
      ensures r == if old(worker).Some? then reported else StopReport(None, None)
      ensures settings == old(settings) && atoms == old(atoms) && results == old(results)
      ensures propertiesUpdated == old(propertiesUpdated) && prevResults == old(prevResults)
    {
      if worker.Some? {
        worker := None;
        return reported;
      }
      worker := None;
      r := StopReport(None, None);
    }
  }
}
