/** The structural validator for decoded Ehrenfest programs, schema v0.1
    (spec/tools/validate.py). */
module Validate {
  import opened Common

  /** A decoded CBOR value. Map keys are text. */
  datatype Cbor =
    | CNull
    | CInt(i: int)
    | CFloat(r: real)
    | CText(s: string)
    | CBytes(bytes: seq<byte>)
    | CArray(items: seq<Cbor>)
    | CMap(fields: map<string, Cbor>)

  const REQUIRED_TOP_LEVEL: set<string> := {"version", "system", "hamiltonian", "evolution", "observables", "noise"}
  const VALID_OBSERVABLE_TYPES: set<string> := {"SZ", "SX", "E", "rho", "F"}
  const VALID_PAULI_AXES: set<int> := {0, 1, 2, 3}
  /** The evolution fields, in the order their presence is checked. */
  const EVOLUTION_FIELDS: seq<string> := ["total_us", "steps", "dt_us"]

  /** The ValidationError messages, with the values each one reports. */
  datatype Violation =
    | RootNotMap
    | MissingTopLevel(missing: set<string>)
    | VersionNotUint
    | VersionNotOne(version: Cbor)
    | SystemNotMap
    | NQubitsRequired
    | NQubitsNotPositive
    | CoolingNotMap
    | TargetTempRequired
    | TargetTempNotFloat
    | HamiltonianNotMap
    | TermsRequired
    | OffsetRequired
    | TermsEmpty
    | OffsetNotFloat
    | TermNotMap(term: nat)
    | CoefficientRequired(term: nat)
    | PaulisRequired(term: nat)
    | PaulisNotArray(term: nat)
    | PauliNotMap(op: nat)
    | PauliIncomplete(op: nat)
    | PauliQubitOutOfRange(op: nat, qubit: Cbor, nQubits: int)
    | PauliAxisInvalid(op: nat, axis: Cbor)
    | EvolutionNotMap
    | EvolutionFieldRequired(field: string)
    | StepsNotPositive
    | TotalNotPositive
    | DtNotPositive
    | DtInconsistent(dt: Cbor, expected: real)
    | ObservablesEmpty
    | ObservableNotMap(obs: nat)
    | ObservableTypeRequired(obs: nat)
    | ObservableTypeInvalid(obs: nat, kind: Cbor)
    | ObservableQubitRequired(obs: nat, name: string)
    | ObservableQubitOutOfRange(obs: nat, qubit: Cbor)
    | RhoQubitsRequired(obs: nat)
    | TargetStateRequired(obs: nat)
    | NoiseNotMap
    | T1Required
    | T2Required
    | T1NotPositive
    | T2NotPositive
    | T2Bound(t2: Cbor, t1: Cbor)
    | GateFidelityRange(fidelity: Cbor)
    | ReadoutFidelityRange(fidelity: Cbor)

  /** The TypeErrors Python raises before a check can decide: hashing a
      list or map for a set lookup, ordering a non-number against ints. */
  datatype Crash =
    | AxisUnhashable(op: nat)
    | TypeUnhashable(obs: nat)
    | QubitIncomparable(obs: nat)

  datatype Outcome = Accepted | Rejected(violation: Violation) | Crashed(crash: Crash)

  /** `check(cond, msg)`. */
  function Guard(cond: bool, v: Violation): (r: Outcome)
    ensures r == Accepted <==> cond
    ensures !cond ==> r == Rejected(v)
  {
    if cond then Accepted else Rejected(v)
  }

  /** Run `b` only when `a` passed. */
  function Then(a: Outcome, b: Outcome): Outcome {
    if a.Accepted? then b else a
  }

  // ---------------------------------------------------------------------------
  // Value classes

  /** `isinstance(v, (int, float))`. */
  predicate IsNumber(v: Cbor) {
    v.CInt? || v.CFloat?
  }

  function NumValue(v: Cbor): real
    requires IsNumber(v)
  {
    if v.CInt? then v.i as real else v.r
  }

  predicate PositiveNumber(v: Cbor) {
    IsNumber(v) && NumValue(v) > 0.0
  }

  predicate Fraction(v: Cbor) {
    IsNumber(v) && 0.0 <= NumValue(v) <= 1.0
  }

  /** Lists and maps cannot be looked up in a set. */
  predicate Hashable(v: Cbor) {
    !v.CArray? && !v.CMap?
  }

  /** `v in VALID_PAULI_AXES`: an integral float equals the integer. */
  predicate ValidAxis(v: Cbor) {
    (v.CInt? && v.i in VALID_PAULI_AXES)
    || (v.CFloat? && v.r == v.r.Floor as real && v.r.Floor in VALID_PAULI_AXES)
  }

  predicate ValidType(v: Cbor) {
    v.CText? && v.s in VALID_OBSERVABLE_TYPES
  }

  /** The qubit count a system block gives, 0 when it gives none. */
  function NQubitsOf(sys: Cbor): int {
    if sys.CMap? && "n_qubits" in sys.fields && sys.fields["n_qubits"].CInt? then sys.fields["n_qubits"].i
    else 0
  }

  // ---------------------------------------------------------------------------
  // The checks, section by section, in the source's order

  function VersionOutcome(v: Cbor): Outcome {
    if !v.CInt? then Rejected(VersionNotUint)
    else Guard(v.i == 1, VersionNotOne(v))
  }

  function CoolingOutcome(cp: Cbor): Outcome {
    if !cp.CMap? then Rejected(CoolingNotMap)
    else if "target_temp_mk" !in cp.fields then Rejected(TargetTempRequired)
    else Guard(IsNumber(cp.fields["target_temp_mk"]), TargetTempNotFloat)
  }

  function SystemOutcome(sys: Cbor): Outcome {
    if !sys.CMap? then Rejected(SystemNotMap)
    else if "n_qubits" !in sys.fields then Rejected(NQubitsRequired)
    else if !(sys.fields["n_qubits"].CInt? && sys.fields["n_qubits"].i > 0) then Rejected(NQubitsNotPositive)
    else if "cooling_profile" in sys.fields then CoolingOutcome(sys.fields["cooling_profile"])
    else Accepted
  }

  function PauliOutcome(op: Cbor, j: nat, n: int): Outcome {
    if !op.CMap? then Rejected(PauliNotMap(j))
    else if !("qubit" in op.fields && "axis" in op.fields) then Rejected(PauliIncomplete(j))
    else
      var q, a := op.fields["qubit"], op.fields["axis"];
      if !(q.CInt? && 0 <= q.i < n) then Rejected(PauliQubitOutOfRange(j, q, n))
      else if !Hashable(a) then Crashed(AxisUnhashable(j))
      else Guard(ValidAxis(a), PauliAxisInvalid(j, a))
  }

  /** The Pauli loop from index `j` on. */
  function PaulisFrom(ops: seq<Cbor>, j: nat, n: int): Outcome
    decreases |ops| - j
  {
    if j >= |ops| then Accepted else Then(PauliOutcome(ops[j], j, n), PaulisFrom(ops, j + 1, n))
  }

  function TermOutcome(term: Cbor, i: nat, n: int): Outcome {
    if !term.CMap? then Rejected(TermNotMap(i))
    else if "coefficient" !in term.fields then Rejected(CoefficientRequired(i))
    else if "paulis" !in term.fields then Rejected(PaulisRequired(i))
    else if !term.fields["paulis"].CArray? then Rejected(PaulisNotArray(i))
    else PaulisFrom(term.fields["paulis"].items, 0, n)
  }

  /** The term loop from index `i` on. */
  function TermsFrom(terms: seq<Cbor>, i: nat, n: int): Outcome
    decreases |terms| - i
  {
    if i >= |terms| then Accepted else Then(TermOutcome(terms[i], i, n), TermsFrom(terms, i + 1, n))
  }

  function HamiltonianOutcome(h: Cbor, n: int): Outcome {
    if !h.CMap? then Rejected(HamiltonianNotMap)
    else if "terms" !in h.fields then Rejected(TermsRequired)
    else if "constant_offset" !in h.fields then Rejected(OffsetRequired)
    else if !(h.fields["terms"].CArray? && |h.fields["terms"].items| >= 1) then Rejected(TermsEmpty)
    else if !IsNumber(h.fields["constant_offset"]) then Rejected(OffsetNotFloat)
    else TermsFrom(h.fields["terms"].items, 0, n)
  }

  /** The first of `keys` that `m` lacks. */
  function FirstAbsent(m: map<string, Cbor>, keys: seq<string>): (r: Option<string>)
    ensures r.None? <==> forall k :: 0 <= k < |keys| ==> keys[k] in m
    ensures r.Some? ==> r.value !in m
    ensures r.Some? ==>
      exists k :: 0 <= k < |keys| && keys[k] == r.value && forall j :: 0 <= j < k ==> keys[j] in m
  {
    if keys == [] then None
    else if keys[0] !in m then Some(keys[0])
    else
      var rest := FirstAbsent(m, keys[1..]);
      assert forall k :: 1 <= k < |keys| ==> keys[k] == keys[1..][k - 1];
      if rest.Some? then
        var k :| 0 <= k < |keys[1..]| && keys[1..][k] == rest.value
                 && forall j :: 0 <= j < k ==> keys[1..][j] in m;
        assert keys[k + 1] == rest.value && forall j :: 0 <= j < k + 1 ==> keys[j] in m;
        rest
      else rest
  }

  /** `abs(dt - expected) / expected < 0.01` over the reals. */
  predicate DtConsistent(dt: real, expected: real)
    requires expected > 0.0
  {
    (if dt >= expected then dt - expected else expected - dt) / expected < 0.01
  }

  function EvolutionOutcome(evo: Cbor): Outcome {
    if !evo.CMap? then Rejected(EvolutionNotMap)
    else match FirstAbsent(evo.fields, EVOLUTION_FIELDS)
      case Some(field) => Rejected(EvolutionFieldRequired(field))
      case None =>
        assert "total_us" == EVOLUTION_FIELDS[0] && "steps" == EVOLUTION_FIELDS[1] && "dt_us" == EVOLUTION_FIELDS[2];
        var steps, total, dt := evo.fields["steps"], evo.fields["total_us"], evo.fields["dt_us"];
        if !(steps.CInt? && steps.i >= 1) then Rejected(StepsNotPositive)
        else if !PositiveNumber(total) then Rejected(TotalNotPositive)
        else if !PositiveNumber(dt) then Rejected(DtNotPositive)
        else
          var expected := NumValue(total) / steps.i as real;
          Guard(DtConsistent(NumValue(dt), expected), DtInconsistent(dt, expected))
  }

  function ObservableOutcome(o: Cbor, i: nat, n: int): Outcome {
    if !o.CMap? then Rejected(ObservableNotMap(i))
    else if "type" !in o.fields then Rejected(ObservableTypeRequired(i))
    else
      var t := o.fields["type"];
      if !Hashable(t) then Crashed(TypeUnhashable(i))
      else if !ValidType(t) then Rejected(ObservableTypeInvalid(i, t))
      else if t.s == "SZ" || t.s == "SX" then
        if "qubit" !in o.fields then Rejected(ObservableQubitRequired(i, t.s))
        else if !IsNumber(o.fields["qubit"]) then Crashed(QubitIncomparable(i))
        else Guard(0.0 <= NumValue(o.fields["qubit"]) < n as real, ObservableQubitOutOfRange(i, o.fields["qubit"]))
      else if t.s == "rho" then
        Guard("qubits" in o.fields && o.fields["qubits"].CArray? && |o.fields["qubits"].items| >= 1,
              RhoQubitsRequired(i))
      else if t.s == "F" then
        Guard("target_state" in o.fields && o.fields["target_state"].CBytes?, TargetStateRequired(i))
      else Accepted
  }

  /** The observable loop from index `i` on. */
  function ObservablesFrom(obs: seq<Cbor>, i: nat, n: int): Outcome
    decreases |obs| - i
  {
    if i >= |obs| then Accepted else Then(ObservableOutcome(obs[i], i, n), ObservablesFrom(obs, i + 1, n))
  }

  function ObservablesOutcome(obs: Cbor, n: int): Outcome {
    if !(obs.CArray? && |obs.items| >= 1) then Rejected(ObservablesEmpty)
    else ObservablesFrom(obs.items, 0, n)
  }

  function NoiseOutcome(noise: Cbor): Outcome {
    if !noise.CMap? then Rejected(NoiseNotMap)
    else if "t1_us" !in noise.fields then Rejected(T1Required)
    else if "t2_us" !in noise.fields then Rejected(T2Required)
    else
      var t1, t2 := noise.fields["t1_us"], noise.fields["t2_us"];
      if !PositiveNumber(t1) then Rejected(T1NotPositive)
      else if !PositiveNumber(t2) then Rejected(T2NotPositive)
      else if !(NumValue(t2) <= 2.0 * NumValue(t1)) then Rejected(T2Bound(t2, t1))
      else if "gate_fidelity_min" in noise.fields && !Fraction(noise.fields["gate_fidelity_min"]) then
        Rejected(GateFidelityRange(noise.fields["gate_fidelity_min"]))
      else if "readout_fidelity_min" in noise.fields then
        Guard(Fraction(noise.fields["readout_fidelity_min"]), ReadoutFidelityRange(noise.fields["readout_fidelity_min"]))
      else Accepted
  }

  /** What `validate_program` does with `p`: return normally, raise the
      first ValidationError, or raise a TypeError. */
  function Check(p: Cbor): Outcome {
    if !p.CMap? then Rejected(RootNotMap)
    else if REQUIRED_TOP_LEVEL - p.fields.Keys != {} then Rejected(MissingTopLevel(REQUIRED_TOP_LEVEL - p.fields.Keys))
    else
      var f := p.fields;
      assert forall k :: k in REQUIRED_TOP_LEVEL ==> k in f by {
        forall k | k in REQUIRED_TOP_LEVEL ensures k in f {
          assert k !in REQUIRED_TOP_LEVEL - f.Keys;
        }
      }
      var n := NQubitsOf(f["system"]);
      Then(VersionOutcome(f["version"]),
      Then(SystemOutcome(f["system"]),
      Then(HamiltonianOutcome(f["hamiltonian"], n),
      Then(EvolutionOutcome(f["evolution"]),
      Then(ObservablesOutcome(f["observables"], n),
           NoiseOutcome(f["noise"]))))))
  }

  // ---------------------------------------------------------------------------
  // What an acceptable program is

  predicate SystemOk(sys: Cbor) {
    && sys.CMap? && "n_qubits" in sys.fields
    && sys.fields["n_qubits"].CInt? && sys.fields["n_qubits"].i > 0
    && ("cooling_profile" in sys.fields ==>
          var cp := sys.fields["cooling_profile"];
          cp.CMap? && "target_temp_mk" in cp.fields && IsNumber(cp.fields["target_temp_mk"]))
  }

  /** A Pauli factor on an existing qubit along one of the four axes. */
  predicate PauliOk(op: Cbor, n: int) {
    && op.CMap? && "qubit" in op.fields && "axis" in op.fields
    && op.fields["qubit"].CInt? && 0 <= op.fields["qubit"].i < n
    && ValidAxis(op.fields["axis"])
  }

  predicate TermOk(term: Cbor, n: int) {
    && term.CMap? && "coefficient" in term.fields && "paulis" in term.fields
    && term.fields["paulis"].CArray?
    && forall j :: 0 <= j < |term.fields["paulis"].items| ==> PauliOk(term.fields["paulis"].items[j], n)
  }

  predicate HamiltonianOk(h: Cbor, n: int) {
    && h.CMap? && "terms" in h.fields && "constant_offset" in h.fields
    && h.fields["terms"].CArray? && |h.fields["terms"].items| >= 1
    && IsNumber(h.fields["constant_offset"])
    && forall i :: 0 <= i < |h.fields["terms"].items| ==> TermOk(h.fields["terms"].items[i], n)
  }

  predicate EvolutionOk(evo: Cbor) {
    && evo.CMap? && "total_us" in evo.fields && "steps" in evo.fields && "dt_us" in evo.fields
    && evo.fields["steps"].CInt? && evo.fields["steps"].i >= 1
    && PositiveNumber(evo.fields["total_us"]) && PositiveNumber(evo.fields["dt_us"])
    && DtConsistent(NumValue(evo.fields["dt_us"]), NumValue(evo.fields["total_us"]) / evo.fields["steps"].i as real)
  }

  predicate ObservableOk(o: Cbor, n: int) {
    && o.CMap? && "type" in o.fields && ValidType(o.fields["type"])
    && var t := o.fields["type"].s;
    && ((t == "SZ" || t == "SX") ==>
          "qubit" in o.fields && IsNumber(o.fields["qubit"]) && 0.0 <= NumValue(o.fields["qubit"]) < n as real)
    && (t == "rho" ==> "qubits" in o.fields && o.fields["qubits"].CArray? && |o.fields["qubits"].items| >= 1)
    && (t == "F" ==> "target_state" in o.fields && o.fields["target_state"].CBytes?)
  }

  predicate ObservablesOk(obs: Cbor, n: int) {
    obs.CArray? && |obs.items| >= 1 && forall i :: 0 <= i < |obs.items| ==> ObservableOk(obs.items[i], n)
  }

  /** Relaxation times are positive, T2 is at most 2·T1, and the optional
      fidelity floors lie in [0, 1]. */
  predicate NoiseOk(noise: Cbor) {
    && noise.CMap? && "t1_us" in noise.fields && "t2_us" in noise.fields
    && PositiveNumber(noise.fields["t1_us"]) && PositiveNumber(noise.fields["t2_us"])
    && NumValue(noise.fields["t2_us"]) <= 2.0 * NumValue(noise.fields["t1_us"])
    && ("gate_fidelity_min" in noise.fields ==> Fraction(noise.fields["gate_fidelity_min"]))
    && ("readout_fidelity_min" in noise.fields ==> Fraction(noise.fields["readout_fidelity_min"]))
  }

  /** Every condition of schema v0.1 at once. */
  predicate Acceptable(p: Cbor) {
    && p.CMap? && REQUIRED_TOP_LEVEL <= p.fields.Keys
    && p.fields["version"] == CInt(1)
    && SystemOk(p.fields["system"])
    && HamiltonianOk(p.fields["hamiltonian"], NQubitsOf(p.fields["system"]))
    && EvolutionOk(p.fields["evolution"])
    && ObservablesOk(p.fields["observables"], NQubitsOf(p.fields["system"]))
    && NoiseOk(p.fields["noise"])
  }

  // ---------------------------------------------------------------------------
  // The first-failure checks accept exactly the acceptable programs

  lemma {:induction false} PaulisFromAccepts(ops: seq<Cbor>, j: nat, n: int)
    ensures PaulisFrom(ops, j, n) == Accepted <==> forall k :: j <= k < |ops| ==> PauliOk(ops[k], n)
    decreases |ops| - j
  {
    if j < |ops| {
      PaulisFromAccepts(ops, j + 1, n);
      assert PauliOutcome(ops[j], j, n) == Accepted <==> PauliOk(ops[j], n);
    }
  }

  lemma TermAccepts(term: Cbor, i: nat, n: int)
    ensures TermOutcome(term, i, n) == Accepted <==> TermOk(term, n)
  {
    if term.CMap? && "paulis" in term.fields && term.fields["paulis"].CArray? {
      PaulisFromAccepts(term.fields["paulis"].items, 0, n);
    }
  }

  lemma {:induction false} TermsFromAccepts(terms: seq<Cbor>, i: nat, n: int)
    ensures TermsFrom(terms, i, n) == Accepted <==> forall k :: i <= k < |terms| ==> TermOk(terms[k], n)
    decreases |terms| - i
  {
    if i < |terms| {
      TermsFromAccepts(terms, i + 1, n);
      TermAccepts(terms[i], i, n);
    }
  }

  lemma ObservableAccepts(o: Cbor, i: nat, n: int)
    ensures ObservableOutcome(o, i, n) == Accepted <==> ObservableOk(o, n)
  {
  }

  lemma {:induction false} ObservablesFromAccepts(obs: seq<Cbor>, i: nat, n: int)
    ensures ObservablesFrom(obs, i, n) == Accepted <==> forall k :: i <= k < |obs| ==> ObservableOk(obs[k], n)
    decreases |obs| - i
  {
    if i < |obs| {
      ObservablesFromAccepts(obs, i + 1, n);
      ObservableAccepts(obs[i], i, n);
    }
  }

  lemma EvolutionAccepts(evo: Cbor)
    ensures EvolutionOutcome(evo) == Accepted <==> EvolutionOk(evo)
  {
    if evo.CMap? {
      var r := FirstAbsent(evo.fields, EVOLUTION_FIELDS);
      assert r.None? <==> "total_us" in evo.fields && "steps" in evo.fields && "dt_us" in evo.fields by {
        assert EVOLUTION_FIELDS[0] == "total_us" && EVOLUTION_FIELDS[1] == "steps" && EVOLUTION_FIELDS[2] == "dt_us";
      }
    }
  }

  lemma VersionAccepts(v: Cbor)
    ensures VersionOutcome(v) == Accepted <==> v == CInt(1)
  {
  }

  lemma SystemAccepts(sys: Cbor)
    ensures SystemOutcome(sys) == Accepted <==> SystemOk(sys)
  {
  }

  lemma HamiltonianAccepts(h: Cbor, n: int)
    ensures HamiltonianOutcome(h, n) == Accepted <==> HamiltonianOk(h, n)
  {
    if h.CMap? && "terms" in h.fields && h.fields["terms"].CArray? {
      TermsFromAccepts(h.fields["terms"].items, 0, n);
    }
  }

  lemma ObservablesAccepts(obs: Cbor, n: int)
    ensures ObservablesOutcome(obs, n) == Accepted <==> ObservablesOk(obs, n)
  {
    if obs.CArray? {
      ObservablesFromAccepts(obs.items, 0, n);
    }
  }

  lemma NoiseAccepts(noise: Cbor)
    ensures NoiseOutcome(noise) == Accepted <==> NoiseOk(noise)
  {
  }

  /** `validate_program` returns normally exactly when the program meets
      every condition of the schema. */
  lemma CheckAccepts(p: Cbor)
    ensures Check(p) == Accepted <==> Acceptable(p)
  {
    if p.CMap? && REQUIRED_TOP_LEVEL <= p.fields.Keys {
      var f := p.fields;
      assert REQUIRED_TOP_LEVEL - f.Keys == {};
      var n := NQubitsOf(f["system"]);
      VersionAccepts(f["version"]);
      SystemAccepts(f["system"]);
      HamiltonianAccepts(f["hamiltonian"], n);
      EvolutionAccepts(f["evolution"]);
      ObservablesAccepts(f["observables"], n);
      NoiseAccepts(f["noise"]);
      assert Check(p) == Then(VersionOutcome(f["version"]),
        Then(SystemOutcome(f["system"]),
        Then(HamiltonianOutcome(f["hamiltonian"], n),
        Then(EvolutionOutcome(f["evolution"]),
        Then(ObservablesOutcome(f["observables"], n),
             NoiseOutcome(f["noise"]))))));
    } else if p.CMap? {
      var k :| k in REQUIRED_TOP_LEVEL && k !in p.fields.Keys;
      assert k in REQUIRED_TOP_LEVEL - p.fields.Keys;
    }
  }

  // ---------------------------------------------------------------------------
  // validate_program

  /** The nested term and Pauli loops. */
  method ValidateTerms(terms: seq<Cbor>, n: int) returns (r: Outcome)
    ensures r == TermsFrom(terms, 0, n)
  {
    for i := 0 to |terms|
      invariant TermsFrom(terms, 0, n) == TermsFrom(terms, i, n)
    {
      var term := terms[i];
      if !term.CMap? {
        return Rejected(TermNotMap(i));
      }
      if "coefficient" !in term.fields {
        return Rejected(CoefficientRequired(i));
      }
      if "paulis" !in term.fields {
        return Rejected(PaulisRequired(i));
      }
      var paulis := term.fields["paulis"];
      if !paulis.CArray? {
        return Rejected(PaulisNotArray(i));
      }
      var ops := paulis.items;
      for j := 0 to |ops|
        invariant PaulisFrom(ops, 0, n) == PaulisFrom(ops, j, n)
      {
        var op := ops[j];
        if !op.CMap? {
          return Rejected(PauliNotMap(j));
        }
        if !("qubit" in op.fields && "axis" in op.fields) {
          return Rejected(PauliIncomplete(j));
        }
        var q := op.fields["qubit"];
        if !(q.CInt? && 0 <= q.i < n) {
          return Rejected(PauliQubitOutOfRange(j, q, n));
        }
        var a := op.fields["axis"];
        if !Hashable(a) {
          return Crashed(AxisUnhashable(j));
        }
        if !ValidAxis(a) {
          return Rejected(PauliAxisInvalid(j, a));
        }
      }
    }
    return Accepted;
  }

  /** The observable loop. */
  method ValidateObservables(obs: seq<Cbor>, n: int) returns (r: Outcome)
    ensures r == ObservablesFrom(obs, 0, n)
  {
    for i := 0 to |obs|
      invariant ObservablesFrom(obs, 0, n) == ObservablesFrom(obs, i, n)
    {
      var o := obs[i];
      if !o.CMap? {
        return Rejected(ObservableNotMap(i));
      }
      if "type" !in o.fields {
        return Rejected(ObservableTypeRequired(i));
      }
      var t := o.fields["type"];
      if !Hashable(t) {
        return Crashed(TypeUnhashable(i));
      }
      if !ValidType(t) {
        return Rejected(ObservableTypeInvalid(i, t));
      }
      if t.s == "SZ" || t.s == "SX" {
        if "qubit" !in o.fields {
          return Rejected(ObservableQubitRequired(i, t.s));
        }
        var q := o.fields["qubit"];
        if !IsNumber(q) {
          return Crashed(QubitIncomparable(i));
        }
        if !(0.0 <= NumValue(q) < n as real) {
          return Rejected(ObservableQubitOutOfRange(i, q));
        }
      }
      if t.s == "rho" {
        if !("qubits" in o.fields && o.fields["qubits"].CArray? && |o.fields["qubits"].items| >= 1) {
          return Rejected(RhoQubitsRequired(i));
        }
      }
      if t.s == "F" {
        if !("target_state" in o.fields && o.fields["target_state"].CBytes?) {
          return Rejected(TargetStateRequired(i));
        }
      }
    }
    return Accepted;
  }

  /** The version check. */
  method ValidateVersion(version: Cbor) returns (r: Outcome)
    ensures r == VersionOutcome(version)
  {
    if !version.CInt? {
      return Rejected(VersionNotUint);
    }
    if version.i != 1 {
      return Rejected(VersionNotOne(version));
    }
    return Accepted;
  }

  /** The system block's checks, cooling profile included. */
  method ValidateSystem(sys: Cbor) returns (r: Outcome)
    ensures r == SystemOutcome(sys)
  {
    if !sys.CMap? {
      return Rejected(SystemNotMap);
    }
    if "n_qubits" !in sys.fields {
      return Rejected(NQubitsRequired);
    }
    if !(sys.fields["n_qubits"].CInt? && sys.fields["n_qubits"].i > 0) {
      return Rejected(NQubitsNotPositive);
    }
    if "cooling_profile" in sys.fields {
      var cp := sys.fields["cooling_profile"];
      if !cp.CMap? {
        return Rejected(CoolingNotMap);
      }
      if "target_temp_mk" !in cp.fields {
        return Rejected(TargetTempRequired);
      }
      if !IsNumber(cp.fields["target_temp_mk"]) {
        return Rejected(TargetTempNotFloat);
      }
    }
    return Accepted;
  }

  /** The Hamiltonian block's checks, the term loops included. */
  method ValidateHamiltonian(h: Cbor, n: int) returns (r: Outcome)
    ensures r == HamiltonianOutcome(h, n)
  {
    if !h.CMap? {
      return Rejected(HamiltonianNotMap);
    }
    if "terms" !in h.fields {
      return Rejected(TermsRequired);
    }
    if "constant_offset" !in h.fields {
      return Rejected(OffsetRequired);
    }
    if !(h.fields["terms"].CArray? && |h.fields["terms"].items| >= 1) {
      return Rejected(TermsEmpty);
    }
    if !IsNumber(h.fields["constant_offset"]) {
      return Rejected(OffsetNotFloat);
    }
    r := ValidateTerms(h.fields["terms"].items, n);
  }

  /** The evolution block's checks: the required-field loop, then the
      step count, the durations and the dt consistency. */
  method ValidateEvolution(evo: Cbor) returns (r: Outcome)
    ensures r == EvolutionOutcome(evo)
  {
    if !evo.CMap? {
      return Rejected(EvolutionNotMap);
    }
    for k := 0 to |EVOLUTION_FIELDS|
      invariant FirstAbsent(evo.fields, EVOLUTION_FIELDS) == FirstAbsent(evo.fields, EVOLUTION_FIELDS[k..])
    {
      assert EVOLUTION_FIELDS[k..][1..] == EVOLUTION_FIELDS[k + 1..];
      if EVOLUTION_FIELDS[k] !in evo.fields {
        return Rejected(EvolutionFieldRequired(EVOLUTION_FIELDS[k]));
      }
    }
    assert "total_us" == EVOLUTION_FIELDS[0] && "steps" == EVOLUTION_FIELDS[1] && "dt_us" == EVOLUTION_FIELDS[2];
    assert FirstAbsent(evo.fields, EVOLUTION_FIELDS[3..]) == None;
    var steps := evo.fields["steps"];
    if !(steps.CInt? && steps.i >= 1) {
      return Rejected(StepsNotPositive);
    }
    var total := evo.fields["total_us"];
    if !PositiveNumber(total) {
      return Rejected(TotalNotPositive);
    }
    var dt := evo.fields["dt_us"];
    if !PositiveNumber(dt) {
      return Rejected(DtNotPositive);
    }
    var expected := NumValue(total) / steps.i as real;
    if !DtConsistent(NumValue(dt), expected) {
      return Rejected(DtInconsistent(dt, expected));
    }
    return Accepted;
  }

  /** The noise block's checks. */
  method ValidateNoise(noise: Cbor) returns (r: Outcome)
    ensures r == NoiseOutcome(noise)
  {
    if !noise.CMap? {
      return Rejected(NoiseNotMap);
    }
    if "t1_us" !in noise.fields {
      return Rejected(T1Required);
    }
    if "t2_us" !in noise.fields {
      return Rejected(T2Required);
    }
    var t1 := noise.fields["t1_us"];
    var t2 := noise.fields["t2_us"];
    if !PositiveNumber(t1) {
      return Rejected(T1NotPositive);
    }
    if !PositiveNumber(t2) {
      return Rejected(T2NotPositive);
    }
    if !(NumValue(t2) <= 2.0 * NumValue(t1)) {
      return Rejected(T2Bound(t2, t1));
    }
    if "gate_fidelity_min" in noise.fields {
      var f := noise.fields["gate_fidelity_min"];
      if !Fraction(f) {
        return Rejected(GateFidelityRange(f));
      }
    }
    if "readout_fidelity_min" in noise.fields {
      var f := noise.fields["readout_fidelity_min"];
      if !Fraction(f) {
        return Rejected(ReadoutFidelityRange(f));
      }
    }
    return Accepted;
  }

  /** `validate_program`: the sections in the source's order, stopping at
      the first error. */
  method ValidateProgram(p: Cbor) returns (r: Outcome)
    ensures r == Check(p)
    ensures r == Accepted <==> Acceptable(p)
  {
    CheckAccepts(p);
    if !p.CMap? {
      return Rejected(RootNotMap);
    }
    var missing := REQUIRED_TOP_LEVEL - p.fields.Keys;
    if missing != {} {
      return Rejected(MissingTopLevel(missing));
    }
    assert forall k :: k in REQUIRED_TOP_LEVEL ==> k in p.fields by {
      forall k | k in REQUIRED_TOP_LEVEL ensures k in p.fields {
        assert k !in missing;
      }
    }
    var n := NQubitsOf(p.fields["system"]);
    assert Check(p) == Then(VersionOutcome(p.fields["version"]),
      Then(SystemOutcome(p.fields["system"]),
      Then(HamiltonianOutcome(p.fields["hamiltonian"], n),
      Then(EvolutionOutcome(p.fields["evolution"]),
      Then(ObservablesOutcome(p.fields["observables"], n),
           NoiseOutcome(p.fields["noise"]))))));
    r := ValidateVersion(p.fields["version"]);
    if !r.Accepted? {
      return r;
    }
    r := ValidateSystem(p.fields["system"]);
    if !r.Accepted? {
      return r;
    }
    r := ValidateHamiltonian(p.fields["hamiltonian"], n);
    if !r.Accepted? {
      return r;
    }
    r := ValidateEvolution(p.fields["evolution"]);
    if !r.Accepted? {
      return r;
    }
    var obs := p.fields["observables"];
    if !(obs.CArray? && |obs.items| >= 1) {
      return Rejected(ObservablesEmpty);
    }
    r := ValidateObservables(obs.items, n);
    if !r.Accepted? {
      return r;
    }
    r := ValidateNoise(p.fields["noise"]);
  }

  // ---------------------------------------------------------------------------
  // Keys the schema does not name

  /** A top-level key outside the six required ones never changes the
      verdict. */
  lemma ExtraTopLevelKey(p: Cbor, k: string, v: Cbor)
    requires p.CMap? && k !in REQUIRED_TOP_LEVEL
    ensures Check(CMap(p.fields[k := v])) == Check(p)
  {
    var g := p.fields[k := v];
    assert REQUIRED_TOP_LEVEL - g.Keys == REQUIRED_TOP_LEVEL - p.fields.Keys;
    forall r | r in REQUIRED_TOP_LEVEL && r in p.fields ensures g[r] == p.fields[r] {
    }
  }

  /** A system key other than n_qubits and cooling_profile, such as
      backend_hint, never changes the verdict. */
  lemma ExtraSystemKey(p: Cbor, k: string, v: Cbor)
    requires p.CMap? && "system" in p.fields && p.fields["system"].CMap?
    requires k != "n_qubits" && k != "cooling_profile"
    ensures Check(CMap(p.fields["system" := CMap(p.fields["system"].fields[k := v])])) == Check(p)
  {
    var sys := p.fields["system"];
    var sys' := CMap(sys.fields[k := v]);
    assert SystemOutcome(sys') == SystemOutcome(sys);
    assert NQubitsOf(sys') == NQubitsOf(sys);
    var g := p.fields["system" := sys'];
    assert g.Keys == p.fields.Keys;
    forall r | r in p.fields && r != "system" ensures g[r] == p.fields[r] {
    }
  }

  // ---------------------------------------------------------------------------
  // The transverse-field Ising example, 2 qubits

  const ISING_SYSTEM: Cbor := CMap(map["n_qubits" := CInt(2), "backend_hint" := CText("ibm_torino")])

  const ISING_TERMS: seq<Cbor> := [
    CMap(map["coefficient" := CFloat(-1.0),
             "paulis" := CArray([CMap(map["qubit" := CInt(0), "axis" := CInt(3)]),
                                 CMap(map["qubit" := CInt(1), "axis" := CInt(3)])])]),
    CMap(map["coefficient" := CFloat(-0.5),
             "paulis" := CArray([CMap(map["qubit" := CInt(0), "axis" := CInt(1)])])]),
    CMap(map["coefficient" := CFloat(-0.5),
             "paulis" := CArray([CMap(map["qubit" := CInt(1), "axis" := CInt(1)])])])]

  const ISING_HAMILTONIAN: Cbor := CMap(map["terms" := CArray(ISING_TERMS), "constant_offset" := CFloat(0.0)])

  const ISING_EVOLUTION: Cbor := CMap(map["total_us" := CFloat(1.0), "steps" := CInt(10), "dt_us" := CFloat(0.1)])

  const ISING_OBSERVABLES: Cbor :=
    CArray([CMap(map["type" := CText("SZ"), "qubit" := CInt(0)]),
            CMap(map["type" := CText("SZ"), "qubit" := CInt(1)])])

  const ISING_NOISE: Cbor :=
    CMap(map["t1_us" := CFloat(100.0), "t2_us" := CFloat(80.0), "gate_fidelity_min" := CFloat(0.999)])

  const TRANSVERSE_ISING_2Q: Cbor :=
    CMap(map["version" := CInt(1), "system" := ISING_SYSTEM, "hamiltonian" := ISING_HAMILTONIAN,
             "evolution" := ISING_EVOLUTION, "observables" := ISING_OBSERVABLES, "noise" := ISING_NOISE])

  lemma IsingTermsPass()
    ensures TermsFrom(ISING_TERMS, 0, 2) == Accepted
  {
    TermsFromAccepts(ISING_TERMS, 0, 2);
    forall k | 0 <= k < |ISING_TERMS| ensures TermOk(ISING_TERMS[k], 2) {
      var ops := ISING_TERMS[k].fields["paulis"].items;
      assert forall j :: 0 <= j < |ops| ==> PauliOk(ops[j], 2);
    }
  }

  lemma IsingObservablesPass()
    ensures ObservablesOutcome(ISING_OBSERVABLES, 2) == Accepted
  {
    ObservablesFromAccepts(ISING_OBSERVABLES.items, 0, 2);
    forall k | 0 <= k < |ISING_OBSERVABLES.items| ensures ObservableOk(ISING_OBSERVABLES.items[k], 2) {
    }
  }

  lemma IsingSystemPass()
    ensures NQubitsOf(ISING_SYSTEM) == 2 && SystemOutcome(ISING_SYSTEM) == Accepted
  {
    assert "cooling_profile" !in ISING_SYSTEM.fields;
  }

  lemma IsingHamiltonianPass()
    ensures HamiltonianOutcome(ISING_HAMILTONIAN, 2) == Accepted
  {
    IsingTermsPass();
    var h := ISING_HAMILTONIAN.fields;
    assert h["terms"] == CArray(ISING_TERMS) && h["constant_offset"] == CFloat(0.0);
  }

  lemma IsingEvolutionPass()
    ensures EvolutionOutcome(ISING_EVOLUTION) == Accepted
  {
    EvolutionAccepts(ISING_EVOLUTION);
    var e := ISING_EVOLUTION.fields;
    assert e["total_us"] == CFloat(1.0) && e["steps"] == CInt(10) && e["dt_us"] == CFloat(0.1);
    assert DtConsistent(0.1, 1.0 / 10 as real);
  }

  lemma IsingNoisePass()
    ensures NoiseOutcome(ISING_NOISE) == Accepted
  {
    var g := ISING_NOISE.fields;
    assert g["t1_us"] == CFloat(100.0) && g["t2_us"] == CFloat(80.0) && g["gate_fidelity_min"] == CFloat(0.999);
    assert "readout_fidelity_min" !in g;
  }

  /** The transverse-field Ising example passes validation. */
  lemma TransverseIsingAccepted()
    ensures Check(TRANSVERSE_ISING_2Q) == Accepted
  {
    IsingSystemPass();
    IsingHamiltonianPass();
    IsingEvolutionPass();
    IsingNoisePass();
    IsingObservablesPass();
    var f := TRANSVERSE_ISING_2Q.fields;
    assert f.Keys == REQUIRED_TOP_LEVEL;
    assert f["version"] == CInt(1) && f["system"] == ISING_SYSTEM && f["hamiltonian"] == ISING_HAMILTONIAN;
    assert f["evolution"] == ISING_EVOLUTION && f["observables"] == ISING_OBSERVABLES && f["noise"] == ISING_NOISE;
  }

  /** The same program with T2 above 2·T1 is refused with the T2 bound,
      the first check it fails. */
  lemma IsingWithLongT2Rejected()
    ensures Check(CMap(TRANSVERSE_ISING_2Q.fields["noise" := CMap(ISING_NOISE.fields["t2_us" := CFloat(250.0)])]))
         == Rejected(T2Bound(CFloat(250.0), CFloat(100.0)))
  {
    TransverseIsingAccepted();
    var noise := CMap(ISING_NOISE.fields["t2_us" := CFloat(250.0)]);
    assert NoiseOutcome(noise) == Rejected(T2Bound(CFloat(250.0), CFloat(100.0)));
  }
}
