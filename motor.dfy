/**
 * motor.go: a catalog of DC motors.  A motor is a plain record of six
 * constants; the four configured ones come from the catalog and the two
 * calculated ones follow from them and the supply voltage.
 */
module Motors {
  import opened RealArith
  import opened Trigonometry

  /** The robot's supply voltage in volts. */
  const MaxVoltage: real := 12.0

  datatype Motor = Motor(
    kStallTorque: real,   // N m
    kStallCurrent: real,  // A
    kFreeSpeed: real,     // RPM
    kFreeCurrent: real,   // A
    kResistance: real,    // ohm
    kV: real)             // velocity constant

  /** The zero value of the Go struct, returned for names not in the catalog. */
  const ZeroMotor: Motor := Motor(0.0, 0.0, 0.0, 0.0, 0.0, 0.0)

  /** ASCII lower-casing of one character. */
  function LowerAscii(c: char): char {
    if 'A' <= c <= 'Z' then (c as int - 'A' as int + 'a' as int) as char else c
  }

  /** Case-insensitive string equality (`strings.EqualFold`) over ASCII letters. */
  predicate EqualFold(a: string, b: string) {
    |a| == |b| && forall i :: 0 <= i < |a| ==> LowerAscii(a[i]) == LowerAscii(b[i])
  }

  /** The only catalog entry. */
  predicate IsCim(name: string) {
    EqualFold(name, "cim")
  }

  /** The physical relations that tie a motor's calculated constants to its configured ones. */
  predicate Consistent(m: Motor) {
    && m.kResistance * m.kStallCurrent == MaxVoltage
    && m.kV * (MaxVoltage - m.kResistance * m.kFreeCurrent) == m.kFreeSpeed / 60.0 * 2.0 * Pi
  }

  /** The four catalog constants of the CIM motor. */
  predicate HasCimCatalogValues(m: Motor) {
    m.kStallTorque == 2.42 && m.kStallCurrent == 133.0 && m.kFreeSpeed == 5330.0 && m.kFreeCurrent == 2.7
  }

  /**
   * `NewMotor`: starts from the zero motor and, for the name "cim" in any
   * letter case, fills in the catalog constants one field at a time, then the
   * resistance from the stall current and kV from the free speed.
   */
  method NewMotor(name: string) returns (m: Motor)
    ensures IsCim(name) ==> HasCimCatalogValues(m) && Consistent(m)
    ensures IsCim(name) ==> m.kResistance == MaxVoltage / 133.0
    ensures !IsCim(name) ==> m == ZeroMotor
  {
    m := ZeroMotor;
    if IsCim(name) {
      m := m.(kStallTorque := 2.42);
      m := m.(kStallCurrent := 133.0);
      m := m.(kFreeSpeed := 5330.0);
      m := m.(kFreeCurrent := 2.7);
      m := m.(kResistance := MaxVoltage / m.kStallCurrent);
      m := m.(kV := (m.kFreeSpeed / 60.0 * 2.0 * Pi) / (MaxVoltage - m.kResistance * m.kFreeCurrent));
    }
  }

  /**
   * `MakeMotor` as written: the same catalog entry as a struct literal, but
   * its kV numerator is the untyped integer constant expression
   * `5330 / 60 * 2 * math.Pi`, in which `5330 / 60` is an integer division
   * (88 rather than 88.83...).
   */
  function MakeMotor(name: string): (m: Motor)
    ensures IsCim(name) ==> HasCimCatalogValues(m) && m.kResistance * m.kStallCurrent == MaxVoltage
    ensures !IsCim(name) ==> m == ZeroMotor
  {
    if IsCim(name) then
      var resistance := MaxVoltage / 133.0;
      var kV := ((5330 / 60) as real * 2.0 * Pi) / (MaxVoltage - (MaxVoltage / 133.0) * 2.7);
      Motor(2.42, 133.0, 5330.0, 2.7, resistance, kV)
    else
      ZeroMotor
  }

  /** `MakeMotor` with the kV numerator computed in real arithmetic, as `NewMotor` does. */
  function MakeMotorCorrected(name: string): (m: Motor)
    ensures IsCim(name) ==> HasCimCatalogValues(m) && Consistent(m)
    ensures !IsCim(name) ==> m == ZeroMotor
  {
    if IsCim(name) then
      var resistance := MaxVoltage / 133.0;
      var kV := (5330.0 / 60.0 * 2.0 * Pi) / (MaxVoltage - (MaxVoltage / 133.0) * 2.7);
      Motor(2.42, 133.0, 5330.0, 2.7, resistance, kV)
    else
      ZeroMotor
  }

  /** The denominator of kV, the voltage left after the free-current drop, is positive. */
  lemma CimBackVoltagePositive()
    ensures 0.0 < MaxVoltage - (MaxVoltage / 133.0) * 2.7
  {
  }

  /**
   * `MakeMotor("cim")` agrees with `NewMotor("cim")` on the catalog values
   * and the resistance, but its kV breaks the kV relation: it is smaller
   * than the consistent value by the factor 88 / (5330 / 60).
   */
  lemma MakeMotorKvTruncated(name: string)
    requires IsCim(name)
    ensures var m := MakeMotor(name);
      !Consistent(m) && m.kV < MakeMotorCorrected(name).kV
    ensures MakeMotor(name).(kV := 0.0) == MakeMotorCorrected(name).(kV := 0.0)
  {
    var d := MaxVoltage - (MaxVoltage / 133.0) * 2.7;
    CimBackVoltagePositive();
    var truncated := 88.0 * 2.0 * Pi;
    var exact := 5330.0 / 60.0 * 2.0 * Pi;
    assert truncated < exact;
    assert MakeMotor(name).kV == truncated / d;
    assert MakeMotorCorrected(name).kV == exact / d;
    DivideMonotone(truncated, exact, d);
    var m := MakeMotor(name);
    assert m.kV * d == truncated;
  }

  /** Dividing by a positive number keeps a strict order. */
  lemma DivideMonotone(a: real, b: real, d: real)
    requires a < b && 0.0 < d
    ensures a / d < b / d
  {
    var k := 1.0 / d;
    assert 0.0 < k;
    MulLeftStrict(k, a, b);
    assert a / d == k * a && b / d == k * b;
  }

  /** Concrete instances of the case-insensitive lookup. */
  lemma CimLookupExamples()
    ensures IsCim("CIM") && IsCim("Cim") && IsCim("cim")
    ensures !IsCim("cim ") && !IsCim("775pro") && !IsCim("")
  {
    assert !EqualFold("775pro", "cim");
    assert !EqualFold("cim ", "cim");
  }
}
