/** The feature vector handed to the scaler (app.py lines 33 and 47): voltage, current,
    temperature and power, in that order, where power is v * i rounded to two places. */
module Features {

  /** One reading of the three sensor inputs. */
  datatype Reading = Reading(voltage: real, current: real, temp: real)

  /** The named columns the scaler and the model were fitted on. */
  datatype Feature = Voltage | Current | Temp | Power

  /** The column order of the feature vector, pinned by name. */
  const Schema: seq<Feature> := [Voltage, Current, Temp, Power]

  /** Power as the dashboard derives it; round2 stands for round(_, 2). */
  function PowerOf(r: Reading, round2: real -> real): real
  {
    round2(r.voltage * r.current)
  }

  /** The value of one named column for a reading. */
  function Value(r: Reading, round2: real -> real, f: Feature): real
  {
    match f
    case Voltage => r.voltage
    case Current => r.current
    case Temp => r.temp
    case Power => PowerOf(r, round2)
  }

  /** The vector [v, i, t, power]: position k holds the column Schema names at k. */
  function BuildFeatures(r: Reading, round2: real -> real): (x: seq<real>)
    ensures |x| == |Schema| == 4
    ensures forall k :: 0 <= k < |Schema| ==> x[k] == Value(r, round2, Schema[k])
  {
    [r.voltage, r.current, r.temp, PowerOf(r, round2)]
  }

  /** Every column appears in the schema, and exactly once. */
  lemma SchemaIsPermutation()
    ensures forall f: Feature :: f in Schema
    ensures forall i, j :: 0 <= i < j < |Schema| ==> Schema[i] != Schema[j]
  {
    forall f: Feature
      ensures f in Schema
    {
      match f
      case Voltage => assert Schema[0] == f;
      case Current => assert Schema[1] == f;
      case Temp => assert Schema[2] == f;
      case Power => assert Schema[3] == f;
    }
  }

  /** The dashboard's default inputs give the vector [52, 2, 30, 104]. */
  lemma DefaultReadingFeatures(round2: real -> real)
    requires round2(104.0) == 104.0
    ensures BuildFeatures(Reading(52.0, 2.0, 30.0), round2) == [52.0, 2.0, 30.0, 104.0]
  {
  }
}
