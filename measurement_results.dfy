/** The results presenter (src/components/MeasurementResults.jsx): a stateless
    projection of an inference response onto 17 labelled display rows. */
module MeasurementResults {
  import opened Wrappers

  /** The nested `measurements` object of a response; each field may be absent. */
  datatype BodyMeasurements = BodyMeasurements(
    neck: Option<real>, chest: Option<real>, waist: Option<real>, belly: Option<real>,
    hips: Option<real>, thigh: Option<real>, knee: Option<real>, calf: Option<real>,
    bicep: Option<real>, shoulderWidth: Option<real>, armLength: Option<real>,
    shoulderToCrotch: Option<real>, outseam: Option<real>, rise: Option<real>)

  /** An inference response as the client receives it; every field may be absent. */
  datatype MeasurementResult = MeasurementResult(
    height: Option<real>, weight: Option<real>, bmi: Option<real>,
    meshUrl: Option<string>, measurements: Option<BodyMeasurements>)

  /** The value handed to a row: JavaScript lets it be a number or a missing value. */
  datatype Value = Number(n: real) | Missing

  /** What a row displays: a number (formatted to two decimals on screen) or "--". */
  datatype Shown = Formatted(n: real) | Dash

  datatype Row = Row(name: string, value: Value, unit: string)

  /** `m = measurements || {}`: an absent object reads as one with no fields. */
  const NoMeasurements: BodyMeasurements :=
    BodyMeasurements(None, None, None, None, None, None, None, None, None, None, None, None, None, None)

  /** `toCm`: missing values become 0 (before the weight/BMI test, so they too);
      weight and BMI pass through; any other value below 10 is taken as metres. */
  function ToCm(val: Option<real>, isWeight: bool, isBmi: bool): (r: real)
    ensures val.None? ==> r == 0.0
    ensures val.Some? && (isWeight || isBmi) ==> r == val.value
    ensures val.Some? && !isWeight && !isBmi && val.value < 10.0 ==> r == val.value * 100.0
    ensures val.Some? && !isWeight && !isBmi && val.value >= 10.0 ==> r == val.value
  {
    if val.None? then 0.0
    else if isWeight || isBmi then val.value
    else if val.value < 10.0 then val.value * 100.0
    else val.value
  }

  /** A length given in metres (0.1 m or more) comes out in the centimetre range. */
  lemma MetresLandInCentimetreRange(x: real)
    requires 0.1 <= x < 10.0
    ensures 10.0 <= ToCm(Some(x), false, false) < 1000.0
  {
  }

  /** Normalising an already normalised length changes nothing, provided the length
      was not below 0.1 to begin with. */
  lemma ToCmIdempotent(x: real)
    requires x >= 0.1
    ensures ToCm(Some(ToCm(Some(x), false, false)), false, false) == ToCm(Some(x), false, false)
  {
  }

  /** Below 0.1 the heuristic is not idempotent: 0.05 becomes 5, and 5 becomes 500. */
  lemma ToCmTinyValueRescales()
    ensures ToCm(Some(0.05), false, false) == 5.0
    ensures ToCm(Some(ToCm(Some(0.05), false, false)), false, false) == 500.0
  {
  }

  /** `MeasurementItem`'s `displayValue`: a number is formatted, a missing value shows "--". */
  function DisplayValue(v: Value): (s: Shown)
    ensures s == Dash <==> v == Missing
    ensures v.Number? ==> s == Formatted(v.n)
  {
    match v
    case Number(n) => Formatted(n)
    case Missing => Dash
  }

  // ----- An independent, table-driven description of the same layout -----

  /** The row labels, in display order. */
  const Labels: seq<string> := [
    "Height", "Weight", "BMI", "Neck", "Chest", "Waist", "Belly", "Hip", "Thigh",
    "Knee", "Calf", "Bicep", "Shoulder Width", "Arm Length", "Shoulder to Crotch",
    "Outseam", "Rise"]

  /** The response field each row reads, by its wire name, in the same order. */
  const WireKeys: seq<string> := [
    "height", "weight", "bmi", "neck", "chest", "waist", "belly", "hips", "thigh",
    "knee", "calf", "bicep", "shoulder_width", "arm_length", "shoulder_to_crotch",
    "outseam", "rise"]

  /** Unit of a row: kilograms for weight, none for BMI, centimetres for the rest. */
  function UnitFor(name: string): string {
    if name == "Weight" then "kg" else if name == "BMI" then "" else "cm"
  }

  /** Field lookup by wire name, as `data[key]` or `measurements[key]` would read it. */
  function Field(data: MeasurementResult, key: string): Option<real> {
    if key == "height" then data.height
    else if key == "weight" then data.weight
    else if key == "bmi" then data.bmi
    else if data.measurements.None? then None
    else
      var m := data.measurements.value;
      if key == "neck" then m.neck
      else if key == "chest" then m.chest
      else if key == "waist" then m.waist
      else if key == "belly" then m.belly
      else if key == "hips" then m.hips
      else if key == "thigh" then m.thigh
      else if key == "knee" then m.knee
      else if key == "calf" then m.calf
      else if key == "bicep" then m.bicep
      else if key == "shoulder_width" then m.shoulderWidth
      else if key == "arm_length" then m.armLength
      else if key == "shoulder_to_crotch" then m.shoulderToCrotch
      else if key == "outseam" then m.outseam
      else if key == "rise" then m.rise
      else None
  }

  /** The row the layout table prescribes at position `i`. */
  function LayoutRow(data: MeasurementResult, i: nat): Row
    requires i < |Labels| && i < |WireKeys|
  {
    Row(Labels[i],
        Number(ToCm(Field(data, WireKeys[i]), WireKeys[i] == "weight", WireKeys[i] == "bmi")),
        UnitFor(Labels[i]))
  }

  /** The `items` array, row by row as the component lists it; it agrees row for
      row with the layout table above. */
  function Items(data: MeasurementResult): (rows: seq<Row>)
    ensures |rows| == |Labels| == 17
    ensures forall i :: 0 <= i < 17 ==> rows[i] == LayoutRow(data, i)
  {
    var m := data.measurements.GetOr(NoMeasurements);
    var rows := [ Row("Height", Number(ToCm(data.height, false, false)), "cm"),
      Row("Weight", Number(ToCm(data.weight, true, false)), "kg"),
      Row("BMI", Number(ToCm(data.bmi, false, true)), ""),
      Row("Neck", Number(ToCm(m.neck, false, false)), "cm"),
      Row("Chest", Number(ToCm(m.chest, false, false)), "cm"),
      Row("Waist", Number(ToCm(m.waist, false, false)), "cm"),
      Row("Belly", Number(ToCm(m.belly, false, false)), "cm"),
      Row("Hip", Number(ToCm(m.hips, false, false)), "cm"),
      Row("Thigh", Number(ToCm(m.thigh, false, false)), "cm"),
      Row("Knee", Number(ToCm(m.knee, false, false)), "cm"),
      Row("Calf", Number(ToCm(m.calf, false, false)), "cm"),
      Row("Bicep", Number(ToCm(m.bicep, false, false)), "cm"),
      Row("Shoulder Width", Number(ToCm(m.shoulderWidth, false, false)), "cm"),
      Row("Arm Length", Number(ToCm(m.armLength, false, false)), "cm"),
      Row("Shoulder to Crotch", Number(ToCm(m.shoulderToCrotch, false, false)), "cm"),
      Row("Outseam", Number(ToCm(m.outseam, false, false)), "cm"),
      Row("Rise", Number(ToCm(m.rise, false, false)), "cm") ];
    assert forall i :: 0 <= i < 17 ==> rows[i] == LayoutRow(data, i) by {
      forall i | 0 <= i < 17 ensures rows[i] == LayoutRow(data, i) {
        if i < 3 {
        } else if i < 10 {
        } else {
        }
      }
    }
    rows
  }

  /** The component: nothing for absent data, otherwise the row list. */
  function Render(data: Option<MeasurementResult>): (rows: Option<seq<Row>>)
    ensures rows.None? <==> data.None?
    ensures data.Some? ==> rows == Some(Items(data.value))
  {
    if data.None? then None else Some(Items(data.value))
  }


  // ----- Properties of the projection -----

  /** Labels come in the fixed order, with kilograms for weight, no unit for BMI
      and centimetres for every other row. */
  lemma RowLabelsAndUnits(data: MeasurementResult)
    ensures |Items(data)| == 17
    ensures forall i :: 0 <= i < 17 ==> Items(data)[i].name == Labels[i]
    ensures Items(data)[1].unit == "kg" && Items(data)[2].unit == ""
    ensures forall i :: 0 <= i < 17 && i != 1 && i != 2 ==> Items(data)[i].unit == "cm"
  {
    forall i | 0 <= i < 17 && i != 1 && i != 2
      ensures Items(data)[i].unit == "cm"
    {
      assert Items(data)[i] == LayoutRow(data, i);
      assert Labels[i] != "Weight" && Labels[i] != "BMI";
    }
  }

  /** Weight and BMI are shown unscaled whatever their magnitude; absent, they show 0. */
  lemma WeightAndBmiUnscaled(data: MeasurementResult)
    ensures Items(data)[1].value == Number(data.weight.GetOr(0.0))
    ensures Items(data)[2].value == Number(data.bmi.GetOr(0.0))
  {
  }

  /** A response without a `measurements` object shows 0 in every body row. */
  lemma MissingMeasurementsShowZero(data: MeasurementResult)
    requires data.measurements.None?
    ensures forall i :: 3 <= i < 17 ==> Items(data)[i].value == Number(0.0)
  {
  }

  /** `toCm` always yields a number, so no row of a rendered result shows "--". */
  lemma NoRowShowsDash(data: MeasurementResult)
    ensures forall row :: row in Items(data) ==> DisplayValue(row.value).Formatted?
  {
  }

  /** The worked example of a response: metres become centimetres, weight and BMI
      stay as they are. */
  lemma ExampleResponse()
    ensures var data := MeasurementResult(Some(1.76), Some(65.0), Some(21.0), Some("/meshes/123.obj"),
                                          Some(NoMeasurements.(neck := Some(0.38))));
            && Items(data)[0] == Row("Height", Number(176.0), "cm")
            && Items(data)[1] == Row("Weight", Number(65.0), "kg")
            && Items(data)[2] == Row("BMI", Number(21.0), "")
            && Items(data)[3] == Row("Neck", Number(38.0), "cm")
            && Items(data)[4] == Row("Chest", Number(0.0), "cm")
  {
  }
}
