/** The temperature classifier of main.go (spelled MeaureTemperature there). */
module Temperature {

  /** The label of a temperature: "hot" from 80 up, "cold" up to 60, "moderate" in between.
      The branches are tried in that order, and every integer gets exactly one label. */
  function MeasureTemperature(temp: int): (bucket: string)
    ensures bucket == "hot" <==> temp >= 80
    ensures bucket == "cold" <==> temp <= 60
    ensures bucket == "moderate" <==> 61 <= temp <= 79
    ensures bucket in {"hot", "moderate", "cold"}
  {
    if temp >= 80 then "hot"
    else if temp <= 60 then "cold"
    else "moderate"
  }

  /** How warm a label says it is: cold, then moderate, then hot. */
  function Warmth(bucket: string): nat {
    if bucket == "cold" then 0 else if bucket == "moderate" then 1 else 2
  }

  /** A warmer temperature never gets a colder label. */
  lemma MeasureTemperatureMonotone(colder: int, warmer: int)
    requires colder <= warmer
    ensures Warmth(MeasureTemperature(colder)) <= Warmth(MeasureTemperature(warmer))
  {
  }

  /** The cases of the source's unit test, and the four boundaries. */
  lemma MeasureTemperatureExamples()
    ensures MeasureTemperature(85) == "hot"
    ensures MeasureTemperature(55) == "cold"
    ensures MeasureTemperature(70) == "moderate"
    ensures MeasureTemperature(80) == "hot" && MeasureTemperature(79) == "moderate"
    ensures MeasureTemperature(61) == "moderate" && MeasureTemperature(60) == "cold"
  {
  }
}
