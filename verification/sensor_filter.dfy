/** The moving-average filter of the DHT22 monitor: two bounded FIFO buffers,
    one of temperatures and one of humidities, fed in lockstep, whose means,
    rounded half-to-even, are the smoothed output. */
module Sensors {
  import opened Rounding
  import opened MovingAverage
  import opened BoundedDeque

  /** A reading component that may be missing (`None` in the source). */
  datatype Option<T> = None | Some(value: T)

  /** The filter's capacity when none is given. */
  const DefaultWindowSize: nat := 5

  class SensorFilter {
    /** Capacity of both buffers. Python's `deque` refuses a negative
        `maxlen`, so the size is a `nat`; zero is accepted, as in the source. */
    const windowSize: nat
    var tempBuffer: seq<real>
    var humidityBuffer: seq<real>

    /** Every temperature and humidity ever accepted, oldest first. */
    ghost var tempHistory: seq<real>
    ghost var humidityHistory: seq<real>

    /** Each buffer is the sliding window over its history, and both
        histories have grown together. */
    ghost predicate Valid()
      reads this
      ensures Valid() ==> |tempBuffer| == |humidityBuffer| <= windowSize
    {
      |tempHistory| == |humidityHistory| &&
      tempBuffer == LastN(tempHistory, windowSize) &&
      humidityBuffer == LastN(humidityHistory, windowSize)
    }

    /** Both buffers start empty with capacity `windowSize` (five unless
        given); the filter is stable at once only when that capacity is zero. */
    constructor (windowSize: nat := DefaultWindowSize)
      ensures Valid()
      ensures this.windowSize == windowSize
      ensures tempBuffer == [] && humidityBuffer == []
      ensures tempHistory == [] && humidityHistory == []
      ensures IsStable() <==> windowSize == 0
    {
      this.windowSize := windowSize;
      tempBuffer, humidityBuffer := [], [];
      tempHistory, humidityHistory := [], [];
    }

    /** Appends the pair when both values are present, evicting the oldest
        pair from a full window; otherwise changes nothing. */
    method AddReading(temperature: Option<real>, humidity: Option<real>)
      requires Valid()
      modifies this
      ensures Valid()
      ensures temperature.Some? && humidity.Some? ==>
        tempHistory == old(tempHistory) + [temperature.value] &&
        humidityHistory == old(humidityHistory) + [humidity.value] &&
        tempBuffer == LastN(old(tempBuffer) + [temperature.value], windowSize) &&
        humidityBuffer == LastN(old(humidityBuffer) + [humidity.value], windowSize)
      ensures temperature.None? || humidity.None? ==>
        tempHistory == old(tempHistory) && humidityHistory == old(humidityHistory) &&
        tempBuffer == old(tempBuffer) && humidityBuffer == old(humidityBuffer)
      ensures old(IsStable()) ==> IsStable()
    {
      if temperature.Some? && humidity.Some? {
        AppendSlides(tempHistory, temperature.value, windowSize);
        AppendSlides(humidityHistory, humidity.value, windowSize);
        AppendIsLastN(tempBuffer, temperature.value, windowSize);
        AppendIsLastN(humidityBuffer, humidity.value, windowSize);
        tempBuffer := Append(tempBuffer, temperature.value, windowSize);
        humidityBuffer := Append(humidityBuffer, humidity.value, windowSize);
        tempHistory := tempHistory + [temperature.value];
        humidityHistory := humidityHistory + [humidity.value];
      }
    }

    /** The rounded means of the two buffers, or `(None, None)` while either
        buffer is empty. Each present value is the integer nearest the mean,
        a tie going to the even neighbour. */
    function FilteredValues(): (r: (Option<int>, Option<int>))
      reads this
      ensures r == (None, None) <==> tempBuffer == [] || humidityBuffer == []
      ensures r.0.Some? <==> r.1.Some?
      ensures r.0.Some? ==> tempBuffer != [] && IsRoundHalfEven(Mean(tempBuffer), r.0.value)
      ensures r.1.Some? ==> humidityBuffer != [] && IsRoundHalfEven(Mean(humidityBuffer), r.1.value)
    {
      if tempBuffer == [] || humidityBuffer == [] then (None, None)
      else (Some(RoundHalfEven(Mean(tempBuffer))), Some(RoundHalfEven(Mean(humidityBuffer))))
    }

    /** Whether the window has filled up. */
    function IsStable(): bool
      reads this
    {
      |tempBuffer| == windowSize
    }
  }

  /** The filter is stable exactly when at least `windowSize` readings have
      been accepted; then both buffers are full. */
  lemma StableIffWindowFilled(f: SensorFilter)
    requires f.Valid()
    ensures f.IsStable() <==> |f.tempHistory| >= f.windowSize
    ensures f.IsStable() ==> |f.tempBuffer| == |f.humidityBuffer| == f.windowSize
    ensures !f.IsStable() ==> f.tempBuffer == f.tempHistory && f.humidityBuffer == f.humidityHistory
  {
  }

  /** The output reflects exactly the most recent `windowSize` accepted
      readings (all of them during warm-up): it is absent only before the
      first accepted reading (or for a zero-capacity filter), and otherwise
      the rounded mean of that window. */
  lemma FilteredValuesOfLastWindow(f: SensorFilter)
    requires f.Valid()
    ensures f.FilteredValues().0.None? <==> f.tempHistory == [] || f.windowSize == 0
    ensures f.FilteredValues().0.Some? ==>
      f.FilteredValues() ==
        (Some(RoundHalfEven(Mean(LastN(f.tempHistory, f.windowSize)))),
         Some(RoundHalfEven(Mean(LastN(f.humidityHistory, f.windowSize)))))
  {
  }

  /** When every temperature in the window lies in [tLo, tHi] and every
      humidity in [hLo, hHi], each smoothed value lies within half a unit of
      its range. */
  lemma FilteredValuesWithinReadings(f: SensorFilter, tLo: real, tHi: real, hLo: real, hHi: real)
    requires AllWithin(f.tempBuffer, tLo, tHi) && AllWithin(f.humidityBuffer, hLo, hHi)
    ensures f.FilteredValues().0.Some? ==>
      tLo - 0.5 <= f.FilteredValues().0.value as real <= tHi + 0.5
    ensures f.FilteredValues().1.Some? ==>
      hLo - 0.5 <= f.FilteredValues().1.value as real <= hHi + 0.5
  {
    if f.FilteredValues().0.Some? {
      RoundedMeanWithin(f.tempBuffer, tLo, tHi);
      RoundedMeanWithin(f.humidityBuffer, hLo, hHi);
    }
  }

  /** The means of the full windows that the unit test of the filtered
      values builds from readings 20..24 and 50..54. */
  lemma MeansOfFullTestWindows()
    ensures Mean([20.0, 21.0, 22.0, 23.0, 24.0]) == 22.0
    ensures Mean([50.0, 51.0, 52.0, 53.0, 54.0]) == 52.0
  {
    SumOfRun(20.0);
    SumOfRun(50.0);
  }

  /** The means of the four-reading windows that the unit test of missing
      values leaves after skipping one pair. */
  lemma MeansOfTestWindowsWithGap()
    ensures Mean([20.0, 21.0, 22.0, 23.0]) == 21.5
    ensures Mean([50.0, 51.0, 52.0, 53.0]) == 51.5
  {
    SumOfRun(20.0);
    SumOfRun(50.0);
  }

  /** The sums of four and of five consecutive values from `a`. */
  lemma SumOfRun(a: real)
    ensures Sum([a, a + 1.0, a + 2.0, a + 3.0]) == 4.0 * a + 6.0
    ensures Sum([a, a + 1.0, a + 2.0, a + 3.0, a + 4.0]) == 5.0 * a + 10.0
  {
    SumSnoc([], a);
    assert [] + [a] == [a];
    SumSnoc([a], a + 1.0);
    assert [a] + [a + 1.0] == [a, a + 1.0];
    SumSnoc([a, a + 1.0], a + 2.0);
    assert [a, a + 1.0] + [a + 2.0] == [a, a + 1.0, a + 2.0];
    SumSnoc([a, a + 1.0, a + 2.0], a + 3.0);
    assert [a, a + 1.0, a + 2.0] + [a + 3.0] == [a, a + 1.0, a + 2.0, a + 3.0];
    SumSnoc([a, a + 1.0, a + 2.0, a + 3.0], a + 4.0);
    assert [a, a + 1.0, a + 2.0, a + 3.0] + [a + 4.0] == [a, a + 1.0, a + 2.0, a + 3.0, a + 4.0];
  }

  /** A new filter is empty and, with the default window of five, unstable;
      a first reading is stored as it is. */
  method ScenarioFirstReading()
  {
    var f := new SensorFilter();
    assert f.windowSize == 5 && f.tempBuffer == [] && f.humidityBuffer == [];
    assert !f.IsStable() && f.FilteredValues() == (None, None);
    f.AddReading(Some(20.5), Some(55.0));
    assert f.tempBuffer == [20.5] && f.humidityBuffer == [55.0];
  }

  /** Five readings 20..24 and 50..54 fill the window and give (22, 52); a
      sixth evicts the oldest. */
  method ScenarioFullWindow()
  {
    var f := new SensorFilter();
    f.AddReading(Some(20.0), Some(50.0));
    f.AddReading(Some(21.0), Some(51.0));
    f.AddReading(Some(22.0), Some(52.0));
    f.AddReading(Some(23.0), Some(53.0));
    f.AddReading(Some(24.0), Some(54.0));
    assert f.tempBuffer == [20.0, 21.0, 22.0, 23.0, 24.0];
    assert f.humidityBuffer == [50.0, 51.0, 52.0, 53.0, 54.0];
    assert f.IsStable();
    MeansOfFullTestWindows();
    RoundHalfEvenOfInteger(22);
    RoundHalfEvenOfInteger(52);
    var values := f.FilteredValues();
    assert values == (Some(22), Some(52));
    // Querying changes nothing, so a second query agrees with the first.
    var again := f.FilteredValues();
    assert again == values && f.IsStable();
    f.AddReading(Some(30.0), Some(60.0));
    assert f.tempBuffer == [21.0, 22.0, 23.0, 24.0, 30.0];
    assert f.humidityBuffer == [51.0, 52.0, 53.0, 54.0, 60.0];
    assert f.IsStable();
  }

  /** A missing pair is skipped: four readings, not yet stable, and the
      means 21.5 and 51.5 round to the even neighbours 22 and 52. */
  method ScenarioMissingReading()
  {
    var f := new SensorFilter();
    f.AddReading(Some(20.0), Some(50.0));
    f.AddReading(Some(21.0), Some(51.0));
    f.AddReading(None, None);
    f.AddReading(Some(22.0), Some(52.0));
    f.AddReading(Some(23.0), Some(53.0));
    assert f.tempBuffer == [20.0, 21.0, 22.0, 23.0];
    assert f.humidityBuffer == [50.0, 51.0, 52.0, 53.0];
    assert !f.IsStable();
    MeansOfTestWindowsWithGap();
    RoundHalfEvenUnique(21.5, 22);
    RoundHalfEvenUnique(51.5, 52);
    var values := f.FilteredValues();
    assert values == (Some(22), Some(52));
  }

  /** A window of one is stable after a single reading. */
  method ScenarioWindowOfOne()
  {
    var f := new SensorFilter(1);
    f.AddReading(Some(10.0), Some(40.0));
    assert f.IsStable();
    assert f.tempBuffer == [10.0] && f.humidityBuffer == [40.0];
    SumSnoc([], 10.0);
    SumSnoc([], 40.0);
    assert [] + [10.0] == [10.0] && [] + [40.0] == [40.0];
    RoundHalfEvenOfInteger(10);
    RoundHalfEvenOfInteger(40);
    var values := f.FilteredValues();
    assert values == (Some(10), Some(40));
  }
}
