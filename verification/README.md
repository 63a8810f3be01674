# SensorFilter — a verified model of the DHT22 monitor's moving-average filter

The monitor reads a DHT22 temperature/humidity sensor every 30 seconds. It
smooths the readings with `SensorFilter` before it publishes them over MQTT.
The filter keeps two `deque(maxlen=window_size)` buffers, one of temperatures
and one of humidities. Its three operations are:

- `add_reading(temperature, humidity)` appends the pair only when both values
  are present. A full buffer drops its oldest element.
- `get_filtered_values()` returns the mean of each buffer, rounded with
  Python's `round` (half to even). It returns `(None, None)` while either
  buffer is empty.
- `is_stable()` reports whether the window is full.

This project models that class in Dafny and proves what it promises.

- `rounding.dfy` (module `Rounding`) models Python's one-argument `round`.
  It is proved against a reference definition: the nearest integer, with a
  tie going to the even neighbour. That definition is shown to admit only one
  integer.
- `moving_average.dfy` (module `MovingAverage`) defines `sum(...) / len(...)`
  over exact reals (`Sum`, `Mean`). It proves that the mean stays within the
  range of the readings, and that the rounded mean stays within half a unit
  of that range. It also proves that a buffer holding one integer value
  throughout is reported as exactly that value.
- `bounded_deque.dfy` (module `BoundedDeque`) models `deque.append` with a
  `maxlen` as the function `Append`: append on the right, then drop the
  leftmost element if the deque has grown too long. It is proved equal to "the last `maxlen` elements of
  everything ever appended".
- `sensor_filter.dfy` (module `Sensors`) holds the class `SensorFilter`. Its
  buffers are `seq<real>` fields that `AddReading` reassigns. Ghost histories
  record every accepted reading. The object invariant `Valid()` ties each
  buffer to the sliding window over its history. The two queries,
  `FilteredValues` (`get_filtered_values`) and `IsStable` (`is_stable`), are
  functions that read the object and change nothing, so calling either one
  twice gives the same answer. The unit tests' scenarios are written as
  client methods that check these contracts.

Window size: the code does not check `window_size`. A negative value makes
`deque` raise, so the model types the size as `nat`. A size of 0 is accepted
by the code. The resulting filter never stores anything, its output is always
absent, and it reports itself stable from the start. The model keeps this
behaviour (constructor and `FilteredValuesOfLastWindow`). It does not require
a positive size. As in the source, the size defaults to 5
(`DefaultWindowSize`).

## Model

| member | source | states |
|---|---|---|
| `Rounding.RoundHalfEven` | sensors.py:45 | the result is the integer nearest the mean; at an exact half it is the even neighbour |
| `Rounding.RoundHalfEvenUnique` | sensors.py:45 | any integer that is nearest with ties going to even is the one `round` returns, so the rounding is fully determined |
| `Rounding.RoundHalfEvenOfInteger` | sensors.py:45 | rounding leaves an integral mean unchanged |
| `MovingAverage.SumWithin` | sensors.py:43-44 | a sum of n readings from [lo, hi] lies in [n*lo, n*hi] |
| `MovingAverage.MeanWithin` | sensors.py:43-44 | the average of a non-empty buffer lies between the smallest and largest possible reading |
| `MovingAverage.RoundedMeanWithin` | sensors.py:43-45 | the rounded average lies within one half of the readings' range |
| `MovingAverage.RoundedMeanOfConstant` | sensors.py:43-45 | a buffer holding one integral value throughout is reported as exactly that value |
| `BoundedDeque.AppendIsLastN` | sensors.py:23-30 | appending to a deque within capacity gives the last `maxlen` elements of old contents plus the new value; its length grows by one until full and then stays at `maxlen`; the new value is last; a full deque loses exactly its oldest element |
| `BoundedDeque.AppendSlides` | sensors.py:23-30 | a deque fed a whole history holds the last `maxlen` elements of that history: the sliding window |
| `Sensors.SensorFilter.Valid` | sensors.py:22-30 | object invariant: both buffers have the same length, never above `window_size`, and each is the window over its accepted history |
| `Sensors.SensorFilter.constructor` | sensors.py:20-24 | `window_size` defaults to 5; both buffers start empty with capacity `window_size`; the new filter is stable only for a window of 0 |
| `Sensors.SensorFilter.AddReading` | sensors.py:26-30 | with both values present, each buffer becomes the last `window_size` elements of its old contents followed by the new value; with either value missing, nothing changes; the invariant is kept and stability is never lost |
| `Sensors.SensorFilter.FilteredValues` | sensors.py:32-45 | `(None, None)` exactly when a buffer is empty; both components are present together; each present value is the round-half-to-even mean of its buffer |
| `Sensors.StableIffWindowFilled` | sensors.py:47-49 | stable exactly when at least `window_size` readings have been accepted; then both buffers are full; before that each buffer holds every accepted reading |
| `Sensors.FilteredValuesOfLastWindow` | sensors.py:32-45 | the output is absent only before the first accepted reading (or with a window of 0); after that it is the rounded means of the last `window_size` accepted readings |
| `Sensors.FilteredValuesWithinReadings` | sensors.py:43-45 | each smoothed value lies within one half of the range of the readings in its buffer |
| `Sensors.MeansOfFullTestWindows` | test/test_sensors.py:32-40 | the full windows 20..24 and 50..54 average to 22 and 52 |
| `Sensors.MeansOfTestWindowsWithGap` | test/test_sensors.py:74-84 | the windows 20..23 and 50..53 left after a missing pair average to 21.5 and 51.5 |

## Left out

- `read_dht22` (sensors.py:60-73) is not modelled. It calls the DHT22 driver, which is hardware I/O through a foreign library, and turns an exception raised while reading the values into `(None, None)`. An exception raised while building the device, or by the second `exit()` call in the handler, is not caught. The model's `Option` inputs stand in for its result.
- `publish_sensor_data` (sensors.py:75-97) is not modelled. It does MQTT publishing and console output. Its publish condition (both raw values present, both filtered values present, filter stable) is not stated.
- `on_shutdown` and its signal registration (sensors.py:54-58) are not modelled. They handle process signals.
- `start_sensor_monitoring` (sensors.py:99-119) is not modelled. It is an endless scheduling and sleep loop.
- The module-level filter instance and the MQTT settings (sensors.py:13-15, 52) are configuration. Only the default window of 5 appears, as `DefaultWindowSize`, the constructor's default argument.
- Sensors.SensorFilter.constructor: a negative `window_size` makes `deque` raise `ValueError`. The model rules it out with the `nat` type and does not model that error path.
- Readings are exact reals, not IEEE-754 doubles. `sum(...) / len(...)` can round in floating point, and a float that is meant to be an exact .5 may not be one. So in rare cases the float result of the source can differ from the exact-real rounding proved here.
- The source's deques are CPython's linked blocks. They are modelled as immutable sequences that the filter reassigns, so object identity and aliasing of the buffers are not modelled.
- Inputs are typed `Option<real>`. Python would also accept values of other types (an `int`, a string, NaN), and the model does not cover them.
