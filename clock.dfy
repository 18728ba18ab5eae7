/** Wall-clock instants. The source uses `datetime` and `time.time()`; the model uses whole seconds. */
module Clock {

  type Time = int

  /** Seconds in one day (`timedelta(days=1)`). */
  const Day: int := 86400

  /** `datetime.min`, midnight of 1 January of year 1, in seconds from the epoch. */
  const MinInstant: int := -62135596800
}
