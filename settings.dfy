/**
 * The configuration the updater reads (`Config`, held read-only by `Updater`), and
 * the `timedelta` its `frequency` property returns.
 */
module Settings {
  import opened Wrappers

  const SecondsPerDay: int := 86400

  datatype TelegramConfig = TelegramConfig(token: string, chatId: int)

  /**
   * `hostname`, `api_secret`, `frequency` (in whole seconds) and the optional
   * `notifications.telegram` mapping.
   */
  datatype Config = Config(hostname: string, apiSecret: string, frequency: nat, telegram: Option<TelegramConfig>)

  /** A Python `timedelta` as it stores itself: whole days and the seconds left over. */
  datatype Timedelta = Timedelta(days: int, seconds: int)

  /**
   * `timedelta(seconds=s)`: normalised so that `0 <= seconds < SecondsPerDay`
   * (Python floors; for the positive divisor Dafny's `/` and `%` agree with it).
   */
  function FromSeconds(s: int): (td: Timedelta)
    ensures 0 <= td.seconds < SecondsPerDay
    ensures td.days * SecondsPerDay + td.seconds == s
  {
    Timedelta(s / SecondsPerDay, s % SecondsPerDay)
  }

  /** `timedelta.total_seconds()`, on whole seconds. */
  function TotalSeconds(td: Timedelta): int
  {
    td.days * SecondsPerDay + td.seconds
  }

  /** The `Config.frequency` property. */
  function Frequency(config: Config): Timedelta
  {
    FromSeconds(config.frequency)
  }

  /** What `run` passes to `time.sleep` as written: `frequency.seconds`. */
  function SleepAsWritten(config: Config): (n: nat)
    ensures n < SecondsPerDay
  {
    Frequency(config).seconds
  }

  /** The pause `run` evidently intends: the whole configured frequency. */
  function SleepSeconds(config: Config): (n: nat)
    ensures n == config.frequency
  {
    TotalSeconds(Frequency(config))
  }

  /**
   * `frequency.seconds` is the configured frequency only below one day; from one
   * day up the whole days are dropped.
   */
  lemma SleepAsWrittenDropsDays(config: Config)
    ensures SleepAsWritten(config) == SleepSeconds(config) <==> config.frequency < SecondsPerDay
    ensures SleepAsWritten(config) == config.frequency % SecondsPerDay
  {
    var td := Frequency(config);
    if config.frequency >= SecondsPerDay {
      assert td.days >= 1;
    }
  }

  /** A frequency of one day makes the loop sleep not at all. */
  lemma DailyFrequencyNeverSleeps(config: Config)
    requires config.frequency == 86400
    ensures SleepAsWritten(config) == 0
    ensures SleepSeconds(config) == 86400
  {
  }
}
