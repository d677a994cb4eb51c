/** The log-level flag applied at the start of every command. */
module LogLevel {

  /** The levels of the logging library. */
  datatype Level = Panic | Fatal | Error | Warn | Info | Debug | Trace

  /** The level after setLoglevel(flag) at level current. */
  function NextLevel(current: Level, flag: string): Level {
    if flag == "info" then Info
    else if flag == "debug" then Debug
    else current
  }

  class Logger {
    var level: Level

    /** The init hook starts at the info level. */
    constructor ()
      ensures level == Info
    {
      level := Info;
    }

    method SetLoglevel(flag: string)
      modifies this
      ensures level == NextLevel(old(level), flag)
    {
      if flag == "info" {
        level := Info;
      } else if flag == "debug" {
        level := Debug;
      }
    }
  }

  /**
   * "info" and "debug" select their level whatever the current one; any other
   * flag leaves the level alone; applying a flag twice is applying it once.
   */
  lemma NextLevelMapping(current: Level, flag: string)
    ensures flag == "info" ==> NextLevel(current, flag) == Info
    ensures flag == "debug" ==> NextLevel(current, flag) == Debug
    ensures flag != "info" && flag != "debug" ==> NextLevel(current, flag) == current
    ensures NextLevel(NextLevel(current, flag), flag) == NextLevel(current, flag)
  {
  }
}
