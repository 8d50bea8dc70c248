/**
  The toolbox logger's level state: the current level, a one-deep backup of
  the level it replaced, and the gates that decide whether a message of each
  severity is emitted. Message formatting and output are not modelled.
 */
module Log {

  const LDebug: int := 1
  const LInfo: int := 2      // 1 << 1
  const LError: int := 4     // 1 << 2
  const LCritical: int := 8  // 1 << 3

  /** One of the four level constants. */
  predicate IsLevel(l: int) {
    l == LDebug || l == LInfo || l == LError || l == LCritical
  }

  /** The level SetLogLevel installs for a requested level: the level itself if known, else LInfo. */
  function Normalize(requested: int): (l: int)
    ensures IsLevel(l)
    ensures IsLevel(requested) ==> l == requested
    ensures !IsLevel(requested) ==> l == LInfo
  {
    if requested == LInfo || requested == LDebug || requested == LCritical || requested == LError then requested
    else LInfo
  }

  /** The severities messages are logged at, from least to most severe. */
  datatype Severity = Debug | Info | Error | Critical {

    /** Position in the order Debug < Info < Error < Critical. */
    function Rank(): nat {
      match this
      case Debug => 0
      case Info => 1
      case Error => 2
      case Critical => 3
    }
  }

  /** The level constant of a severity, against which the current level is compared. */
  function Threshold(s: Severity): (l: int)
    ensures IsLevel(l)
  {
    match s
    case Debug => LDebug
    case Info => LInfo
    case Error => LError
    case Critical => LCritical
  }

  /** The two level variables. */
  datatype Levels = Levels(level: int, backup: int)

  predicate ValidLevels(s: Levels) {
    IsLevel(s.level) && IsLevel(s.backup)
  }

  /** The state both variables start in once the package is initialised. */
  const InitialLevels: Levels := Levels(LInfo, LInfo)

  /** SetLogLevel: back up the current level, then install the requested one. */
  function SetLevels(s: Levels, requested: int): Levels {
    Levels(Normalize(requested), s.level)
  }

  /** RestoreLogLevel: the backup becomes the current level again. */
  function RestoreLevels(s: Levels): Levels {
    Levels(s.backup, s.backup)
  }

  /** Whether a message of severity `sev` is emitted at level `level`. */
  predicate Gate(level: int, sev: Severity) {
    level <= Threshold(sev)
  }

  /** Both transitions keep the two variables among the four level constants. */
  lemma TransitionsKeepLevelsValid(s: Levels, requested: int)
    requires ValidLevels(s)
    ensures ValidLevels(SetLevels(s, requested))
    ensures ValidLevels(RestoreLevels(s))
  {
  }

  /** Setting a level and then restoring brings back the level in force before. */
  lemma RestoreUndoesSet(s: Levels, requested: int)
    ensures RestoreLevels(SetLevels(s, requested)).level == s.level
  {
  }

  /** A second restore changes nothing. */
  lemma RestoreIdempotent(s: Levels)
    ensures RestoreLevels(RestoreLevels(s)) == RestoreLevels(s)
  {
  }

  /** The level constants strictly increase with severity. */
  lemma ThresholdsIncrease(s: Severity, t: Severity)
    ensures s.Rank() < t.Rank() <==> Threshold(s) < Threshold(t)
  {
  }

  /** A message emitted at one severity is also emitted at every higher severity. */
  lemma GateMonotone(level: int, s: Severity, t: Severity)
    requires s.Rank() <= t.Rank()
    ensures Gate(level, s) ==> Gate(level, t)
  {
    ThresholdsIncrease(s, t);
  }

  /**
    At a known level, exactly the severities at or above that level are
    emitted; Critical is always among them.
   */
  lemma GateSelectsSeverities(level: int, sev: Severity)
    requires IsLevel(level)
    ensures Gate(level, Critical)
    ensures Gate(level, sev) <==> (exists t: Severity :: Threshold(t) == level && t.Rank() <= sev.Rank())
  {
    var t: Severity := if level == LDebug then Debug else if level == LInfo then Info
                       else if level == LError then Error else Critical;
    assert Threshold(t) == level;
    ThresholdsIncrease(t, sev);
    ThresholdsIncrease(sev, t);
  }

  /** The package's level variables, updated in place by the functions that set them. */
  class Logger {
    var level: int   // the current level
    var backup: int  // the level before the last SetLogLevel

    ghost predicate Valid()
      reads this
    {
      ValidLevels(State())
    }

    function State(): Levels
      reads this
    {
      Levels(level, backup)
    }

    /** Package initialisation: both variables start at LInfo, then InitLogger(LInfo) runs. */
    constructor ()
      ensures Valid() && State() == InitialLevels
    {
      level := LInfo;
      backup := LInfo;
      new;
      InitLogger(LInfo);
    }

    /** Sets the level as SetLogLevel does; output flags are not modelled. */
    method InitLogger(requested: int)
      requires Valid()
      modifies this
      ensures Valid() && State() == SetLevels(old(State()), requested)
    {
      SetLogLevel(requested);
    }

    method SetLogLevel(requested: int)
      requires Valid()
      modifies this
      ensures Valid() && State() == SetLevels(old(State()), requested)
      ensures backup == old(level)
      ensures IsLevel(requested) ==> level == requested
      ensures !IsLevel(requested) ==> level == LInfo
    {
      backup := level;
      if requested == LInfo {
        level := requested;
      } else if requested == LDebug {
        level := requested;
      } else if requested == LCritical {
        level := requested;
      } else if requested == LError {
        level := requested;
      } else {
        level := LInfo;
      }
    }

    method RestoreLogLevel()
      requires Valid()
      modifies this
      ensures Valid() && State() == RestoreLevels(old(State()))
      ensures level == old(backup) && backup == old(backup)
    {
      level := backup;
    }

    /** Whether Debug/Info/Error/Critical (and their formatting variants) emit a message now. */
    predicate Emits(sev: Severity)
      reads this
      ensures Emits(sev) <==> level <= Threshold(sev)
      ensures Valid() && sev == Critical ==> Emits(sev)
    {
      Gate(level, sev)
    }
  }

  /** If Debug emits, so do Info, Error and Critical; Critical always emits. */
  lemma DebugImpliesAll(l: Logger)
    requires l.Valid()
    ensures l.Emits(Debug) ==> l.Emits(Info) && l.Emits(Error) && l.Emits(Critical)
    ensures l.Emits(Critical)
  {
  }
}
