/**
  The toolbox configuration: a store of values under string keys, as decoded
  from a JSON file. Lookups either report a missing key as an error or stop
  the program; `Set` writes into the store in place.
 */
module Config {
  import opened Wrappers

  /**
    A configuration value (Go's empty interface). `Nil` is also what a lookup
    of a missing key yields beside its error.
   */
  datatype Value =
    | Nil
    | Str(s: string)
    | Number(n: real)
    | Boolean(b: bool)
    | List(items: seq<Value>)
    | Object(fields: map<string, Value>)

  /** The error reported for a key the configuration does not hold. */
  datatype ConfigError = ErrNoSuchKey

  /** Why a lookup stops the program: exit status 1, or a value that is not a string. */
  datatype Stop = Exit(code: int) | NotAString(key: string)

  class Config {
    var entries: map<string, Value>

    /** A configuration holding `entries`, as loading a file produces it. */
    constructor (entries: map<string, Value>)
      ensures this.entries == entries
    {
      this.entries := entries;
    }

    /** The value under `key` and no error, or `Nil` and ErrNoSuchKey when the key is absent. */
    function Get(key: string): (r: (Value, Option<ConfigError>))
      reads this
      ensures r.1.None? <==> key in entries
      ensures key in entries ==> r.0 == entries[key]
      ensures key !in entries ==> r == (Nil, Some(ErrNoSuchKey))
    {
      if key in entries then (entries[key], None) else (Nil, Some(ErrNoSuchKey))
    }

    /**
      The string under `key` and no error, or "" and ErrNoSuchKey when the key
      is absent; a value that is not a string stops the program.
     */
    function GetString(key: string): (r: Run<(string, Option<ConfigError>), Stop>)
      reads this
      ensures key !in entries ==> r == Done(("", Some(ErrNoSuchKey)))
      ensures key in entries && entries[key].Str? ==> r == Done((entries[key].s, None))
      ensures key in entries && !entries[key].Str? ==> r == Abort(NotAString(key))
    {
      if key !in entries then Done(("", Some(ErrNoSuchKey)))
      else
        match entries[key]
        case Str(s) => Done((s, None))
        case _ => Abort(NotAString(key))
    }

    /** The value under `key`; a missing key ends the program with status 1. */
    function GetRequired(key: string): (r: Run<Value, Stop>)
      reads this
      ensures r.Done? <==> key in entries
      ensures r.Done? ==> r.value == entries[key]
      ensures r.Abort? ==> r.cause == Exit(1)
    {
      var (val, err) := Get(key);
      if err.Some? then Abort(Exit(1)) else Done(val)
    }

    /**
      The string under `key`; a missing key ends the program with status 1 and
      a value that is not a string stops it.
     */
    function GetRequiredString(key: string): (r: Run<string, Stop>)
      reads this
      ensures r.Done? <==> key in entries && entries[key].Str?
      ensures r.Done? ==> r.value == entries[key].s
      ensures key !in entries ==> r == Abort(Exit(1))
      ensures key in entries && !entries[key].Str? ==> r == Abort(NotAString(key))
    {
      var val :- GetRequired(key);
      if val.Str? then Done(val.s) else Abort(NotAString(key))
    }

    /** Stores `value` under `key`; every other key keeps what it held. */
    method Set(key: string, value: Value)
      modifies this
      ensures entries == old(entries)[key := value]
      ensures Get(key) == (value, None)
      ensures forall k :: k != key ==> Get(k) == old(Get(k))
    {
      entries := entries[key := value];
    }
  }

  /** GetRequired returns exactly what Get finds, and stops exactly where Get reports an error. */
  lemma RequiredAgreesWithGet(c: Config, key: string)
    ensures c.GetRequired(key).Done? <==> c.Get(key).1.None?
    ensures c.GetRequired(key).Done? ==> c.GetRequired(key).value == c.Get(key).0
  {
  }

  /**
    GetRequiredString returns a string exactly when GetString returns it with
    no error; where GetString reports a missing key, GetRequiredString exits.
   */
  lemma RequiredStringAgreesWithGetString(c: Config, key: string, s: string)
    ensures c.GetRequiredString(key) == Done(s) <==> c.GetString(key) == Done((s, None))
    ensures c.GetString(key) == Done(("", Some(ErrNoSuchKey))) <==> c.GetRequiredString(key) == Abort(Exit(1))
  {
  }
}
