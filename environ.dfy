/** The process environment `os.environ`, a string-to-string dictionary changed in place. */
module Environ {
  import opened Wrappers

  /** `os.getenv(key)`, and what `os.environ.pop(key, None)` returns: the value, or None when unset. */
  function Lookup(vars: map<string, string>, key: string): (v: Option<string>)
    ensures v.Some? <==> key in vars
    ensures v.Some? ==> v.value == vars[key]
  {
    if key in vars then Some(vars[key]) else None
  }

  class Environment {
    var vars: map<string, string>

    constructor (initial: map<string, string>)
      ensures vars == initial
    {
      vars := initial;
    }

    /** `os.environ.pop(key, None)`: remove the key and return what it held. */
    method Pop(key: string) returns (v: Option<string>)
      modifies this
      ensures v == Lookup(old(vars), key)
      ensures vars == old(vars) - {key}
    {
      v := Lookup(vars, key);
      vars := vars - {key};
    }

    /** `os.environ[key] = value`. */
    method Set(key: string, value: string)
      modifies this
      ensures vars == old(vars)[key := value]
    {
      vars := vars[key := value];
    }
  }
}
