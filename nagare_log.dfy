/**
 * The logging facade of `nagare/log.py`: one stored "active logger
 * namespace", written by `set_logger`, against which `get_logger` resolves
 * relative logger names. `logging.getLogger` itself is not modelled; the
 * model returns the name that would be handed to it.
 */
module NagareLog {
  import opened Wrappers
  import opened Text

  /** The name relative names fall back to while no namespace is set. */
  const FallbackName: string := "nagare.application"

  /** Python truthiness of the stored name: neither `None` nor `""`. */
  predicate IsSet(stored: Option<string>)
    ensures IsSet(stored) <==> stored != None && stored != Some("")
  {
    stored.Some? && stored.value != ""
  }

  /**
   * The name `get_logger(name)` hands to `logging.getLogger` while `stored`
   * is the active namespace; `None` for `name` is the call without argument.
   */
  function ResolveName(stored: Option<string>, name: Option<string>): (r: string)
    ensures EndsWithout(r, '.')
  {
    var n := if name.None? then "." else name.value;
    var m := if StartsWith(n, ".") then (if IsSet(stored) then stored.value + n else FallbackName) else n;
    RStrip(m, '.')
  }

  /** The module-level state of `nagare/log.py`. */
  class LogNamespace {
    var loggerName: Option<string>

    /** Importing the module: `logger_name = None`. */
    constructor ()
      ensures loggerName == None
    {
      loggerName := None;
    }

    /** `set_logger(name)`: the only writer of the stored namespace. */
    method SetLogger(name: Option<string>)
      modifies this
      ensures loggerName == name
    {
      loggerName := name;
    }

    /**
     * `get_logger(name)`, up to the call into the logging runtime: the name
     * looked up, which never ends with a dot. Resolving changes nothing.
     */
    method GetLogger(name: Option<string>) returns (resolved: string)
      ensures resolved == ResolveName(loggerName, name)
      ensures EndsWithout(resolved, '.')
    {
      var n := if name.None? then "." else name.value;
      if StartsWith(n, ".") {
        n := if IsSet(loggerName) then loggerName.value + n else FallbackName;
      }
      resolved := RStrip(n, '.');
    }
  }

  // ---------------------------------------------------------------------------
  // Properties of the resolution

  /** Calling without a name is calling with `"."`. */
  lemma NoNameIsDot(stored: Option<string>)
    ensures ResolveName(stored, None) == ResolveName(stored, Some("."))
  {
  }

  /** Without a name, the stored namespace itself is returned, trailing dots removed. */
  lemma NoNameGivesNamespace(stored: Option<string>)
    requires IsSet(stored)
    ensures ResolveName(stored, None) == RStrip(stored.value, '.')
  {
    RStripAppend(stored.value, '.');
  }

  /** A relative name `"." + x` is appended to a set namespace, trailing dots removed. */
  lemma RelativeName(stored: Option<string>, x: string)
    requires IsSet(stored)
    ensures ResolveName(stored, Some("." + x)) == RStrip(stored.value + "." + x, '.')
  {
    assert ("." + x)[..1] == ".";
    assert stored.value + ("." + x) == stored.value + "." + x;
  }

  /** With no namespace set, every relative name gives the fallback and its suffix is lost. */
  lemma UnsetNamespace(stored: Option<string>, name: string)
    requires !IsSet(stored)
    requires StartsWith(name, ".")
    ensures ResolveName(stored, Some(name)) == FallbackName
  {
    RStripUnique(FallbackName, '.', FallbackName);
  }

  /** A name that does not start with a dot only loses its trailing dots. */
  lemma AbsoluteName(stored: Option<string>, name: string)
    requires !StartsWith(name, ".")
    ensures ResolveName(stored, Some(name)) == RStrip(name, '.')
  {
  }

  /** A relative name `"." + x` not ending with a dot resolves to plain concatenation with the namespace. */
  lemma RelativeNameExact(stored: Option<string>, x: string)
    requires IsSet(stored)
    requires x != "" && EndsWithout(x, '.')
    ensures ResolveName(stored, Some("." + x)) == stored.value + "." + x
  {
    RelativeName(stored, x);
    var full := stored.value + "." + x;
    assert full[|full| - 1] == x[|x| - 1];
    RStripUnique(full, '.', full);
  }
}
