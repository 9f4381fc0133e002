/** The `loaddata` command of modeltranslation/management/commands/loaddata.py: the
    `--populate MODE` option, validated by `check_mode`, and `handle`, which loads the
    fixtures under `auto_populate(mode)` when a mode was given. */
module LoadData {
  import opened Common
  import opened AutoPopulate

  /** `ALLOWED`. */
  const Allowed: seq<Py> := [PyNone, PyBool(false), PyStr("all"), PyStr("default"), PyStr("required")]

  /** `value in ALLOWED`, with Python's `==`. */
  predicate InAllowed(v: Py) {
    exists i :: 0 <= i < |Allowed| && PyEq(v, Allowed[i])
  }

  /** `str.lower()` on ASCII letters. */
  function LowerChar(c: char): char {
    if 'A' <= c <= 'Z' then (c as int + 32) as char else c
  }

  function Lower(s: string): string {
    seq(|s|, i requires 0 <= i < |s| => LowerChar(s[i]))
  }

  /** The spellings `check_mode` takes for `False`: "0", or "false" in any casing. */
  predicate MeansFalse(value: string) {
    value == "0" || Lower(value) == "false"
  }

  /** "false" in any casing is the five letters, each in either case. */
  lemma MeansFalseSpellings(value: string)
    ensures Lower(value) == "false" <==>
      |value| == 5 && forall i :: 0 <= i < 5 ==> value[i] == "false"[i] || value[i] == "FALSE"[i]
  {
    if |value| == 5 {
      if Lower(value) == "false" {
        forall i | 0 <= i < 5
          ensures value[i] == "false"[i] || value[i] == "FALSE"[i]
        {
          assert LowerChar(value[i]) == "false"[i];
        }
      }
      if forall i :: 0 <= i < 5 ==> value[i] == "false"[i] || value[i] == "FALSE"[i] {
        assert forall i :: 0 <= i < 5 ==> Lower(value)[i] == "false"[i];
      }
    }
  }

  /** `check_mode(option, opt_str, value, parser)` without the final `setattr`: the
      mode to store, or `OptionValueError`. The comparison with the allowed strings is
      case sensitive: only the spelling of `False` is normalised. */
  function CheckMode(optStr: string, value: string): (r: Result<Py>)
    ensures r.Success? <==> MeansFalse(value) || value in {"all", "default", "required"}
    ensures r.Success? ==> InAllowed(r.value)
    ensures r.Success? && MeansFalse(value) ==> r.value == PyBool(false)
    ensures r.Success? && !MeansFalse(value) ==> r.value == PyStr(value)
    ensures r.Failure? ==> r.error == OptionValueError(optStr)
  {
    var v := if MeansFalse(value) then PyBool(false) else PyStr(value);
    assert PyEq(PyBool(false), Allowed[1]);
    assert value in {"all", "default", "required"} ==> PyEq(PyStr(value), Allowed[if value == "all" then 2 else if value == "default" then 3 else 4]);
    if !InAllowed(v) then Failure(OptionValueError(optStr)) else Success(v)
  }

  /** Some spellings the option accepts, and some it refuses. */
  lemma CheckModeExamples(optStr: string)
    ensures CheckMode(optStr, "False") == Success(PyBool(false))
    ensures CheckMode(optStr, "0") == Success(PyBool(false))
    ensures CheckMode(optStr, "required") == Success(PyStr("required"))
    ensures CheckMode(optStr, "ALL").Failure?
    ensures CheckMode(optStr, "1").Failure?
  {
    assert Lower("False") == "false";
    assert Lower("ALL") == "all";
    assert Lower("required") == "required";
    assert Lower("1") == "1";
  }

  /** `parser.values`, the option values being collected. */
  class ParserValues {
    var values: map<string, Py>

    constructor(values: map<string, Py>)
      ensures this.values == values
    {
      this.values := values;
    }

    /** The `check_mode` callback: an accepted mode is stored under `dest`; an
        exception leaves the values as they were. */
    method CheckModeCallback(dest: string, optStr: string, value: string) returns (r: Outcome)
      modifies this
      ensures r.Pass? <==> CheckMode(optStr, value).Success?
      ensures r.Fail? ==> r.error == OptionValueError(optStr) && values == old(values)
      ensures r.Pass? ==> values == old(values)[dest := CheckMode(optStr, value).value]
    {
      var mode := CheckMode(optStr, value);
      if mode.Failure? {
        return Fail(mode.error);
      }
      values := values[dest := mode.value];
      r := Pass;
    }
  }

  /** `handle(*fixture_labels, **options)`: the value of `AUTO_POPULATE` while the
      fixtures are loaded (the parent command's `handle`, which is not part of this
      model, runs at that point). It is the given `populate` mode when there is one
      and the global setting otherwise; afterwards the setting is what it was. */
  method Handle(options: map<string, Py>, settings: Settings) returns (during: Py)
    modifies settings
    ensures var mode := if "populate" in options then options["populate"] else PyNone;
      during == (if mode != PyNone then mode else old(settings.autoPopulate))
    ensures settings.autoPopulate == old(settings.autoPopulate)
  {
    var mode := if "populate" in options then options["populate"] else PyNone;
    if mode != PyNone {
      var saved := settings.Enter(mode);
      during := settings.autoPopulate;
      settings.Exit(saved);
    } else {
      during := settings.autoPopulate;
    }
  }
}
