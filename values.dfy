/**
 * Values as they sit in a settings dictionary or a device description
 * (what JSON or the audio library hands back), and the Python conversions
 * `float()`, `int()`, `bool()`, `str()` and `> 0` applied to them.
 * A conversion that Python rejects with an exception yields `None`.
 */
module Values {
  import opened Wrappers
  import Text

  datatype Value = VNone | VBool(b: bool) | VInt(i: int) | VReal(r: real) | VStr(s: string)

  /** Python's `int(x)` for a float: truncation toward zero. */
  function Trunc(x: real): (n: int)
    ensures x >= 0.0 ==> n as real <= x < n as real + 1.0
    ensures x < 0.0 ==> n as real - 1.0 < x <= n as real
  {
    if x >= 0.0 then x.Floor else -((-x).Floor)
  }

  /** `float(v)`. `None` raises TypeError; a string is treated as a failed
      parse (numeric text is not modelled). */
  function PyFloat(v: Value): (r: Option<real>)
    ensures v.VReal? ==> r == Some(v.r)
    ensures v.VInt? ==> r == Some(v.i as real)
    ensures v.VBool? ==> r == Some(if v.b then 1.0 else 0.0)
    ensures v.VNone? || v.VStr? ==> r.None?
  {
    match v
    case VNone => None
    case VBool(b) => Some(if b then 1.0 else 0.0)
    case VInt(i) => Some(i as real)
    case VReal(x) => Some(x)
    case VStr(_) => None
  }

  /** `int(v)`: floats are truncated toward zero. */
  function PyInt(v: Value): (r: Option<int>)
    ensures v.VInt? ==> r == Some(v.i)
    ensures v.VReal? ==> r == Some(Trunc(v.r))
    ensures v.VBool? ==> r == Some(if v.b then 1 else 0)
    ensures v.VNone? || v.VStr? ==> r.None?
  {
    match v
    case VNone => None
    case VBool(b) => Some(if b then 1 else 0)
    case VInt(i) => Some(i)
    case VReal(x) => Some(Trunc(x))
    case VStr(_) => None
  }

  /** `bool(v)`: Python truthiness. */
  function PyBool(v: Value): (r: bool)
    ensures v.VBool? ==> r == v.b
    ensures v.VNone? ==> !r
    ensures v.VInt? ==> r == (v.i != 0)
    ensures v.VReal? ==> r == (v.r != 0.0)
    ensures v.VStr? ==> r == (v.s != "")
  {
    match v
    case VNone => false
    case VBool(b) => b
    case VInt(i) => i != 0
    case VReal(x) => x != 0.0
    case VStr(s) => s != ""
  }

  /** `str(v)`. The text of a float is not modelled (`None`). */
  function PyStr(v: Value): (r: Option<string>)
    ensures v.VStr? ==> r == Some(v.s)
    ensures r.None? <==> v.VReal?
  {
    match v
    case VNone => Some("None")
    case VBool(b) => Some(if b then "True" else "False")
    case VInt(i) => Some(Text.IntToString(i))
    case VReal(_) => None
    case VStr(s) => Some(s)
  }

  /** `v > 0`; comparing `None` or a string with a number raises TypeError. */
  function PyPositive(v: Value): (r: Option<bool>)
    ensures r.Some? <==> !(v.VNone? || v.VStr?)
    ensures v.VInt? ==> r == Some(v.i > 0)
    ensures v.VReal? ==> r == Some(v.r > 0.0)
    ensures v.VBool? ==> r == Some(v.b)
  {
    match v
    case VNone => None
    case VBool(b) => Some(b)
    case VInt(i) => Some(i > 0)
    case VReal(x) => Some(x > 0.0)
    case VStr(_) => None
  }

  /** `d.get(key, default)` on a dictionary. */
  function Get(d: map<string, Value>, key: string, default: Value): (r: Value)
    ensures key in d ==> r == d[key]
    ensures key !in d ==> r == default
  {
    if key in d then d[key] else default
  }
}
