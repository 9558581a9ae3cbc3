/** Values shared by every module of the model: optional values, results that
    carry a Python exception, and the model of a Python exception itself. */
module Common {

  datatype Option<+T> = None | Some(value: T)

  datatype Result<+T, +E> = Ok(value: T) | Err(error: E)

  /** Python truthiness of an optional string: present and non-empty. */
  predicate Truthy(s: Option<string>) {
    s.Some? && s.value != ""
  }

  /** A raised Python exception: the name of its class, the names of the
      classes it inherits from, and `str(e)`. */
  datatype Exc = Exc(cls: string, bases: seq<string>, message: string)

  /** `isinstance(e, C)` where `C` is named by `cls`. */
  predicate IsInstance(e: Exc, cls: string) {
    e.cls == cls || cls in e.bases
  }

  /** The exception classes the core raises. */
  function GenericException(message: string): (e: Exc)
    ensures IsInstance(e, "Exception")
  {
    Exc("Exception", ["BaseException"], message)
  }

  function ValueError(message: string): (e: Exc)
    ensures IsInstance(e, "Exception") && e.cls == "ValueError"
  {
    Exc("ValueError", ["Exception", "BaseException"], message)
  }

  function TypeError(message: string): (e: Exc)
    ensures IsInstance(e, "Exception") && e.cls == "TypeError"
  {
    Exc("TypeError", ["Exception", "BaseException"], message)
  }

  /** What an awaited operation did: returned a value or raised. */
  datatype Outcome<+T> = Returns(value: T) | Raises(exc: Exc)

  /** Sum of a sequence of naturals, left to right. */
  function Sum(s: seq<nat>): nat {
    if s == [] then 0 else Sum(s[..|s| - 1]) + s[|s| - 1]
  }

  lemma {:induction false} SumAppend(s: seq<nat>, t: seq<nat>)
    ensures Sum(s + t) == Sum(s) + Sum(t)
    decreases |t|
  {
    if t == [] {
      assert s + t == s;
    } else {
      assert (s + t)[..|s + t| - 1] == s + t[..|t| - 1];
      SumAppend(s, t[..|t| - 1]);
    }
  }

  /** A sum is the sum of its two sides around any cut. */
  lemma SumSplit(s: seq<nat>, h: int)
    requires 0 <= h <= |s|
    ensures Sum(s[..h]) + Sum(s[h..]) == Sum(s)
  {
    assert s[..h] + s[h..] == s;
    SumAppend(s[..h], s[h..]);
  }
}
