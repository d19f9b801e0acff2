/**
 * Plugin lists. An Expo plugin reference is either a bare name (a string)
 * or a pair `[name, options]`. The functions here read plugin lists by name.
 */
module Plugins {
  import opened Wrappers
  import opened JsValue

  /** The name a plugin reference refers to, if it is a well-formed reference. */
  function NameOf(p: Value): Option<string> {
    match p
    case Str(s) => Some(s)
    case Arr(items) => if |items| == 2 && items[0].Str? then Some(items[0].s) else None
    case _ => None
  }

  /** The names of a plugin list, in list order. */
  function Names(ps: seq<Value>): (r: seq<Option<string>>)
    ensures |r| == |ps|
  {
    if ps == [] then [] else [NameOf(ps[0])] + Names(ps[1..])
  }

  /** How many references in the list name `name`. */
  function Occurrences(ps: seq<Value>, name: string): nat {
    if ps == [] then 0
    else (if NameOf(ps[0]) == Some(name) then 1 else 0) + Occurrences(ps[1..], name)
  }

  /** The list without the references that name `name`. */
  function Without(ps: seq<Value>, name: string): seq<Value> {
    if ps == [] then []
    else if NameOf(ps[0]) == Some(name) then Without(ps[1..], name)
    else [ps[0]] + Without(ps[1..], name)
  }

  lemma {:induction false} NamesAppend(a: seq<Value>, b: seq<Value>)
    ensures Names(a + b) == Names(a) + Names(b)
  {
    if a == [] {
      assert a + b == b;
    } else {
      assert (a + b)[1..] == a[1..] + b;
      NamesAppend(a[1..], b);
    }
  }

  lemma {:induction false} OccurrencesAppend(a: seq<Value>, b: seq<Value>, name: string)
    ensures Occurrences(a + b, name) == Occurrences(a, name) + Occurrences(b, name)
  {
    if a == [] {
      assert a + b == b;
    } else {
      assert (a + b)[1..] == a[1..] + b;
      OccurrencesAppend(a[1..], b, name);
    }
  }

  lemma {:induction false} WithoutAppend(a: seq<Value>, b: seq<Value>, name: string)
    ensures Without(a + b, name) == Without(a, name) + Without(b, name)
  {
    if a == [] {
      assert a + b == b;
    } else {
      assert (a + b)[1..] == a[1..] + b;
      WithoutAppend(a[1..], b, name);
    }
  }

  /** A name occurs in a list exactly when it is among the list's names. */
  lemma {:induction false} OccurrencesNames(ps: seq<Value>, name: string)
    ensures Occurrences(ps, name) > 0 <==> Some(name) in Names(ps)
  {
    if ps != [] {
      OccurrencesNames(ps[1..], name);
    }
  }

  /** Removing a name that does not occur leaves the list unchanged. */
  lemma {:induction false} WithoutAbsent(ps: seq<Value>, name: string)
    requires Occurrences(ps, name) == 0
    ensures Without(ps, name) == ps
  {
    if ps != [] {
      WithoutAbsent(ps[1..], name);
      assert ps == [ps[0]] + ps[1..];
    }
  }

  /** After removal the name no longer occurs. */
  lemma {:induction false} WithoutRemoves(ps: seq<Value>, name: string)
    ensures Occurrences(Without(ps, name), name) == 0
  {
    if ps != [] {
      WithoutRemoves(ps[1..], name);
      if NameOf(ps[0]) != Some(name) {
        OccurrencesAppend([ps[0]], Without(ps[1..], name), name);
      }
    }
  }
}
