/** Value types and sequence helpers shared by every module. */
module Common {

  datatype Option<+T> = None | Some(value: T)

  /** Every failure of the codec and of the parsers is a Python `ValueError`;
      the message text is not modelled, so there is one error value. */
  datatype Result<+T> = Ok(value: T) | Err

  function Last<T>(s: seq<T>): T
    requires s != []
  {
    s[|s| - 1]
  }

  function Front<T>(s: seq<T>): seq<T>
    requires s != []
  {
    s[..|s| - 1]
  }

  lemma FrontLast<T>(s: seq<T>)
    requires s != []
    ensures s == Front(s) + [Last(s)]
  {
  }

  lemma Assoc<T>(x: seq<T>, y: seq<T>, z: seq<T>)
    ensures (x + y) + z == x + (y + z)
  {
  }

  lemma TailConcat<T>(s: seq<T>, t: seq<T>)
    requires s != []
    ensures (s + t)[0] == s[0] && (s + t)[1..] == s[1..] + t
  {
  }

  function Concat<T>(ss: seq<seq<T>>): seq<T> {
    if ss == [] then [] else Concat(Front(ss)) + Last(ss)
  }

  lemma {:induction false} ConcatAppend<T>(ss: seq<seq<T>>, tt: seq<seq<T>>)
    ensures Concat(ss + tt) == Concat(ss) + Concat(tt)
  {
    if tt == [] {
      assert ss + tt == ss;
    } else {
      assert Front(ss + tt) == ss + Front(tt) && Last(ss + tt) == Last(tt);
      ConcatAppend(ss, Front(tt));
      Assoc(Concat(ss), Concat(Front(tt)), Last(tt));
    }
  }

  function MinReal(x: real, y: real): real {
    if x <= y then x else y
  }
}
