/** A name that is not in use. */
module FreshNames {

  lemma {:induction false} LengthBound(s: set<string>) returns (n: nat)
    ensures forall x <- s :: |x| < n
    decreases |s|
  {
    n := 0;
    if s != {} {
      var x :| x in s;
      var m := LengthBound(s - {x});
      n := if |x| < m then m else |x| + 1;
      forall y <- s ensures |y| < n { assert y == x || y in s - {x}; }
    }
  }

  lemma FreshId(s: set<string>) returns (id: string)
    ensures id !in s
  {
    var n := LengthBound(s);
    id := seq(n, _ => 'x');
  }
}
