/** Facts about finite sets that several parts of the model use. */
module Sets {
  lemma {:induction false} SubsetSize<T>(a: set<T>, b: set<T>)
    requires a <= b
    ensures |a| <= |b|
  {
    if a != {} {
      var x :| x in a;
      SubsetSize(a - {x}, b - {x});
    }
  }

  /** One more element taken out of `rest`. */
  lemma Taken<T>(all: set<T>, rest: set<T>, skipped: set<T>, x: T)
    requires rest <= all && x in rest
    ensures all - (rest - {x}) - skipped == all - rest - skipped + if x in skipped then {} else {x}
  {
  }
}
