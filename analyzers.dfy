/**
 * How two analyzer definitions are compared. `type` and `tokenizer` are
 * compared by strict equality; `char_filter` and `filter` may be a single
 * name or an array of names and are compared as `[].concat(x).join()`, the
 * comma-joined string of names.
 */
module Analyzers {
  import opened Schema

  /** `names.join()`: the names separated by commas. */
  function Join(names: seq<string>): string {
    if |names| == 0 then ""
    else if |names| == 1 then names[0]
    else names[0] + "," + Join(names[1..])
  }

  /** `[].concat(x).join()`: an absent list joins to "", a single name to itself. */
  function Joined(f: FilterList): string {
    match f
    case Unset => ""
    case Single(name) => name
    case Names(names) => Join(names)
  }

  /** The test of `_checkSettingsConsistency` that a live analyzer still matches its declaration. */
  predicate SameAnalyzer(declared: Analyzer, live: Analyzer) {
    && declared.analyzerType == live.analyzerType
    && Joined(declared.charFilter) == Joined(live.charFilter)
    && declared.tokenizer == live.tokenizer
    && Joined(declared.filter) == Joined(live.filter)
  }

  predicate CommaFree(names: seq<string>) {
    forall i :: 0 <= i < |names| ==> ',' !in names[i]
  }

  /** A comma-free name is never a name followed by a comma. */
  lemma NoCommaInside(x: string, y: string, rest: string)
    requires ',' !in x
    ensures x != y + "," + rest
  {
  }

  /** Where the shorter head ends, the longer one holds the comma. */
  lemma CommaAt(x: string, r: string, y: string, s: string)
    requires x + "," + r == y + "," + s && |x| < |y|
    ensures y[|x|] == ','
  {
    assert (x + "," + r)[|x|] == ',';
    assert (y + "," + s)[|x|] == y[|x|];
  }

  /** Two comma-free heads followed by a comma split the same way. */
  lemma SplitAtFirstComma(x: string, r: string, y: string, s: string)
    requires ',' !in x && ',' !in y
    requires x + "," + r == y + "," + s
    ensures x == y && r == s
  {
    var whole := x + "," + r;
    if |x| < |y| {
      CommaAt(x, r, y, s);
      assert false;
    } else if |y| < |x| {
      CommaAt(y, s, x, r);
      assert false;
    }
    assert x == whole[..|x|] == y;
    assert r == whole[|x| + 1..] == s;
  }

  /** Non-empty lists of comma-free names join equal only when they are equal: order and count matter. */
  lemma {:induction false} JoinInjective(xs: seq<string>, ys: seq<string>)
    requires |xs| > 0 && |ys| > 0 && CommaFree(xs) && CommaFree(ys)
    requires Join(xs) == Join(ys)
    ensures xs == ys
  {
    if |xs| == 1 && |ys| > 1 {
      NoCommaInside(xs[0], ys[0], Join(ys[1..]));
    } else if |ys| == 1 && |xs| > 1 {
      NoCommaInside(ys[0], xs[0], Join(xs[1..]));
    } else if |xs| > 1 && |ys| > 1 {
      SplitAtFirstComma(xs[0], Join(xs[1..]), ys[0], Join(ys[1..]));
      JoinInjective(xs[1..], ys[1..]);
      assert xs == [xs[0]] + xs[1..];
      assert ys == [ys[0]] + ys[1..];
    }
  }

  /** A filter list given in a different order makes the analyzers differ. */
  lemma FilterOrderMatters(a: Analyzer, xs: seq<string>, ys: seq<string>)
    requires |xs| > 0 && |ys| > 0 && CommaFree(xs) && CommaFree(ys) && xs != ys
    ensures !SameAnalyzer(a.(filter := Names(xs)), a.(filter := Names(ys)))
  {
    if Join(xs) == Join(ys) {
      JoinInjective(xs, ys);
    }
  }

  /** The shapes that join alike: absent and an empty array, one name and a one-element array. */
  lemma EquivalentShapes(name: string)
    ensures Joined(Unset) == Joined(Names([]))
    ensures Joined(Single(name)) == Joined(Names([name]))
  {
  }

  /** Joining cannot tell a name containing a comma from two names. */
  lemma CommaCollision()
    ensures Joined(Names(["lowercase,asciifolding"])) == Joined(Names(["lowercase", "asciifolding"]))
  {
    assert ["lowercase", "asciifolding"][1..] == ["asciifolding"];
  }

  /** An analyzer matches itself. */
  lemma SameAnalyzerReflexive(a: Analyzer)
    ensures SameAnalyzer(a, a)
  {
  }
}
