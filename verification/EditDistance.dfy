/**
 * Word-level edit distance, written twice in the repository: once in Python with rebuilt lists and
 * once in Java with two swapped arrays.  Both are proved against `Distance`, and `Distance` against
 * edit scripts.
 */
module EditDistance {
  import opened Common

  datatype Edit<T> =
    | Keep(word: T)
    | Insert(heard: T)
    | Delete(expected: T)
    | Substitute(expected: T, heard: T)
  {
    function Consumed(): seq<T> {
      match this
      case Keep(w) => [w]
      case Insert(_) => []
      case Delete(e) => [e]
      case Substitute(e, _) => [e]
    }

    function Produced(): seq<T> {
      match this
      case Keep(w) => [w]
      case Insert(h) => [h]
      case Delete(_) => []
      case Substitute(_, h) => [h]
    }

    function Price(): nat { if Keep? then 0 else 1 }
  }

  /** A script, last edit outermost. */
  datatype Script<T> = Empty | Then(earlier: Script<T>, edit: Edit<T>)

  function Source<T>(script: Script<T>): seq<T> {
    if script.Empty? then [] else Source(script.earlier) + script.edit.Consumed()
  }

  function Target<T>(script: Script<T>): seq<T> {
    if script.Empty? then [] else Target(script.earlier) + script.edit.Produced()
  }

  function Cost<T>(script: Script<T>): nat {
    if script.Empty? then 0 else Cost(script.earlier) + script.edit.Price()
  }

  ghost predicate Transforms<T(!new)>(script: Script<T>, reference: seq<T>, actual: seq<T>) {
    Source(script) == reference && Target(script) == actual
  }

  /** `d` is the length of a shortest insert/delete/substitute script from `reference` to `actual`. */
  ghost predicate IsShortest<T(!new)>(d: nat, reference: seq<T>, actual: seq<T>) {
    && (exists script :: Transforms(script, reference, actual) && Cost(script) == d)
    && (forall script :: Transforms(script, reference, actual) ==> d <= Cost(script))
  }

  /** The recurrence both programs tabulate: the first `r` reference words against the first `a` heard ones. */
  function Table<T(==)>(reference: seq<T>, actual: seq<T>, r: nat, a: nat): nat
    requires r <= |reference| && a <= |actual|
  {
    if r == 0 then a
    else if a == 0 then r
    else Min(Min(Table(reference, actual, r - 1, a) + 1, Table(reference, actual, r, a - 1) + 1),
             Table(reference, actual, r - 1, a - 1) + if reference[r - 1] != actual[a - 1] then 1 else 0)
  }

  function Distance<T(==)>(reference: seq<T>, actual: seq<T>): nat {
    Table(reference, actual, |reference|, |actual|)
  }

  lemma Cell<T(!new)>(reference: seq<T>, actual: seq<T>, r: nat, a: nat)
    requires r <= |reference| && a <= |actual|
    ensures r == 0 ==> Table(reference, actual, r, a) == a
    ensures a == 0 ==> Table(reference, actual, r, a) == r
    ensures r > 0 && a > 0 ==>
              Table(reference, actual, r, a)
              == Min(Min(Table(reference, actual, r - 1, a) + 1, Table(reference, actual, r, a - 1) + 1),
                     Table(reference, actual, r - 1, a - 1) + if reference[r - 1] != actual[a - 1] then 1 else 0)
  {
  }

  // ----- the two programs

  /** The Python program: each row is a fresh list grown by `append`. */
  method EditCount<T(==,!new)>(reference: seq<T>, actual: seq<T>) returns (count: nat)
    ensures IsShortest(count, reference, actual)
    ensures count == Distance(reference, actual)
  {
    hide Table;
    forall j: nat | j <= |actual| ensures Table(reference, actual, 0, j) == j { Cell(reference, actual, 0, j); }
    var previous: seq<nat> := seq(|actual| + 1, i => i);
    for index := 0 to |reference|
      invariant |previous| == |actual| + 1
      invariant forall j :: 0 <= j <= |actual| ==> previous[j] == Table(reference, actual, index, j)
    {
      Cell(reference, actual, index + 1, 0);
      var current: seq<nat> := [index + 1];
      for j := 0 to |actual|
        invariant |current| == j + 1
        invariant forall k :: 0 <= k <= j ==> current[k] == Table(reference, actual, index + 1, k)
      {
        Cell(reference, actual, index + 1, j + 1);
        var substituted := previous[j] + if reference[index] != actual[j] then 1 else 0;
        current := current + [Min(Min(previous[j + 1] + 1, current[j] + 1), substituted)];
      }
      previous := current;
    }
    DistanceIsShortest(reference, actual);
    return previous[|previous| - 1];
  }

  /** The Java program: two arrays whose roles are swapped after every reference word. */
  method DistanceSwappingRows<T(==,!new)>(ref: seq<T>, actual: seq<T>) returns (count: int)
    ensures count >= 0 && IsShortest(count, ref, actual)
    ensures count == Distance(ref, actual)
  {
    hide Table;
    forall j: nat | j <= |actual| ensures Table(ref, actual, 0, j) == j { Cell(ref, actual, 0, j); }
    var previous := new int[|actual| + 1];
    var current := new int[|actual| + 1];
    for i := 0 to |actual| + 1
      invariant forall j :: 0 <= j < i ==> previous[j] == j
    {
      previous[i] := i;
    }
    for r := 1 to |ref| + 1
      invariant fresh(previous) && fresh(current) && previous != current
      invariant previous.Length == current.Length == |actual| + 1
      invariant forall j :: 0 <= j <= |actual| ==> previous[j] == Table(ref, actual, r - 1, j)
    {
      Cell(ref, actual, r, 0);
      current[0] := r;
      for a := 1 to |actual| + 1
        invariant forall j :: 0 <= j <= |actual| ==> previous[j] == Table(ref, actual, r - 1, j)
        invariant forall j :: 0 <= j < a ==> current[j] == Table(ref, actual, r, j)
      {
        Cell(ref, actual, r, a);
        current[a] := Min(Min(previous[a] + 1, current[a - 1] + 1),
                          previous[a - 1] + if ref[r - 1] == actual[a - 1] then 0 else 1);
      }
      previous, current := current, previous;
    }
    DistanceIsShortest(ref, actual);
    return previous[|actual|];
  }

  // ----- the recurrence is the length of a shortest script

  /** An entry is the price of one edit above the entry that the edit starts from. */
  lemma CheapestEdit<T(!new)>(reference: seq<T>, actual: seq<T>, r: nat, a: nat)
      returns (edit: Edit<T>, earlierR: nat, earlierA: nat)
    requires r <= |reference| && a <= |actual| && r + a > 0
    ensures earlierR <= r && earlierA <= a && earlierR + earlierA < r + a
    ensures reference[..r] == reference[..earlierR] + edit.Consumed()
    ensures actual[..a] == actual[..earlierA] + edit.Produced()
    ensures Table(reference, actual, r, a) == Table(reference, actual, earlierR, earlierA) + edit.Price()
  {
    hide Table;
    Cell(reference, actual, r, a);
    if r == 0 || (a != 0 && Table(reference, actual, r, a) == Table(reference, actual, r, a - 1) + 1) {
      Cell(reference, actual, r, a - 1);
      edit, earlierR, earlierA := Insert(actual[a - 1]), r, a - 1;
    } else if a == 0 || Table(reference, actual, r, a) == Table(reference, actual, r - 1, a) + 1 {
      Cell(reference, actual, r - 1, a);
      edit, earlierR, earlierA := Delete(reference[r - 1]), r - 1, a;
    } else if reference[r - 1] == actual[a - 1] {
      edit, earlierR, earlierA := Keep(actual[a - 1]), r - 1, a - 1;
    } else {
      edit, earlierR, earlierA := Substitute(reference[r - 1], actual[a - 1]), r - 1, a - 1;
    }
  }

  lemma Extended<T(!new)>(script: Script<T>, edit: Edit<T>)
    ensures Transforms(Then(script, edit), Source(script) + edit.Consumed(), Target(script) + edit.Produced())
    ensures Cost(Then(script, edit)) == Cost(script) + edit.Price()
  {
  }

  lemma {:induction false} ShortestScript<T(!new)>(reference: seq<T>, actual: seq<T>, r: nat, a: nat)
    returns (script: Script<T>)
    requires r <= |reference| && a <= |actual|
    ensures Transforms(script, reference[..r], actual[..a]) && Cost(script) == Table(reference, actual, r, a)
    decreases r + a
  {
    if r + a == 0 {
      return Empty;
    }
    var edit, earlierR, earlierA := CheapestEdit(reference, actual, r, a);
    script := ShortestScript(reference, actual, earlierR, earlierA);
    Extended(script, edit);
    hide Table, Cost, Source, Target;
    script := Then(script, edit);
  }

  lemma BestScript<T(!new)>(reference: seq<T>, actual: seq<T>) returns (script: Script<T>)
    ensures Transforms(script, reference, actual) && Cost(script) == Distance(reference, actual)
  {
    script := ShortestScript(reference, actual, |reference|, |actual|);
    assert reference[..|reference|] == reference && actual[..|actual|] == actual;
  }

  /** Later words do not matter to an entry of the table. */
  lemma {:induction false} TableOfPrefixes<T(!new)>(reference: seq<T>, actual: seq<T>, longer: seq<T>, more: seq<T>,
      r: nat, a: nat)
    requires reference <= longer && actual <= more
    requires r <= |reference| && a <= |actual|
    ensures Table(longer, more, r, a) == Table(reference, actual, r, a)
    decreases r + a
  {
    hide Table, Min;
    Cell(reference, actual, r, a);
    Cell(longer, more, r, a);
    if r != 0 && a != 0 {
      assert reference[r - 1] == longer[r - 1] && actual[a - 1] == more[a - 1];
      TableOfPrefixes(reference, actual, longer, more, r - 1, a);
      TableOfPrefixes(reference, actual, longer, more, r, a - 1);
      TableOfPrefixes(reference, actual, longer, more, r - 1, a - 1);
    }
  }

  /** One edit moves the distance by at most its price. */
  lemma OneEditCosts<T(!new)>(a: seq<T>, b: seq<T>, edit: Edit<T>)
    ensures Distance(a + edit.Consumed(), b + edit.Produced()) <= Distance(a, b) + edit.Price()
  {
    hide Table;
    var longer, more := a + edit.Consumed(), b + edit.Produced();
    Cell(longer, more, |longer|, |more|);
    Cell(longer, more, |a|, |b|);
    TableOfPrefixes(a, b, longer, more, |a|, |b|);
  }

  lemma {:induction false} NoCheaperScript<T(!new)>(script: Script<T>)
    ensures Distance(Source(script), Target(script)) <= Cost(script)
  {
    if script.Then? {
      NoCheaperScript(script.earlier);
      OneEditCosts(Source(script.earlier), Target(script.earlier), script.edit);
      hide Table, Distance;
    }
  }

  lemma DistanceIsShortest<T(!new)>(reference: seq<T>, actual: seq<T>)
    ensures IsShortest(Distance(reference, actual), reference, actual)
  {
    var best := BestScript(reference, actual);
    forall script | Transforms(script, reference, actual)
      ensures Distance(reference, actual) <= Cost(script)
    {
      NoCheaperScript(script);
    }
  }

  // ----- it is a metric

  lemma {:induction false} Reversed<T(!new)>(script: Script<T>) returns (back: Script<T>)
    ensures Transforms(back, Target(script), Source(script)) && Cost(back) == Cost(script)
  {
    if script.Empty? {
      return Empty;
    }
    back := Reversed(script.earlier);
    back := Then(back, match script.edit
                       case Keep(w) => Keep(w)
                       case Insert(h) => Delete(h)
                       case Delete(e) => Insert(e)
                       case Substitute(e, h) => Substitute(h, e));
  }

  /** Follows `script` by what remains of an edit that produces a word and an edit that consumes that word. */
  function ThenBoth<T>(script: Script<T>, first: Edit<T>, second: Edit<T>): Script<T>
    requires !first.Delete? && !second.Insert?
  {
    match (first, second)
    case (Keep(_), _) => Then(script, second)
    case (_, Keep(_)) => Then(script, first)
    case (Insert(_), Delete(_)) => script
    case (Insert(_), Substitute(_, h)) => Then(script, Insert(h))
    case (Substitute(e, _), Delete(_)) => Then(script, Delete(e))
    case (Substitute(e, _), Substitute(_, h)) => Then(script, Substitute(e, h))
  }

  lemma {:induction false} Composed<T(!new)>(first: Script<T>, second: Script<T>) returns (script: Script<T>)
    requires Target(first) == Source(second)
    ensures Transforms(script, Source(first), Target(second)) && Cost(script) <= Cost(first) + Cost(second)
    decreases first, second
  {
    if first.Empty? && second.Empty? {
      return Empty;
    } else if first.Then? && first.edit.Delete? {
      script := Composed(first.earlier, second);
      script := Then(script, first.edit);
    } else if second.Then? && second.edit.Insert? {
      script := Composed(first, second.earlier);
      script := Then(script, second.edit);
    } else {
      var shared := Target(first);
      assert Target(first.earlier) == shared[..|shared| - 1] == Source(second.earlier);
      script := Composed(first.earlier, second.earlier);
      script := ThenBoth(script, first.edit, second.edit);
    }
  }

  lemma Symmetry<T(!new)>(a: seq<T>, b: seq<T>)
    ensures Distance(a, b) == Distance(b, a)
  {
    var there := BestScript(a, b);
    var back := BestScript(b, a);
    var reversed := Reversed(there);
    var again := Reversed(back);
    NoCheaperScript(reversed);
    NoCheaperScript(again);
  }

  lemma TriangleInequality<T(!new)>(a: seq<T>, b: seq<T>, c: seq<T>)
    ensures Distance(a, c) <= Distance(a, b) + Distance(b, c)
  {
    var first := BestScript(a, b);
    var second := BestScript(b, c);
    var both := Composed(first, second);
    NoCheaperScript(both);
  }

  lemma {:induction false} FreeScriptsChangeNothing<T(!new)>(script: Script<T>)
    requires Cost(script) == 0
    ensures Source(script) == Target(script)
  {
    if script.Then? {
      FreeScriptsChangeNothing(script.earlier);
    }
  }

  lemma {:induction false} KeepingEverything<T(!new)>(words: seq<T>, count: nat)
    requires count <= |words|
    ensures Table(words, words, count, count) == 0
  {
    if count != 0 {
      KeepingEverything(words, count - 1);
    }
  }

  lemma ZeroExactlyOnEqual<T(!new)>(a: seq<T>, b: seq<T>)
    ensures Distance(a, b) == 0 <==> a == b
  {
    var script := BestScript(a, b);
    if Cost(script) == 0 {
      FreeScriptsChangeNothing(script);
    }
    KeepingEverything(a, |a|);
  }

  lemma {:induction false} TableBounds<T(!new)>(reference: seq<T>, actual: seq<T>, r: nat, a: nat)
    requires r <= |reference| && a <= |actual|
    ensures r - a <= Table(reference, actual, r, a) && a - r <= Table(reference, actual, r, a)
    ensures Table(reference, actual, r, a) <= r || Table(reference, actual, r, a) <= a
  {
    hide Table;
    Cell(reference, actual, r, a);
    if r > 0 && a > 0 {
      TableBounds(reference, actual, r - 1, a);
      TableBounds(reference, actual, r, a - 1);
      TableBounds(reference, actual, r - 1, a - 1);
    }
  }

  /**
   * Every edit counts for one: the distance is at least the difference of the lengths and at most the greater length,
   * and it is one exactly for a single word inserted, deleted or replaced by another.
   */
  lemma DistanceBounds<T(!new)>(reference: seq<T>, actual: seq<T>)
    ensures |reference| - |actual| <= Distance(reference, actual)
    ensures |actual| - |reference| <= Distance(reference, actual)
    ensures Distance(reference, actual) <= |reference| || Distance(reference, actual) <= |actual|
  {
    TableBounds(reference, actual, |reference|, |actual|);
  }

  /** One word replaced by another, or one word more or less, makes a distance of one, wherever it is. */
  lemma OneWordIsOne<T(!new)>(front: seq<T>, x: T, y: T, back: seq<T>)
    requires x != y
    ensures Distance(front + [x] + back, front + [y] + back) == 1
    ensures Distance(front + back, front + [x] + back) == 1 == Distance(front + [x] + back, front + back)
  {
    var a, b, c := front + [x] + back, front + [y] + back, front + back;
    ZeroExactlyOnEqual(a, b);
    ZeroExactlyOnEqual(a, c);
    assert a[|front|] == x && b[|front|] == y && |a| == |c| + 1;
    Framed(front, [x], [y], back);
    Framed(front, [], [x], back);
    DistanceBounds([x], [y]);
    DistanceBounds<T>([], [x]);
    assert front + [] + back == c;
    Symmetry(c, a);
  }

  /** What two lists have in common at their ends costs nothing. */
  lemma Framed<T(!new)>(front: seq<T>, a: seq<T>, b: seq<T>, back: seq<T>)
    ensures Distance(front + a + back, front + b + back) <= Distance(a, b)
  {
    var script := BestScript(a, b);
    var framed := Followed(Preceded(front, script), back);
    PrecededBy(front, script);
    FollowedBy(Preceded(front, script), back);
    NoCheaperScript(framed);
  }

  /** Keeps the words of `front` first. */
  function Preceded<T>(front: seq<T>, script: Script<T>): Script<T> {
    match script
    case Empty => Followed(Empty, front)
    case Then(earlier, edit) => Then(Preceded(front, earlier), edit)
  }

  /** Keeps the words of `back` last. */
  function Followed<T>(script: Script<T>, back: seq<T>): Script<T> {
    if back == [] then script else Then(Followed(script, back[..|back| - 1]), Keep(back[|back| - 1]))
  }

  lemma {:induction false} FollowedBy<T(!new)>(script: Script<T>, back: seq<T>)
    ensures Source(Followed(script, back)) == Source(script) + back
    ensures Target(Followed(script, back)) == Target(script) + back && Cost(Followed(script, back)) == Cost(script)
  {
    if back != [] {
      FollowedBy(script, back[..|back| - 1]);
      assert back == back[..|back| - 1] + [back[|back| - 1]];
    }
  }

  lemma {:induction false} PrecededBy<T(!new)>(front: seq<T>, script: Script<T>)
    ensures Source(Preceded(front, script)) == front + Source(script)
    ensures Target(Preceded(front, script)) == front + Target(script) && Cost(Preceded(front, script)) == Cost(script)
  {
    match script {
      case Empty => FollowedBy<T>(Empty, front);
      case Then(earlier, edit) => PrecededBy(front, earlier);
    }
  }
}
