/** The comparison functions the viewer sorts its song list with
    (js/amq_viewer.js lines 233-308): `create_comp` chains comparators,
    `ord_comp` turns an ordering of values into a comparator of records, and
    the three sort orders are chains of those. Values are compared as
    JavaScript compares them: strings by code point, numbers exactly, with
    NaN unequal to everything and smaller or greater than nothing. */
module Comparators {
  import opened Options
  import opened JsText
  import opened SongLedger

  type Pos = n: int | n > 0 witness 1

  /** The numbers the comparators meet: counters, the kind index, a parsed
      ordinal, and `correct / outOf`, which is a fraction, `Infinity` when
      only `outOf` is zero, and NaN for `0 / 0` or a failed `parseInt`. */
  datatype JsNumber = NaN | PosInfinity | Finite(num: int, den: Pos)

  datatype JsValue = Str(s: string) | Num(n: JsNumber)

  function Int(n: int): JsValue {
    Num(Finite(n, 1))
  }

  predicate NumEquals(x: JsNumber, y: JsNumber) {
    match (x, y)
    case (Finite(p, q), Finite(r, t)) => p * t == r * q
    case (PosInfinity, PosInfinity) => true
    case _ => false
  }

  predicate NumLess(x: JsNumber, y: JsNumber) {
    match (x, y)
    case (Finite(p, q), Finite(r, t)) => p * t < r * q
    case (Finite(_, _), PosInfinity) => true
    case _ => false
  }

  /** `x === y` */
  predicate StrictEquals(x: JsValue, y: JsValue) {
    match (x, y)
    case (Str(s), Str(t)) => s == t
    case (Num(m), Num(n)) => NumEquals(m, n)
    case _ => false
  }

  /** `x < y` on two strings or two numbers (`x > y` is `y < x`). */
  predicate JsLess(x: JsValue, y: JsValue) {
    match (x, y)
    case (Str(s), Str(t)) => StrLess(s, t)
    case (Num(m), Num(n)) => NumLess(m, n)
    case _ => false
  }

  /** Two strings, or two numbers neither of which is NaN. */
  predicate Comparable(x: JsValue, y: JsValue) {
    || (x.Str? && y.Str?)
    || (x.Num? && y.Num? && !x.n.NaN? && !y.n.NaN?)
  }

  /** On comparable values exactly one of less, equal and greater holds. */
  lemma JsTrichotomy(x: JsValue, y: JsValue)
    requires Comparable(x, y)
    ensures StrictEquals(x, y) <==> StrictEquals(y, x)
    ensures StrictEquals(x, y) ==> !JsLess(x, y) && !JsLess(y, x)
    ensures !StrictEquals(x, y) ==> (JsLess(x, y) <==> !JsLess(y, x))
  {
    if x.Str? {
      StrLessTrichotomy(x.s, y.s);
      StrLessTrichotomy(y.s, x.s);
    }
  }

  /** Cross-multiplied fractions with positive denominators compare
      transitively: `p/q <= r/t <= u/w` gives `p/q <= u/w`, strictly when
      either step is strict, and equal when both steps are. */
  lemma FractionTransitive(p: int, q: int, r: int, t: int, u: int, w: int)
    requires q > 0 && t > 0 && w > 0
    ensures p * t <= r * q && r * w <= u * t ==> p * w <= u * q
    ensures p * t < r * q && r * w <= u * t ==> p * w < u * q
    ensures p * t <= r * q && r * w < u * t ==> p * w < u * q
    ensures p * t == r * q && r * w == u * t ==> p * w == u * q
  {
    var d1, d2, d := p * t - r * q, r * w - u * t, p * w - u * q;
    assert d * t == d1 * w + d2 * q;
    SignOfProduct(d1, w);
    SignOfProduct(d2, q);
    SignOfProduct(d, t);
  }

  lemma SignOfProduct(x: int, k: int)
    requires k > 0
    ensures x < 0 <==> x * k < 0
    ensures x == 0 <==> x * k == 0
  {
    if x < 0 {
      assert x * k == -((-x) * k);
    }
  }

  /** On comparable values `<` is transitive, `===` is transitive, and a
      step of `<` and a step of `===` together give `<`. */
  lemma JsOrderTransitive(x: JsValue, y: JsValue, z: JsValue)
    requires Comparable(x, y) && Comparable(y, z)
    ensures Comparable(x, z)
    ensures StrictEquals(x, y) && StrictEquals(y, z) ==> StrictEquals(x, z)
    ensures JsLess(x, y) && (JsLess(y, z) || StrictEquals(y, z)) ==> JsLess(x, z)
    ensures (JsLess(x, y) || StrictEquals(x, y)) && JsLess(y, z) ==> JsLess(x, z)
  {
    if x.Str? {
      if StrLess(x.s, y.s) && StrLess(y.s, z.s) {
        StrLessTransitive(x.s, y.s, z.s);
      }
    } else if x.n.Finite? && y.n.Finite? && z.n.Finite? {
      FractionTransitive(x.n.num, x.n.den, y.n.num, y.n.den, z.n.num, z.n.den);
    }
  }

  // ---------------------------------------------------------------------------
  // create_comp, ord_comp, gt_ord / lt_ord, gt_comp / lt_comp
  // ---------------------------------------------------------------------------

  type Comparator<!T> = (T, T) -> int

  /** The comparator `create_comp(comps)` returns, applied to `a` and `b`:
      the first non-zero verdict of `comps`, or 0. */
  function Chain<T>(comps: seq<Comparator<T>>, a: T, b: T): int {
    if |comps| == 0 then 0
    else if comps[0](a, b) != 0 then comps[0](a, b)
    else Chain(comps[1..], a, b)
  }

  /** The loop inside the closure `create_comp` builds. */
  method CreateComp<T>(comps: seq<Comparator<T>>, a: T, b: T) returns (mag: int)
    ensures mag == Chain(comps, a, b)
  {
    for i := 0 to |comps|
      invariant Chain(comps[i..], a, b) == Chain(comps, a, b)
    {
      assert comps[i..][1..] == comps[i + 1..];
      mag := comps[i](a, b);
      if mag != 0 {
        return mag;
      }
    }
    return 0;
  }

  /** A chain is 0 exactly when every comparator in it says 0, and otherwise
      it says what the first non-zero comparator says. */
  lemma {:induction false} ChainFirstNonzero<T>(comps: seq<Comparator<T>>, a: T, b: T)
    ensures Chain(comps, a, b) == 0 <==> forall i :: 0 <= i < |comps| ==> comps[i](a, b) == 0
    ensures forall k :: 0 <= k < |comps| && comps[k](a, b) != 0
                        && (forall j :: 0 <= j < k ==> comps[j](a, b) == 0)
                        ==> Chain(comps, a, b) == comps[k](a, b)
  {
    if |comps| > 0 {
      ChainFirstNonzero(comps[1..], a, b);
      forall k | 1 <= k < |comps|
        ensures comps[k] == comps[1..][k - 1]
      {
      }
    }
  }

  lemma ChainOfTwo<T>(c0: Comparator<T>, c1: Comparator<T>, a: T, b: T)
    ensures Chain([c0, c1], a, b) == if c0(a, b) != 0 then c0(a, b) else c1(a, b)
  {
    assert [c0, c1][1..] == [c1];
    assert [c1][1..] == [];
    assert Chain([c1], a, b) == if c1(a, b) != 0 then c1(a, b) else Chain([c1][1..], a, b);
  }

  lemma ChainOfFour<T>(c0: Comparator<T>, c1: Comparator<T>, c2: Comparator<T>, c3: Comparator<T>, a: T, b: T)
    ensures Chain([c0, c1, c2, c3], a, b)
         == if c0(a, b) != 0 then c0(a, b)
            else if c1(a, b) != 0 then c1(a, b)
            else Chain([c2, c3], a, b)
  {
    assert [c0, c1, c2, c3][1..] == [c1, c2, c3];
    assert [c1, c2, c3][1..] == [c2, c3];
  }

  /** A chain of comparators each of which is antisymmetric on `a` and `b`
      is antisymmetric on them. */
  lemma {:induction false} ChainAntisymmetric<T>(comps: seq<Comparator<T>>, a: T, b: T)
    requires forall i :: 0 <= i < |comps| ==> comps[i](a, b) == -comps[i](b, a)
    ensures Chain(comps, a, b) == -Chain(comps, b, a)
  {
    if |comps| > 0 {
      ChainAntisymmetric(comps[1..], a, b);
    }
  }

  /** The verdicts of a comparator on the pairs (a, b), (b, c) and (a, c)
      of three items fit a total preorder: "compares at most 0" carries
      over from a to c, strictly when either step was strict, and two ties
      give a tie. */
  predicate ConsistentVerdicts(ab: int, bc: int, ac: int) {
    && (ab <= 0 && bc <= 0 ==> ac <= 0)
    && (ab < 0 && bc <= 0 ==> ac < 0)
    && (ab <= 0 && bc < 0 ==> ac < 0)
    && (ab == 0 && bc == 0 ==> ac == 0)
  }

  predicate Consistent<T>(cmp: Comparator<T>, a: T, b: T, c: T) {
    ConsistentVerdicts(cmp(a, b), cmp(b, c), cmp(a, c))
  }

  /** The verdict of two comparators chained: the first, unless it ties. */
  function Then(first: int, second: int): int {
    if first != 0 then first else second
  }

  /** Chaining a consistent comparator after a consistent one is consistent:
      the step `create_comp` takes from one comparator to the next. */
  lemma ThenConsistent(ab: int, bc: int, ac: int, ab': int, bc': int, ac': int)
    requires ConsistentVerdicts(ab, bc, ac) && ConsistentVerdicts(ab', bc', ac')
    ensures ConsistentVerdicts(Then(ab, ab'), Then(bc, bc'), Then(ac, ac'))
  {
  }

  /** `gt_ord`: 1 when `a > b`, -1 otherwise (equal values included). */
  function GtOrd(x: JsValue, y: JsValue): int {
    if JsLess(y, x) then 1 else -1
  }

  /** `lt_ord`: 1 when `a < b`, -1 otherwise. */
  function LtOrd(x: JsValue, y: JsValue): int {
    if JsLess(x, y) then 1 else -1
  }

  /** `ord_comp(ord)(retriever)`: 0 when the retrieved values are `===`,
      otherwise what `ord` says of them. */
  function OrdComp<T>(ord: (JsValue, JsValue) -> int, retriever: T -> JsValue): Comparator<T> {
    (a: T, b: T) =>
      if !StrictEquals(retriever(a), retriever(b)) then ord(retriever(a), retriever(b)) else 0
  }

  function GtComp<T>(retriever: T -> JsValue): Comparator<T> {
    OrdComp(GtOrd, retriever)
  }

  function LtComp<T>(retriever: T -> JsValue): Comparator<T> {
    OrdComp(LtOrd, retriever)
  }

  /** What the comparators `gt_comp` and `lt_comp` return, applied. */
  lemma OrdCompApplied<T>(retriever: T -> JsValue, a: T, b: T)
    ensures GtComp(retriever)(a, b)
         == if StrictEquals(retriever(a), retriever(b)) then 0 else GtOrd(retriever(a), retriever(b))
    ensures LtComp(retriever)(a, b)
         == if StrictEquals(retriever(a), retriever(b)) then 0 else LtOrd(retriever(a), retriever(b))
  {
  }

  /** `gt_comp` sorts ascending: on comparable values it says 0 exactly for
      `===` values, 1 exactly when the first is greater, -1 exactly when it
      is smaller, and it is antisymmetric. */
  lemma GtCompAscending<T>(retriever: T -> JsValue, a: T, b: T)
    requires Comparable(retriever(a), retriever(b))
    ensures var c := GtComp(retriever)(a, b);
      && (c == 0 <==> StrictEquals(retriever(a), retriever(b)))
      && (c == 1 <==> JsLess(retriever(b), retriever(a)))
      && (c == -1 <==> JsLess(retriever(a), retriever(b)))
      && c == -GtComp(retriever)(b, a)
  {
    JsTrichotomy(retriever(a), retriever(b));
    OrdCompApplied(retriever, a, b);
    OrdCompApplied(retriever, b, a);
  }

  /** `lt_comp` sorts descending: it is `gt_comp` reversed. */
  lemma LtCompDescending<T>(retriever: T -> JsValue, a: T, b: T)
    requires Comparable(retriever(a), retriever(b))
    ensures LtComp(retriever)(a, b) == -GtComp(retriever)(a, b)
    ensures LtComp(retriever)(a, b) == -LtComp(retriever)(b, a)
  {
    JsTrichotomy(retriever(a), retriever(b));
    OrdCompApplied(retriever, a, b);
    OrdCompApplied(retriever, b, a);
  }

  /** On pairwise comparable values `gt_comp` and `lt_comp` are consistent:
      both order by a total preorder of the retrieved values. */
  lemma OrdCompConsistent<T>(retriever: T -> JsValue, a: T, b: T, c: T)
    requires Comparable(retriever(a), retriever(b)) && Comparable(retriever(b), retriever(c))
    ensures Consistent(GtComp(retriever), a, b, c)
    ensures Consistent(LtComp(retriever), a, b, c)
  {
    var x, y, z := retriever(a), retriever(b), retriever(c);
    JsOrderTransitive(x, y, z);
    JsOrderTransitive(z, y, x);
    JsTrichotomy(x, y);
    JsTrichotomy(y, z);
    JsTrichotomy(x, z);
    OrdCompApplied(retriever, a, b);
    OrdCompApplied(retriever, b, c);
    OrdCompApplied(retriever, a, c);
  }

  /** A NaN value is never `===` to anything, so both `gt_comp` and
      `lt_comp` put it first both ways round: the comparator is not
      antisymmetric there. */
  lemma NaNFirstBothWays<T>(retriever: T -> JsValue, a: T, b: T)
    requires retriever(a) == Num(NaN)
    ensures GtComp(retriever)(a, b) == -1 && GtComp(retriever)(b, a) == -1
    ensures LtComp(retriever)(a, b) == -1 && LtComp(retriever)(b, a) == -1
  {
    OrdCompApplied(retriever, a, b);
    OrdCompApplied(retriever, b, a);
  }

  // ---------------------------------------------------------------------------
  // by_property, comp_by_type, outOf_check, by_accuracy
  // ---------------------------------------------------------------------------

  /** The properties `by_property` is asked for. */
  datatype Property = AnimeName | SongName | ArtistName | OutOf | Occurances

  /** `by_property(p)` */
  function ByProperty(p: Property): SongRecord -> JsValue {
    match p
    case AnimeName => (d: SongRecord) => Str(d.animeName)
    case SongName => (d: SongRecord) => Str(d.songName)
    case ArtistName => (d: SongRecord) => Str(d.artistName)
    case OutOf => (d: SongRecord) => Int(d.outOf)
    case Occurances => (d: SongRecord) => Int(d.occurances)
  }

  const Ordering: seq<string> := ["Opening", "Ending", "Insert"]

  /** `xs.indexOf(x)`: the first position of `x`, or -1. */
  function IndexOf(xs: seq<string>, x: string): (i: int)
    ensures -1 <= i < |xs|
    ensures i == -1 <==> x !in xs
    ensures i >= 0 ==> xs[i] == x && x !in xs[..i]
  {
    if |xs| == 0 then -1
    else if xs[0] == x then 0
    else
      var i := IndexOf(xs[1..], x);
      assert i >= 0 ==> xs[..i + 1] == [xs[0]] + xs[1..][..i];
      if i == -1 then -1 else i + 1
  }

  /** `by_type`: the index of the first word of the kind in the ordering. */
  function ByType(t: seq<string>): JsValue {
    Int(if |t| == 0 then -1 else IndexOf(Ordering, t[0]))
  }

  /** `by_order`: the second word parsed as an integer; NaN when it is
      missing or does not start with a number. */
  function ByOrder(t: seq<string>): JsValue {
    if |t| < 2 then Num(NaN)
    else match ParseInt(t[1])
      case None => Num(NaN)
      case Some(n) => Int(n)
  }

  /** `comp_by_type`: by kind (unknown kinds first, then Opening, Ending,
      Insert), then by the number after the kind. */
  function CompByType(a: SongRecord, b: SongRecord): int {
    Chain([GtComp(ByType), GtComp(ByOrder)], SplitSpace(a.animeType), SplitSpace(b.animeType))
  }

  /** `outOf_check`: a song never guessed goes after the other one. */
  function OutOfCheck(a: SongRecord, b: SongRecord): int {
    if a.outOf == 0 then 1
    else if b.outOf == 0 then -1
    else 0
  }

  /** `by_accuracy`: `correct / outOf`. */
  function ByAccuracy(d: SongRecord): JsValue {
    Num(if d.outOf == 0 then (if d.correct == 0 then NaN else PosInfinity)
        else Finite(d.correct, d.outOf))
  }

  // ---------------------------------------------------------------------------
  // The three sort orders
  // ---------------------------------------------------------------------------

  /** `song_list_compare`: by anime name, kind, song name, artist. */
  function SongListCompare(a: SongRecord, b: SongRecord): int {
    Chain([GtComp(ByProperty(AnimeName)), CompByType,
           GtComp(ByProperty(SongName)), GtComp(ByProperty(ArtistName))], a, b)
  }

  /** `song_accuracy_compare`: never-guessed songs last, then by accuracy
      and by number of guesses, both descending, then the list order. */
  function SongAccuracyCompare(a: SongRecord, b: SongRecord): int {
    Chain([OutOfCheck, LtComp(ByAccuracy), LtComp(ByProperty(OutOf)), SongListCompare], a, b)
  }

  /** `song_occurance_compare`: most played first, then the accuracy order. */
  function SongOccuranceCompare(a: SongRecord, b: SongRecord): int {
    Chain([LtComp(ByProperty(Occurances)), SongAccuracyCompare], a, b)
  }

  /** The keys of `sorting_methods`. */
  datatype SortingMethod = Anime | Accuracy | Appearances

  function SortingComparator(m: SortingMethod): Comparator<SongRecord> {
    match m
    case Anime => SongListCompare
    case Accuracy => SongAccuracyCompare
    case Appearances => SongOccuranceCompare
  }
}
