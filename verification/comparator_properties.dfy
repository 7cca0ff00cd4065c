/** What the three sort orders of the viewer promise, and where they fall
    short of a consistent order: where every kind number parses, each order
    is antisymmetric and transitive, so a total preorder; a kind with no
    number, or two songs never guessed, break that. */
module ComparatorProperties {
  import opened JsText
  import opened SongLedger
  import opened Comparators

  /** The number after the kind parses: `parseInt` does not give NaN. */
  predicate OrderDefined(d: SongRecord) {
    ByOrder(SplitSpace(d.animeType)) != Num(NaN)
  }

  /** The position of the first word of a kind in the ordering, -1 when it
      is none of Opening, Ending and Insert. */
  function KindRank(animeType: string): int {
    IndexOf(Ordering, SplitSpace(animeType)[0])
  }

  lemma CompByTypeSteps(a: SongRecord, b: SongRecord)
    ensures var ta, tb := SplitSpace(a.animeType), SplitSpace(b.animeType);
      CompByType(a, b) == if GtComp(ByType)(ta, tb) != 0 then GtComp(ByType)(ta, tb)
                          else GtComp(ByOrder)(ta, tb)
  {
    ChainOfTwo(GtComp(ByType), GtComp(ByOrder), SplitSpace(a.animeType), SplitSpace(b.animeType));
  }

  lemma SongListSteps(a: SongRecord, b: SongRecord)
    ensures SongListCompare(a, b)
         == if GtComp(ByProperty(AnimeName))(a, b) != 0 then GtComp(ByProperty(AnimeName))(a, b)
            else if CompByType(a, b) != 0 then CompByType(a, b)
            else if GtComp(ByProperty(SongName))(a, b) != 0 then GtComp(ByProperty(SongName))(a, b)
            else GtComp(ByProperty(ArtistName))(a, b)
  {
    ChainOfFour(GtComp(ByProperty(AnimeName)), CompByType,
                GtComp(ByProperty(SongName)), GtComp(ByProperty(ArtistName)), a, b);
    ChainOfTwo(GtComp(ByProperty(SongName)), GtComp(ByProperty(ArtistName)), a, b);
  }

  lemma SongAccuracySteps(a: SongRecord, b: SongRecord)
    ensures SongAccuracyCompare(a, b)
         == if OutOfCheck(a, b) != 0 then OutOfCheck(a, b)
            else if LtComp(ByAccuracy)(a, b) != 0 then LtComp(ByAccuracy)(a, b)
            else if LtComp(ByProperty(OutOf))(a, b) != 0 then LtComp(ByProperty(OutOf))(a, b)
            else SongListCompare(a, b)
  {
    ChainOfFour(OutOfCheck, LtComp(ByAccuracy), LtComp(ByProperty(OutOf)), SongListCompare, a, b);
    ChainOfTwo(LtComp(ByProperty(OutOf)), SongListCompare, a, b);
  }

  lemma SongOccuranceSteps(a: SongRecord, b: SongRecord)
    ensures SongOccuranceCompare(a, b)
         == if LtComp(ByProperty(Occurances))(a, b) != 0 then LtComp(ByProperty(Occurances))(a, b)
            else SongAccuracyCompare(a, b)
  {
    ChainOfTwo(LtComp(ByProperty(Occurances)), SongAccuracyCompare, a, b);
  }

  // ---------------------------------------------------------------------------
  // comp_by_type
  // ---------------------------------------------------------------------------

  lemma KindRankOf(kind: string, rest: string)
    requires ' ' !in kind
    ensures KindRank(kind + " " + rest) == IndexOf(Ordering, kind)
  {
    SplitPrefix(kind, rest);
  }

  /** Different kinds are ordered by their rank alone. */
  lemma KindDecides(a: SongRecord, b: SongRecord)
    requires KindRank(a.animeType) != KindRank(b.animeType)
    ensures CompByType(a, b) == if KindRank(a.animeType) > KindRank(b.animeType) then 1 else -1
  {
    var ta, tb := SplitSpace(a.animeType), SplitSpace(b.animeType);
    CompByTypeSteps(a, b);
    GtCompAscending(ByType, ta, tb);
  }

  /** Openings come before endings, endings before inserts. */
  lemma OpeningEndingInsert(op: SongRecord, ed: SongRecord, ins: SongRecord, r: string, s: string, t: string)
    requires op.animeType == "Opening" + " " + r
    requires ed.animeType == "Ending" + " " + s
    requires ins.animeType == "Insert" + " " + t
    ensures CompByType(op, ed) == -1 && CompByType(ed, ins) == -1 && CompByType(op, ins) == -1
    ensures CompByType(ed, op) == 1 && CompByType(ins, ed) == 1 && CompByType(ins, op) == 1
  {
    KindRankOf("Opening", r);
    KindRankOf("Ending", s);
    KindRankOf("Insert", t);
    assert Ordering[1] == "Ending" && Ordering[2] == "Insert";
    assert "Opening" !in Ordering[..0];
    assert "Ending" !in Ordering[..1];
    assert "Insert" !in Ordering[..2];
    KindDecides(op, ed);
    KindDecides(ed, ins);
    KindDecides(op, ins);
    KindDecides(ed, op);
    KindDecides(ins, ed);
    KindDecides(ins, op);
  }

  /** A kind that is none of the three has index -1 and sorts before every
      known kind. */
  lemma UnknownKindFirst(u: SongRecord, k: SongRecord)
    requires SplitSpace(u.animeType)[0] !in Ordering
    requires SplitSpace(k.animeType)[0] in Ordering
    ensures CompByType(u, k) == -1 && CompByType(k, u) == 1
  {
    KindDecides(u, k);
    KindDecides(k, u);
  }

  /** Within a kind the number after it decides, as a number:
      `Opening 2` comes before `Opening 10`. */
  lemma NumberDecides(a: SongRecord, b: SongRecord, kind: string, m: nat, n: nat)
    requires ' ' !in kind
    requires a.animeType == kind + " " + DecimalString(m)
    requires b.animeType == kind + " " + DecimalString(n)
    ensures CompByType(a, b) == if m == n then 0 else if m > n then 1 else -1
  {
    var dm, dn := DecimalString(m), DecimalString(n);
    assert ' ' !in dm && ' ' !in dn by {
      assert forall i :: 0 <= i < |dm| ==> dm[i] != ' ';
      assert forall i :: 0 <= i < |dn| ==> dn[i] != ' ';
    }
    SplitPrefix(kind, dm);
    SplitPrefix(kind, dn);
    SplitNoSpace(dm);
    SplitNoSpace(dn);
    ParseIntDecimal(m);
    ParseIntDecimal(n);
    var ta, tb := SplitSpace(a.animeType), SplitSpace(b.animeType);
    assert ta == [kind, dm] && tb == [kind, dn];
    assert ByOrder(ta) == Int(m) && ByOrder(tb) == Int(n);
    CompByTypeSteps(a, b);
    GtCompAscending(ByType, ta, tb);
    GtCompAscending(ByOrder, ta, tb);
  }

  /** Where both numbers parse, `comp_by_type` is antisymmetric. */
  lemma CompByTypeAntisymmetric(a: SongRecord, b: SongRecord)
    requires OrderDefined(a) && OrderDefined(b)
    ensures CompByType(a, b) == -CompByType(b, a)
  {
    var ta, tb := SplitSpace(a.animeType), SplitSpace(b.animeType);
    GtCompAscending(ByType, ta, tb);
    GtCompAscending(ByOrder, ta, tb);
    ChainAntisymmetric([GtComp(ByType), GtComp(ByOrder)], ta, tb);
  }

  /** Where all three numbers parse, `comp_by_type` is transitive: by kind
      index, then by number. */
  lemma CompByTypeTransitive(a: SongRecord, b: SongRecord, c: SongRecord)
    requires OrderDefined(a) && OrderDefined(b) && OrderDefined(c)
    ensures Consistent(CompByType, a, b, c)
  {
    var ta, tb, tc := SplitSpace(a.animeType), SplitSpace(b.animeType), SplitSpace(c.animeType);
    CompByTypeSteps(a, b);
    CompByTypeSteps(b, c);
    CompByTypeSteps(a, c);
    OrdCompConsistent(ByType, ta, tb, tc);
    OrdCompConsistent(ByOrder, ta, tb, tc);
    ThenConsistent(GtComp(ByType)(ta, tb), GtComp(ByType)(tb, tc), GtComp(ByType)(ta, tc),
                   GtComp(ByOrder)(ta, tb), GtComp(ByOrder)(tb, tc), GtComp(ByOrder)(ta, tc));
  }

  // ---------------------------------------------------------------------------
  // song_list_compare
  // ---------------------------------------------------------------------------

  /** Where the kind numbers parse, the list order is transitive. */
  lemma SongListTransitive(a: SongRecord, b: SongRecord, c: SongRecord)
    requires OrderDefined(a) && OrderDefined(b) && OrderDefined(c)
    ensures Consistent(SongListCompare, a, b, c)
  {
    var anime, song, artist := GtComp(ByProperty(AnimeName)), GtComp(ByProperty(SongName)),
                               GtComp(ByProperty(ArtistName));
    SongListSteps(a, b);
    SongListSteps(b, c);
    SongListSteps(a, c);
    OrdCompConsistent(ByProperty(AnimeName), a, b, c);
    OrdCompConsistent(ByProperty(SongName), a, b, c);
    OrdCompConsistent(ByProperty(ArtistName), a, b, c);
    CompByTypeTransitive(a, b, c);
    ThenConsistent(song(a, b), song(b, c), song(a, c), artist(a, b), artist(b, c), artist(a, c));
    ThenConsistent(CompByType(a, b), CompByType(b, c), CompByType(a, c),
                   Then(song(a, b), artist(a, b)), Then(song(b, c), artist(b, c)), Then(song(a, c), artist(a, c)));
    ThenConsistent(anime(a, b), anime(b, c), anime(a, c),
                   Then(CompByType(a, b), Then(song(a, b), artist(a, b))),
                   Then(CompByType(b, c), Then(song(b, c), artist(b, c))),
                   Then(CompByType(a, c), Then(song(a, c), artist(a, c))));
  }

  /** The list order is antisymmetric wherever the kind numbers parse. */
  lemma SongListAntisymmetric(a: SongRecord, b: SongRecord)
    requires OrderDefined(a) && OrderDefined(b)
    ensures SongListCompare(a, b) == -SongListCompare(b, a)
  {
    GtCompAscending(ByProperty(AnimeName), a, b);
    CompByTypeAntisymmetric(a, b);
    GtCompAscending(ByProperty(SongName), a, b);
    GtCompAscending(ByProperty(ArtistName), a, b);
    ChainAntisymmetric([GtComp(ByProperty(AnimeName)), CompByType,
                        GtComp(ByProperty(SongName)), GtComp(ByProperty(ArtistName))], a, b);
  }

  /** The list order ties two songs only when they share anime, song and
      artist and `comp_by_type` ties them; a song whose kind number parses
      ties with every song of the same names and kind. */
  lemma SongListTies(a: SongRecord, b: SongRecord)
    ensures SongListCompare(a, b) == 0 ==>
      a.animeName == b.animeName && a.songName == b.songName && a.artistName == b.artistName
      && CompByType(a, b) == 0
    ensures (a.animeName == b.animeName && a.songName == b.songName && a.artistName == b.artistName
             && a.animeType == b.animeType && OrderDefined(a)) ==> SongListCompare(a, b) == 0
  {
    SongListSteps(a, b);
    OrdCompApplied(ByProperty(AnimeName), a, b);
    OrdCompApplied(ByProperty(SongName), a, b);
    OrdCompApplied(ByProperty(ArtistName), a, b);
    if a.animeType == b.animeType && OrderDefined(a) {
      var t := SplitSpace(a.animeType);
      CompByTypeSteps(a, b);
      OrdCompApplied(ByType, t, t);
      OrdCompApplied(ByOrder, t, t);
      JsTrichotomy(ByOrder(t), ByOrder(t));
    }
  }

  /** A kind with no number after it (`Insert Song`) makes `parseInt` give
      NaN, so a song is not even tied with itself: it is put first both
      ways round. */
  lemma SongListNaNSelf(a: SongRecord)
    requires !OrderDefined(a)
    ensures SongListCompare(a, a) == -1
  {
    var t := SplitSpace(a.animeType);
    SongListSteps(a, a);
    CompByTypeSteps(a, a);
    OrdCompApplied(ByProperty(AnimeName), a, a);
    OrdCompApplied(ByType, t, t);
    NaNFirstBothWays(ByOrder, t, t);
  }

  // ---------------------------------------------------------------------------
  // song_accuracy_compare
  // ---------------------------------------------------------------------------

  /** A song never guessed goes last: after every song, even after another
      song never guessed, whichever is passed first. */
  lemma NeverGuessedLast(a: SongRecord, b: SongRecord)
    ensures a.outOf == 0 ==> SongAccuracyCompare(a, b) == 1
    ensures a.outOf > 0 && b.outOf == 0 ==> SongAccuracyCompare(a, b) == -1
  {
    SongAccuracySteps(a, b);
  }

  /** Between guessed songs, the higher share of correct guesses comes
      first; the shares are compared exactly, by cross-multiplying. */
  lemma AccuracyDecides(a: SongRecord, b: SongRecord)
    requires a.outOf > 0 && b.outOf > 0
    requires a.correct * b.outOf != b.correct * a.outOf
    ensures SongAccuracyCompare(a, b) == if a.correct * b.outOf > b.correct * a.outOf then -1 else 1
  {
    SongAccuracySteps(a, b);
    OrdCompApplied(ByAccuracy, a, b);
  }

  /** At equal accuracy, the song guessed more often comes first. */
  lemma GuessesBreakTies(a: SongRecord, b: SongRecord)
    requires a.outOf > 0 && b.outOf > 0
    requires a.correct * b.outOf == b.correct * a.outOf
    requires a.outOf != b.outOf
    ensures SongAccuracyCompare(a, b) == if a.outOf > b.outOf then -1 else 1
  {
    SongAccuracySteps(a, b);
    OrdCompApplied(ByAccuracy, a, b);
    OrdCompApplied(ByProperty(OutOf), a, b);
  }

  /** At equal accuracy and equal guess counts, the list order decides. */
  lemma ListBreaksAccuracyTies(a: SongRecord, b: SongRecord)
    requires a.outOf > 0 && b.outOf > 0
    requires a.correct * b.outOf == b.correct * a.outOf
    requires a.outOf == b.outOf
    ensures SongAccuracyCompare(a, b) == SongListCompare(a, b)
  {
    SongAccuracySteps(a, b);
    OrdCompApplied(ByAccuracy, a, b);
    OrdCompApplied(ByProperty(OutOf), a, b);
  }

  /** Among guessed songs whose kind numbers parse, the accuracy order is
      antisymmetric. */
  lemma SongAccuracyAntisymmetric(a: SongRecord, b: SongRecord)
    requires a.outOf > 0 && b.outOf > 0
    requires OrderDefined(a) && OrderDefined(b)
    ensures SongAccuracyCompare(a, b) == -SongAccuracyCompare(b, a)
  {
    LtCompDescending(ByAccuracy, a, b);
    LtCompDescending(ByProperty(OutOf), a, b);
    SongListAntisymmetric(a, b);
    ChainAntisymmetric([OutOfCheck, LtComp(ByAccuracy), LtComp(ByProperty(OutOf)), SongListCompare], a, b);
  }

  /** Where the kind numbers parse, the accuracy order is transitive, never
      guessed songs included: a triple with one never guessed song puts it
      last, and the others compare by accuracy, guesses and list order. */
  lemma SongAccuracyTransitive(a: SongRecord, b: SongRecord, c: SongRecord)
    requires OrderDefined(a) && OrderDefined(b) && OrderDefined(c)
    ensures Consistent(SongAccuracyCompare, a, b, c)
  {
    if a.outOf > 0 && b.outOf > 0 && c.outOf > 0 {
      GuessedTransitive(a, b, c);
    } else {
      NeverGuessedLast(a, b);
      NeverGuessedLast(b, c);
      NeverGuessedLast(a, c);
    }
  }

  lemma GuessedTransitive(a: SongRecord, b: SongRecord, c: SongRecord)
    requires OrderDefined(a) && OrderDefined(b) && OrderDefined(c)
    requires a.outOf > 0 && b.outOf > 0 && c.outOf > 0
    ensures Consistent(SongAccuracyCompare, a, b, c)
  {
    var accuracy, guesses := LtComp(ByAccuracy), LtComp(ByProperty(OutOf));
    SongAccuracySteps(a, b);
    SongAccuracySteps(b, c);
    SongAccuracySteps(a, c);
    OrdCompConsistent(ByAccuracy, a, b, c);
    OrdCompConsistent(ByProperty(OutOf), a, b, c);
    SongListTransitive(a, b, c);
    ThenConsistent(guesses(a, b), guesses(b, c), guesses(a, c),
                   SongListCompare(a, b), SongListCompare(b, c), SongListCompare(a, c));
    ThenConsistent(accuracy(a, b), accuracy(b, c), accuracy(a, c),
                   Then(guesses(a, b), SongListCompare(a, b)), Then(guesses(b, c), SongListCompare(b, c)),
                   Then(guesses(a, c), SongListCompare(a, c)));
  }

  // ---------------------------------------------------------------------------
  // song_occurance_compare
  // ---------------------------------------------------------------------------

  /** Where the kind numbers parse, the occurrence order is transitive. */
  lemma SongOccuranceTransitive(a: SongRecord, b: SongRecord, c: SongRecord)
    requires OrderDefined(a) && OrderDefined(b) && OrderDefined(c)
    ensures Consistent(SongOccuranceCompare, a, b, c)
  {
    SongOccuranceSteps(a, b);
    SongOccuranceSteps(b, c);
    SongOccuranceSteps(a, c);
    OrdCompConsistent(ByProperty(Occurances), a, b, c);
    SongAccuracyTransitive(a, b, c);
    ThenConsistent(LtComp(ByProperty(Occurances))(a, b), LtComp(ByProperty(Occurances))(b, c),
                   LtComp(ByProperty(Occurances))(a, c),
                   SongAccuracyCompare(a, b), SongAccuracyCompare(b, c), SongAccuracyCompare(a, c));
  }

  /** The song seen in more rounds comes first; equal counts fall back to
      the accuracy order. */
  lemma OccurrencesDecide(a: SongRecord, b: SongRecord)
    ensures a.occurances != b.occurances ==>
      SongOccuranceCompare(a, b) == if a.occurances > b.occurances then -1 else 1
    ensures a.occurances == b.occurances ==> SongOccuranceCompare(a, b) == SongAccuracyCompare(a, b)
  {
    SongOccuranceSteps(a, b);
    OrdCompApplied(ByProperty(Occurances), a, b);
  }

  /** Wherever the accuracy order is antisymmetric, so is this one. */
  lemma SongOccuranceAntisymmetric(a: SongRecord, b: SongRecord)
    requires a.outOf > 0 && b.outOf > 0
    requires OrderDefined(a) && OrderDefined(b)
    ensures SongOccuranceCompare(a, b) == -SongOccuranceCompare(b, a)
  {
    LtCompDescending(ByProperty(Occurances), a, b);
    SongAccuracyAntisymmetric(a, b);
    ChainAntisymmetric([LtComp(ByProperty(Occurances)), SongAccuracyCompare], a, b);
  }
}
