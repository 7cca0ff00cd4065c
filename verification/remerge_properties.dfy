/** Merging the same session file a second time. Which slot throws depends
    only on which songs are registered, so the second merge stops where the
    first did. Every name a replayed slot could add is already in the
    ledger after the first merge, so the second merge leaves the anime
    names and every record's alternative names and wrong guesses as they
    were, while every counter grows again by what the first merge added. */
module RemergeProperties {
  import opened Options
  import opened JsText
  import opened SongKey
  import opened SongLedger
  import opened LedgerProperties

  // ---------------------------------------------------------------------------
  // Failures depend only on the registered keys
  // ---------------------------------------------------------------------------

  /** The error a slot throws, given the keys registered when it is replayed. */
  function SlotError(keys: set<string>, songs: seq<SongEntry>, id: int, flags: Option<seq<bool>>): Option<MergeError> {
    if !(0 <= id < |songs|) then Some(SongIndexOutOfRange)
    else if EntryKey(songs[id]) !in keys then Some(UnregisteredSong)
    else if flags.None? then Some(MissingCorrectFlags)
    else None
  }

  /** The first error of a round from slot `from` on. */
  function RoundError(keys: set<string>, songs: seq<SongEntry>, round: RoundLog, from: nat): Option<MergeError>
    decreases |round.songIDs| - from
  {
    if from >= |round.songIDs| then None
    else match round.songIDs[from]
      case None => RoundError(keys, songs, round, from + 1)
      case Some(id) =>
        if SlotError(keys, songs, id, FlagsAt(round, from)).Some? then SlotError(keys, songs, id, FlagsAt(round, from))
        else RoundError(keys, songs, round, from + 1)
  }

  /** The first error of a round log from round `from` on. */
  function SessionError(keys: set<string>, songs: seq<SongEntry>, rounds: seq<Option<RoundLog>>, from: nat): Option<MergeError>
    decreases |rounds| - from
  {
    if from >= |rounds| then None
    else match rounds[from]
      case None => SessionError(keys, songs, rounds, from + 1)
      case Some(round) =>
        if RoundError(keys, songs, round, 0).Some? then RoundError(keys, songs, round, 0)
        else SessionError(keys, songs, rounds, from + 1)
  }

  lemma ApplySlotError(l: Ledger, songs: seq<SongEntry>, id: int,
                       flags: Option<seq<bool>>, guesses: Option<seq<string>>)
    ensures ApplySlot(l, songs, id, flags, guesses).failure == SlotError(l.data.Keys, songs, id, flags)
    ensures ApplySlot(l, songs, id, flags, guesses).ledger.data.Keys == l.data.Keys
  {
    ApplySlotOutcome(l, songs, id, flags, guesses);
    if 0 <= id < |songs| && EntryKey(songs[id]) in l.data && flags.None? {
      ApplySlotMissingFlags(l, songs, id, guesses);
    }
  }

  /** Replaying a round throws exactly the error its first failing slot
      gives for the keys registered before it, and registers nothing. */
  lemma {:induction false} ApplySlotsError(l: Ledger, songs: seq<SongEntry>, round: RoundLog, from: nat)
    ensures ApplySlots(l, songs, round, from).failure == RoundError(l.data.Keys, songs, round, from)
    ensures ApplySlots(l, songs, round, from).ledger.data.Keys == l.data.Keys
    decreases |round.songIDs| - from
  {
    if from < |round.songIDs| {
      match round.songIDs[from]
      case None => ApplySlotsError(l, songs, round, from + 1);
      case Some(id) =>
        var step := ApplySlot(l, songs, id, FlagsAt(round, from), GuessesAt(round, from));
        ApplySlotError(l, songs, id, FlagsAt(round, from), GuessesAt(round, from));
        if step.failure.None? {
          ApplySlotsError(step.ledger, songs, round, from + 1);
        }
    }
  }

  /** Replaying a round log throws exactly the error its first failing round
      gives for the keys registered before the replay. */
  lemma {:induction false} ApplyRoundsError(l: Ledger, songs: seq<SongEntry>,
                                            rounds: seq<Option<RoundLog>>, from: nat)
    ensures ApplyRounds(l, songs, rounds, from).failure == SessionError(l.data.Keys, songs, rounds, from)
    ensures ApplyRounds(l, songs, rounds, from).ledger.data.Keys == l.data.Keys
    decreases |rounds| - from
  {
    if from < |rounds| {
      match rounds[from]
      case None => ApplyRoundsError(l, songs, rounds, from + 1);
      case Some(round) =>
        var step := ApplySlots(l, songs, round, 0);
        ApplySlotsError(l, songs, round, 0);
        if step.failure.None? {
          ApplyRoundsError(step.ledger, songs, rounds, from + 1);
        }
    }
  }

  // ---------------------------------------------------------------------------
  // Name sets only grow; a slot whose names are known changes none of them
  // ---------------------------------------------------------------------------

  /** What a record knows of its anime's names, up to case. */
  function KnownNames(r: SongRecord): set<string> {
    {Lower(r.animeName)} + LowerSet(r.alternativeNames)
  }

  /** `l2` has the keys of `l1` and knows, up to case, every name `l1` knows. */
  predicate Grows(l1: Ledger, l2: Ledger) {
    && l1.data.Keys == l2.data.Keys
    && l1.animeNames <= l2.animeNames
    && forall k :: k in l1.data ==>
         && l2.data[k].animeName == l1.data[k].animeName
         && KnownNames(l1.data[k]) <= KnownNames(l2.data[k])
         && LowerSet(l1.data[k].wrongGuesses) <= LowerSet(l2.data[k].wrongGuesses)
  }

  /** `l1` and `l2` hold the same keys and the same name sets. */
  predicate SameNames(l1: Ledger, l2: Ledger) {
    && l1.data.Keys == l2.data.Keys
    && l1.animeNames == l2.animeNames
    && forall k :: k in l1.data ==>
         && l2.data[k].animeName == l1.data[k].animeName
         && l2.data[k].alternativeNames == l1.data[k].alternativeNames
         && l2.data[k].wrongGuesses == l1.data[k].wrongGuesses
  }

  lemma GrowsTrans(l1: Ledger, l2: Ledger, l3: Ledger)
    requires Grows(l1, l2) && Grows(l2, l3)
    ensures Grows(l1, l3)
  {
  }

  lemma SameNamesTrans(l1: Ledger, l2: Ledger, l3: Ledger)
    requires SameNames(l1, l2) && SameNames(l2, l3)
    ensures SameNames(l1, l3)
  {
  }

  lemma SameNamesGrows(l1: Ledger, l2: Ledger)
    requires SameNames(l1, l2)
    ensures Grows(l1, l2)
  {
  }

  /** `l` already holds every name the slot would record: the anime's name
      and its correctly answered names in `anime_names`, the correct names
      among the record's known names and the acceptable wrong guesses among
      its wrong guesses. A slot that throws before any name is recorded is
      absorbed by every ledger. */
  predicate Absorbs(l: Ledger, songs: seq<SongEntry>, id: int,
                    flags: Option<seq<bool>>, guesses: Option<seq<string>>)
  {
    SlotError(l.data.Keys, songs, id, flags).Some? ||
    var e := songs[id];
    var r := l.data[EntryKey(e)];
    && Lower(e.animeName) in l.animeNames
    && (guesses.Some? ==>
          var right := LowerSeq(PairedGuesses(guesses.value, flags.value, true));
          && right <= l.animeNames
          && right <= {Lower(e.animeName)} + LowerSet(r.alternativeNames)
          && LowerAccepted(PairedGuesses(guesses.value, flags.value, false)) <= LowerSet(r.wrongGuesses))
  }

  /** A slot whose names are already held changes no name set (lines
      167-216 only add names, and rebuild a set only when it grew). */
  lemma AbsorbedSlotKeepsNames(l: Ledger, songs: seq<SongEntry>, id: int,
                               flags: Option<seq<bool>>, guesses: Option<seq<string>>)
    requires Absorbs(l, songs, id, flags, guesses)
    ensures SameNames(l, ApplySlot(l, songs, id, flags, guesses).ledger)
  {
    ApplySlotOutcome(l, songs, id, flags, guesses);
    if 0 <= id < |songs| && EntryKey(songs[id]) in l.data {
      var e := songs[id];
      var key := EntryKey(e);
      var r := l.data[key];
      if flags.None? {
        ApplySlotMissingFlags(l, songs, id, guesses);
      } else {
        ApplySlotGlobals(l, songs, id, flags.value, guesses);
        ApplySlotRecord(l, songs, id, flags.value, guesses);
        if guesses.Some? {
          AlternativesAfterSpec(r.alternativeNames, e.animeName, PairedGuesses(guesses.value, flags.value, true));
          WrongGuessesAfterSpec(r.wrongGuesses, PairedGuesses(guesses.value, flags.value, false));
        }
      }
    }
  }

  /** A slot never forgets a name. */
  lemma ApplySlotGrows(l: Ledger, songs: seq<SongEntry>, id: int,
                       flags: Option<seq<bool>>, guesses: Option<seq<string>>)
    requires Inv(l)
    ensures Grows(l, ApplySlot(l, songs, id, flags, guesses).ledger)
  {
    ApplySlotOutcome(l, songs, id, flags, guesses);
    if 0 <= id < |songs| && EntryKey(songs[id]) in l.data {
      var e := songs[id];
      var key := EntryKey(e);
      var r := l.data[key];
      if flags.None? {
        ApplySlotMissingFlags(l, songs, id, guesses);
      } else {
        CanonicalName(l, e);
        ApplySlotGlobals(l, songs, id, flags.value, guesses);
        ApplySlotRecord(l, songs, id, flags.value, guesses);
        if guesses.Some? {
          AlternativesAfterSpec(r.alternativeNames, e.animeName, PairedGuesses(guesses.value, flags.value, true));
          WrongGuessesAfterSpec(r.wrongGuesses, PairedGuesses(guesses.value, flags.value, false));
        }
      }
    }
  }

  /** After a slot is replayed, the ledger holds every name of that slot. */
  lemma ApplySlotAbsorbs(l: Ledger, songs: seq<SongEntry>, id: int,
                         flags: Option<seq<bool>>, guesses: Option<seq<string>>)
    ensures Absorbs(ApplySlot(l, songs, id, flags, guesses).ledger, songs, id, flags, guesses)
  {
    ApplySlotError(l, songs, id, flags, guesses);
    if SlotError(l.data.Keys, songs, id, flags).None? {
      var e := songs[id];
      var r := l.data[EntryKey(e)];
      ApplySlotGlobals(l, songs, id, flags.value, guesses);
      ApplySlotRecord(l, songs, id, flags.value, guesses);
      if guesses.Some? {
        AlternativesAfterSpec(r.alternativeNames, e.animeName, PairedGuesses(guesses.value, flags.value, true));
        WrongGuessesAfterSpec(r.wrongGuesses, PairedGuesses(guesses.value, flags.value, false));
      }
    }
  }

  /** Knowing more names keeps a slot absorbed. */
  lemma AbsorbsGrows(l1: Ledger, l2: Ledger, songs: seq<SongEntry>, id: int,
                     flags: Option<seq<bool>>, guesses: Option<seq<string>>)
    requires Inv(l1) && Grows(l1, l2) && Absorbs(l1, songs, id, flags, guesses)
    ensures Absorbs(l2, songs, id, flags, guesses)
  {
    if SlotError(l1.data.Keys, songs, id, flags).None? {
      var e := songs[id];
      CanonicalName(l1, e);
      assert KnownNames(l1.data[EntryKey(e)]) <= KnownNames(l2.data[EntryKey(e)]);
    }
  }

  // ---------------------------------------------------------------------------
  // The same, slot by slot through a round and round by round
  // ---------------------------------------------------------------------------

  /** `l` absorbs every slot of the round from `from` up to the first that throws. */
  predicate AbsorbsSlots(l: Ledger, songs: seq<SongEntry>, round: RoundLog, from: nat)
    decreases |round.songIDs| - from
  {
    from >= |round.songIDs| ||
    match round.songIDs[from]
    case None => AbsorbsSlots(l, songs, round, from + 1)
    case Some(id) =>
      && Absorbs(l, songs, id, FlagsAt(round, from), GuessesAt(round, from))
      && (SlotError(l.data.Keys, songs, id, FlagsAt(round, from)).Some?
          || AbsorbsSlots(l, songs, round, from + 1))
  }

  /** `l` absorbs every slot the replay of the round log from `from` reaches. */
  predicate AbsorbsRounds(l: Ledger, songs: seq<SongEntry>, rounds: seq<Option<RoundLog>>, from: nat)
    decreases |rounds| - from
  {
    from >= |rounds| ||
    match rounds[from]
    case None => AbsorbsRounds(l, songs, rounds, from + 1)
    case Some(round) =>
      && AbsorbsSlots(l, songs, round, 0)
      && (RoundError(l.data.Keys, songs, round, 0).Some? || AbsorbsRounds(l, songs, rounds, from + 1))
  }

  lemma {:induction false} AbsorbsSlotsGrows(l1: Ledger, l2: Ledger, songs: seq<SongEntry>,
                                             round: RoundLog, from: nat)
    requires Inv(l1) && Grows(l1, l2) && AbsorbsSlots(l1, songs, round, from)
    ensures AbsorbsSlots(l2, songs, round, from)
    decreases |round.songIDs| - from
  {
    if from < |round.songIDs| {
      match round.songIDs[from]
      case None => AbsorbsSlotsGrows(l1, l2, songs, round, from + 1);
      case Some(id) =>
        AbsorbsGrows(l1, l2, songs, id, FlagsAt(round, from), GuessesAt(round, from));
        if SlotError(l1.data.Keys, songs, id, FlagsAt(round, from)).None? {
          AbsorbsSlotsGrows(l1, l2, songs, round, from + 1);
        }
    }
  }

  lemma {:induction false} AbsorbsRoundsGrows(l1: Ledger, l2: Ledger, songs: seq<SongEntry>,
                                              rounds: seq<Option<RoundLog>>, from: nat)
    requires Inv(l1) && Grows(l1, l2) && AbsorbsRounds(l1, songs, rounds, from)
    ensures AbsorbsRounds(l2, songs, rounds, from)
    decreases |rounds| - from
  {
    if from < |rounds| {
      match rounds[from]
      case None => AbsorbsRoundsGrows(l1, l2, songs, rounds, from + 1);
      case Some(round) =>
        AbsorbsSlotsGrows(l1, l2, songs, round, 0);
        if RoundError(l1.data.Keys, songs, round, 0).None? {
          AbsorbsRoundsGrows(l1, l2, songs, rounds, from + 1);
        }
    }
  }

  /** Replaying a round only adds names, and afterwards the ledger absorbs it. */
  lemma {:induction false} ApplySlotsAbsorbs(l: Ledger, songs: seq<SongEntry>, round: RoundLog, from: nat)
    requires Inv(l)
    ensures Grows(l, ApplySlots(l, songs, round, from).ledger)
    ensures AbsorbsSlots(ApplySlots(l, songs, round, from).ledger, songs, round, from)
    decreases |round.songIDs| - from
  {
    if from < |round.songIDs| {
      match round.songIDs[from]
      case None => ApplySlotsAbsorbs(l, songs, round, from + 1);
      case Some(id) =>
        var flags, guesses := FlagsAt(round, from), GuessesAt(round, from);
        var step := ApplySlot(l, songs, id, flags, guesses);
        ApplySlotGrows(l, songs, id, flags, guesses);
        ApplySlotAbsorbs(l, songs, id, flags, guesses);
        ApplySlotError(l, songs, id, flags, guesses);
        if step.failure.None? {
          ApplySlotKeepsInv(l, songs, id, flags, guesses);
          var out := ApplySlots(step.ledger, songs, round, from + 1);
          ApplySlotsAbsorbs(step.ledger, songs, round, from + 1);
          AbsorbsGrows(step.ledger, out.ledger, songs, id, flags, guesses);
          GrowsTrans(l, step.ledger, out.ledger);
        }
    }
  }

  /** Replaying a round log only adds names, and afterwards the ledger
      absorbs every slot the replay reached. */
  lemma {:induction false} ApplyRoundsAbsorbs(l: Ledger, songs: seq<SongEntry>,
                                              rounds: seq<Option<RoundLog>>, from: nat)
    requires Inv(l)
    ensures Grows(l, ApplyRounds(l, songs, rounds, from).ledger)
    ensures AbsorbsRounds(ApplyRounds(l, songs, rounds, from).ledger, songs, rounds, from)
    decreases |rounds| - from
  {
    if from < |rounds| {
      match rounds[from]
      case None => ApplyRoundsAbsorbs(l, songs, rounds, from + 1);
      case Some(round) =>
        var step := ApplySlots(l, songs, round, 0);
        ApplySlotsAbsorbs(l, songs, round, 0);
        ApplySlotsError(l, songs, round, 0);
        ApplySlotsError(step.ledger, songs, round, 0);
        if step.failure.None? {
          ApplySlotsKeepsInv(l, songs, round, 0);
          var out := ApplyRounds(step.ledger, songs, rounds, from + 1);
          ApplyRoundsAbsorbs(step.ledger, songs, rounds, from + 1);
          AbsorbsSlotsGrows(step.ledger, out.ledger, songs, round, 0);
          GrowsTrans(l, step.ledger, out.ledger);
        }
    }
  }

  /** Replaying a round the ledger absorbs changes no name set. */
  lemma {:induction false} AbsorbedSlotsKeepNames(l: Ledger, songs: seq<SongEntry>, round: RoundLog, from: nat)
    requires Inv(l) && AbsorbsSlots(l, songs, round, from)
    ensures SameNames(l, ApplySlots(l, songs, round, from).ledger)
    decreases |round.songIDs| - from
  {
    if from < |round.songIDs| {
      match round.songIDs[from]
      case None => AbsorbedSlotsKeepNames(l, songs, round, from + 1);
      case Some(id) =>
        var flags, guesses := FlagsAt(round, from), GuessesAt(round, from);
        var step := ApplySlot(l, songs, id, flags, guesses);
        AbsorbedSlotKeepsNames(l, songs, id, flags, guesses);
        ApplySlotError(l, songs, id, flags, guesses);
        if step.failure.None? {
          ApplySlotKeepsInv(l, songs, id, flags, guesses);
          SameNamesGrows(l, step.ledger);
          AbsorbsSlotsGrows(l, step.ledger, songs, round, from + 1);
          AbsorbedSlotsKeepNames(step.ledger, songs, round, from + 1);
          SameNamesTrans(l, step.ledger, ApplySlots(step.ledger, songs, round, from + 1).ledger);
        }
    }
  }

  /** Replaying a round log the ledger absorbs changes no name set. */
  lemma {:induction false} AbsorbedRoundsKeepNames(l: Ledger, songs: seq<SongEntry>,
                                                   rounds: seq<Option<RoundLog>>, from: nat)
    requires Inv(l) && AbsorbsRounds(l, songs, rounds, from)
    ensures SameNames(l, ApplyRounds(l, songs, rounds, from).ledger)
    decreases |rounds| - from
  {
    if from < |rounds| {
      match rounds[from]
      case None => AbsorbedRoundsKeepNames(l, songs, rounds, from + 1);
      case Some(round) =>
        var step := ApplySlots(l, songs, round, 0);
        AbsorbedSlotsKeepNames(l, songs, round, 0);
        ApplySlotsError(l, songs, round, 0);
        if step.failure.None? {
          ApplySlotsKeepsInv(l, songs, round, 0);
          SameNamesGrows(l, step.ledger);
          AbsorbsRoundsGrows(l, step.ledger, songs, rounds, from + 1);
          AbsorbedRoundsKeepNames(step.ledger, songs, rounds, from + 1);
          SameNamesTrans(l, step.ledger, ApplyRounds(step.ledger, songs, rounds, from + 1).ledger);
        }
    }
  }

  // ---------------------------------------------------------------------------
  // Merging the same session twice
  // ---------------------------------------------------------------------------

  /** Registering a catalog whose songs are all registered adds no key and
      changes no name set. */
  lemma ReRegisterKeepsNames(l: Ledger, songs: seq<SongEntry>)
    requires CatalogKeys(songs) <= l.data.Keys
    ensures SameNames(l, l.(data := RegisterAll(l.data, songs)))
  {
  }

  /** Merging a session file into the ledger its own merge produced throws
      the same error (or none) and leaves `anime_names` and every record's
      alternative names and wrong guesses exactly as the first merge left
      them. */
  lemma MergeTwiceKeepsNames(l: Ledger, s: Session)
    requires Inv(l)
    ensures var once := MergeSession(l, s);
      var twice := MergeSession(once.ledger, s);
      && twice.failure == once.failure
      && twice.ledger.data.Keys == once.ledger.data.Keys
      && twice.ledger.animeNames == once.ledger.animeNames
      && forall k :: k in once.ledger.data ==>
           && twice.ledger.data[k].alternativeNames == once.ledger.data[k].alternativeNames
           && twice.ledger.data[k].wrongGuesses == once.ledger.data[k].wrongGuesses
  {
    var start1 := l.(data := RegisterAll(l.data, s.songData));
    RegisterAllKeepsInv(l, s.songData);
    var once := ApplyRounds(start1, s.songData, s.roundData, 0);
    ApplyRoundsAbsorbs(start1, s.songData, s.roundData, 0);
    ApplyRoundsError(start1, s.songData, s.roundData, 0);
    ApplyRoundsKeepsInv(start1, s.songData, s.roundData, 0);
    var start2 := once.ledger.(data := RegisterAll(once.ledger.data, s.songData));
    ReRegisterKeepsNames(once.ledger, s.songData);
    SameNamesGrows(once.ledger, start2);
    AbsorbsRoundsGrows(once.ledger, start2, s.songData, s.roundData, 0);
    RegisterAllKeepsInv(once.ledger, s.songData);
    AbsorbedRoundsKeepNames(start2, s.songData, s.roundData, 0);
    ApplyRoundsError(start2, s.songData, s.roundData, 0);
    var twice := ApplyRounds(start2, s.songData, s.roundData, 0);
    SameNamesTrans(once.ledger, start2, twice.ledger);
  }
  // ---------------------------------------------------------------------------
  // Counters grow by what the round log gives, whatever they started from
  // ---------------------------------------------------------------------------

  /** The counters moved from `a` to `b` by the same amounts as from `c` to `d`. */
  predicate SameIncrements(a: Ledger, b: Ledger, c: Ledger, d: Ledger) {
    && a.data.Keys == b.data.Keys == c.data.Keys == d.data.Keys
    && b.stats.totalSongs - a.stats.totalSongs == d.stats.totalSongs - c.stats.totalSongs
    && b.stats.totalGuesses - a.stats.totalGuesses == d.stats.totalGuesses - c.stats.totalGuesses
    && b.stats.totalCorrect - a.stats.totalCorrect == d.stats.totalCorrect - c.stats.totalCorrect
    && forall k :: k in a.data ==>
         && b.data[k].occurances - a.data[k].occurances == d.data[k].occurances - c.data[k].occurances
         && b.data[k].outOf - a.data[k].outOf == d.data[k].outOf - c.data[k].outOf
         && b.data[k].correct - a.data[k].correct == d.data[k].correct - c.data[k].correct
  }

  lemma SameIncrementsTrans(a: Ledger, b: Ledger, e: Ledger, c: Ledger, d: Ledger, f: Ledger)
    requires SameIncrements(a, b, c, d) && SameIncrements(b, e, d, f)
    ensures SameIncrements(a, e, c, f)
  {
  }

  /** A slot adds the same amounts to two ledgers with the same keys. */
  lemma ApplySlotIncrements(l1: Ledger, l2: Ledger, songs: seq<SongEntry>, id: int,
                            flags: Option<seq<bool>>, guesses: Option<seq<string>>)
    requires l1.data.Keys == l2.data.Keys
    ensures SameIncrements(l1, ApplySlot(l1, songs, id, flags, guesses).ledger,
                           l2, ApplySlot(l2, songs, id, flags, guesses).ledger)
  {
    ApplySlotOutcome(l1, songs, id, flags, guesses);
    ApplySlotOutcome(l2, songs, id, flags, guesses);
    if 0 <= id < |songs| && EntryKey(songs[id]) in l1.data {
      if flags.None? {
        ApplySlotMissingFlags(l1, songs, id, guesses);
        ApplySlotMissingFlags(l2, songs, id, guesses);
      } else {
        ApplySlotGlobals(l1, songs, id, flags.value, guesses);
        ApplySlotGlobals(l2, songs, id, flags.value, guesses);
        ApplySlotRecord(l1, songs, id, flags.value, guesses);
        ApplySlotRecord(l2, songs, id, flags.value, guesses);
      }
    }
  }

  lemma {:induction false} ApplySlotsIncrements(l1: Ledger, l2: Ledger, songs: seq<SongEntry>,
                                                round: RoundLog, from: nat)
    requires l1.data.Keys == l2.data.Keys
    ensures SameIncrements(l1, ApplySlots(l1, songs, round, from).ledger,
                           l2, ApplySlots(l2, songs, round, from).ledger)
    decreases |round.songIDs| - from
  {
    if from < |round.songIDs| {
      match round.songIDs[from]
      case None => ApplySlotsIncrements(l1, l2, songs, round, from + 1);
      case Some(id) =>
        var flags, guesses := FlagsAt(round, from), GuessesAt(round, from);
        var step1 := ApplySlot(l1, songs, id, flags, guesses);
        var step2 := ApplySlot(l2, songs, id, flags, guesses);
        ApplySlotIncrements(l1, l2, songs, id, flags, guesses);
        ApplySlotError(l1, songs, id, flags, guesses);
        ApplySlotError(l2, songs, id, flags, guesses);
        if step1.failure.None? {
          ApplySlotsIncrements(step1.ledger, step2.ledger, songs, round, from + 1);
          SameIncrementsTrans(l1, step1.ledger, ApplySlots(step1.ledger, songs, round, from + 1).ledger,
                              l2, step2.ledger, ApplySlots(step2.ledger, songs, round, from + 1).ledger);
        }
    }
  }

  lemma {:induction false} ApplyRoundsIncrements(l1: Ledger, l2: Ledger, songs: seq<SongEntry>,
                                                 rounds: seq<Option<RoundLog>>, from: nat)
    requires l1.data.Keys == l2.data.Keys
    ensures SameIncrements(l1, ApplyRounds(l1, songs, rounds, from).ledger,
                           l2, ApplyRounds(l2, songs, rounds, from).ledger)
    decreases |rounds| - from
  {
    if from < |rounds| {
      match rounds[from]
      case None => ApplyRoundsIncrements(l1, l2, songs, rounds, from + 1);
      case Some(round) =>
        var step1 := ApplySlots(l1, songs, round, 0);
        var step2 := ApplySlots(l2, songs, round, 0);
        ApplySlotsIncrements(l1, l2, songs, round, 0);
        ApplySlotsError(l1, songs, round, 0);
        ApplySlotsError(l2, songs, round, 0);
        if step1.failure.None? {
          ApplyRoundsIncrements(step1.ledger, step2.ledger, songs, rounds, from + 1);
          SameIncrementsTrans(l1, step1.ledger, ApplyRounds(step1.ledger, songs, rounds, from + 1).ledger,
                              l2, step2.ledger, ApplyRounds(step2.ledger, songs, rounds, from + 1).ledger);
        }
    }
  }

  /** Merging a session file into the ledger its own merge produced adds to
      every counter exactly what the first merge added: the global counters
      and the counters of every record grow twice by the same amount, so a
      record the session introduced ends with twice the first merge's counts. */
  lemma MergeTwiceCounts(l: Ledger, s: Session)
    ensures var once := MergeSession(l, s).ledger;
      var twice := MergeSession(once, s).ledger;
      && twice.stats.totalSongs - once.stats.totalSongs == once.stats.totalSongs - l.stats.totalSongs
      && twice.stats.totalGuesses - once.stats.totalGuesses == once.stats.totalGuesses - l.stats.totalGuesses
      && twice.stats.totalCorrect - once.stats.totalCorrect == once.stats.totalCorrect - l.stats.totalCorrect
      && twice.data.Keys == once.data.Keys
      && forall k :: k in once.data ==>
           && twice.data[k].occurances - once.data[k].occurances
              == once.data[k].occurances - (if k in l.data then l.data[k].occurances else 0)
           && twice.data[k].outOf - once.data[k].outOf
              == once.data[k].outOf - (if k in l.data then l.data[k].outOf else 0)
           && twice.data[k].correct - once.data[k].correct
              == once.data[k].correct - (if k in l.data then l.data[k].correct else 0)
  {
    var start1 := l.(data := RegisterAll(l.data, s.songData));
    RegisterAllLinks(l.data, s.songData);
    var once := ApplyRounds(start1, s.songData, s.roundData, 0);
    ApplyRoundsError(start1, s.songData, s.roundData, 0);
    var start2 := once.ledger.(data := RegisterAll(once.ledger.data, s.songData));
    ApplyRoundsIncrements(start1, start2, s.songData, s.roundData, 0);
  }
}
