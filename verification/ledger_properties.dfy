/** What merging promises, proved about the functions of SongLedger:
    registration and replay keep the invariant, the counters move by the
    amounts the round log gives, null entries are skipped, a merge never
    looks up an unregistered song, and replaying the same guesses again does
    not change the name sets. */
module LedgerProperties {
  import opened Options
  import opened JsText
  import opened SongKey
  import opened SongLedger

  lemma InvEmpty()
    ensures Inv(EmptyLedger)
  {
  }

  // ---------------------------------------------------------------------------
  // Registration
  // ---------------------------------------------------------------------------

  lemma RegisterEntryKeepsInv(l: Ledger, e: SongEntry)
    requires Inv(l)
    ensures Inv(l.(data := RegisterEntry(l.data, e)))
  {
  }

  /** `update_song_data` keeps the invariant and never touches anything but
      `data`. */
  lemma {:induction false} RegisterAllKeepsInv(l: Ledger, entries: seq<SongEntry>)
    requires Inv(l)
    ensures Inv(l.(data := RegisterAll(l.data, entries)))
    decreases |entries|
  {
    if entries != [] {
      RegisterEntryKeepsInv(l, entries[0]);
      RegisterAllKeepsInv(l.(data := RegisterEntry(l.data, entries[0])), entries[1..]);
    }
  }

  // ---------------------------------------------------------------------------
  // One slot
  // ---------------------------------------------------------------------------

  /** The video links the entries of a catalog list under key `k`. */
  function LinksFor(entries: seq<SongEntry>, k: string): set<string> {
    set e | e in entries && EntryKey(e) == k :: e.videoLink
  }

  lemma LinksForCons(entries: seq<SongEntry>, k: string)
    requires entries != []
    ensures LinksFor(entries, k)
      == (if EntryKey(entries[0]) == k then {entries[0].videoLink} else {}) + LinksFor(entries[1..], k)
  {
    assert forall e :: e in entries <==> e == entries[0] || e in entries[1..];
  }

  /** A record that starts from zero, under key `k`, with the given links. */
  predicate FreshRecord(r: SongRecord, k: string, links: set<string>) {
    && RecordKey(r) == k
    && r.videoLinks == links
    && r.alternativeNames == {} && r.wrongGuesses == {}
    && r.occurances == 0 && r.correct == 0 && r.outOf == 0
  }

  /** The links `update_song_data` leaves on each record: a record that
      existed gains exactly the links its catalog entries list, and a record
      the catalog introduces starts from zero with exactly those links. */
  lemma {:induction false} RegisterAllLinks(data: map<string, SongRecord>, entries: seq<SongEntry>)
    ensures var data' := RegisterAll(data, entries);
      && (forall k :: k in data ==> data'[k].videoLinks == data[k].videoLinks + LinksFor(entries, k))
      && (forall k :: k in data' && k !in data ==> FreshRecord(data'[k], k, LinksFor(entries, k)))
    decreases |entries|
  {
    if entries != [] {
      var next := RegisterEntry(data, entries[0]);
      RegisterAllLinks(next, entries[1..]);
      RegisterKept(data, entries, next, RegisterAll(next, entries[1..]));
      RegisterFresh(data, entries, next, RegisterAll(next, entries[1..]));
    }
  }

  lemma RegisterKept(data: map<string, SongRecord>, entries: seq<SongEntry>,
                     next: map<string, SongRecord>, data': map<string, SongRecord>)
    requires entries != [] && next == RegisterEntry(data, entries[0])
    requires next.Keys <= data'.Keys
    requires forall k :: k in next ==> data'[k].videoLinks == next[k].videoLinks + LinksFor(entries[1..], k)
    ensures forall k :: k in data ==> data'[k].videoLinks == data[k].videoLinks + LinksFor(entries, k)
  {
    forall k | k in data
      ensures data'[k].videoLinks == data[k].videoLinks + LinksFor(entries, k)
    {
      KeptLinksAt(data, entries, k);
    }
  }

  lemma KeptLinksAt(data: map<string, SongRecord>, entries: seq<SongEntry>, k: string)
    requires entries != [] && k in data
    ensures RegisterEntry(data, entries[0])[k].videoLinks + LinksFor(entries[1..], k)
      == data[k].videoLinks + LinksFor(entries, k)
  {
    LinksForCons(entries, k);
  }

  lemma RegisterFresh(data: map<string, SongRecord>, entries: seq<SongEntry>,
                      next: map<string, SongRecord>, data': map<string, SongRecord>)
    requires entries != [] && next == RegisterEntry(data, entries[0])
    requires next.Keys <= data'.Keys
    requires forall k :: k in next ==> OnlyLinksGrew(next[k], data'[k])
    requires forall k :: k in next ==> data'[k].videoLinks == next[k].videoLinks + LinksFor(entries[1..], k)
    requires forall k :: k in data' && k !in next ==> FreshRecord(data'[k], k, LinksFor(entries[1..], k))
    ensures forall k :: k in data' && k !in data ==> FreshRecord(data'[k], k, LinksFor(entries, k))
  {
    forall k | k in data' && k !in data
      ensures FreshRecord(data'[k], k, LinksFor(entries, k))
    {
      LinksForCons(entries, k);
      if k == EntryKey(entries[0]) {
        assert OnlyLinksGrew(next[k], data'[k]);
      }
    }
  }

  /** Which slots throw: an id outside the catalog and an unregistered key
      throw before anything changes, missing flags throw after `occurances`
      was bumped. No key is ever added or removed, and no other record is
      touched. */
  lemma ApplySlotOutcome(l: Ledger, songs: seq<SongEntry>, id: int,
                         flags: Option<seq<bool>>, guesses: Option<seq<string>>)
    ensures var out := ApplySlot(l, songs, id, flags, guesses);
      && out.ledger.data.Keys == l.data.Keys
      && (out.failure.None? <==> 0 <= id < |songs| && EntryKey(songs[id]) in l.data && flags.Some?)
      && (!(0 <= id < |songs|) ==> out == Replay(l, Some(SongIndexOutOfRange)))
      && (0 <= id < |songs| && EntryKey(songs[id]) !in l.data ==> out == Replay(l, Some(UnregisteredSong)))
    ensures 0 <= id < |songs| && EntryKey(songs[id]) in l.data ==>
      var out := ApplySlot(l, songs, id, flags, guesses);
      forall k :: k in l.data && k != EntryKey(songs[id]) ==> out.ledger.data[k] == l.data[k]
  {
  }

  /** A slot whose flags are missing throws after `occurances` was bumped
      (line 159 runs before line 160 reads `corrects.length`): that counter
      is one higher, every other field of the record, the global counters
      and the anime names are as they were. */
  lemma ApplySlotMissingFlags(l: Ledger, songs: seq<SongEntry>, id: int, guesses: Option<seq<string>>)
    requires 0 <= id < |songs| && EntryKey(songs[id]) in l.data
    ensures var key := EntryKey(songs[id]);
      var out := ApplySlot(l, songs, id, None, guesses);
      && out.failure == Some(MissingCorrectFlags)
      && out.ledger.stats == l.stats
      && out.ledger.animeNames == l.animeNames
      && key in out.ledger.data
      && out.ledger.data[key].occurances == l.data[key].occurances + 1
      && out.ledger.data[key].(occurances := l.data[key].occurances) == l.data[key]
  {
  }

  /** Only the unfolding of `ApplySlot` on a slot with flags, which
      `ApplySlotGlobals` and `ApplySlotRecord` below start from. */
  lemma ApplySlotUnfold(l: Ledger, songs: seq<SongEntry>, id: int,
                        flags: seq<bool>, guesses: Option<seq<string>>)
    requires 0 <= id < |songs| && EntryKey(songs[id]) in l.data
    ensures var e := songs[id];
      var key := EntryKey(e);
      ApplySlot(l, songs, id, Some(flags), guesses)
        == Replay(Ledger(l.data[key := SlotRecord(l.data[key], e.animeName, flags, guesses)],
                         TallySlot(l.stats, flags),
                         l.animeNames + NamesSeen(e.animeName, guesses, flags)), None)
  {
  }

  /** The global side of a slot that goes through (lines 163-167, 179): one
      more song, every flag a guess, every true flag a correct one, and the
      anime's name plus, when there are guesses, every correctly answered
      name enters `anime_names` folded. */
  lemma ApplySlotGlobals(l: Ledger, songs: seq<SongEntry>, id: int,
                         flags: seq<bool>, guesses: Option<seq<string>>)
    requires 0 <= id < |songs| && EntryKey(songs[id]) in l.data
    ensures var out := ApplySlot(l, songs, id, Some(flags), guesses);
      && out.failure.None?
      && out.ledger.stats.totalSongs == l.stats.totalSongs + 1
      && out.ledger.stats.totalGuesses == l.stats.totalGuesses + |flags|
      && out.ledger.stats.totalCorrect == l.stats.totalCorrect + CountTrue(flags)
      && out.ledger.animeNames
         == l.animeNames + {Lower(songs[id].animeName)}
            + (if guesses.Some? then LowerSeq(PairedGuesses(guesses.value, flags, true)) else {})
  {
    ApplySlotUnfold(l, songs, id, flags, guesses);
  }

  /** The record side of a slot that goes through (lines 159-161, 169-216):
      the counters grow, the name sets become the specified updates when
      there are guesses and stay otherwise, and every other field is kept. */
  lemma ApplySlotRecord(l: Ledger, songs: seq<SongEntry>, id: int,
                        flags: seq<bool>, guesses: Option<seq<string>>)
    requires 0 <= id < |songs| && EntryKey(songs[id]) in l.data
    ensures var e := songs[id];
      var key := EntryKey(e);
      var r := l.data[key];
      var out := ApplySlot(l, songs, id, Some(flags), guesses).ledger;
      && key in out.data
      && out.data[key].occurances == r.occurances + 1
      && out.data[key].outOf == r.outOf + |flags|
      && out.data[key].correct == r.correct + CountTrue(flags)
      && (guesses.None? ==>
            out.data[key].alternativeNames == r.alternativeNames
            && out.data[key].wrongGuesses == r.wrongGuesses)
      && (guesses.Some? ==>
            out.data[key].alternativeNames
              == AlternativesAfter(r.alternativeNames, e.animeName, PairedGuesses(guesses.value, flags, true))
            && out.data[key].wrongGuesses
              == WrongGuessesAfter(r.wrongGuesses, PairedGuesses(guesses.value, flags, false)))
      && out.data[key].(alternativeNames := r.alternativeNames, wrongGuesses := r.wrongGuesses,
                        occurances := r.occurances, outOf := r.outOf, correct := r.correct) == r
  {
    var e := songs[id];
    var key := EntryKey(e);
    ApplySlotUnfold(l, songs, id, flags, guesses);
    SlotRecordChanges(l.data[key], e.animeName, flags, guesses);
  }

  /** What a slot does to the record, field by field. */
  lemma SlotRecordChanges(r: SongRecord, canonical: string, flags: seq<bool>, guesses: Option<seq<string>>)
    ensures var r' := SlotRecord(r, canonical, flags, guesses);
      && r'.occurances == r.occurances + 1
      && r'.outOf == r.outOf + |flags|
      && r'.correct == r.correct + CountTrue(flags)
      && (guesses.None? ==> r'.alternativeNames == r.alternativeNames && r'.wrongGuesses == r.wrongGuesses)
      && (guesses.Some? ==>
            r'.alternativeNames == AlternativesAfter(r.alternativeNames, canonical, PairedGuesses(guesses.value, flags, true))
            && r'.wrongGuesses == WrongGuessesAfter(r.wrongGuesses, PairedGuesses(guesses.value, flags, false)))
      && r'.(alternativeNames := r.alternativeNames, wrongGuesses := r.wrongGuesses,
             occurances := r.occurances, outOf := r.outOf, correct := r.correct) == r
  {
    var counted := CountSlot(r.(occurances := r.occurances + 1), flags);
    if guesses.Some? {
      var r' := NameSlot(counted, canonical, guesses.value, flags);
      assert r'.(alternativeNames := counted.alternativeNames, wrongGuesses := counted.wrongGuesses) == counted;
    }
  }

  /** The record under the key of a catalog entry has that entry's anime
      name: keys are injective. */
  lemma CanonicalName(l: Ledger, e: SongEntry)
    requires Inv(l) && EntryKey(e) in l.data
    ensures l.data[EntryKey(e)].animeName == e.animeName
  {
    var r := l.data[EntryKey(e)];
    KeyInjective(e.animeName, e.animeType, e.songName, e.artistName,
                 r.animeName, r.animeType, r.songName, r.artistName);
  }

  /** The name-set update keeps the record invariant, given that the
      canonical name it is handed is the record's own. */
  lemma NameSlotKeepsInv(key: string, r: SongRecord, guesses: seq<string>, flags: seq<bool>)
    requires RecordInv(key, r)
    ensures RecordInv(key, NameSlot(r, r.animeName, guesses, flags))
  {
    AlternativesAfterSpec(r.alternativeNames, r.animeName, PairedGuesses(guesses, flags, true));
    WrongGuessesAfterSpec(r.wrongGuesses, PairedGuesses(guesses, flags, false));
  }

  /** Replacing one record by one that satisfies the record invariant keeps
      the ledger invariant. */
  lemma UpdateKeepsInv(l: Ledger, key: string, r: SongRecord, stats: Stats, names: set<string>)
    requires Inv(l) && RecordInv(key, r) && stats.totalCorrect <= stats.totalGuesses
    ensures Inv(Ledger(l.data[key := r], stats, names))
  {
  }

  lemma ApplySlotKeepsInv(l: Ledger, songs: seq<SongEntry>, id: int,
                          flags: Option<seq<bool>>, guesses: Option<seq<string>>)
    requires Inv(l)
    ensures Inv(ApplySlot(l, songs, id, flags, guesses).ledger)
  {
    if 0 <= id < |songs| && EntryKey(songs[id]) in l.data {
      var e := songs[id];
      var key := EntryKey(e);
      var seen := l.data[key].(occurances := l.data[key].occurances + 1);
      assert RecordInv(key, seen);
      match flags
      case None =>
        UpdateKeepsInv(l, key, seen, l.stats, l.animeNames);
      case Some(fs) =>
        CanonicalName(l, e);
        var counted := CountSlot(seen, fs);
        assert RecordInv(key, counted);
        if guesses.Some? {
          NameSlotKeepsInv(key, counted, guesses.value, fs);
        }
        UpdateKeepsInv(l, key, SlotRecord(l.data[key], e.animeName, fs, guesses),
                       TallySlot(l.stats, fs), l.animeNames + NamesSeen(e.animeName, guesses, fs));
    }
  }

  // ---------------------------------------------------------------------------
  // Rounds and sessions
  // ---------------------------------------------------------------------------

  lemma {:induction false} ApplySlotsKeepsInv(l: Ledger, songs: seq<SongEntry>, round: RoundLog, from: nat)
    requires Inv(l)
    ensures Inv(ApplySlots(l, songs, round, from).ledger)
    decreases |round.songIDs| - from
  {
    if from < |round.songIDs| {
      match round.songIDs[from]
      case None => ApplySlotsKeepsInv(l, songs, round, from + 1);
      case Some(id) =>
        var step := ApplySlot(l, songs, id, FlagsAt(round, from), GuessesAt(round, from));
        ApplySlotKeepsInv(l, songs, id, FlagsAt(round, from), GuessesAt(round, from));
        if step.failure.None? {
          ApplySlotsKeepsInv(step.ledger, songs, round, from + 1);
        }
    }
  }

  lemma {:induction false} ApplyRoundsKeepsInv(l: Ledger, songs: seq<SongEntry>,
                                               rounds: seq<Option<RoundLog>>, from: nat)
    requires Inv(l)
    ensures Inv(ApplyRounds(l, songs, rounds, from).ledger)
    decreases |rounds| - from
  {
    if from < |rounds| {
      match rounds[from]
      case None => ApplyRoundsKeepsInv(l, songs, rounds, from + 1);
      case Some(round) =>
        var step := ApplySlots(l, songs, round, 0);
        ApplySlotsKeepsInv(l, songs, round, 0);
        if step.failure.None? {
          ApplyRoundsKeepsInv(step.ledger, songs, rounds, from + 1);
        }
    }
  }

  /** Merging a session, whether it completes or throws part way, leaves a
      ledger that satisfies the invariant. */
  lemma MergeSessionKeepsInv(l: Ledger, s: Session)
    requires Inv(l)
    ensures Inv(MergeSession(l, s).ledger)
  {
    RegisterAllKeepsInv(l, s.songData);
    ApplyRoundsKeepsInv(l.(data := RegisterAll(l.data, s.songData)), s.songData, s.roundData, 0);
  }

  // ---------------------------------------------------------------------------
  // Null entries
  // ---------------------------------------------------------------------------

  /** A round whose song ids are all null changes nothing. */
  lemma {:induction false} NullSlotsSkipped(l: Ledger, songs: seq<SongEntry>, round: RoundLog, from: nat)
    requires forall i :: from <= i < |round.songIDs| ==> round.songIDs[i].None?
    ensures ApplySlots(l, songs, round, from) == Replay(l, None)
    decreases |round.songIDs| - from
  {
    if from < |round.songIDs| {
      NullSlotsSkipped(l, songs, round, from + 1);
    }
  }

  /** `s` without its element at `j`, when it has one. */
  function DropAt<T>(s: seq<T>, j: nat): (r: seq<T>)
    ensures j < |s| ==> |r| == |s| - 1
    ensures j >= |s| ==> r == s
  {
    if j < |s| then s[..j] + s[j + 1..] else s
  }

  /** The round without its slot `j`: the song id, the flags and the
      guesses at that position are removed together. */
  function DropSlot(round: RoundLog, j: nat): RoundLog {
    RoundLog(DropAt(round.songIDs, j), DropAt(round.correctGuesses, j),
             match round.guesses
             case None => None
             case Some(gs) => Some(DropAt(gs, j)))
  }

  lemma DropSlotBefore(round: RoundLog, j: nat, i: nat)
    requires i < j < |round.songIDs|
    ensures DropSlot(round, j).songIDs[i] == round.songIDs[i]
    ensures FlagsAt(DropSlot(round, j), i) == FlagsAt(round, i)
    ensures GuessesAt(DropSlot(round, j), i) == GuessesAt(round, i)
  {
  }

  lemma DropSlotAfter(round: RoundLog, j: nat, i: nat)
    requires j <= i && i + 1 < |round.songIDs|
    ensures DropSlot(round, j).songIDs[i] == round.songIDs[i + 1]
    ensures FlagsAt(DropSlot(round, j), i) == FlagsAt(round, i + 1)
    ensures GuessesAt(DropSlot(round, j), i) == GuessesAt(round, i + 1)
  {
  }

  /** A slot whose song id is null changes nothing: the round replays the
      same with that slot removed (line 149). */
  lemma {:induction false} NullSlotSkipped(l: Ledger, songs: seq<SongEntry>, round: RoundLog, j: nat)
    requires j < |round.songIDs| && round.songIDs[j].None?
    ensures ApplySlots(l, songs, round, 0) == ApplySlots(l, songs, DropSlot(round, j), 0)
  {
    NullSlotSkippedFrom(l, songs, round, j, 0);
  }

  lemma {:induction false} NullSlotSkippedFrom(l: Ledger, songs: seq<SongEntry>, round: RoundLog,
                                               j: nat, from: nat)
    requires from <= j < |round.songIDs| && round.songIDs[j].None?
    ensures ApplySlots(l, songs, round, from) == ApplySlots(l, songs, DropSlot(round, j), from)
    decreases j - from
  {
    if from == j {
      DroppedSlotTail(l, songs, round, j, j + 1);
    } else {
      DropSlotBefore(round, j, from);
      match round.songIDs[from]
      case None => NullSlotSkippedFrom(l, songs, round, j, from + 1);
      case Some(id) =>
        var step := ApplySlot(l, songs, id, FlagsAt(round, from), GuessesAt(round, from));
        if step.failure.None? {
          NullSlotSkippedFrom(step.ledger, songs, round, j, from + 1);
        }
    }
  }

  /** Past the dropped slot, both rounds have the same slots, shifted by one. */
  lemma {:induction false} DroppedSlotTail(l: Ledger, songs: seq<SongEntry>, round: RoundLog,
                                           j: nat, from: nat)
    requires j < from <= |round.songIDs|
    ensures ApplySlots(l, songs, round, from) == ApplySlots(l, songs, DropSlot(round, j), from - 1)
    decreases |round.songIDs| - from
  {
    if from < |round.songIDs| {
      DropSlotAfter(round, j, from - 1);
      match round.songIDs[from]
      case None => DroppedSlotTail(l, songs, round, j, from + 1);
      case Some(id) =>
        var step := ApplySlot(l, songs, id, FlagsAt(round, from), GuessesAt(round, from));
        if step.failure.None? {
          DroppedSlotTail(step.ledger, songs, round, j, from + 1);
        }
    }
  }

  /** Null rounds change nothing: the result is the same with them dropped. */
  lemma {:induction false} NullRoundSkipped(l: Ledger, songs: seq<SongEntry>,
                                            rounds: seq<Option<RoundLog>>, i: nat)
    requires i < |rounds| && rounds[i].None?
    ensures ApplyRounds(l, songs, rounds, 0)
         == ApplyRounds(l, songs, rounds[..i] + rounds[i + 1..], 0)
  {
    NullRoundSkippedFrom(l, songs, rounds, i, 0);
  }

  lemma {:induction false} NullRoundSkippedFrom(l: Ledger, songs: seq<SongEntry>,
                                                rounds: seq<Option<RoundLog>>, i: nat, from: nat)
    requires from <= i < |rounds| && rounds[i].None?
    ensures ApplyRounds(l, songs, rounds, from)
         == ApplyRounds(l, songs, rounds[..i] + rounds[i + 1..], from)
    decreases i - from
  {
    var dropped := rounds[..i] + rounds[i + 1..];
    if from == i {
      DroppedTail(l, songs, rounds, i, i + 1);
    } else {
      assert dropped[from] == rounds[from];
      match rounds[from]
      case None => NullRoundSkippedFrom(l, songs, rounds, i, from + 1);
      case Some(round) =>
        var step := ApplySlots(l, songs, round, 0);
        if step.failure.None? {
          NullRoundSkippedFrom(step.ledger, songs, rounds, i, from + 1);
        }
    }
  }

  /** Past the dropped round, both lists have the same rounds, shifted by one. */
  lemma {:induction false} DroppedTail(l: Ledger, songs: seq<SongEntry>,
                                       rounds: seq<Option<RoundLog>>, i: nat, from: nat)
    requires i < from <= |rounds|
    ensures ApplyRounds(l, songs, rounds, from)
         == ApplyRounds(l, songs, rounds[..i] + rounds[i + 1..], from - 1)
    decreases |rounds| - from
  {
    var dropped := rounds[..i] + rounds[i + 1..];
    if from < |rounds| {
      assert dropped[from - 1] == rounds[from];
      match rounds[from]
      case None => DroppedTail(l, songs, rounds, i, from + 1);
      case Some(round) =>
        var step := ApplySlots(l, songs, round, 0);
        if step.failure.None? {
          DroppedTail(step.ledger, songs, rounds, i, from + 1);
        }
    }
  }

  // ---------------------------------------------------------------------------
  // Lookups never miss inside a merge
  // ---------------------------------------------------------------------------

  lemma {:induction false} ApplySlotsRegistered(l: Ledger, songs: seq<SongEntry>, round: RoundLog, from: nat)
    requires CatalogKeys(songs) <= l.data.Keys
    ensures ApplySlots(l, songs, round, from).ledger.data.Keys == l.data.Keys
    ensures ApplySlots(l, songs, round, from).failure != Some(UnregisteredSong)
    decreases |round.songIDs| - from
  {
    if from < |round.songIDs| {
      match round.songIDs[from]
      case None => ApplySlotsRegistered(l, songs, round, from + 1);
      case Some(id) =>
        var step := ApplySlot(l, songs, id, FlagsAt(round, from), GuessesAt(round, from));
        ApplySlotOutcome(l, songs, id, FlagsAt(round, from), GuessesAt(round, from));
        if 0 <= id < |songs| {
          assert songs[id] in songs;
        }
        if step.failure.None? {
          ApplySlotsRegistered(step.ledger, songs, round, from + 1);
        }
    }
  }

  lemma {:induction false} ApplyRoundsRegistered(l: Ledger, songs: seq<SongEntry>,
                                                 rounds: seq<Option<RoundLog>>, from: nat)
    requires CatalogKeys(songs) <= l.data.Keys
    ensures ApplyRounds(l, songs, rounds, from).failure != Some(UnregisteredSong)
    decreases |rounds| - from
  {
    if from < |rounds| {
      match rounds[from]
      case None => ApplyRoundsRegistered(l, songs, rounds, from + 1);
      case Some(round) =>
        var step := ApplySlots(l, songs, round, 0);
        ApplySlotsRegistered(l, songs, round, 0);
        if step.failure.None? {
          ApplyRoundsRegistered(step.ledger, songs, rounds, from + 1);
        }
    }
  }

  /** `merge_in_json` registers the catalog before replaying, so the
      `data.get(key)` of a replayed slot never comes back undefined. */
  lemma MergeNeverUnregistered(l: Ledger, s: Session)
    ensures MergeSession(l, s).failure != Some(UnregisteredSong)
  {
    ApplyRoundsRegistered(l.(data := RegisterAll(l.data, s.songData)), s.songData, s.roundData, 0);
  }

  // ---------------------------------------------------------------------------
  // Re-merge idempotence of the name sets
  // ---------------------------------------------------------------------------

  /** Feeding the same correct guesses twice changes the alternative names
      only the first time. */
  lemma AlternativesIdempotent(alts: set<string>, canonical: string, names: seq<string>)
    ensures var once := AlternativesAfter(alts, canonical, names);
      AlternativesAfter(once, canonical, names) == once
  {
    AlternativesAfterSpec(alts, canonical, names);
    AlternativesAfterSpec(AlternativesAfter(alts, canonical, names), canonical, names);
  }

  /** Feeding the same wrong guesses twice changes the wrong-guess set only
      the first time. */
  lemma WrongGuessesIdempotent(wrongs: set<string>, names: seq<string>)
    ensures var once := WrongGuessesAfter(wrongs, names);
      WrongGuessesAfter(once, names) == once
  {
    WrongGuessesAfterSpec(wrongs, names);
    WrongGuessesAfterSpec(WrongGuessesAfter(wrongs, names), names);
  }

  /** Replaying the same slot a second time bumps the counters again but
      leaves the record's name sets and the anime-name index as they were. */
  lemma ApplySlotTwice(l: Ledger, songs: seq<SongEntry>, id: int, flags: seq<bool>, guesses: seq<string>)
    requires ApplySlot(l, songs, id, Some(flags), Some(guesses)).failure.None?
    ensures var once := ApplySlot(l, songs, id, Some(flags), Some(guesses)).ledger;
      var twice := ApplySlot(once, songs, id, Some(flags), Some(guesses));
      var key := EntryKey(songs[id]);
      && twice.failure.None?
      && twice.ledger.data[key].alternativeNames == once.data[key].alternativeNames
      && twice.ledger.data[key].wrongGuesses == once.data[key].wrongGuesses
      && twice.ledger.animeNames == once.animeNames
      && twice.ledger.data[key].occurances == once.data[key].occurances + 1
      && twice.ledger.data[key].outOf == once.data[key].outOf + |flags|
  {
    var key := EntryKey(songs[id]);
    AlternativesIdempotent(l.data[key].alternativeNames, songs[id].animeName, PairedGuesses(guesses, flags, true));
    WrongGuessesIdempotent(l.data[key].wrongGuesses, PairedGuesses(guesses, flags, false));
  }
}
