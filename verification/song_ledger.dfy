/** The song table of the viewer and what merging a session does to it, as
    values: `data`, `stats` and `anime_names` together form a `Ledger`, and
    `update_song_entry`, one slot of `update_round_data`, a whole round log
    and `merge_in_json` are functions from a ledger to the next. The class in
    viewer.dfy runs the same steps in place and is proved to agree. */
module SongLedger {
  import opened Options
  import opened JsText
  import opened SongKey

  // ---------------------------------------------------------------------------
  // Data model
  // ---------------------------------------------------------------------------

  /** One element of a session's `songData` catalog. */
  datatype SongEntry = SongEntry(animeName: string, animeType: string, songName: string,
                                 artistName: string, videoLink: string)

  /** The value stored in `data` for one song. */
  datatype SongRecord = SongRecord(
    animeName: string,
    alternativeNames: set<string>,
    wrongGuesses: set<string>,
    animeType: string,
    songName: string,
    artistName: string,
    videoLinks: set<string>,
    occurances: nat,
    correct: nat,
    outOf: nat)

  /** The global `stats` object. */
  datatype Stats = Stats(totalSongs: nat, totalGuesses: nat, totalCorrect: nat)

  /** The three globals the merge updates: `data`, `stats`, `anime_names`. */
  datatype Ledger = Ledger(data: map<string, SongRecord>, stats: Stats, animeNames: set<string>)

  const EmptyLedger := Ledger(map[], Stats(0, 0, 0), {})

  /** One element of `roundData`. Slots are positions in `songIDs`; `null`
      entries are `None`, and so is a position past the end of
      `correctGuesses` or `guesses` (reading it gives `undefined`). */
  datatype RoundLog = RoundLog(songIDs: seq<Option<int>>,
                               correctGuesses: seq<Option<seq<bool>>>,
                               guesses: Option<seq<Option<seq<string>>>>)

  /** A parsed session file. */
  datatype Session = Session(songData: seq<SongEntry>, roundData: seq<Option<RoundLog>>)

  /** The three ways replaying a round log throws a TypeError. */
  datatype MergeError =
    | SongIndexOutOfRange   // song_list[songID] is undefined
    | UnregisteredSong      // data.get(key) is undefined
    | MissingCorrectFlags   // correctGuesses[songNum] is null or undefined

  /** The state reached, and the error that stopped the replay if any. A
      thrown error does not undo the updates made before it. */
  datatype Replay = Replay(ledger: Ledger, failure: Option<MergeError>)

  function EntryKey(e: SongEntry): string {
    EncodeKey(e.animeName, e.animeType, e.songName, e.artistName)
  }

  function RecordKey(r: SongRecord): string {
    EncodeKey(r.animeName, r.animeType, r.songName, r.artistName)
  }

  // ---------------------------------------------------------------------------
  // Registration: update_song_entry, update_song_data
  // ---------------------------------------------------------------------------

  /** `r'` is `r` with possibly more video links and nothing else changed. */
  predicate OnlyLinksGrew(r: SongRecord, r': SongRecord) {
    r.videoLinks <= r'.videoLinks && r'.(videoLinks := r.videoLinks) == r
  }

  /** `update_song_entry(e)` applied to `data`. */
  function RegisterEntry(data: map<string, SongRecord>, e: SongEntry): (data': map<string, SongRecord>)
    ensures data'.Keys == data.Keys + {EntryKey(e)}
    ensures forall k :: k in data && k != EntryKey(e) ==> data'[k] == data[k]
    ensures EntryKey(e) in data ==>
      OnlyLinksGrew(data[EntryKey(e)], data'[EntryKey(e)])
      && data'[EntryKey(e)].videoLinks == data[EntryKey(e)].videoLinks + {e.videoLink}
    ensures EntryKey(e) !in data ==>
      var r := data'[EntryKey(e)];
      && RecordKey(r) == EntryKey(e)
      && r.videoLinks == {e.videoLink}
      && r.alternativeNames == {} && r.wrongGuesses == {}
      && r.occurances == 0 && r.correct == 0 && r.outOf == 0
  {
    var key := EntryKey(e);
    if key in data then
      data[key := data[key].(videoLinks := data[key].videoLinks + {e.videoLink})]
    else
      data[key := SongRecord(e.animeName, {}, {}, e.animeType, e.songName, e.artistName,
                             {e.videoLink}, 0, 0, 0)]
  }

  /** The keys of the songs of a catalog. */
  function CatalogKeys(entries: seq<SongEntry>): set<string> {
    set e | e in entries :: EntryKey(e)
  }

  /** `update_song_data(entries)`: registers the entries in order. */
  function RegisterAll(data: map<string, SongRecord>, entries: seq<SongEntry>): (data': map<string, SongRecord>)
    ensures data'.Keys == data.Keys + CatalogKeys(entries)
    ensures forall k :: k in data ==> OnlyLinksGrew(data[k], data'[k])
    decreases |entries|
  {
    if entries == [] then data
    else
      var next := RegisterEntry(data, entries[0]);
      var data' := RegisterAll(next, entries[1..]);
      CatalogKeysCons(entries);
      OnlyLinksGrewTrans(data, next, data');
      data'
  }

  lemma CatalogKeysCons(entries: seq<SongEntry>)
    requires entries != []
    ensures CatalogKeys(entries) == {EntryKey(entries[0])} + CatalogKeys(entries[1..])
  {
    assert forall e :: e in entries <==> e == entries[0] || e in entries[1..];
  }

  lemma OnlyLinksGrewTrans(a: map<string, SongRecord>, b: map<string, SongRecord>, c: map<string, SongRecord>)
    requires a.Keys <= b.Keys <= c.Keys
    requires forall k :: k in a ==> OnlyLinksGrew(a[k], b[k])
    requires forall k :: k in b ==> OnlyLinksGrew(b[k], c[k])
    ensures forall k :: k in a ==> OnlyLinksGrew(a[k], c[k])
  {
  }

  // ---------------------------------------------------------------------------
  // Name sets
  // ---------------------------------------------------------------------------

  /** No two names are equal ignoring case. */
  predicate CaseDistinct(names: set<string>) {
    forall a, b :: a in names && b in names && Lower(a) == Lower(b) ==> a == b
  }

  /** Every name is already in folded form. */
  predicate AllFolded(names: set<string>) {
    forall n :: n in names ==> Lower(n) == n
  }

  function LowerSet(names: set<string>): set<string> {
    set n | n in names :: Lower(n)
  }

  function LowerSeq(names: seq<string>): set<string> {
    set n | n in names :: Lower(n)
  }

  function FormatSet(names: set<string>): set<string> {
    set n | n in names :: FormatAlternateAnswer(n)
  }

  /** Every name is stored the way `format_alternate_answer` writes it. */
  predicate AllFormatted(names: set<string>) {
    forall n :: n in names ==> FormatAlternateAnswer(n) == n
  }

  /** A set built by formatting holds only formatted names. */
  lemma FormatSetFormatted(names: set<string>)
    ensures AllFormatted(FormatSet(names))
  {
    forall a | a in FormatSet(names) ensures FormatAlternateAnswer(a) == a {
      var n :| n in names && a == FormatAlternateAnswer(n);
      FormatIdempotent(n);
    }
  }

  /** The guard on incorrect guesses: not the placeholder, not blank. */
  predicate Acceptable(name: string) {
    name != "..." && !IsBlank(name)
  }

  function LowerAccepted(names: seq<string>): set<string> {
    set n | n in names && Acceptable(n) :: Lower(n)
  }

  /** `corrects[i]` is truthy; a flag past the end is `undefined`. */
  predicate FlagAt(flags: seq<bool>, i: int) {
    0 <= i < |flags| && flags[i]
  }

  /** `guesses.filter((_, i) => corrects[i])` when `want` holds, and the
      filter on `!corrects[i]` otherwise: pairing is by position. */
  function PairedGuesses(guesses: seq<string>, flags: seq<bool>, want: bool): (r: seq<string>)
    ensures forall i :: 0 <= i < |guesses| && FlagAt(flags, i) == want ==> guesses[i] in r
    ensures forall n :: n in r ==> exists i :: 0 <= i < |guesses| && guesses[i] == n && FlagAt(flags, i) == want
  {
    if guesses == [] then []
    else
      var last := |guesses| - 1;
      var front := PairedGuesses(guesses[..last], flags, want);
      assert forall i :: 0 <= i < last ==> guesses[..last][i] == guesses[i];
      front + (if FlagAt(flags, last) == want then [guesses[last]] else [])
  }

  /** The two filters split the guesses between them. */
  lemma {:induction false} PairedGuessesPartition(guesses: seq<string>, flags: seq<bool>)
    ensures multiset(PairedGuesses(guesses, flags, true)) + multiset(PairedGuesses(guesses, flags, false))
         == multiset(guesses)
  {
    if guesses != [] {
      var last := |guesses| - 1;
      var front := guesses[..last];
      PairedGuessesPartition(front, flags);
      var yes := PairedGuesses(guesses, flags, true);
      var no := PairedGuesses(guesses, flags, false);
      SplitLast(guesses);
      if FlagAt(flags, last) {
        assert yes == PairedGuesses(front, flags, true) + [guesses[last]];
        assert no == PairedGuesses(front, flags, false);
      } else {
        assert yes == PairedGuesses(front, flags, true);
        assert no == PairedGuesses(front, flags, false) + [guesses[last]];
      }
    }
  }

  lemma SplitLast(s: seq<string>)
    requires s != []
    ensures s == s[..|s| - 1] + [s[|s| - 1]]
  {
  }

  lemma FoldedSets(names: set<string>, ns: seq<string>, canonical: string)
    ensures AllFolded(LowerSet(names)) && AllFolded(LowerSeq(ns)) && AllFolded(LowerAccepted(ns))
    ensures AllFolded({Lower(canonical)})
  {
    forall s: string { LowerIdempotent(s); }
  }

  /** Formatting a set of folded names keeps them apart and folds back. */
  lemma FormatFolded(names: set<string>)
    requires AllFolded(names)
    ensures LowerSet(FormatSet(names)) == names
    ensures CaseDistinct(FormatSet(names))
    ensures forall a :: a in FormatSet(names) ==> Lower(a) in names
  {
    forall s: string { LowerFormat(s); }
    assert forall n :: n in names ==> Lower(FormatAlternateAnswer(n)) == n;
  }

  /** Adding `added` makes the set strictly larger exactly when something in
      `added` was new. */
  lemma Grew(start: set<string>, added: set<string>)
    ensures |start| < |start + added| <==> !(added <= start)
  {
    var u := start + added;
    assert u == start + (u - start);
    assert |u| == |start| + |u - start|;
    if !(added <= start) {
      var x :| x in added && x !in start;
      assert x in u - start;
    } else {
      assert u - start == {};
    }
  }

  /** The alternative-name update of `update_round_data` (lines 170-192):
      the folded union of the canonical name, the known alternatives and the
      correct guesses; when it is larger than before, the alternatives become
      its formatted members other than the canonical name. */
  function AlternativesAfter(alts: set<string>, canonical: string, correctNames: seq<string>): set<string> {
    var start := {Lower(canonical)} + LowerSet(alts);
    var grown := start + LowerSeq(correctNames);
    if |start| < |grown| then FormatSet(grown - {Lower(canonical)}) else alts
  }

  /** The set is replaced only when a correct guess is new ignoring case;
      after a replacement the alternatives fold to exactly the new union
      (less the canonical name), are distinct ignoring case, never fold to
      the canonical name and are all in formatted form. */
  lemma AlternativesAfterSpec(alts: set<string>, canonical: string, correctNames: seq<string>)
    ensures var r := AlternativesAfter(alts, canonical, correctNames);
      && (LowerSeq(correctNames) <= {Lower(canonical)} + LowerSet(alts) ==> r == alts)
      && (!(LowerSeq(correctNames) <= {Lower(canonical)} + LowerSet(alts)) ==>
            && {Lower(canonical)} + LowerSet(r) == {Lower(canonical)} + LowerSet(alts) + LowerSeq(correctNames)
            && CaseDistinct(r)
            && (forall a :: a in r ==> Lower(a) != Lower(canonical))
            && AllFormatted(r))
  {
    var start := {Lower(canonical)} + LowerSet(alts);
    var grown := start + LowerSeq(correctNames);
    Grew(start, LowerSeq(correctNames));
    if |start| < |grown| {
      FoldedSets(alts, correctNames, canonical);
      FormatFolded(grown - {Lower(canonical)});
      FormatSetFormatted(grown - {Lower(canonical)});
    }
  }

  /** The wrong-guess update (lines 195-215): placeholder and blank guesses
      are skipped, and the set is rebuilt from the folded union only when
      that union grew. */
  function WrongGuessesAfter(wrongs: set<string>, wrongNames: seq<string>): set<string> {
    var start := LowerSet(wrongs);
    var grown := start + LowerAccepted(wrongNames);
    if |start| < |grown| then FormatSet(grown) else wrongs
  }

  /** The set is replaced only when an acceptable wrong guess is new
      ignoring case; afterwards it folds to the new union, is distinct
      ignoring case, holds only formatted names, and holds no placeholder or
      blank entry if it held none before. */
  lemma WrongGuessesAfterSpec(wrongs: set<string>, wrongNames: seq<string>)
    ensures var r := WrongGuessesAfter(wrongs, wrongNames);
      && (LowerAccepted(wrongNames) <= LowerSet(wrongs) ==> r == wrongs)
      && (!(LowerAccepted(wrongNames) <= LowerSet(wrongs)) ==>
            LowerSet(r) == LowerSet(wrongs) + LowerAccepted(wrongNames) && CaseDistinct(r) && AllFormatted(r))
      && ((forall w :: w in wrongs ==> Acceptable(w)) ==> forall w :: w in r ==> Acceptable(w))
  {
    var start := LowerSet(wrongs);
    var grown := start + LowerAccepted(wrongNames);
    var r := WrongGuessesAfter(wrongs, wrongNames);
    Grew(start, LowerAccepted(wrongNames));
    if |start| < |grown| {
      assert r == FormatSet(grown);
      WrongRebuilt(wrongs, wrongNames);
      FormatSetFormatted(grown);
    } else {
      assert r == wrongs;
    }
  }

  lemma WrongRebuilt(wrongs: set<string>, wrongNames: seq<string>)
    ensures var grown := LowerSet(wrongs) + LowerAccepted(wrongNames);
      && LowerSet(FormatSet(grown)) == grown
      && CaseDistinct(FormatSet(grown))
      && ((forall w :: w in wrongs ==> Acceptable(w)) ==> forall w :: w in FormatSet(grown) ==> Acceptable(w))
  {
    FoldedSets(wrongs, wrongNames, "");
    FormatFolded(LowerSet(wrongs) + LowerAccepted(wrongNames));
    if forall w :: w in wrongs ==> Acceptable(w) {
      AcceptableFormatted(wrongs, wrongNames);
    }
  }

  lemma AcceptableFolded(n: string)
    requires Acceptable(n)
    ensures Acceptable(FormatAlternateAnswer(Lower(n)))
  {
    FormatKeepsNonBlank(n);
    var f := FormatAlternateAnswer(Lower(n));
    if f == "..." {
      LowerFormat(Lower(n));
      LowerIdempotent(n);
      assert Lower(f) == "...";
      LowerOfDots(n);
    }
  }

  lemma AcceptableFormatted(wrongs: set<string>, wrongNames: seq<string>)
    requires forall w :: w in wrongs ==> Acceptable(w)
    ensures forall w :: w in FormatSet(LowerSet(wrongs) + LowerAccepted(wrongNames)) ==> Acceptable(w)
  {
    forall n | Acceptable(n) { AcceptableFolded(n); }
  }

  // ---------------------------------------------------------------------------
  // The invariant every merge keeps
  // ---------------------------------------------------------------------------

  /** What holds of each stored record: it sits under its own key, it has
      no more correct guesses than guesses, its alternative names are
      distinct ignoring case and none of them is the canonical name, its
      wrong guesses are distinct ignoring case and never blank or "...", and
      both name sets hold names in formatted form. */
  predicate RecordInv(key: string, r: SongRecord) {
    && key == RecordKey(r)
    && r.correct <= r.outOf
    && CaseDistinct(r.alternativeNames)
    && AllFormatted(r.alternativeNames)
    && (forall a :: a in r.alternativeNames ==> Lower(a) != Lower(r.animeName))
    && CaseDistinct(r.wrongGuesses)
    && AllFormatted(r.wrongGuesses)
    && (forall w :: w in r.wrongGuesses ==> Acceptable(w))
  }

  predicate Inv(l: Ledger) {
    && (forall k :: k in l.data ==> RecordInv(k, l.data[k]))
    && l.stats.totalCorrect <= l.stats.totalGuesses
  }

  // ---------------------------------------------------------------------------
  // Round replay: one slot, one round, all rounds
  // ---------------------------------------------------------------------------

  /** `corrects.filter((b) => b).length` */
  function CountTrue(flags: seq<bool>): (n: nat)
    ensures n <= |flags|
    ensures n == multiset(flags)[true]
  {
    if flags == [] then 0
    else
      assert flags == [flags[0]] + flags[1..];
      (if flags[0] then 1 else 0) + CountTrue(flags[1..])
  }

  /** `round.correctGuesses[songNum]` */
  function FlagsAt(round: RoundLog, slot: nat): Option<seq<bool>> {
    if slot < |round.correctGuesses| then round.correctGuesses[slot] else None
  }

  /** `round.guesses && round.guesses[songNum]` */
  function GuessesAt(round: RoundLog, slot: nat): Option<seq<string>> {
    match round.guesses
    case None => None
    case Some(gs) => if slot < |gs| then gs[slot] else None
  }

  /** The name-set part of a slot (lines 169-216): only the two name sets
      of the record change. */
  function NameSlot(r: SongRecord, canonical: string, guesses: seq<string>, flags: seq<bool>): (r': SongRecord)
    ensures r'.(alternativeNames := r.alternativeNames, wrongGuesses := r.wrongGuesses) == r
  {
    r.(alternativeNames := AlternativesAfter(r.alternativeNames, canonical, PairedGuesses(guesses, flags, true)),
       wrongGuesses := WrongGuessesAfter(r.wrongGuesses, PairedGuesses(guesses, flags, false)))
  }

  /** The counter part of a slot (lines 159-165) on the record. */
  function CountSlot(r: SongRecord, flags: seq<bool>): SongRecord {
    r.(outOf := r.outOf + |flags|, correct := r.correct + CountTrue(flags))
  }

  /** The counter part of a slot on the global `stats`. */
  function TallySlot(stats: Stats, flags: seq<bool>): Stats {
    Stats(stats.totalSongs + 1, stats.totalGuesses + |flags|, stats.totalCorrect + CountTrue(flags))
  }

  /** The record after a slot whose flags are present: counted, then, when
      the slot has guesses, with its name sets updated. */
  function SlotRecord(r: SongRecord, canonical: string, flags: seq<bool>, guesses: Option<seq<string>>): SongRecord {
    var counted := CountSlot(r.(occurances := r.occurances + 1), flags);
    match guesses
    case None => counted
    case Some(gs) => NameSlot(counted, canonical, gs, flags)
  }

  /** What a slot adds to `anime_names`: the canonical name, and the correct
      guesses when the slot has guesses. */
  function NamesSeen(canonical: string, guesses: Option<seq<string>>, flags: seq<bool>): set<string> {
    {Lower(canonical)} + match guesses
      case None => {}
      case Some(gs) => LowerSeq(PairedGuesses(gs, flags, true))
  }

  /** The body of the inner `forEach` of `update_round_data` for a slot whose
      song id is not null (lines 151-218). */
  function ApplySlot(l: Ledger, songs: seq<SongEntry>, songID: int,
                     flags: Option<seq<bool>>, guesses: Option<seq<string>>): Replay
  {
    if !(0 <= songID < |songs|) then Replay(l, Some(SongIndexOutOfRange))
    else
      var entry := songs[songID];
      var key := EntryKey(entry);
      if key !in l.data then Replay(l, Some(UnregisteredSong))
      else
        var seen := l.data[key].(occurances := l.data[key].occurances + 1);
        match flags
        case None => Replay(l.(data := l.data[key := seen]), Some(MissingCorrectFlags))
        case Some(fs) =>
          Replay(Ledger(l.data[key := SlotRecord(l.data[key], entry.animeName, fs, guesses)],
                        TallySlot(l.stats, fs),
                        l.animeNames + NamesSeen(entry.animeName, guesses, fs)), None)
  }

  /** The slots of one round from `from` on, stopping at the first error. */
  function ApplySlots(l: Ledger, songs: seq<SongEntry>, round: RoundLog, from: nat): Replay
    decreases |round.songIDs| - from
  {
    if from >= |round.songIDs| then Replay(l, None)
    else match round.songIDs[from]
      case None => ApplySlots(l, songs, round, from + 1)
      case Some(id) =>
        var step := ApplySlot(l, songs, id, FlagsAt(round, from), GuessesAt(round, from));
        if step.failure.Some? then step else ApplySlots(step.ledger, songs, round, from + 1)
  }

  /** The outer `forEach` of `update_round_data` from round `from` on; null
      rounds are skipped. */
  function ApplyRounds(l: Ledger, songs: seq<SongEntry>, rounds: seq<Option<RoundLog>>, from: nat): Replay
    decreases |rounds| - from
  {
    if from >= |rounds| then Replay(l, None)
    else match rounds[from]
      case None => ApplyRounds(l, songs, rounds, from + 1)
      case Some(round) =>
        var step := ApplySlots(l, songs, round, 0);
        if step.failure.Some? then step else ApplyRounds(step.ledger, songs, rounds, from + 1)
  }

  /** `merge_in_json(session)` */
  function MergeSession(l: Ledger, s: Session): Replay {
    ApplyRounds(l.(data := RegisterAll(l.data, s.songData)), s.songData, s.roundData, 0)
  }
}
