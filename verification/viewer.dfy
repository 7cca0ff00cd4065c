/** The merge as the viewer runs it: the globals `data`, `stats` and
    `anime_names` are the fields of one `Aggregator`, and `update_song_entry`,
    `update_song_data`, `update_round_data` and `merge_in_json` update them in
    place. Each method is proved to reach the state that the matching
    function of SongLedger computes, so everything proved there holds of the
    object. */
module Viewer {
  import opened Options
  import opened JsText
  import opened SongKey
  import opened SongLedger
  import opened LedgerProperties

  lemma LowerSeqSnoc(names: seq<string>, name: string)
    ensures LowerSeq(names + [name]) == LowerSeq(names) + {Lower(name)}
  {
  }

  /** `for (let name of names) unique.add(name.toLowerCase())` */
  method AddLowered(unique: set<string>, names: set<string>) returns (r: set<string>)
    ensures r == unique + LowerSet(names)
  {
    r := unique;
    var rest := names;
    while rest != {}
      invariant rest <= names
      invariant r == unique + LowerSet(names - rest)
      decreases rest
    {
      var name :| name in rest;
      r := r + {Lower(name)};
      rest := rest - {name};
    }
  }

  /** The loop over `wrong_names` (lines 203-207): the placeholder and blank
      guesses are skipped, the others are added folded. */
  method AddAcceptedLowered(unique: set<string>, names: seq<string>) returns (r: set<string>)
    ensures r == unique + LowerAccepted(names)
  {
    r := unique;
    for i := 0 to |names|
      invariant r == unique + LowerAccepted(names[..i])
    {
      var name := names[i];
      if name != "..." && !IsBlank(name) {
        r := r + {Lower(name)};
      }
      assert names[..i + 1] == names[..i] + [name];
    }
    assert names[..|names|] == names;
  }

  /** `for (let name of names) formatted.add(format_alternate_answer(name))` */
  method FormatAll(names: set<string>) returns (r: set<string>)
    ensures r == FormatSet(names)
  {
    r := {};
    var rest := names;
    while rest != {}
      invariant rest <= names
      invariant r == FormatSet(names - rest)
      decreases rest
    {
      var name :| name in rest;
      r := r + {FormatAlternateAnswer(name)};
      rest := rest - {name};
    }
  }

  /** Lines 201-215: the folded wrong guesses of a song grow by the wrongly
      answered, non-placeholder, non-blank guesses; the stored set is rebuilt
      only when something new was seen. */
  method UpdateWrongGuesses(wrongs: set<string>, wrongNames: seq<string>) returns (r: set<string>)
    ensures r == WrongGuessesAfter(wrongs, wrongNames)
  {
    var unique := AddLowered({}, wrongs);
    var size := |unique|;
    unique := AddAcceptedLowered(unique, wrongNames);
    r := wrongs;
    if size < |unique| {
      r := FormatAll(unique);
    }
  }

  class Aggregator {
    var data: map<string, SongRecord>
    var totalSongs: nat
    var totalGuesses: nat
    var totalCorrect: nat
    var animeNames: set<string>

    ghost function State(): Ledger
      reads this
    {
      Ledger(data, Stats(totalSongs, totalGuesses, totalCorrect), animeNames)
    }

    ghost predicate Valid()
      reads this
    {
      Inv(State())
    }

    /** The globals as the page starts: an empty map, zero counters, an
        empty name index. */
    constructor ()
      ensures Valid() && State() == EmptyLedger
    {
      data := map[];
      totalSongs, totalGuesses, totalCorrect := 0, 0, 0;
      animeNames := {};
    }

    /** `update_song_entry(e)` */
    method UpdateSongEntry(e: SongEntry)
      requires Valid()
      modifies this
      ensures Valid()
      ensures State() == old(State()).(data := RegisterEntry(old(data), e))
    {
      RegisterEntryKeepsInv(State(), e);
      var key := EntryKey(e);
      if key in data {
        var value := data[key];
        data := data[key := value.(videoLinks := value.videoLinks + {e.videoLink})];
      } else {
        var value := SongRecord(e.animeName, {}, {}, e.animeType, e.songName, e.artistName,
                                {e.videoLink}, 0, 0, 0);
        data := data[key := value];
      }
    }

    /** `update_song_data(entries)` */
    method UpdateSongData(entries: seq<SongEntry>)
      requires Valid()
      modifies this
      ensures Valid()
      ensures State() == old(State()).(data := RegisterAll(old(data), entries))
    {
      for i := 0 to |entries|
        invariant Valid()
        invariant RegisterAll(data, entries[i..]) == RegisterAll(old(data), entries)
        invariant State() == old(State()).(data := data)
      {
        assert entries[i..][1..] == entries[i + 1..];
        UpdateSongEntry(entries[i]);
      }
    }

    /** Lines 170-192: the folded alternative names of a song grow by the
        correctly answered names, every one of which also enters
        `anime_names`; the stored set is rebuilt only when something new was
        seen. */
    method UpdateAlternatives(alts: set<string>, canonicalName: string, correctNames: seq<string>)
      returns (r: set<string>)
      modifies this
      ensures r == AlternativesAfter(alts, canonicalName, correctNames)
      ensures State() == old(State()).(animeNames := old(animeNames) + LowerSeq(correctNames))
    {
      var canonical := Lower(canonicalName);
      var unique := AddLowered({canonical}, alts);
      ghost var start := unique;
      var startSize := |unique|;
      for i := 0 to |correctNames|
        invariant unique == start + LowerSeq(correctNames[..i])
        invariant State() == old(State()).(animeNames := old(animeNames) + LowerSeq(correctNames[..i]))
      {
        assert correctNames[..i + 1] == correctNames[..i] + [correctNames[i]];
        LowerSeqSnoc(correctNames[..i], correctNames[i]);
        animeNames := animeNames + {Lower(correctNames[i])};
        unique := unique + {Lower(correctNames[i])};
      }
      assert correctNames[..|correctNames|] == correctNames;
      r := alts;
      if startSize < |unique| {
        r := FormatAll(unique - {canonical});
      }
      assert unique == {Lower(canonicalName)} + LowerSet(alts) + LowerSeq(correctNames);
    }

    /** The body of the inner `forEach` of `update_round_data` for a slot
        whose song id is not null. */
    method UpdateSlot(songs: seq<SongEntry>, songID: int,
                      flags: Option<seq<bool>>, guesses: Option<seq<string>>)
      returns (failure: Option<MergeError>)
      modifies this
      ensures Replay(State(), failure) == ApplySlot(old(State()), songs, songID, flags, guesses)
    {
      if !(0 <= songID < |songs|) {
        return Some(SongIndexOutOfRange);
      }
      var entry := songs[songID];
      var key := EntryKey(entry);
      if key !in data {
        return Some(UnregisteredSong);
      }
      ghost var l := old(State());
      var songData := data[key];
      songData := songData.(occurances := songData.occurances + 1);
      ghost var seen := songData;
      if flags.None? {
        data := data[key := songData];
        assert State() == l.(data := l.data[key := seen]);
        ApplySlotMissingFlags(l, songs, songID, guesses);
        return Some(MissingCorrectFlags);
      }
      var corrects := flags.value;
      ghost var names := l.animeNames + NamesSeen(entry.animeName, guesses, corrects);
      var hits := CountTrue(corrects);
      songData := songData.(outOf := songData.outOf + |corrects|, correct := songData.correct + hits);
      assert songData == CountSlot(seen, corrects);
      totalSongs := totalSongs + 1;
      totalGuesses := totalGuesses + |corrects|;
      totalCorrect := totalCorrect + hits;
      assert State().stats == TallySlot(l.stats, corrects);
      animeNames := animeNames + {Lower(entry.animeName)};
      if guesses.Some? {
        ghost var counted := songData;
        var gs := guesses.value;
        var alternatives := UpdateAlternatives(songData.alternativeNames, entry.animeName,
                                               PairedGuesses(gs, corrects, true));
        var wrongs := UpdateWrongGuesses(songData.wrongGuesses, PairedGuesses(gs, corrects, false));
        songData := songData.(alternativeNames := alternatives, wrongGuesses := wrongs);
        assert songData == NameSlot(counted, entry.animeName, gs, corrects);
      }
      assert songData == SlotRecord(l.data[key], entry.animeName, corrects, guesses);
      assert animeNames == names;
      data := data[key := songData];
      failure := None;
      assert State() == Ledger(l.data[key := SlotRecord(l.data[key], entry.animeName, corrects, guesses)],
                               TallySlot(l.stats, corrects), names);
      assert ApplySlot(l, songs, songID, flags, guesses) == Replay(State(), None);
    }

    /** `update_round_data(rounds, songs)`: the rounds in order, null rounds
        and null song ids skipped; the first error stops the walk and leaves
        the updates made so far in place. */
    method UpdateRoundData(rounds: seq<Option<RoundLog>>, songs: seq<SongEntry>)
      returns (failure: Option<MergeError>)
      requires Valid()
      modifies this
      ensures Valid()
      ensures Replay(State(), failure) == ApplyRounds(old(State()), songs, rounds, 0)
    {
      for r := 0 to |rounds|
        invariant Valid()
        invariant ApplyRounds(State(), songs, rounds, r) == ApplyRounds(old(State()), songs, rounds, 0)
      {
        if rounds[r].Some? {
          var round := rounds[r].value;
          ghost var before := State();
          for slot := 0 to |round.songIDs|
            invariant Valid()
            invariant ApplySlots(State(), songs, round, slot) == ApplySlots(before, songs, round, 0)
          {
            if round.songIDs[slot].Some? {
              ApplySlotKeepsInv(State(), songs, round.songIDs[slot].value,
                                FlagsAt(round, slot), GuessesAt(round, slot));
              failure := UpdateSlot(songs, round.songIDs[slot].value,
                                    FlagsAt(round, slot), GuessesAt(round, slot));
              if failure.Some? {
                return;
              }
            }
          }
        }
      }
      failure := None;
    }

    /** `merge_in_json(session)`: register the catalog, then replay the
        rounds against it. */
    method MergeInJson(session: Session) returns (failure: Option<MergeError>)
      requires Valid()
      modifies this
      ensures Valid()
      ensures Replay(State(), failure) == MergeSession(old(State()), session)
      ensures failure != Some(UnregisteredSong)
    {
      UpdateSongData(session.songData);
      failure := UpdateRoundData(session.roundData, session.songData);
      MergeNeverUnregistered(old(State()), session);
    }
  }
}
