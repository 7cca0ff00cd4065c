# AMQ Data Viewer: the aggregation engine and its sort orders

The AMQ Data Viewer reads session logs recorded during Anime Music Quiz games
and folds them into one table of songs. Each song is keyed by anime name,
kind, song name and artist. For each song the table keeps its video links,
how often it was played and guessed, the alternative titles that were
accepted as correct, and the wrong guesses players typed. Beside the table
the viewer keeps global counters and the set of every anime title seen. The
song list is then sorted by one of three comparators.

This project models that core of `js/amq_viewer.js` in Dafny:

- `options.dfy`: the `Option` type.
- `js_text.dfy` (module `JsText`): the pieces of the JavaScript string
  library the engine relies on:
  - `toLowerCase`/`toUpperCase` on ASCII;
  - the `\w` and `\s` classes;
  - the `\w*` replacement of `format_alternate_answer`;
  - `split(' ')`;
  - `parseInt`;
  - the order of `<` on strings.
- `song_key.dfy` (module `SongKey`): `get_song_entry_key`, which is
  `JSON.stringify` of four strings, with a decoder that proves the key
  injective.
- `song_ledger.dfy` (module `SongLedger`): the globals `data`, `stats` and
  `anime_names` as one value, a `Ledger`. It defines, as functions from one
  ledger to the next:
  - registering catalog entries;
  - replaying one slot of a round, a round, all rounds, and a whole session.

  A `TypeError` the source would throw part way is an explicit error. The
  updates made before it stay in place, as they do in the browser.
- `ledger_properties.dfy` (module `LedgerProperties`): what the merge
  preserves and guarantees:
  - the record invariant;
  - null rounds and null slots change nothing;
  - a merged session never meets an unregistered song;
  - feeding the same guesses twice leaves the name sets as they were.
- `remerge_properties.dfy` (module `RemergeProperties`): merging the same
  session file twice. The second merge throws the same error as the first
  and leaves every name set as the first merge left it, while every counter
  grows again by what the first merge added.
- `viewer.dfy` (module `Viewer`): class `Aggregator`, whose fields are the
  three globals. Its methods `UpdateSongEntry`, `UpdateSongData`,
  `UpdateRoundData` and `MergeInJson` update them in place with the source's
  loops. Each is proved to reach exactly the state the matching ledger
  function computes, and to keep the invariant.
- `comparators.dfy` (module `Comparators`): `create_comp`, `by_property`,
  `ord_comp`, `gt_ord`/`lt_ord`, `gt_comp`/`lt_comp`, `comp_by_type`,
  `outOf_check`, `by_accuracy` and the three sort orders. They work over
  JavaScript values, with NaN and `Infinity`.
- `comparator_properties.dfy` (module `ComparatorProperties`): what the
  three orders promise. Where every kind number parses they are
  antisymmetric and transitive. The module also shows where they are not
  consistent orders.

The model follows the code as written, including these behaviours a reader
might not expect:

- A kind other than Opening, Ending and Insert has index -1. It therefore
  sorts before all known kinds, not after them.
- `outOf_check` returns 1 whenever the first song was never guessed, even
  when neither song was. Two never-guessed songs each sort after the other.
- `format_alternate_answer` capitalises the start of every run of `\w`
  characters (letters, digits, `_`), not the start of every
  whitespace-separated word. For example, `l'arc` becomes `L'Arc`.
- Guesses and correctness flags are paired by position, with no length
  check. A guess with no flag counts as wrong, and a flag with no guess is
  still counted in `outOf`.

## Model

| member | source | states |
|---|---|---|
| SongKey.DecodeEncodeKey | js/amq_viewer.js:103 | decoding the JSON text of a four-string array gives back the four strings |
| SongKey.KeyInjective | js/amq_viewer.js:103 | two songs get the same key exactly when anime name, kind, song name and artist all agree |
| SongLedger.RegisterEntry | js/amq_viewer.js:104-127 | the table gains exactly the entry's key; other records are untouched; an existing record only gains the video link; a new record has the entry's fields, that one link, empty name sets and zero counters |
| SongLedger.RegisterAll | js/amq_viewer.js:130-132 | the keys grow by exactly the catalog's keys, and old records only gain video links |
| LedgerProperties.RegisterAllLinks | js/amq_viewer.js:104-132 | after registering a catalog, an old record holds its old links plus exactly the links its entries list; a record the catalog introduced has its own key, exactly those links, empty name sets and zero counters |
| Viewer.Aggregator.UpdateSongEntry | js/amq_viewer.js:104-127 | the in-place update yields `RegisterEntry` of the old table, leaves stats and names alone and keeps the invariant |
| Viewer.Aggregator.UpdateSongData | js/amq_viewer.js:130-132 | the loop over the catalog yields `RegisterAll` of the old table and keeps the invariant |
| JsText.FormatAlternateAnswer | js/amq_viewer.js:136-141 | formatting keeps the length of the answer |
| JsText.FormatAlternateAnswerAt | js/amq_viewer.js:136-141 | every character is lower-cased, and upper-cased after that exactly when it starts a run of word characters |
| JsText.CapitalizeRunsAt | js/amq_viewer.js:138-140 | the replacement of `\w*` matches upper-cases exactly the first character of each run of word characters |
| JsText.LowerFormat | js/amq_viewer.js:136-141 | formatting does not change a name up to case |
| JsText.FormatIdempotent | js/amq_viewer.js:136-141 | formatting a formatted name changes nothing |
| JsText.FormatOfLower | js/amq_viewer.js:136-141 | formatting ignores the case of its input |
| JsText.FormatKeepsNonBlank | js/amq_viewer.js:204 | a name that is not blank stays non-blank when folded and formatted |
| JsText.LowerIdempotent | js/amq_viewer.js:174 | lower-casing twice is lower-casing once |
| JsText.LowerOfDots | js/amq_viewer.js:204 | only `...` itself lower-cases to the placeholder `...` |
| SongLedger.PairedGuesses | js/amq_viewer.js:170 | a guess is kept exactly when the flag at its position is truthy (or, for the wrong list, is not) |
| SongLedger.PairedGuessesPartition | js/amq_viewer.js:170-195 | the correct and the wrong guesses together are the guesses, each exactly once |
| SongLedger.CountTrue | js/amq_viewer.js:161 | the count is exactly the number of `true` flags, so at most the number of flags |
| SongLedger.NameSlot | js/amq_viewer.js:169-216 | the guess handling changes only the alternative names and the wrong guesses of the record |
| SongLedger.AlternativesAfterSpec | js/amq_viewer.js:170-192 | the alternatives are replaced only when a correct guess is new up to case; then they fold to exactly the old alternatives plus the new guesses, stay distinct up to case, never include the anime's own name and are all in `format_alternate_answer` form |
| SongLedger.WrongGuessesAfterSpec | js/amq_viewer.js:195-215 | the wrong guesses are replaced only when a new one that is neither `...` nor blank arrives; then they fold to exactly the old ones plus the new ones, stay distinct up to case, are all in `format_alternate_answer` form, and none is `...` or blank |
| LedgerProperties.AlternativesIdempotent | js/amq_viewer.js:170-192 | feeding the same correct guesses a second time leaves the alternatives unchanged |
| LedgerProperties.WrongGuessesIdempotent | js/amq_viewer.js:195-215 | feeding the same wrong guesses a second time leaves the wrong guesses unchanged |
| LedgerProperties.InvEmpty | js/amq_viewer.js:59-65 | the initial globals satisfy the invariant |
| LedgerProperties.RegisterEntryKeepsInv | js/amq_viewer.js:104-127 | registering an entry keeps every record under its own key, with correct at most outOf and its name sets distinct up to case and formatted |
| LedgerProperties.RegisterAllKeepsInv | js/amq_viewer.js:130-132 | registering a catalog keeps the invariant |
| LedgerProperties.ApplySlotOutcome | js/amq_viewer.js:151-160 | a slot throws exactly for an id outside the catalog, an unregistered key or missing flags; the first two change nothing; no slot adds or removes keys or touches other records |
| LedgerProperties.ApplySlotMissingFlags | js/amq_viewer.js:159-160 | missing flags throw `MissingCorrectFlags` after the record's `occurances` was bumped by one; its other fields, the global counters and `anime_names` are unchanged |
| LedgerProperties.ApplySlotGlobals | js/amq_viewer.js:163-167 | a slot with flags succeeds; `total_songs` grows by one, `total_guesses` by the number of flags, `total_correct` by the number of true flags; `anime_names` gains the folded anime name and, when there are guesses, the folded correct guesses |
| LedgerProperties.ApplySlotRecord | js/amq_viewer.js:159-216 | a slot with flags adds one occurrence, one guess per flag and one correct answer per true flag to the record; with guesses its name sets become the alternative-name and wrong-guess updates of the paired guesses, without guesses they stay; all other fields stay |
| LedgerProperties.SlotRecordChanges | js/amq_viewer.js:159-216 | the same field-by-field changes, stated for the record update on its own |
| LedgerProperties.CanonicalName | js/amq_viewer.js:155-156 | the record found under a catalog entry's key carries that entry's anime name |
| LedgerProperties.ApplySlotKeepsInv | js/amq_viewer.js:151-218 | one slot keeps the invariant, whether it completes or throws |
| LedgerProperties.ApplySlotsKeepsInv | js/amq_viewer.js:148-219 | one round keeps the invariant |
| LedgerProperties.ApplyRoundsKeepsInv | js/amq_viewer.js:145-221 | the whole round log keeps the invariant |
| LedgerProperties.MergeSessionKeepsInv | js/amq_viewer.js:224-227 | merging a session keeps the invariant, even when it stops with an error |
| LedgerProperties.NullSlotsSkipped | js/amq_viewer.js:149 | a round whose song ids are all null changes nothing |
| LedgerProperties.NullSlotSkipped | js/amq_viewer.js:149 | removing a slot whose song id is null, with its flags and guesses, gives the same result for the round |
| LedgerProperties.NullRoundSkipped | js/amq_viewer.js:147 | dropping a null round from the log gives the same result |
| LedgerProperties.ApplySlotsRegistered | js/amq_viewer.js:151-156 | when the catalog is registered, a round keeps the keys and never meets an unregistered song |
| LedgerProperties.ApplyRoundsRegistered | js/amq_viewer.js:145-221 | when the catalog is registered, no round meets an unregistered song |
| LedgerProperties.MergeNeverUnregistered | js/amq_viewer.js:224-227 | because the catalog is registered first, merging a session never fails on an unregistered song |
| RemergeProperties.ApplySlotsError | js/amq_viewer.js:148-219 | a round throws exactly the error of its first failing slot, which depends only on the registered keys, and registers nothing |
| RemergeProperties.ApplyRoundsError | js/amq_viewer.js:145-221 | the round log throws exactly the error of its first failing round, which depends only on the registered keys |
| RemergeProperties.AbsorbedSlotKeepsNames | js/amq_viewer.js:167-216 | a slot whose names the ledger already holds changes no name set |
| RemergeProperties.ApplySlotGrows | js/amq_viewer.js:167-216 | a slot never loses a name from `anime_names`, from a record's known names or from its wrong guesses, up to case |
| RemergeProperties.ApplySlotAbsorbs | js/amq_viewer.js:167-216 | after a slot, the ledger holds every name the slot records |
| RemergeProperties.ApplySlotsAbsorbs | js/amq_viewer.js:148-219 | a round only adds names, and afterwards the ledger holds every name of every slot the replay reached |
| RemergeProperties.ApplyRoundsAbsorbs | js/amq_viewer.js:145-221 | the round log only adds names, and afterwards the ledger holds every name of every slot the replay reached |
| RemergeProperties.AbsorbedRoundsKeepNames | js/amq_viewer.js:145-221 | replaying a round log whose names the ledger already holds changes no name set |
| RemergeProperties.MergeTwiceKeepsNames | js/amq_viewer.js:224-227 | merging a session into the result of merging it gives the same error and leaves `anime_names` and every record's alternative names and wrong guesses as the first merge left them |
| RemergeProperties.ApplyRoundsIncrements | js/amq_viewer.js:145-221 | the round log adds the same amounts to every counter of two ledgers with the same keys |
| RemergeProperties.MergeTwiceCounts | js/amq_viewer.js:224-227 | the second merge adds to every global and per-record counter exactly what the first added, so records the session introduced end with twice its counts |
| LedgerProperties.ApplySlotTwice | js/amq_viewer.js:159-215 | replaying a played slot again bumps occurrences and guesses again but leaves the name sets and the anime names as they were |
| Viewer.AddLowered | js/amq_viewer.js:172-175 | the loop adds the folded form of every name in the set |
| Viewer.AddAcceptedLowered | js/amq_viewer.js:203-207 | the loop adds the folded form of every guess that is neither `...` nor blank |
| Viewer.FormatAll | js/amq_viewer.js:184-190 | the loop builds the set of formatted names |
| Viewer.UpdateWrongGuesses | js/amq_viewer.js:195-215 | the in-place steps compute the wrong-guess update whose properties `WrongGuessesAfterSpec` states |
| Viewer.Aggregator.UpdateAlternatives | js/amq_viewer.js:170-192 | the steps compute the alternative-name update, and `anime_names` gains exactly the correct guesses folded |
| Viewer.Aggregator.UpdateSlot | js/amq_viewer.js:151-218 | one slot in place reaches the state and error of `ApplySlot` |
| Viewer.Aggregator.UpdateRoundData | js/amq_viewer.js:145-221 | the nested loops reach the state and error of `ApplyRounds`, stop at the first error and keep the invariant |
| Viewer.Aggregator.MergeInJson | js/amq_viewer.js:224-227 | a merge in place reaches the state of `MergeSession`, keeps the invariant and never fails on an unregistered song |
| Viewer.Aggregator.constructor | js/amq_viewer.js:59-65 | a fresh aggregator is empty and satisfies the invariant |
| JsText.StrLessTrichotomy | js/amq_viewer.js:265 | string `<` is irreflexive, and of two different strings exactly one is smaller |
| JsText.StrLessTransitive | js/amq_viewer.js:265 | string `<` is transitive |
| JsText.SplitSpace | js/amq_viewer.js:274-275 | `split(' ')` never returns an empty list, no field holds a space, and joining the fields with spaces gives the string back |
| JsText.SplitJoin | js/amq_viewer.js:274-275 | splitting undoes joining fields that hold no space |
| JsText.ParseIntDecimal | js/amq_viewer.js:277 | `parseInt` reads back the decimal numeral of every natural number |
| JsText.DecimalString | js/amq_viewer.js:277 | a decimal numeral is a non-empty run of digits |
| Comparators.CreateComp | js/amq_viewer.js:237-247 | the loop returns what the chain of comparators returns |
| Comparators.ChainFirstNonzero | js/amq_viewer.js:237-247 | a chain returns 0 exactly when every comparator does, and otherwise the first non-zero verdict |
| Comparators.ChainAntisymmetric | js/amq_viewer.js:237-247 | a chain of comparators that are antisymmetric on two songs is antisymmetric on them |
| Comparators.JsTrichotomy | js/amq_viewer.js:254-266 | on two strings, or two numbers that are not NaN, exactly one of less, `===` and greater holds |
| Comparators.GtCompAscending | js/amq_viewer.js:252-268 | `gt_comp` gives 0 for `===` values, 1 when the first is greater and -1 when it is smaller, and is antisymmetric |
| Comparators.LtCompDescending | js/amq_viewer.js:252-269 | `lt_comp` is `gt_comp` reversed, and is antisymmetric |
| Comparators.JsOrderTransitive | js/amq_viewer.js:265-266 | on strings, and on numbers that are not NaN, `<` and `===` are transitive, and a `<` step with a `===` step gives `<` |
| Comparators.ThenConsistent | js/amq_viewer.js:237-247 | chaining a comparator that fits a total preorder after another one that does gives a comparator that fits a total preorder |
| Comparators.OrdCompConsistent | js/amq_viewer.js:252-269 | on values that are not NaN, `gt_comp` and `lt_comp` fit a total preorder on every three items |
| Comparators.NaNFirstBothWays | js/amq_viewer.js:256-266 | a NaN value is never `===`, so both comparators put it first whichever side it is on |
| Comparators.IndexOf | js/amq_viewer.js:276 | `indexOf` gives the first position of the value, or -1 exactly when it is absent |
| ComparatorProperties.KindDecides | js/amq_viewer.js:272-282 | songs of different kinds are ordered by the kind's index alone |
| ComparatorProperties.KindRankOf | js/amq_viewer.js:274-276 | the index of a kind is that of the word before the first space |
| ComparatorProperties.OpeningEndingInsert | js/amq_viewer.js:273 | openings sort before endings, and endings before inserts |
| ComparatorProperties.UnknownKindFirst | js/amq_viewer.js:273-278 | a kind that is none of the three sorts before every known kind |
| ComparatorProperties.NumberDecides | js/amq_viewer.js:277-280 | within a kind, the number after it decides as a number (`Opening 2` before `Opening 10`) |
| ComparatorProperties.CompByTypeAntisymmetric | js/amq_viewer.js:272-282 | where both numbers parse, `comp_by_type` is antisymmetric |
| ComparatorProperties.CompByTypeTransitive | js/amq_viewer.js:272-282 | where the numbers parse, `comp_by_type` is transitive on every three songs, strictly when a step is strict, and ties are transitive |
| ComparatorProperties.SongListAntisymmetric | js/amq_viewer.js:291-296 | where the kind numbers parse, the list order is antisymmetric |
| ComparatorProperties.SongListTransitive | js/amq_viewer.js:291-296 | where the kind numbers parse, the list order is transitive, so with antisymmetry a total preorder |
| ComparatorProperties.SongListTies | js/amq_viewer.js:291-296 | two songs tie only when anime, song and artist agree and the kinds tie; same names and kind with a parsing number always tie |
| ComparatorProperties.SongListNaNSelf | js/amq_viewer.js:277-280 | a kind with no number after it (`Insert Song`) makes a song compare as -1 even with itself |
| ComparatorProperties.NeverGuessedLast | js/amq_viewer.js:283-287 | a never-guessed song sorts after every song, including another never-guessed one whichever comes first |
| ComparatorProperties.AccuracyDecides | js/amq_viewer.js:288-303 | between guessed songs the higher exact share of correct guesses comes first |
| ComparatorProperties.GuessesBreakTies | js/amq_viewer.js:298-303 | at equal accuracy the song guessed more often comes first |
| ComparatorProperties.ListBreaksAccuracyTies | js/amq_viewer.js:298-303 | at equal accuracy and equal guesses the list order decides |
| ComparatorProperties.SongAccuracyAntisymmetric | js/amq_viewer.js:298-303 | among guessed songs whose kind numbers parse, the accuracy order is antisymmetric |
| ComparatorProperties.SongAccuracyTransitive | js/amq_viewer.js:283-303 | where the kind numbers parse, the accuracy order is transitive, never-guessed songs included |
| ComparatorProperties.OccurrencesDecide | js/amq_viewer.js:305-308 | the song played in more rounds comes first; equal counts fall back to the accuracy order |
| ComparatorProperties.SongOccuranceAntisymmetric | js/amq_viewer.js:305-308 | wherever the accuracy order is antisymmetric, so is the occurrence order |
| ComparatorProperties.SongOccuranceTransitive | js/amq_viewer.js:305-308 | where the kind numbers parse, the occurrence order is transitive |

## Left out

- Loading: reading the session files (`load_json`, `fetch`, the file list) and the `async` start-up are not modelled. A session enters the model as an already parsed `Session` value.
- Presentation: the DOM, the HTML building, the colour helpers, `localStorage` and the sort-method menu are not part of this model. Only the `sorting_methods` table is kept, as `SortingComparator`.
- `Array.prototype.sort` is not modelled. The comparators are modelled and their properties proved, but not the sort that calls them. The three orders are proved antisymmetric and transitive only where every kind number parses, and antisymmetric only between guessed songs. Outside that region the source breaks the promise: see `SongListNaNSelf` and `NeverGuessedLast`.
- `tools/amq.js` (the in-game recorder) and `tools/anonymize.py` are not part of this model.
- Case mapping: `toLowerCase` and `toUpperCase` are modelled on ASCII letters only. Full Unicode case mapping, including characters whose case forms differ in length, is left out.
- Strings are sequences of Dafny characters, which are Unicode scalar values. JavaScript strings are UTF-16 code units. So lone surrogates cannot be represented, and the `\u` escapes of surrogates are refused by the key decoder. Also, string `<` compares by code point, which differs from JavaScript's code-unit order only between characters above U+FFFF and those from U+E000 to U+FFFF.
- Malformed sessions are left out: missing or non-string fields of a catalog entry, and `songIDs` that are not integers. The three `TypeError`s the replay can actually meet are modelled.
- Numbers: JavaScript numbers are doubles, so the counters and `parseInt` are exact only up to 2^53. The model's integers are unbounded. For example, two kind suffixes that differ only beyond 2^53 tie in JavaScript but are ordered in the model.
- The accuracy `correct / outOf` is modelled as an exact fraction. Floating-point rounding could only tie two shares that differ in value, and that is not modelled.
- `Viewer.Aggregator.UpdateAlternatives`: the source skips the anime's own name inside the formatting loop. The model removes it from the set before the loop; the resulting set is the same.
- Records are values in the `data` map: the source mutates the record object and stores it back under its key. Nothing else holds a reference to the record, so no aliasing is lost.
- Comparators: a retriever that returned a string for one song and a number for the other would make `<` coerce the string to a number. Every retriever here returns one kind of value, so that coercion is not modelled.
