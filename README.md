# I Ching casting and transformation engine, in Dafny

This project models the hexagram engine of an I Ching divination
repository. The repository holds several near-duplicate copies of the same
engine, and they disagree with one another. Each copy does four things:

- it casts six line values: 6 old yin, 7 young yang, 8 young yin, 9 old yang;
- it finds the changing lines (6 and 9);
- it settles them into their opposites (6 to 7, 9 to 8) to get the relating hexagram;
- it encodes a six-line pattern as a hexagram number from 1 to 64.

The model also covers the small pieces of logic around the engine:

- the stateful `Hexagram` class;
- the `ReadingInterpreter` classes;
- the "Upper over Lower" trigram parser;
- the trigram split and lookup helper of the web frontend;
- the saved-readings history of both web frontends.

Every copy is its own module, named after its file. The coin tables, bit
orders and index bases differ from file to file and are not merged. Shared
vocabulary lives in four modules:

- `LineValues`: line values, changing lines, settling, bit patterns and their binary readings, Python slicing;
- `Text`: Python's `isspace`, `strip`, `split`, `join` and `str(n)`;
- `Draws`: injected randomness;
- `Stalks`: the "count off by fours" remainder.

Randomness is injected as inputs:

- `random.randint(lo, hi)` is `Draws.RandInt(lo, hi, d)` for an arbitrary natural `d`, and it reaches every value of the range;
- `random.random()` and `Math.random()` are a real in [0, 1);
- `random.choice([2, 3])` is a `Coin`;
- a seeded generator is an infinite stream of draws.

Storage is abstracted:

- Browser storage and JSON files become `map` and `seq` values and fields.
- A stored item is `Absent`, `Corrupt` (JSON that does not parse) or `Present`.
- Hexagram text tables are maps keyed by hexagram number, or by `str(n)` where the source keys them by string.

Code that changes state step by step is imperative Dafny:

- Loops are `method`s with invariants, proved against a specification function.
- Objects whose methods update fields are classes: `Hexagram`, both `ReadingInterpreter`s, `YarrowStalks`, both `ReadingsHistory` components and the `useReading` hook.
- The newest-first sort of the packaged history works in place on an `array`.

Python raises and JavaScript throws are modelled as `Result` or `Option` values.

`backend/core/coins.py` imports its helpers from `backend/core/yarrow.py`,
which is not part of this model. The `BackendCoins` module uses the helpers of
`divination/core/yarrow.py` in its place: its `get_changing_line_indices`,
`get_hexagram_number` and `transform_lines`, as written.

Each operation that composes the numbering helpers is modelled as written,
with the source's own helpers. Where a helper is wrong (see Findings), a
corrected twin beside it runs the corrected helper: `CastHexagramKingWen`,
`GenerateReadingCorrected`, `RelatingHexagramCorrected` and
`GenerateReadingTraditional`.

## Model

| member | source | states |
|---|---|---|
| Draws.RandInt | divination/core/yarrow.py:113 | the draw lies within the closed range [lo, hi] |
| Draws.RandIntCovers | divination/core/yarrow.py:113 | every value of the range is drawn by some choice |
| Draws.AllCoinTossesExact | backend/core/coins.py:33 | the eight listed throws are distinct and are exactly the triples of coins 2 or 3 |
| Stalks.Rem4 | divination/core/yarrow.py:116-117 | `n % 4 or 4` lies in 1..4 and leaves a multiple of 4 behind |
| Stalks.RemaindersOfSplit | divination/core/yarrow.py:116-120 | the two pile remainders add up to 2..8, and what is left is a multiple of 4 |
| LineValues.Settle | divination/core/yarrow.py:183-185 | a changing line turns into the opposite young line; any other line is kept |
| LineValues.SettleAllSettles | divination/core/yarrow.py:183-185 | the transformed lines keep the length and hold no changing line, so transforming twice is transforming once |
| LineValues.ChangingIndicesExact | divination/core/yarrow.py:150-152 | the 0-based changing indices ascend strictly and are exactly the positions that hold 6 or 9 |
| LineValues.ChangingLineNumbersExact | packages/core/src/divination.py:232 | the 1-based changing line numbers ascend strictly and are exactly the n with line n equal to 6 or 9 |
| LineValues.ChangingLineNumbersSnoc | iching/core.py:29-39 | casting one more line adds its number to the changing lines exactly when it changes |
| LineValues.SettledHasNoChangingLines | core/yarrow.py:306-324 | transformed lines have no changing indices |
| LineValues.Bits | iching/core.py:29-39 | the yin/yang pattern has one bit per line, 1 exactly for 7 and 9 |
| LineValues.LsbValueRange | divination/core/yarrow.py:155-164 | n bits read with the first bit least significant give a value in [0, 2^n) |
| LineValues.MsbValueRange | packages/core/src/divination.py:199-206 | n bits read as `int(s, 2)` reads them give a value in [0, 2^n) |
| LineValues.LsbValueInjective | divination/core/yarrow.py:155-164 | two bit patterns of one length with the same least-significant-first value are equal |
| LineValues.MsbValueInjective | iching_api/app/main.py:708-714 | two bit patterns of one length with the same `int(s, 2)` value are equal |
| LineValues.PyTake | frontend/src/hooks/useReading.ts:59 | `s[:n]` has length min(n, len s) and keeps the first elements |
| LineValues.PyDrop | packages/frontend/src/utils/trigrams.ts:39 | `s[:n] + s[n:]` gives s back |
| Text.StripEmpty | iching_api/app/main.py:297-301 | `strip()` gives the empty string exactly for all-whitespace text |
| Text.Words | iching_api/app/main.py:837 | every piece of `split()` is non-empty and free of whitespace |
| Text.CollapseShape | iching_api/app/main.py:837 | `" ".join(s.split())` keeps every non-whitespace character in order, is empty exactly when s has none, and starts and ends with one |
| Text.NatToStringRoundTrip | iching/interpreter.py:30 | the decimal digits of `str(n)` read back as n |
| Text.NatToStringInjective | backend/app/core/interpreter.py:17-19 | different numbers have different `str(n)` keys |
| DivinationCoreYarrow.TrigramNamesInvert | divination/core/yarrow.py:24-25 | TRIGRAM_NAMES inverts TRIGRAM_VALUES, and its keys are exactly 0..7 |
| DivinationCoreYarrow.GetTrigramName | divination/core/yarrow.py:365-367 | a value in 0..7 gets the name whose TRIGRAM_VALUES entry is that value; any other value gets "Unknown" |
| DivinationCoreYarrow.GetValueFromRemainder | divination/core/yarrow.py:96-102 | 4 and 5 give 3, 8 and 9 give 2, and every other count raises |
| DivinationCoreYarrow.PerformDivision | divination/core/yarrow.py:105-125 | fewer than 4 stalks raise; a success has a total remainder in {4, 5, 8, 9} and passes on the rest of the stalks |
| DivinationCoreYarrow.DivisionOutcome | divination/core/yarrow.py:105-125 | the division succeeds exactly for at least 4 stalks that are 0 or 1 modulo 4; 49 stalks give 5 or 9, a multiple of 4 gives 4 or 8, and a multiple of 4 is passed on |
| DivinationCoreYarrow.LineOf | divination/core/yarrow.py:105-140 | the sum of the three divisions' scores from the given stalks; DivisionOutcome and GenerateLine state that from 49 stalks it never raises and gives 6..9 |
| DivinationCoreYarrow.GenerateLine | divination/core/yarrow.py:128-140 | the three-stage loop from 49 stalks never raises and returns a line value 6..9 |
| DivinationCoreYarrow.GenerateHexagram | divination/core/yarrow.py:143-147 | six line values, line k cast from the k-th group of three draws |
| DivinationCoreYarrow.TrigramValue | divination/core/yarrow.py:155-164 | the value get_trigram_value returns, raising unless there are 3 lines; GetTrigramValue states that the loop computes it, in 0..7 |
| DivinationCoreYarrow.GetTrigramValue | divination/core/yarrow.py:155-164 | the bit-OR loop raises unless given 3 lines and returns a value in 0..7 whose bit i is set exactly for a yang line i |
| DivinationCoreYarrow.KingWenEntry | divination/core/yarrow.py:28-93 | each of the 64 `upper_lower` keys has an entry in 1..64, and the entry identifies its key |
| DivinationCoreYarrow.KingWenBijective | divination/core/yarrow.py:28-93 | KING_WEN_MAP maps the 64 keys one-to-one onto 1..64 |
| DivinationCoreYarrow.SwapMisplaced | divination/core/yarrow.py:66-88 | the correction swaps 38 with 50 and 48 with 60, keeps every other number, and maps 1..64 onto 1..64 |
| DivinationCoreYarrow.SwapMisplacedInvolution | divination/core/yarrow.py:66-88 | applying the correction twice changes nothing |
| DivinationCoreYarrow.KingWenCorrectedBijective | divination/core/yarrow.py:28-93 | the corrected table is still a one-to-one map of the 64 keys onto 1..64 |
| DivinationCoreYarrow.KingWenSwappedEntries | divination/core/yarrow.py:66-88 | the table as written differs from the corrected one exactly at keys 2_3, 2_6, 5_3 and 5_6 |
| DivinationCoreYarrow.HexagramNumberAsWritten | divination/core/yarrow.py:167-180 | get_hexagram_number as written: KING_WEN_MAP at the key of the two trigram values, line 1 least significant; HexagramNumberAsWrittenDefined and HexagramNumberAsWrittenInjective state its range and injectivity |
| DivinationCoreYarrow.HexagramNumberAsWrittenDefined | divination/core/yarrow.py:167-180 | as written the number is defined exactly for 6 lines, and then lies in 1..64 |
| DivinationCoreYarrow.HexagramNumberAsWrittenInjective | divination/core/yarrow.py:167-180 | as written, different yin/yang patterns of six lines still get different numbers |
| DivinationCoreYarrow.GetHexagramNumber | divination/core/yarrow.py:155-180 | the corrected numbering: line 1 as the top bit and the four misplaced numbers put back; HexagramNumberDefined and HexagramNumberInjective state its range and injectivity |
| DivinationCoreYarrow.HexagramNumberDefined | divination/core/yarrow.py:155-180 | with line 1 as the top bit and the four misplaced numbers put back, the number is defined exactly for 6 lines, and then lies in 1..64 |
| DivinationCoreYarrow.HexagramNumberInjective | divination/core/yarrow.py:155-180 | with the same corrections, different yin/yang patterns of six lines get different numbers |
| DivinationCoreYarrow.HexagramNumberExamples | divination/core/yarrow.py:39-40 | with the corrections, all yang gives 1, all yin gives 2, Heaven below Earth gives 11 and Earth below Heaven gives 12 |
| DivinationCoreYarrow.SliceCasesAsWritten | divination/core/yarrow.py:406-442 | as written the self-test's four line lists get 1, 2, 11 and 12 |
| DivinationCoreYarrow.FirstFailure | divination/core/yarrow.py:406-442 | the asserts run in order: no failure exactly when every case passes, otherwise the first case that fails after all earlier ones passed |
| DivinationCoreYarrow.LineOfThreeDraws | divination/core/yarrow.py:105-140 | three draws from the 49 working stalks always give a line value 6..9, so generate_line never raises |
| DivinationCoreYarrow.DrawnLine | divination/core/yarrow.py:105-140 | the line value generate_line gives for three draws, always one of 6..9 |
| DivinationCoreYarrow.GetReadingAsWritten | divination/core/yarrow.py:205-249 | an empty table gives "Failed to load hexagram data"; any loaded table gives "Error generating reading: name 'changing_lines' is not defined", so no call returns a reading |
| DivinationCoreYarrow.GetReading | divination/core/yarrow.py:205-249 | with changing_lines read as changing_indices: no data gives the load error; the cast holds the lines drawn from each group of three draws, numbered by get_hexagram_number as written, in 1..64; the reading succeeds exactly when the cast's numbers are in the data; the transformed fields and hexagram are present exactly when there are changing lines; a missing entry gives "Error generating reading: " and the missing number |
| DivinationCoreYarrow.SliceTestOutcome | divination/core/yarrow.py:406-442 | the test reports "Slice logic test passed." exactly when every case passes, and otherwise "Slice logic test failed: " with the empty text of a bare AssertionError |
| DivinationCoreYarrow.SliceTestAsWrittenFails | divination/core/yarrow.py:406-442 | as written the third assert fails, since [7,7,7,8,8,8] gets 11 and not the expected 12, so the test reports failure |
| DivinationCoreYarrow.SliceTestCorrectedPasses | divination/core/yarrow.py:406-442 | with 11 and 12 expected the other way round every case passes, with the table as written and with the corrected numbering |
| DivinationCoreYarrow.TrigramBitOrderAsWritten | divination/core/yarrow.py:155-164 | as written, the Thunder picture reads as Mountain's value, and one yang line under five yin lines is numbered 15 instead of 24 |
| DivinationCoreYarrow.CorrectedValuesMatchNames | divination/core/yarrow.py:24 | read with line 1 as the top bit, each trigram's picture gives its TRIGRAM_VALUES entry |
| CoreYarrow.GetValueFromRemainder | core/yarrow.py:25-31 | 4 and 5 give 3, 8 and 9 give 2, and every other count raises |
| CoreYarrow.Piles | core/yarrow.py:47-57 | the left pile lies in 1..stalks-1; the right pile, less the finger stalk, is never negative |
| CoreYarrow.PerformDivision | core/yarrow.py:34-77 | fewer than 2 stalks raise; a success has a total remainder 3..9, and passes on the rest as a multiple of 4 |
| CoreYarrow.DivisionOutcome | core/yarrow.py:34-77 | from 49 stalks the remainder is 5 or 9, and from a positive multiple of 4 it is 4 or 8 |
| CoreYarrow.LineOf | core/yarrow.py:80-118 | the line three draws give, the stage sum; GenerateOneLine states that it is a line value 6..9 |
| CoreYarrow.GenerateOneLine | core/yarrow.py:80-118 | the three-stage loop never reaches the ValueErrors and returns a line value 6..9 |
| CoreYarrow.GenerateHexagram | core/yarrow.py:121-158 | six line values, line k cast from the k-th group of three draws |
| CoreYarrow.GetTrigramName | core/yarrow.py:181-201 | the trigram names agree with those of divination/core/yarrow.py, "Unknown" outside 0..7 |
| CoreYarrow.KingWenAsWrittenRange | core/yarrow.py:224-289 | every value the duplicate-key dict keeps lies in 1..64 |
| CoreYarrow.HexagramNumberAsWritten | core/yarrow.py:204-303 | get_hexagram_number as written: the duplicate-key dictionary, or the bitwise value plus one; HexagramNumberAsWrittenRange and HexagramNumberAsWrittenCollides state its range and its collisions |
| CoreYarrow.HexagramNumberAsWrittenRange | core/yarrow.py:204-303 | as written the number lies in 1..64; all yang gives 1 and all yin gives 2 |
| CoreYarrow.HexagramNumberAsWrittenCollides | core/yarrow.py:224-303 | as written two different patterns both get hexagram 4 |
| CoreYarrow.GetHexagramNumber | core/yarrow.py:204-303 | the corrected numbering; GetHexagramNumberKingWen states that it is the King Wen number and injective |
| CoreYarrow.GetHexagramNumberKingWen | core/yarrow.py:204-303 | the corrected number equals the King Wen number of divination/core/yarrow.py, lies in 1..64 and tells patterns apart |
| CoreYarrow.GetTransformedLines | core/yarrow.py:306-324 | the append loop returns the lines with 6 turned to 7 and 9 to 8 and nothing else changed |
| CoreYarrow.CastHexagram | core/yarrow.py:482-524 | lines and changing indices of the cast; the primary and transformed numbers are get_hexagram_number as written, in 1..64; the lower trigram comes from lines[:3] and the upper from lines[3:]; the transformed lines and number are present exactly when there are changing lines |
| CoreYarrow.CastHexagramKingWen | core/yarrow.py:482-524 | the same cast, with both numbers the King Wen numbers of divination/core/yarrow.py |
| DivinationYarrow.LineFromDraw | divination/yarrow.py:43-52 | the threshold cascade always gives a line value 6..9 |
| DivinationYarrow.LineFromDrawBand | divination/yarrow.py:43-52 | each value is produced exactly on its band of draws |
| DivinationYarrow.BandWidths | divination/yarrow.py:12-17 | the bands tile [0, 1) with widths 1/16, 5/16, 7/16 and 3/16 for 6, 7, 8 and 9 |
| DivinationYarrow.LineFromDrawMonotone | divination/yarrow.py:43-52 | a larger draw never gives a smaller line value |
| DivinationYarrow.LinesFrom | divination/yarrow.py:54-61 | six line values, one draw per line |
| DivinationYarrow.YarrowStalks.GenerateSingleLineValue | divination/yarrow.py:27-52 | consumes one draw of the generator and maps it through the cascade |
| DivinationYarrow.YarrowStalks.GenerateHexagram | divination/yarrow.py:54-61 | consumes six draws, in order, one per line |
| DivinationYarrow.SameSeedSameHexagram | divination/yarrow.py:19-25 | two instances built on the same seed cast the same hexagram |
| BackendCoins.ValueMapPermutes | backend/core/coins.py:37 | value_map is defined exactly on 6..9 and permutes {6, 7, 8, 9} |
| BackendCoins.TossThreeCoins | backend/core/coins.py:27-41 | the lookup never raises and gives a line value 6..9 |
| BackendCoins.OutcomeCounts | backend/core/coins.py:33-38 | over the 8 coin triples, one gives 8, three give 7, three give 9 and one gives 6 |
| BackendCoins.GenerateHexagram | backend/core/coins.py:43-66 | the append loop gives six line values, line k from throw k |
| BackendCoins.GetReading | backend/core/coins.py:71-117 | no data gives the load error; the cast is numbered by get_hexagram_number as written, in 1..64; the reading succeeds exactly when the cast's numbers are in the data; the transformed fields and hexagram are present exactly when there are changing lines; a missing entry gives "Error generating reading: " and the missing number |
| DivinationCoins.ValueMapPermutes | divination/core/coins.py:33 | value_map is defined exactly on 6..9, keeps 6 and 9, and swaps 7 and 8 |
| DivinationCoins.TossThreeCoins | divination/core/coins.py:23-37 | the lookup never raises and gives a line value 6..9 |
| DivinationCoins.OutcomeProportions | divination/core/coins.py:4-7 | the counts over the 8 coin triples are the 2/16, 6/16, 6/16, 2/16 proportions of the module docstring |
| DivinationCoins.OutcomeCounts | divination/core/coins.py:29-34 | over the 8 coin triples, one gives 6, three give 8, three give 7 and one gives 9 |
| DivinationCoins.GenerateHexagram | divination/core/coins.py:39-64 | the append loop gives six line values, line k from throw k |
| DivinationCoins.GetReading | divination/core/coins.py:67-106 | no data gives the load error; the cast is numbered by get_hexagram_number as written, in 1..64; the reading succeeds exactly when the cast's numbers are in the data; the transformed fields and hexagram are present exactly when there are changing lines; a missing entry gives "Error generating reading: " and the missing number |
| PackagesDivination.GenerateLine | packages/core/src/divination.py:167-175 | "coin" maps the sum of three coins to itself, any other mode keeps the pick; the result is a line value 6..9 |
| PackagesDivination.CoinLineCounts | packages/core/src/divination.py:167-175 | over the 8 coin triples the coin mode gives one 6, three 7s, three 8s and one 9 |
| PackagesDivination.BinaryString | packages/core/src/divination.py:179 | the binary string has one character per line, line 1 first, '1' exactly for 7 and 9 |
| PackagesDivination.BinaryStringInjective | packages/core/src/divination.py:179 | equal binary strings come from equal yin/yang patterns |
| PackagesDivination.GetTrigramForLines | packages/core/src/divination.py:177-180 | the key found is always a trigram of the table |
| PackagesDivination.TrigramForLinesNames | packages/core/src/divination.py:148-157 | every three-line string is a key, so the "heaven" default is never used, and the corrected table names the trigram of divination/core/yarrow.py |
| PackagesDivination.TrigramForLinesInjective | packages/core/src/divination.py:148-157 | different three-line patterns give different trigrams |
| PackagesDivination.WindLakeAsWritten | packages/core/src/divination.py:154-156 | as written the Wind picture is looked up as lake and the Lake picture as wind |
| PackagesDivination.TrigramForLinesAsWrittenNames | packages/core/src/divination.py:177-180 | as written every three-line string is a key, and the key names the trigram of divination/core/yarrow.py with Wind and Lake exchanged |
| PackagesDivination.GetTrigramsForHexagram | packages/core/src/divination.py:182-197 | get_trigrams_for_hexagram as written: both trigrams come from the as-written BINARY_TO_TRIGRAM, so each is a trigram of the table; TrigramsForHexagramNames states their names |
| PackagesDivination.TrigramsForHexagramNames | packages/core/src/divination.py:182-197 | the lower trigram comes from lines[:3] and the upper from lines[3:], each named as divination/core/yarrow.py names it with Wind and Lake exchanged |
| PackagesDivination.TrigramsForHexagramCorrectedNames | packages/core/src/divination.py:148-157 | with the corrected dictionary the two trigrams carry exactly the names of divination/core/yarrow.py |
| PackagesDivination.Rev3OfMsbValue | packages/core/src/divination.py:199-217 | reversing three bits turns the most-significant-first value into the least-significant-first one |
| PackagesDivination.KingWenTableAgrees | packages/core/src/divination.py:199-217 | the decimal table equals the corrected King Wen table of divination/core/yarrow.py, entry for entry |
| PackagesDivination.KingWenTableInjective | packages/core/src/divination.py:199-217 | the 64 decimal keys get 64 different numbers |
| PackagesDivination.CalculateHexagramNumberKingWen | packages/core/src/divination.py:199-217 | with line 1 least significant the default 1 is never used, and the number is the King Wen number in 1..64 |
| PackagesDivination.CalculateHexagramNumberInjective | packages/core/src/divination.py:199-217 | different yin/yang patterns get different numbers |
| PackagesDivination.CalculateHexagramNumberExamples | packages/core/src/divination.py:206-213 | all yang (63) gives 1, all yin (0) gives 2, and one yang line at the bottom gives 24 |
| PackagesDivination.CalculateHexagramNumberAsWritten | packages/core/src/divination.py:199-217 | calculate_hexagram_number as written: `int(binary, 2)` looked up in the decimal table, default 1; CalculateHexagramNumberReversed, CalculateHexagramNumberAsWrittenKingWen and CalculateHexagramNumberAsWrittenInjective state its values |
| PackagesDivination.CalculateHexagramNumberReversed | packages/core/src/divination.py:199-217 | as written one yang line at the bottom is read as decimal 32 and numbered 23 |
| LineValues.MsbValueFlip | packages/core/src/divination.py:201-202 | reading bits as `int(s, 2)` does gives the value of the reversed bits read first bit least significant |
| PackagesDivination.CalculateHexagramNumberAsWrittenKingWen | packages/core/src/divination.py:199-217 | as written six lines never reach the default 1: the number is the King Wen number, in 1..64, of the hexagram turned upside down |
| PackagesDivination.CalculateHexagramNumberAsWrittenInjective | packages/core/src/divination.py:199-217 | as written, different yin/yang patterns of six lines still get different numbers |
| PackagesDivination.CastLines | packages/core/src/divination.py:219-232 | the six lines of generate_reading are line values, and their number lies in 1..64, as written and corrected |
| PackagesDivination.RelatingHexagram | packages/core/src/divination.py:246-254 | the relating hexagram is the entry of the settled lines' number as written, if present, with their trigrams as written |
| PackagesDivination.GenerateReading | packages/core/src/divination.py:219-277 | numbers the lines as written, in 1..64; fails with "Hexagram N not found in readings data" exactly when that number is missing; the result has the cast lines, their 1-based changing lines, the primary entry with its trigrams as written, and a relating hexagram only when lines change |
| PackagesDivination.RelatingHexagramCorrected | packages/core/src/divination.py:246-254 | with the corrected number and trigrams, the relating hexagram is the entry of the settled lines' King Wen number, if present |
| PackagesDivination.GenerateReadingCorrected | packages/core/src/divination.py:219-277 | the same reading with the King Wen numbers of divination/core/yarrow.py and the corrected trigram dictionary |
| PackagesDivination.ReadingChangingLines | packages/core/src/divination.py:232-254 | the changing lines are exactly the 1-based positions of 6 and 9; with a relating hexagram, exactly those lines differ after settling |
| PackagesFrontendTrigrams.FindFirst | packages/frontend/src/utils/trigrams.ts:30-35 | `find` returns the first matching candidate, every earlier one failing to match, and returns nothing only when no candidate matches |
| PackagesFrontendTrigrams.MatchesExactly | packages/frontend/src/utils/trigrams.ts:31-33 | a trigram matches exactly when the first three input lines equal its lines |
| PackagesFrontendTrigrams.GetTrigramData | packages/frontend/src/utils/trigrams.ts:30-35 | the first trigram of TRIGRAMS whose lines match, or null; GetTrigramDataExact states which |
| PackagesFrontendTrigrams.GetTrigramDataExact | packages/frontend/src/utils/trigrams.ts:12-35 | [1,1,1] gives HEAVEN, [0,0,0] gives EARTH, every other pattern null, and only the first three lines are inspected |
| PackagesFrontendTrigrams.SplitHexagramToTrigrams | packages/frontend/src/utils/trigrams.ts:37-41 | the first part is the first three lines (or all of a shorter input), and the two parts concatenate back to the input |
| IchingApiMain.SplitCountOutcome | iching_api/app/main.py:634-687 | a stage count from a multiple of 4 is 4 or 8; from one below a multiple of 4 it is 3 or 7 |
| IchingApiMain.YarrowLineAsWritten | iching_api/app/main.py:634-687 | the three stage counts totalled and mapped through the if-chain with its default 6; YarrowLineAlwaysSix states that the default is always taken |
| IchingApiMain.YarrowLineAlwaysSix | iching_api/app/main.py:634-687 | the stage counts are in {4,8}, {4,8} and {3,7}, the total is 11..23, and the line is always 6 |
| IchingApiMain.YarrowStageOutcome | iching_api/app/main.py:634-687 | a corrected stage takes 5 or 9 from 49 stalks and 4 or 8 later, as core/yarrow.py does |
| IchingApiMain.YarrowLine | iching_api/app/main.py:634-687 | the corrected line is always a line value 6..9 |
| IchingApiMain.StageSumOfLeft | core/yarrow.py:80-118 | from 49 stalks or a large enough multiple of 4, each division of core/yarrow.py scores 4 less a quarter of the stalks it puts aside (the first division's finger stalk apart), so the stage sum is fixed by the stalks left at the end |
| IchingApiMain.YarrowLineAgrees | iching_api/app/main.py:634-687 | the corrected line equals the line of core/yarrow.py for the same draws |
| IchingApiMain.YarrowLineReachesNine | iching_api/app/main.py:634-687 | the corrected line reaches 9 |
| IchingApiMain.YarrowLineReachesEight | iching_api/app/main.py:634-687 | the corrected line reaches 8 |
| IchingApiMain.YarrowLineReachesSeven | iching_api/app/main.py:634-687 | the corrected line reaches 7 |
| IchingApiMain.YarrowLineReachesSix | iching_api/app/main.py:634-687 | the corrected line reaches 6 |
| IchingApiMain.YarrowLineAsWrittenDiffers | iching_api/app/main.py:634-687 | the draws that give 9 corrected give 6 as written |
| IchingApiMain.Heads | iching_api/app/main.py:694-697 | the heads count is at most the number of flips |
| IchingApiMain.CoinLines | iching_api/app/main.py:689-706 | six lines, line k equal to 6 plus the heads in throw k |
| IchingApiMain.GenerateCoinLines | iching_api/app/main.py:689-706 | the nested loops build exactly those six lines |
| IchingApiMain.CalculateHexagramNumber | iching_api/app/main.py:708-714 | `int('', 2)` raises; otherwise the number lies in [1, 64] |
| IchingApiMain.CalculateHexagramNumberSixLines | iching_api/app/main.py:708-714 | for six lines it is the line-1-first binary value plus 1, it tells patterns apart, all yin gives 1 and all yang gives 64 |
| IchingApiMain.Relate | iching_api/app/main.py:720-723 | a listed line becomes 7 if it was 6 or 8 and 8 otherwise; RelatedChangingIsSettled states that on the changing lines this is settling |
| IchingApiMain.Related | iching_api/app/main.py:716-724 | the copied lines keep their length |
| IchingApiMain.RelatingLines | iching_api/app/main.py:720-723 | the loop raises exactly on a position out of Python's index range, and otherwise builds the related lines |
| IchingApiMain.RelatedChangingIsSettled | iching_api/app/main.py:753-774 | relating a cast's own changing lines settles it |
| IchingApiMain.CalculateRelatingHexagramNumber | iching_api/app/main.py:716-724 | raises on empty lines or a bad position; otherwise numbers the related lines |
| IchingApiMain.ValidateNumber | iching_api/app/main.py:211-217 | accepts exactly the numbers 1..64 and returns them unchanged |
| IchingApiMain.ValidateChangingLines | iching_api/app/main.py:284-290 | accepts exactly the lists whose entries are all in 1..6 |
| IchingApiMain.ValidateContent | iching_api/app/main.py:297-301 | accepts exactly the text with a non-whitespace character |
| IchingApiMain.ValidateMode | iching_api/app/main.py:307-311 | accepts exactly "yarrow", "coins" and "random" |
| IchingApiMain.CastLines | iching_api/app/main.py:743-750 | every mode casts six line values 6..9, yarrow lines as _generate_yarrow_line is written |
| IchingApiMain.CastLinesTraditional | iching_api/app/main.py:743-750 | with traditional yarrow lines every mode casts six line values, and the other modes cast as written |
| IchingApiMain.YarrowReadingIsOneToSixtyFour | iching_api/app/main.py:743-774 | as written every yarrow reading is six 6s, hexagram 1, with all six lines changing and relating hexagram 64 |
| IchingApiMain.SixOldYinChange | iching_api/app/main.py:752-754 | six 6s change at line numbers 1 to 6 |
| IchingApiMain.ReadingOfLines | iching_api/app/main.py:752-800 | the reading succeeds exactly when the primary number is in the data, and otherwise fails with "Failed to convert primary hexagram: " and that number; changing lines are the 1-based positions of 6 and 9; the relating hexagram is present only with changing lines and a known relating number |
| IchingApiMain.GenerateReading | iching_api/app/main.py:727-800 | no data and an unknown mode fail with their messages; otherwise the reading of the cast lines, with its failure message, as ReadingOfLines states |
| IchingApiMain.GenerateReadingTraditional | iching_api/app/main.py:727-800 | the same reading with yarrow lines cast by the traditional method |
| IchingApiMain.Sanitize | iching_api/app/main.py:837-839 | `" ".join(s.split())[:2000]`; SanitizeShape, SanitizeKeepsInk and TakeKeepsSpacing state its bound, spacing and kept text |
| IchingApiMain.SanitizeShape | iching_api/app/main.py:837-839 | the summary has at most 2000 characters, does not start with whitespace and has no two whitespace characters side by side |
| IchingApiMain.SanitizeKeepsInk | iching_api/app/main.py:837-839 | a summary short enough keeps all its non-whitespace characters in order and ends with one |
| IchingApiMain.TakeKeepsSpacing | iching_api/app/main.py:837-839 | cutting at 2000 keeps the spacing guarantees |
| IchingApiMain.StripFences | iching_api/app/main.py:448-452 | strip, then remove a leading ```json or ``` fence and a trailing ``` fence; StripFencesRoundTrip and StripFencesUnfenced state what comes back |
| IchingApiMain.StripFencesRoundTrip | iching_api/app/main.py:448-452 | a fenced JSON text gets its body back |
| IchingApiMain.StripFencesUnfenced | iching_api/app/main.py:448-452 | text without fences is only stripped |
| IchingCore.CoinTotal | iching/core.py:18-22 | the sum of three coins is a line value 6..9 |
| IchingCore.CalculateHexagramNumber | iching/core.py:43-46 | `int("".join(str(l) for l in reversed(lines)), 2) + 1`, raising on a string `int` refuses; CalculateHexagramNumberBits and HexagramNumberOfDigits state its values |
| IchingCore.CalculateHexagramNumberBits | iching/core.py:43-46 | for bit lines, `int('', 2)` raises on no lines; otherwise the number is the lines read bottom line first as the least significant bit, plus one, in 1..2^n |
| IchingCore.JoinedBits | iching/core.py:44 | the joined `str()` of bit lines is one digit per line, top line first |
| IchingCore.BitDigitsValue | iching/core.py:44-45 | those digits, read most significant first, are the bits read bottom line first |
| IchingCore.JoinedBitsValue | iching/core.py:44-45 | for bit lines the joined string parses exactly when there are lines, to the bits' bottom-first value |
| IchingCore.HexagramNumberOfDigits | iching/core.py:43-46 | other values are joined as `str()` writes them: [10] becomes "10" and gets number 3, [2] raises |
| IchingCore.FlipLines | iching/core.py:52-55 | the loop over the changing positions flips exactly those positions of a copy of the lines |
| IchingCore.HexagramNumberSixLines | iching/core.py:43-46 | six bits give 1..64 with the top line most significant, all 0 gives 1, all 1 gives 64, and patterns are told apart |
| IchingCore.FlipPositionsExact | iching/core.py:52-55 | flipping distinct positions turns exactly those bits to 1 - b and keeps bits bits |
| IchingCore.RelatingLinesAreSettled | iching/core.py:48-61 | the relating bits are the yin/yang pattern of the settled lines |
| IchingCore.Hexagram.DivideStalks | iching/core.py:18-22 | the summing loop gives the total of the three coins |
| IchingCore.Hexagram.Generate | iching/core.py:24-41 | the previous cast is forgotten; six bit lines, 1 for totals 7 and 9; changing lines are the ascending 1-based positions of totals 6 and 9; the number is recomputed; backend/app/core/hexagram.py:24-41 is the same code |
| IchingCore.Hexagram.GetRelatingHexagram | iching/core.py:48-61 | None exactly without changing lines; otherwise a new hexagram with exactly the changing positions flipped, no changing lines and its number computed; backend/app/core/hexagram.py:48-61 is the same code |
| IchingCore.LineKeys | backend/app/core/interpreter.py:17-19 | one `str(n)` key per listed line number |
| IchingCore.FilterLines | backend/app/core/interpreter.py:13-19 | the line texts kept for the listed line numbers; FilterLinesExact states exactly which keys stay |
| IchingCore.FilterLinesExact | backend/app/core/interpreter.py:13-19 | a key is kept exactly when it is `str(n)` for a listed n with a non-empty meaning, and keeps that meaning |
| IchingCore.ReadingInterpreter.GetReading | iching/core.py:67-81 | a missing or empty entry raises KeyError; with changing lines the stored entry's lines are overwritten by the filtered texts and returned; without them the entry is returned unchanged and nothing else changes; backend/app/core/interpreter.py:8-22 is the same code |
| IchingInterpreter.LineTexts | iching/interpreter.py:25-34 | at most one text per listed line |
| IchingInterpreter.LineTextsExact | iching/interpreter.py:25-34 | each text kept is the text of a listed line; when every listed line has a text, they come in listed order |
| IchingInterpreter.ReadingInterpreter.constructor | iching/interpreter.py:4-12 | the readings table starts empty |
| IchingInterpreter.ReadingInterpreter.GetReading | iching/interpreter.py:14-34 | an unknown number gives "Invalid hexagram number"; the result is the judgment, or the joined line texts; the table is never changed |
| IchingScript.GenerateHexagram | iching/iching.py:28-29 | six values, each one of 6..9 |
| IchingScript.GetChangingLines | iching/iching.py:31-39 | the ascending 0-based indices of 6 and 9, and a transformed copy with 6 turned to 7 and 9 to 8 |
| FrontendHexagramService.YarrowLine | frontend/src/services/hexagramService.ts:68-77 | the yarrow cascade gives a line value 6..9 |
| FrontendHexagramService.CoinLine | frontend/src/services/hexagramService.ts:79-87 | the coin cascade gives a line value 6..9 |
| FrontendHexagramService.YarrowLineBands | frontend/src/services/hexagramService.ts:68-77 | each value is produced exactly on its band, of widths 3/16, 5/16, 7/16 and 1/16 for 9, 7, 8 and 6 |
| FrontendHexagramService.CoinLineQuarters | frontend/src/services/hexagramService.ts:79-87 | 9, 7, 8 and 6 are produced exactly on the four quarters of [0, 1), in that order |
| FrontendHexagramService.RandomHexagramNumber | frontend/src/services/hexagramService.ts:59 | the random number lies in 1..64 |
| FrontendHexagramService.RandomHexagramNumberCovers | frontend/src/services/hexagramService.ts:59 | every number 1..64 can be drawn |
| FrontendHexagramService.LineFor | frontend/src/services/hexagramService.ts:67-88 | either mode gives a line value 6..9 |
| FrontendHexagramService.GenerateLocalFallback | frontend/src/services/hexagramService.ts:62-143 | six lines, one per draw; 0-based changing indices; one primary number in 1..64 in all three places; transformed lines, number and relating hexagram exactly when lines change, the lines settled |
| FrontendReadingsHistory.WithoutIndex | frontend/src/components/ReadingsHistory.tsx:86-88 | `filter((_, index) => index !== k)`; WithoutIndexExact states what is dropped |
| FrontendReadingsHistory.WithoutIndexExact | frontend/src/components/ReadingsHistory.tsx:86-88 | the filter drops exactly element k and keeps the rest in order; out of range it drops nothing |
| FrontendReadingsHistory.HexagramTitleIdentifies | frontend/src/components/ReadingsHistory.tsx:108-111 | two hexagrams with the same title have the same number and name |
| FrontendReadingsHistory.GetReadingDisplayInfo | frontend/src/components/ReadingsHistory.tsx:99-124 | a primary reading gives its title; a subtitle exactly with both primary and relating, and then it is "Changing to " followed by the relating hexagram's title; otherwise "Hexagram n" for a set number, else "Unknown Reading" |
| FrontendReadingsHistory.DisplayTitlesDistinguish | frontend/src/components/ReadingsHistory.tsx:107-111 | different primary hexagrams get different titles |
| FrontendReadingsHistory.SubtitlesDistinguish | frontend/src/components/ReadingsHistory.tsx:112-117 | readings changing to different hexagrams get different subtitles |
| FrontendReadingsHistory.ReadingsHistory.constructor | frontend/src/components/ReadingsHistory.tsx:51-69 | a stored list is loaded; corrupt data removes the key and leaves the list empty |
| FrontendReadingsHistory.ReadingsHistory.ConfirmDelete | frontend/src/components/ReadingsHistory.tsx:78-81 | remembers the index and opens the alert, nothing else |
| FrontendReadingsHistory.ReadingsHistory.HandleDeleteReading | frontend/src/components/ReadingsHistory.tsx:84-96 | without a pending index nothing changes; otherwise the element is filtered out, the list stored, and the index reset |
| PackagesReadingsHistory.SortNewestFirst | packages/frontend/src/components/ReadingsHistory.tsx:53-55 | the in-place sort leaves the timestamps non-increasing and the readings a permutation of the input |
| PackagesReadingsHistory.InsertNewest | packages/frontend/src/components/ReadingsHistory.tsx:53-55 | one insertion step extends the newest-first prefix and permutes the array |
| PackagesReadingsHistory.Splice | packages/frontend/src/components/ReadingsHistory.tsx:81-82 | `splice(start, 1)` removes one element exactly when the list is non-empty and start is below its length |
| PackagesReadingsHistory.SpliceAgreesWithFilter | packages/frontend/src/components/ReadingsHistory.tsx:81-82 | splice at k removes element k like the other history's filter; a negative k counts from the end, below -length it removes the first |
| PackagesReadingsHistory.GetReadingDisplayInfo | packages/frontend/src/components/ReadingsHistory.tsx:93-115 | "Unknown" for no reading; the hexagram field wins over primary_hexagram; "Hexagram" by default; a subtitle exactly in the primary branch with a related hexagram, and then it is "Changing to Hexagram n: name", the ": " kept even for an empty name |
| PackagesReadingsHistory.DisplayTitleIdentifies | packages/frontend/src/components/ReadingsHistory.tsx:93-115 | readings with the same title show the same hexagram |
| PackagesReadingsHistory.ChangingSubtitleIdentifies | packages/frontend/src/components/ReadingsHistory.tsx:110 | the subtitle text determines the related hexagram's number and name |
| PackagesReadingsHistory.SubtitleIdentifies | packages/frontend/src/components/ReadingsHistory.tsx:108-111 | readings with the same non-empty subtitle change to the same hexagram |
| PackagesReadingsHistory.ReadingsHistory.constructor | packages/frontend/src/components/ReadingsHistory.tsx:46-64 | a stored list is loaded newest first as a permutation; otherwise the list is empty and storage untouched |
| PackagesReadingsHistory.ReadingsHistory.ConfirmDelete | packages/frontend/src/components/ReadingsHistory.tsx:73-76 | remembers the index and opens the alert, nothing else |
| PackagesReadingsHistory.ReadingsHistory.HandleDeleteReading | packages/frontend/src/components/ReadingsHistory.tsx:79-90 | without a pending index nothing changes; otherwise the copy is spliced, stored, and the index reset |
| FrontendUseReading.SaveToHistory | frontend/src/hooks/useReading.ts:44-65 | the new entry in front, cut to 20; SaveToHistoryShape and SaveAllKeepsNewest state what is kept |
| FrontendUseReading.SaveToHistoryShape | frontend/src/hooks/useReading.ts:44-65 | the new entry comes first, at most 20 are kept, and the older entries follow in order, the oldest dropped first |
| FrontendUseReading.SaveAllKeepsNewest | frontend/src/hooks/useReading.ts:44-65 | saving several readings keeps the 20 newest, newest first |
| FrontendUseReading.ReadingHook.constructor | frontend/src/hooks/useReading.ts:22-41 | mode starts as yarrow; a stored current reading is loaded, a corrupt one removed |
| FrontendUseReading.ReadingHook.SaveReadingToHistory | frontend/src/hooks/useReading.ts:44-65 | history gains the entry, bounded at 20; corrupt history stays as it is; nothing else changes |
| FrontendUseReading.ReadingHook.Generate | frontend/src/hooks/useReading.ts:68-96 | success sets and stores the reading and records it in history; failure clears reading and current key, sets the error and rethrows it; loading ends false either way |
| FrontendUseReading.ReadingHook.ChangeCastingMode | frontend/src/hooks/useReading.ts:99-102 | changes the mode and nothing else |
| FrontendUseReading.ReadingHook.LoadReading | frontend/src/hooks/useReading.ts:105-110 | sets and stores the reading, history untouched |
| FrontendUseReading.ReadingHook.ClearReading | frontend/src/hooks/useReading.ts:113-117 | clears the reading and the current key, history untouched |
| AddTrigrams.FindFrom | packages/core/src/add_trigrams.py:113 | a found position is an occurrence of the separator |
| AddTrigrams.FindFromFirst | packages/core/src/add_trigrams.py:113 | it is the first occurrence, and nothing is found only when there is none |
| AddTrigrams.Split | packages/core/src/add_trigrams.py:113 | `str.split(sep)` gives at least one piece |
| AddTrigrams.SplitJoin | packages/core/src/add_trigrams.py:113 | joining the pieces with the separator gives the text back |
| AddTrigrams.SplitTwoNames | packages/core/src/add_trigrams.py:113-116 | two space-free names around " over " split into exactly those two |
| AddTrigrams.GetTrigramsFromElement | packages/core/src/add_trigrams.py:110-129 | a result exactly for two pieces that both name trigrams, upper first |
| AddTrigrams.ParsesEveryPair | packages/core/src/add_trigrams.py:110-126 | every "U over L" of two trigram names parses to TRIGRAMS[U] over TRIGRAMS[L] |
| AddTrigrams.RefusesSinglePart | packages/core/src/add_trigrams.py:113-116 | text without " over " is refused |
| AddTrigrams.CountParsing | packages/core/src/add_trigrams.py:140-146 | the count is at most the number of records |
| AddTrigrams.CountParsingAll | packages/core/src/add_trigrams.py:140-146 | the count equals the number of records exactly when every record parses |
| AddTrigrams.Annotate | packages/core/src/add_trigrams.py:140-145 | one record after the loop body: trigrams set when the element parses; AddTrigramsToAll states the whole loop |
| AddTrigrams.AddTrigramsToAll | packages/core/src/add_trigrams.py:140-146 | the loop keeps length and order, gives each record trigrams exactly when its element parses, and counts those records |

## Left out

- File and console I/O: loading the hexagram JSON files, the API key and the prompts, writing readings.json, verbose printing. Tables are parameters.
- HTTP layers, the LLM clients, the chat and interpretation services, and their retries and locks. These are network calls and async concurrency.
- core/yarrow.py `get_reading` and `load_hexagram_data`, and iching/iching.py `get_reading`, page scraping and `main`. These read files or the network.
- divination/core/yarrow.py `print_reading`: it only prints. With no changing line it prints the whole reading; with changing lines it calls `get_transformed_lines` (line 327), a name never defined, and the NameError is caught at lines 360-362 and printed as "Unexpected error printing reading: ...".
- Probability claims about `random`, `Math.random` and `randbelow`: only the mapping from each draw and the counts over the 8 coin triples are modelled.
- Floating point: draws are exact reals in [0, 1), so the thresholds are compared exactly.
- The `seed` parameters: a seed fixes the stream of draws, which the model takes as input.
- FrontendHexagramService.GenerateLocalFallback: the primary and relating numbers are random draws unrelated to the lines, so only their range and where they appear are stated.
- IchingCore.ReadingInterpreter.GetReading: the returned dict aliases the stored entry; the model returns a value equal to the stored one.
- IchingCore.ReadingInterpreter.GetReading: `changing_lines=None` is modelled as the empty list, which the source treats the same way.
- IchingInterpreter.ReadingInterpreter.GetReading: `str()` of a judgment dict is not modelled; judgments are texts.
- PackagesReadingsHistory.ReadingsHistory.constructor: the order among readings with equal timestamps is not stated.
- PackagesReadingsHistory.ReadingsHistory.constructor: stored data that parses but is not an array is not modelled; it counts as corrupt.
- FrontendReadingsHistory.ReadingsHistory.constructor: stored data is not validated against the reading shape, as in the source; it is taken as a list of readings.
- AddTrigrams.AddTrigramsToAll: the file read and write of `main` and its error branch are not modelled; the loop works on the loaded records.
- React rendering, the history modal, `onAlertClose` and the view handlers. The alert's open state is one boolean.
- IchingScript: iching/iching.py does not parse as Python (unclosed brackets at lines 11 and 18, a misplaced indent at line 66), so the module never runs; GenerateHexagram and GetChangingLines give its two functions the meaning of their own text.
- Pydantic and Zod declarative schemas other than the four hand-written validators.
- BackendCoins.GetReading: backend/core/yarrow.py is not part of this model; the numbering of divination/core/yarrow.py as written stands in for its get_hexagram_number.
- IchingApiMain.ValidateMode: the message fixes one order of the set's elements, while Python prints a set of strings in an order that depends on string hashing.

## Findings

| source | as written | input that shows it | evidently intended | confidence | as-written member | corrected member |
|---|---|---|---|---|---|---|
| divination/core/yarrow.py:155-164 | `get_trigram_value` sets bit i for yang line i, so line 1 is the least significant bit, while TRIGRAM_VALUES numbers the pictures with line 1 as the top bit | lines [7,8,8,8,8,8] give key 0_1 and hexagram 15 | Thunder under Earth, hexagram 24 | not executed | DivinationCoreYarrow.TrigramBitOrderAsWritten | DivinationCoreYarrow.CorrectedValuesMatchNames |
| divination/core/yarrow.py:66-88 | KING_WEN_MAP gives 2_3 → 60, 2_6 → 48, 5_3 → 38 and 5_6 → 50 | key 2_3 (Wind over Water) gives 60 | the four values swapped in pairs, 48, 60, 50 and 38 | not executed | DivinationCoreYarrow.KingWenSwappedEntries | DivinationCoreYarrow.KingWenCorrectedBijective |
| core/yarrow.py:224-303 | the dict literal repeats keys, so later values overwrite earlier ones and 16 keys fall back to binary + 1 | lines [7,7,8,8,8,8] and [7,7,7,8,7,8] both give 4 | one King Wen number per pattern | not executed | CoreYarrow.HexagramNumberAsWrittenCollides | CoreYarrow.GetHexagramNumberKingWen |
| packages/core/src/divination.py:199-217 | `int(binary, 2)` reads line 1 as the most significant bit, but the table's keys put line 1 last | lines [7,8,8,8,8,8] give decimal 32 and hexagram 23 | hexagram 24, Return | not executed | PackagesDivination.CalculateHexagramNumberReversed | PackagesDivination.CalculateHexagramNumberKingWen |
| packages/core/src/divination.py:154-156 | BINARY_TO_TRIGRAM maps "011" to lake and "110" to wind, reading the string top line first | the Wind picture (yin at the bottom) is looked up as lake | Wind as wind, Lake as lake | not executed | PackagesDivination.WindLakeAsWritten | PackagesDivination.TrigramForLinesNames |
| divination/core/yarrow.py:406-442 | the self-test expects 12 for [7,7,7,8,8,8] and 11 for [8,8,8,7,7,7] | [7,7,7,8,8,8] is looked up as "0_7" and gets 11, so the third assert fails and the test prints its failure | 11 for Heaven below Earth (Peace) and 12 for Earth below Heaven (Standstill), which the table already gives | not executed | DivinationCoreYarrow.SliceTestAsWrittenFails | DivinationCoreYarrow.SliceTestCorrectedPasses |
| iching_api/app/main.py:634-687 | the stage counts are 4 or 8, 4 or 8, then 3 or 7, so the total is 11..23 and the line is always the default 6 | any draws, e.g. all piles split at the smallest value | the classic three stages giving 6, 7, 8 or 9 | not executed | IchingApiMain.YarrowLineAlwaysSix | IchingApiMain.YarrowLineAgrees |
| divination/core/yarrow.py:205-249 | `get_reading` tests `changing_lines` (line 231), a name never defined, and the except clause at 248-249 catches the NameError | any draws with a loaded table give {"error": "Error generating reading: name 'changing_lines' is not defined"} | test the `changing_indices` computed at line 220 | not executed | DivinationCoreYarrow.GetReadingAsWritten | DivinationCoreYarrow.GetReading |
