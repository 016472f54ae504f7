# Riichi mahjong core, modelled in Dafny

This project models the rules core of a riichi mahjong program. The program has two parts:

- The `mahjong` package:
  - the meld codes of the Tenhou log format (`utils.py`);
  - the builders of the winning-shape table and the waiting-shape table (`make_agari_table.py`, `make_machi_table.py`);
  - the table look-ups that decide whether a hand wins, which tiles it waits on and which discards leave it ready (`check_agari.py`);
  - the scorer that turns a winning hand into yaku, han, fu and points (`yaku.py`);
  - the per-seat state of a player (`agent.py`);
  - the table state of one game: wall, dora, deals, calls, draws, discards and riichi (`game.py`).
- The online server:
  - its hand settlement and end-of-game test (`game_update`);
  - the rule that bans some discards straight after a call;
  - the small helpers its web client uses to lay tiles out (`render.js`).

The model follows each file's own form:

- Pure computations are datatypes, functions and lemmas.
- Loops are methods with invariants, each proved equal to a specification function.
- `AutoCleanCounter`, the `Yaku` scorer, `Agent`, `MahjongGame` and the server's game environment are classes. Their methods update fields and state their whole new state.
- The pickled tables are parameters of the functions that read them:
  - `AgariTables` holds the winning-shape table (key to comma-separated hex payloads) and the thirteen-orphans keys.
  - `MachiTables` holds the waiting-shape keys.
  - The lemmas about look-ups assume tables built as the builders build them (`StandardBuilt`, `KokushiBuilt`, `MachiBuilt`).

Modules, one per file:

| module | file |
|---|---|
| `Common` | `common.dfy` |
| `Bits` | `bits.dfy` |
| `Utils` | `utils.dfy` |
| `PatternKey` | `keys.dfy` |
| `AgariTable` | `agari_table.dfy` |
| `HexList` | `hexlist.dfy` |
| `MachiTable` | `machi_table.dfy` |
| `CheckAgari` | `check_agari.dfy` |
| `YakuRules` | `yaku.dfy` |
| `YakuScore` | `yaku_score.dfy` |
| `YakuHand` | `yaku_hand.dfy` |
| `AgentModel` | `agent.dfy` |
| `GameRules` | `game_rules.dfy` |
| `GameModel` | `game.dfy` |
| `Server` | `server.dfy` |
| `Render` | `render.dfy` |

Python's bit operations on non-negative integers are `Bits.And`, `Bits.Or` and `Bits.Shl`. Field reads are `Bits.Field(m, lo, w) = (m / 2^lo) % 2^w`.

## Model

| member | source | states |
|---|---|---|
| Utils.Counter.Put | mahjong/utils.py:8-13 | storing a count sets that key, keeps every other key's count and presence |
| Utils.Counter.Delete | mahjong/utils.py:8-13 | deleting a key makes its count 0 and absent, every other key unchanged |
| Utils.Counter.CleanPut | mahjong/utils.py:8-13 | `AutoCleanCounter.__setitem__`: the key reads the new value; it is stored exactly when the value is non-zero, so a counter with no stored zero keeps none; other keys unchanged |
| Utils.FromListCounts | mahjong/utils.py:8-13 | a counter built from a list is well formed, stores no zero, and counts each key as often as the list holds it |
| Utils.AutoCleanCounter.constructor | mahjong/utils.py:8-13 | the new counter's contents are the counts of the given list |
| Utils.AutoCleanCounter.SetItem | mahjong/utils.py:9-13 | the new contents are the old ones with the zero-dropping store applied |
| Utils.TripletIds | mahjong/utils.py:61-84 | the three ids of a triplet are increasing, lie in the kind's four ids and all differ from the unused id |
| Utils.ToFront | mahjong/utils.py:110-113 | moving the claimed tile to the front keeps the same three ids and puts the chosen one first |
| Utils.ParseMeld | mahjong/utils.py:50-126 | `parse_meld` returns nothing exactly when bits 2, 3 and 4 are clear and bit 5 is set; otherwise the meld's source seat is `m & 3`, its kind is 0..4 and it has at least three ids |
| Utils.ParseSequence | mahjong/utils.py:51-59 | a chi code gives three consecutive kinds of one suit starting at `(t/3)/7*9 + (t/3)%7` with each id's copy from bits 3-8, and the claimed id at position `t % 3` |
| Utils.ParseTriplet | mahjong/utils.py:61-84 | a pon code gives three increasing ids of kind `t/3` that skip the unused copy, and the claimed id at position `t % 3` |
| Utils.ParseTripletCode | mahjong/utils.py:61-84 | the same, as one equation on the code's three fields |
| Utils.ParseAddedKan | mahjong/utils.py:86-114 | an added-kan code gives the pon's three ids with the claimed one first, and the added id, which is not among them |
| Utils.ParseKan | mahjong/utils.py:116-126 | a kan code gives the four ids of one kind; it is an open kan (kind 3) exactly when the source seat is not 0, and a closed kan (kind 4) otherwise, with the odd-id adjustment of a closed kan |
| Utils.EncodeShunzi | mahjong/utils.py:16-24 | the loop computes the chi code function `ShunziCode` |
| Utils.ShunziCodeValue | mahjong/utils.py:16-24 | the chi code's value, as a sum of its fields |
| Utils.ShunziFields | mahjong/utils.py:16-24 | the chi code's fields, read back as `parse_meld` reads them |
| Utils.ShunziRoundTrip | mahjong/utils.py:16-59 | for a run starting at kind 0..6, `parse_meld(encode_shunzi(ids, t))` returns the same ids, the claimed tile and source seat 3 |
| Utils.ShunziMisdecodedAboveSix | mahjong/utils.py:16-59 | for a run starting at kinds 7..20, the encoder writes the kind index where the parser expects a suit-times-seven index, so the decoded first kind is shifted by two per seven and differs |
| Utils.KeziRoundTripKindZero | mahjong/utils.py:27-84 | for kind 0, `parse_meld(encode_kezi(..))` returns the triplet, the claimed tile and the source `where % 4` |
| Utils.KeziParse | mahjong/utils.py:61-84 | a pon code of kind 0 parses to the triplet without the unused copy, the claimed id and the source |
| Utils.KeziCodeValue | mahjong/utils.py:27-36 | the pon code's value for kind 0, as a sum of its fields |
| Utils.KeziFields | mahjong/utils.py:27-36 | the pon code's fields, read back as `parse_meld` reads them |
| Utils.KeziNegativeAboveKindZero | mahjong/utils.py:27-36 | above kind 0, the encoder's unused-copy term is negative, so the code is negative and no meld code at all |
| Utils.KanziRoundTrip | mahjong/utils.py:39-47 | for an open or closed kan, `parse_meld(encode_kanzi(..))` returns the four ids; open kans keep the claimed tile and source, closed ones report the first id and source 0 |
| Utils.KanziCodeValue | mahjong/utils.py:39-47 | the kan code's value, as a sum of its fields |
| Utils.KanFields | mahjong/utils.py:39-47 | the kan code's fields, read back as `parse_meld` reads them |
| Utils.AddedKanReadsAsPon | mahjong/utils.py:39-42 | an added-kan code built on a pon code still has bit 3 set, so `parse_meld` reads it as a pon (kind 1) |
| Utils.GetDoraIsNextKind | mahjong/utils.py:129-140 | the dora is the next kind after the indicator's, cyclically within its suit, its winds or its dragons, and never the indicator's own kind |
| Utils.GetDoraInjective | mahjong/utils.py:129-140 | two indicators give the same dora only when they are of the same kind |
| PatternKey.WriteCounts | mahjong/make_agari_table.py:54-66 | the per-count bit loop appends exactly the specified bit stream to the key |
| PatternKey.CalcKey | mahjong/make_agari_table.py:50-67 | `calc_key` computes the key function `KeyOf` of the pattern |
| PatternKey.StreamInjective | mahjong/make_agari_table.py:50-67 | two well-formed patterns with the same bit stream are equal |
| PatternKey.KeyInjective | mahjong/make_agari_table.py:50-67 | two well-formed patterns (counts 1..4) with the same key are equal, so the table key identifies its shape |
| PatternKey.KeyZeroAsOne | mahjong/make_agari_table.py:54-64 | a count of 0 inside a group writes the same bits as a count of 1 |
| PatternKey.ToPattern | mahjong/make_agari_table.py:153-170 | `to_pattern` computes the grouping function `Pattern` of the 34 counts |
| PatternKey.ItemsSpec | mahjong/make_agari_table.py:153-170 | the listed items are exactly the non-zero kinds, in increasing order, with their counts |
| PatternKey.PatternKeepsCounts | mahjong/make_agari_table.py:153-170 | the pattern lists the non-zero counts in kind order, so its total is the hand's tile count |
| PatternKey.GroupItemsSegmented | mahjong/make_agari_table.py:153-170 | groups are maximal runs of adjacent number kinds of one suit |
| PatternKey.HonorsAlone | mahjong/make_agari_table.py:161-166 | an honour kind is always a group on its own |
| PatternKey.PatternWellFormed | mahjong/make_agari_table.py:153-170 | a hand with counts 0..4 gives a well-formed pattern |
| PatternKey.PatternKeyDistinct | mahjong/make_agari_table.py:50-67 | two hands share a key only when they share a pattern |
| PatternKey.PatternKeyDefined | mahjong/make_agari_table.py:50-67 | every hand's pattern has a key |
| AgariTable.PermutationsKeep | mahjong/make_agari_table.py:15 | every permutation keeps the multiset of groups |
| AgariTable.OverlayAt | mahjong/make_agari_table.py:23-37 | the overlay loop computes `Overlay` and keeps the total count |
| AgariTable.Ptn | mahjong/make_agari_table.py:12-38 | every pattern `ptn` returns is derived from the input by permuting and merging groups; a one-group input returns itself; otherwise the result starts with all permutations |
| AgariTable.MergePair | mahjong/make_agari_table.py:23-37 | every merge of two groups, and every pattern derived from it, is derived from the input |
| AgariTable.Unique | mahjong/make_agari_table.py:41-47 | the result has the same elements as the input and no repeats |
| AgariTable.Decompose | mahjong/make_agari_table.py:73-103 | one decomposition try computes `TryOf`; when it succeeds, the triplets and sequences it took with the chosen pair explain the whole pattern; triplets increase and sequences are sorted |
| AgariTable.ScanAll | mahjong/make_agari_table.py:83-103 | the triplet and sequence scan computes `ScanOf` and keeps the accounting of taken tiles |
| AgariTable.StraightScan | mahjong/make_agari_table.py:124-135 | bit 28 is set exactly when one group holds the three sequences of a pure straight |
| AgariTable.PackLoop | mahjong/make_agari_table.py:104-112 | the 4-bit position loop computes `PackFrom` and advances the length by 4 per entry |
| AgariTable.PackPayload | mahjong/make_agari_table.py:104-142 | the whole packing computes the payload function `Payload` |
| AgariTable.DoublesFlags | mahjong/make_agari_table.py:136-142 | bit 29 is set for two double sequences and bit 30 for one |
| AgariTable.ExplainsPackable | mahjong/make_agari_table.py:73-112 | a decomposition of a 14-tile shape with non-zero counts has four melds and positions that fit in their fields |
| AgariTable.PayloadLayout | mahjong/make_agari_table.py:104-112 | a packable payload is the disjoint composition of its fields |
| AgariTable.FlagsLayout | mahjong/make_agari_table.py:113-142 | the four flag bits 27-30 compose with the 27 low bits without overlap |
| AgariTable.PayloadNonNegative | mahjong/make_agari_table.py:104-142 | payloads are non-negative |
| AgariTable.TryPair | mahjong/make_agari_table.py:75-142 | the tries for one pair choice return `TryPayloads`, each of which parses back to a decomposition |
| AgariTable.DecomposedPayload | mahjong/make_agari_table.py:104-142 | the payload of a decomposition is non-negative and parses back to one |
| AgariTable.FindPayloads | mahjong/make_agari_table.py:73-142 | the try loop returns exactly `Tries(a)`, the successful tries' payloads in loop order, each of which parses back to a decomposition |
| AgariTable.FindHaiPos | mahjong/make_agari_table.py:70-150 | `find_hai_pos` returns nothing exactly when no try succeeds and the shape is not seven pairs; otherwise its hex list parses back to distinct payloads: the set of `Tries(a)`, or the lone seven-pairs payload `1 << 26` |
| AgariTable.DistinctCountSpec | mahjong/make_agari_table.py:41-47 | the number of distinct values is at most the length, and equals it exactly when there are no repeats |
| AgariTable.SeedTotal | mahjong/make_agari_table.py:184-198 | a seed with m melds and a pair holds 3m + 2 tiles |
| AgariTable.SeedsShapes | mahjong/make_agari_table.py:184-198 | the fifteen seeds are seed shapes of 14, 11, 8, 5 and 2 tiles |
| AgariTable.KokushiKeys | mahjong/make_agari_table.py:205-210 | the thirteen thirteen-orphans keys are the keys of the thirteen patterns with one doubled orphan, pairwise distinct |
| AgariTable.KokushiDistinct | mahjong/make_agari_table.py:205-210 | two different doubled orphans give different keys |
| HexList.HexRoundTrip | mahjong/make_agari_table.py:145-147 | reading a written hex number returns it |
| HexList.SplitJoin | mahjong/yaku.py:131-132 | splitting a joined list on commas returns the hex strings |
| HexList.JoinRoundTrip | mahjong/make_agari_table.py:145-147 | parsing the comma-joined hex list returns the payloads |
| MachiTable.RemoveOneFromPtn | mahjong/make_machi_table.py:8-42 | `remove_one_from_ptn` returns exactly `Removals(a)`: the one-tile removals it appends, in loop order, with the caller's list left as it was |
| MachiTable.RemovedFrom | mahjong/make_machi_table.py:14-41 | the repair of one lowered count computes `RemovedAt` |
| MachiTable.RemovedTotal | mahjong/make_machi_table.py:8-42 | each removal has one tile fewer |
| MachiTable.RemovalsTotal | mahjong/make_machi_table.py:8-42 | every returned pattern has one tile fewer than the input |
| MachiTable.RemovalsMembers | mahjong/make_machi_table.py:8-42 | the returned patterns are exactly the removals of the appended entries: a count above 1, a lone group's count, or an interior count |
| MachiTable.RemovalsCount | mahjong/make_machi_table.py:8-42 | one pattern per non-zero count, less one per 1 at either end of a group of two or more, since the trimmed copy is never appended |
| MachiTable.EndTrimsDropped | mahjong/make_machi_table.py:24-41 | for `[[1, 1, 1], [2]]` only 2 of the 4 removals are returned |
| MachiTable.TwoSidedWaitDropped | mahjong/make_machi_table.py:24-41 | the two-sided wait `[[1, 1], [2]]` is an intended removal of `[[1, 1, 1], [2]]` but is not returned |
| MachiTable.IntendedCount | mahjong/make_machi_table.py:8-42 | with the append applied to the trimmed ends too, there is one pattern per non-zero count |
| MachiTable.IntendedMembers | mahjong/make_machi_table.py:8-42 | the intended list holds exactly the removals of the non-zero counts |
| MachiTable.IntendedTotal | mahjong/make_machi_table.py:8-42 | every intended pattern has one tile fewer than the input |
| MachiTable.RemovalsIntended | mahjong/make_machi_table.py:8-42 | every returned pattern is in the intended list |
| MachiTable.RemovedCases | mahjong/make_machi_table.py:17-41 | the five cases: lower a count above 1, drop a lone group, trim a group's end, or leave a 0 between two non-zero counts |
| MachiTable.InteriorZeroKey | mahjong/make_machi_table.py:28-41 | removing an interior single tile leaves a 0 that keys like the original pattern |
| MachiTable.RemovedWellFormed | mahjong/make_machi_table.py:8-42 | a removal stays well formed exactly when it is not the interior-single case |
| CheckAgari.ReadIsField | mahjong/check_agari.py:17-30 | each masked shift read is the bit field it names |
| CheckAgari.ParsePayload | mahjong/check_agari.py:17-30 | `parse_agari_info` of a packed payload returns the meld counts, pair, four positions and the four flags that were packed |
| CheckAgari.ParseDecomposition | mahjong/check_agari.py:17-30 | parsing the payload of a decomposition gives four melds, its pair and no seven-pairs flag |
| CheckAgari.IsAgariPayloads | mahjong/check_agari.py:33-44 | a payload answer parses to a list of payloads that all hold for the hand's pattern |
| CheckAgari.IsAgariKokushi | mahjong/check_agari.py:33-44 | a thirteen-orphans answer means 14 orphan tiles in one of the thirteen orphan patterns |
| CheckAgari.CheckMachiSound | mahjong/check_agari.py:47-55 | a ready key is a one-tile removal of a winning shape |
| CheckAgari.CheckRiichi | mahjong/check_agari.py:58-73 | returns exactly the kinds (in counter order) whose discard leaves the hand ready, or whether one exists |
| CheckAgari.TryDiscard | mahjong/check_agari.py:63-70 | one try is a hit exactly when the kind is held and the lowered hand is ready |
| CheckAgari.RiichiKindsSpec | mahjong/check_agari.py:58-73 | a kind is listed exactly when it is a counter key, held, and leaves the hand ready |
| CheckAgari.Machi | mahjong/check_agari.py:76-86 | the waits are exactly the kinds not held four times whose addition wins |
| CheckAgari.MachiSound | mahjong/check_agari.py:76-86 | each wait completes a winning pattern or a thirteen-orphans pattern |
| YakuRules.MasksAreFields | mahjong/yaku.py:45-54 | each mask is the field at its shift and width |
| YakuRules.ClassifyCalls | mahjong/yaku.py:93-102 | the calls split into pons, chis, open kans and closed kans, each in call order |
| YakuRules.OfTypeSpec | mahjong/yaku.py:93-102 | a kind is listed for a type exactly when a call of that type has that head kind |
| YakuRules.ClassifyPartition | mahjong/yaku.py:93-102 | the four lists together hold as many entries as there are calls |
| YakuRules.DoraHitsSplit | mahjong/yaku.py:106-115 | dora hits of a concatenation add up |
| YakuRules.AkaSplit | mahjong/yaku.py:112-115 | the red count is the number of occurrences of ids 16, 52 and 88 |
| YakuRules.AkaAtMostThree | mahjong/yaku.py:112-115 | distinct ids hold at most three red fives |
| YakuRules.YakuFlagBits | mahjong/yaku.py:123-127 | the mask `2080374784` is non-zero exactly when the seven-pairs, nine-gates, straight or double-sequence flags are set |
| YakuRules.YakuFlagField | mahjong/yaku.py:123-127 | that mask is the five-bit field at bit 26 |
| YakuRules.AnyYakuFlag | mahjong/yaku.py:122-127 | the loop answers whether some payload carries a flag |
| YakuRules.ThirdNamesExclusive | mahjong/yaku.py:531-591 | the straight and the mixed triple sequence are never both listed, nor the half and full flush |
| YakuRules.UraListedUnderRiichi | mahjong/yaku.py:593-601 | ura dora is listed exactly when the riichi or double-riichi bit is set |
| YakuRules.HasBit | mahjong/yaku.py:531-591 | testing a one-bit flag is reading that bit |
| YakuRules.FlagShifts | mahjong/yaku.py:9-61 | the tsumo, riichi, double riichi, robbed kan, after-kan, last-tile and ippatsu flags are single bits 4 and 38-43 |
| YakuRules.CountNamesFields | mahjong/yaku.py:593-601 | the counted names read dora from bits 26-30, red fives from 36-37 and ura from 31-35 under riichi |
| YakuRules.SangenRead | mahjong/yaku.py:397 | the dragon read is the field at bits 22-23 |
| YakuRules.InRiichiBits | mahjong/yaku.py:593-601 | riichi is bit 38 or bit 39 |
| YakuRules.ParseYakuRet | mahjong/yaku.py:496-602 | `parse_yaku_ret` computes the name list `YakuNames` for a yakuman list or a bit word |
| YakuRules.AppendFirst | mahjong/yaku.py:531-554 | the first flag block computes `FirstNames` |
| YakuRules.AppendSecond | mahjong/yaku.py:555-579 | the second flag block computes `SecondNames` |
| YakuRules.AppendThird | mahjong/yaku.py:580-591 | the third flag block computes `ThirdNames` |
| YakuRules.AppendCounts | mahjong/yaku.py:593-601 | the count block computes `CountNames` |
| YakuScore.BuildMentsu | mahjong/yaku.py:170-188 | the meld list is the pair followed by the concealed and called melds, `Mentsu` |
| YakuScore.MentsuKinds | mahjong/yaku.py:170-188 | every entry of the meld list is a tile kind |
| YakuScore.FindRonPos | mahjong/yaku.py:190-197 | the search returns the first concealed triplet equal to the winning kind, and shanpon exactly when there is one |
| YakuScore.ScanSeqWaits | mahjong/yaku.py:198-211 | the sequence loop computes the wait flags `SeqWaits` |
| YakuScore.MachiBits | mahjong/yaku.py:189-211 | the wait word's 0x10 bit is a single wait and its 0x1 bit a two-sided wait |
| YakuScore.CountTally | mahjong/yaku.py:218-228 | the terminal, honour and dragon counts computed by the loop are `TallyUpTo` |
| YakuScore.AddRangeFu | mahjong/yaku.py:235-258 | the meld fu loop adds `RangeFu` |
| YakuScore.RangeFuBounds | mahjong/yaku.py:235-258 | each meld adds its simple fu or twice it, so the total lies between those bounds and is even for even fu |
| YakuScore.CountFonhai | mahjong/yaku.py:284-292 | the wind-triplet loop computes `Fonhai` |
| YakuScore.CountDoko | mahjong/yaku.py:299-310 | the triple-triplet loop computes `Doko` |
| YakuScore.CollectIkki | mahjong/yaku.py:334-341 | the straight loop computes the bit set `IkkiBits` |
| YakuScore.CountDojun | mahjong/yaku.py:343-354 | the identical-sequence loop computes `Dojun` |
| YakuScore.CountMatches | mahjong/yaku.py:343-354 | the inner loop counts the earlier sequences of the same number in another suit |
| YakuScore.CountChantaSeqs | mahjong/yaku.py:367-369 | the terminal-sequence loop computes `ChantaSeqs` |
| YakuScore.CountSuits | mahjong/yaku.py:365-376 | the suit loop computes `SuitsOf` |
| YakuScore.IsGreen | mahjong/yaku.py:384-396 | the hand is all green exactly when every meld kind is green and every sequence is 2-3-4 of sou |
| YakuScore.Scan | mahjong/yaku.py:259-396 | all scans together compute `ScansOf` |
| YakuScore.AddWinds | mahjong/yaku.py:399-405 | the wind loop computes `Winds`, which adds 0..2 han per meld and changes neither fu nor yakuman |
| YakuScore.TerminalSangen | mahjong/yaku.py:397 | the dragon count is written at bits 22-23 and read back by the sangen mask |
| YakuScore.EvaluateOne | mahjong/yaku.py:147-431 | scoring one payload computes `Evaluate` |
| YakuScore.PrepareOne | mahjong/yaku.py:149-217 | the set-up stage computes `Prepare` |
| YakuScore.SwapRon | mahjong/yaku.py:212-217 | the ron swap computes `RonSwap`, which keeps the multiset of melds |
| YakuScore.FindMachi | mahjong/yaku.py:189-211 | the wait stage computes `MachiOf`: shanpon exactly when a position was found |
| YakuScore.AddMeldsFu | mahjong/yaku.py:229-258 | the pair and meld fu are added |
| YakuScore.YakuOne | mahjong/yaku.py:259-429 | the yaku stage computes `YakuOf` |
| YakuScore.CloseOne | mahjong/yaku.py:406-429 | the closing stage computes `Closing` |
| YakuScore.Picks | mahjong/yaku.py:170-188 | the looked-up positions of a run of melds, one per meld |
| YakuScore.RonPos | mahjong/yaku.py:190-197 | the first concealed triplet equal to the winning kind, or 0 exactly when there is none |
| YakuScore.MachiOf | mahjong/yaku.py:189-211 | the wait word marks shanpon exactly when a triplet position was found, and that position is a concealed triplet |
| YakuScore.RonSwap | mahjong/yaku.py:212-217 | the ron swap keeps the meld counts and the multiset of melds |
| YakuScore.TallyUpTo | mahjong/yaku.py:218-228 | dragon triplets are among the honour ones, and terminals plus honours never exceed the melds scanned |
| YakuScore.SeqWaits | mahjong/yaku.py:198-211 | sequences never make a single or shanpon wait |
| YakuScore.FourKotsu | mahjong/yaku.py:260-281 | four triplets add at least two han and leave the fu |
| YakuScore.KotsuStage | mahjong/yaku.py:259-316 | the triplet yaku never lower the han and leave the fu |
| YakuScore.PinfuStage | mahjong/yaku.py:317-328 | the pinfu test never lowers the han and keeps the fu even and at least 20 |
| YakuScore.ShuntsuStage | mahjong/yaku.py:317-364 | with at most one open call flag the sequence yaku never lower the han, and the fu stay even and at least 20 |
| YakuScore.PinfuStageFu | mahjong/yaku.py:318-322 | a pinfu hand leaves the sequence stage with 20 fu by tsumo and 30 by ron |
| YakuScore.Winds | mahjong/yaku.py:399-405 | the wind triplets add 0..2 han per meld and change neither fu nor yakuman |
| YakuScore.TerminalTests | mahjong/yaku.py:365-405 | the terminal, colour and wind yaku never lower the han and leave the fu |
| YakuScore.ChitoiStage | mahjong/yaku.py:406-417 | seven pairs add at least two han and set 25 fu |
| YakuScore.Finish | mahjong/yaku.py:418-429 | the flush and all-simples stage never lowers the han; 25 fu stay, other fu are rounded up to the next ten |
| YakuScore.YakuOfFu | mahjong/yaku.py:259-429 | from even base fu of at least 20, the yaku stage ends at 25 fu for seven pairs and otherwise at a multiple of ten of at least 20 |
| YakuScore.Evals | mahjong/yaku.py:147-431 | one evaluation per payload, each `Evaluate` of its parsed payload |
| YakuScore.FirstYakuman | mahjong/yaku.py:430-431 | the first payload with yakuman, or the end when none has one |
| YakuScore.FlagsKeepField | mahjong/yaku.py:435-459 | the tsumo, riichi and special flags leave the fields at bits 5-37 unchanged |
| YakuScore.MaxOf | mahjong/yaku.py:466 | `np.max`: an element no smaller than any other |
| YakuScore.ArgMax | mahjong/yaku.py:468 | `np.argmax`: the first index of the largest value |
| YakuScore.YakumanHanAtLeast | mahjong/yaku.py:430-431 | a yakuman list is worth at least one han per entry |
| YakuScore.BonusDora | mahjong/yaku.py:435-464 | the dora count is written at bits 26-30 and reads back there |
| YakuScore.BonusUra | mahjong/yaku.py:460-462 | bits 31-35 read the ura count under riichi and 0 otherwise |
| YakuScore.BonusAka | mahjong/yaku.py:463-464 | bits 36-37 read the red-five count |
| YakuScore.BonusCountNames | mahjong/yaku.py:435-464 | the name list of the written word shows exactly the dora, red-five and ura counts that were written |
| YakuScore.BonusNonNegative | mahjong/yaku.py:435-464 | the bonus han are non-negative |
| YakuScore.EvaluateHan | mahjong/yaku.py:147-431 | with at most one open call flag, a payload's han are non-negative |
| YakuScore.EvalsHan | mahjong/yaku.py:147-431 | so is every payload's |
| YakuScore.ScoreOfYakuman | mahjong/yaku.py:430-431 | a yakuman outcome has at least one han per listed yakuman and scores 8000 per han |
| YakuScore.ScoreLoop | mahjong/yaku.py:147-493 | `yaku()` over a payload list computes `ScoreSpec` |
| YakuScore.RunRounds | mahjong/yaku.py:147-493 | the per-payload loop with its early yakuman return computes `ScoreOf` |
| YakuScore.FirstYakumanAt | mahjong/yaku.py:430-431 | the first yakuman payload is the one returned |
| YakuScore.FirstYakumanNone | mahjong/yaku.py:430-431 | with no yakuman, the loop runs to the end |
| YakuScore.BaseFuShape | mahjong/yaku.py:159-258 | the base fu are at least 20 and even |
| YakuScore.RoundUpTen | mahjong/yaku.py:428-429 | rounding up to ten keeps 20 and 30 and gives at least 30 above 20 |
| YakuScore.ClosingFu | mahjong/yaku.py:406-429 | seven pairs score 25 fu; otherwise the fu are rounded up to ten |
| YakuScore.FuShape | mahjong/yaku.py:147-429 | every payload scores 25 fu for seven pairs, and otherwise a multiple of ten of at least 20 |
| YakuScore.PinfuFu | mahjong/yaku.py:318-322 | a closed pinfu hand scores 20 fu by tsumo and 30 by ron |
| YakuScore.OpenPinfuFu | mahjong/yaku.py:326-328 | an open all-sequence hand scores at least 30 fu |
| YakuScore.ChooseUnique | mahjong/yaku.py:465-470 | with one best score, its index is chosen |
| YakuScore.ChooseTie | mahjong/yaku.py:465-475 | with a tie and a tied entry of positive han, the chosen entry has the best score and the most han, the earliest of those |
| YakuScore.ChooseZeroTie | mahjong/yaku.py:465-475 | when all tied entries have 0 han, the masked argmax picks index 0 even though its score is not the best |
| YakuScore.LimitBounds | mahjong/yaku.py:476-490 | the limit is at most 8000; from 5 han it is at least 2000 and ignores the score; below 5 it caps the score at 2000 |
| YakuScore.LimitMonotone | mahjong/yaku.py:476-490 | more han never lower the limit |
| YakuHand.HandCounts | mahjong/yaku.py:66-104 | the 34 counts are the per-kind counts of the hand tiles |
| YakuHand.RunPayloads | mahjong/yaku.py:147-494 | `yaku` returns `PayloadOutcome`: the payloads are tried in order, it fails at the first one it cannot score, returns at the first round with a yakuman, and otherwise settles all rounds as `ScoreSpec` |
| YakuHand.TryRound | mahjong/yaku.py:164-431 | one round is the payload's `Evaluate` result, or a failure when it cannot be scored |
| YakuHand.ListPayloads | mahjong/yaku.py:130-145 | the payload path computes `PayloadListing`: raises when `yaku` does, no listing without han, otherwise the names of the outcome |
| YakuHand.RoundsRaise | mahjong/yaku.py:147-431 | `yaku` raises exactly when there is no payload or a payload it cannot score comes before any round with a yakuman; payloads after that round are never read |
| YakuHand.RoundTriesNone | mahjong/yaku.py:164-431 | a round fails exactly when its payload cannot be scored |
| YakuHand.EarlyYakumanListed | mahjong/yaku.py:430-431 | a yakuman round after rounds without one ends the loop with 8000 per yakuman and lists the yakuman names, whatever later payloads hold |
| YakuHand.RoundsScored | mahjong/yaku.py:147-494 | when every round is scored, the loop gives `ScoreOf` of the round results |
| YakuHand.PayloadOutcomeScored | mahjong/yaku.py:147-494 | when every payload can be scored, `yaku` gives `ScoreSpec` |
| YakuHand.PayloadListingScored | mahjong/yaku.py:130-145 | when every payload can be scored, the listing is that of `ScoreSpec` |
| YakuHand.KokushiListing | mahjong/yaku.py:135-141 | thirteen orphans lists the thirteen-wait name when the winning kind is paired, and the plain one otherwise |
| YakuHand.YakumanListed | mahjong/yaku.py:130-145 | an outcome with yakuman is always listed, by exactly its yakuman names |
| YakuHand.ListHand | mahjong/yaku.py:130-145 | the whole of `calculate_yaku` computes `Calculate` |
| YakuHand.Yaku.constructor | mahjong/yaku.py:66-104 | the scorer's fields are the inputs, the counts and winning answer of the hand, and, when the hand wins, the classified calls and open-call count |
| YakuHand.Yaku.CountDora | mahjong/yaku.py:106-115 | the three dora counters are the dora, ura and red-five counts of the hand |
| YakuHand.Yaku.NaiveCheckYaku | mahjong/yaku.py:117-128 | `naive_check_yaku` computes `NaiveCheck` |
| YakuHand.Yaku.CalculateYaku | mahjong/yaku.py:130-145 | `calculate_yaku` returns `Calculate` of the object's values; dora are counted on the payload path and untouched otherwise |
| AgentModel.DrawDiscardRestores | mahjong/agent.py:71-95 | drawing then discarding one tile restores the counter |
| AgentModel.FindKey | mahjong/agent.py:215-259 | the first position holding the key, or the length when none does |
| AgentModel.PutFuroLookup | mahjong/agent.py:215-259 | storing a call sets that key, keeps the others, keeps keys distinct, and appends only a new key |
| AgentModel.FromItems | mahjong/agent.py:251-258 | rebuilding the call dictionary from its items keeps keys distinct |
| AgentModel.AddedKanPosition | mahjong/agent.py:246-258 | an added kan replaces the pon entry in place by the kan entry with the added tile |
| AgentModel.ConcealedKans | mahjong/agent.py:195-197 | the closed-kan options are exactly the held-four kinds with their first id |
| AgentModel.MissingId | mahjong/agent.py:202 | the added id is an id of that kind not among the pon's tiles, and none exists exactly when all four are there |
| AgentModel.AddedKansSpec | mahjong/agent.py:198-204 | each added-kan option extends a pon with a held tile, and every extendable pon has one |
| AgentModel.ChiLoweredCounts | mahjong/agent.py:223-231 | a chi lowers the counter by the kinds of the own tiles, and keeps it well formed |
| AgentModel.Min | mahjong/agent.py:223-231 | the least element |
| AgentModel.Agent.constructor | mahjong/agent.py:16-50 | the new seat has the score, the dealt tiles and their counts, empty river and calls, no riichi, seat wind `27 + seat % 4`, and its waits |
| AgentModel.Agent.Draw | mahjong/agent.py:71-73 | the tile joins the hand and its kind's count rises by one |
| AgentModel.Agent.Discard | mahjong/agent.py:75-95 | the tile leaves the hand and joins the discards and the river, its count falls by one, and outside playback the furiten flags are refreshed |
| AgentModel.Agent.RefreshWaits | mahjong/agent.py:80-95 | with an unchanged hand the discard may set furiten; with a changed one the waits are recomputed (kept under riichi) and furiten is set exactly when a discarded kind is waited on |
| AgentModel.Agent.Rewait | mahjong/agent.py:89-95 | the ready test of the new hand, and its waits when ready |
| AgentModel.Agent.Riichi | mahjong/agent.py:97-108 | riichi succeeds exactly when not yet declared; then the status is 1 or 2, ippatsu is armed, the turn is recorded and 10 points are paid; otherwise nothing changes |
| AgentModel.Agent.CheckPon | mahjong/agent.py:110-116 | a pon is possible exactly when not in riichi and two of the kind are held |
| AgentModel.Agent.CheckChi | mahjong/agent.py:118-169 | the chi patterns are exactly the allowed ones, all in the tile's suit and covering it; none when the call would leave no tile to discard; their order follows the tile's number |
| AgentModel.Agent.CheckKan | mahjong/agent.py:171-204 | open kan on three held; under riichi a closed kan only when the waits do not change; otherwise all held-four kinds; added kans on pons |
| AgentModel.Agent.CanDeclareRiichi | mahjong/agent.py:206-213 | riichi can be declared exactly when closed, not in riichi, with 10 points, and some discard leaves the hand ready |
| AgentModel.Agent.Pon | mahjong/agent.py:215-221 | the tiles leave the hand, the pon is stored, the call is recorded and two of the kind are removed from the counter |
| AgentModel.Agent.Chi | mahjong/agent.py:223-231 | the tiles leave the hand, the chi is stored under its lowest kind and call index, and the own tiles are removed from the counter |
| AgentModel.Agent.Kan | mahjong/agent.py:233-259 | the kind is cleared from the counter; closed and open kans store the four tiles; an added kan upgrades the pon in place and removes only the added tile |
| GameRules.PyRemoveAt | mahjong/game.py:160-167 | `list.pop(i)` with Python's negative index removes exactly that element |
| GameRules.CutPermutes | mahjong/game.py:68-73 | cutting the wall is a permutation |
| GameRules.Bump | mahjong/game.py:112-158 | raising one kind's visible count leaves the others |
| GameRules.ChiShownCounts | mahjong/game.py:146-150 | a chi shows the kinds of the own tiles |
| GameRules.DealPartition | mahjong/game.py:89-96 | the 52 dealt positions split into four disjoint sets of 13, one per seat |
| GameRules.DealAt | mahjong/game.py:89-96 | each seat's deal is the wall at its positions |
| GameRules.DealDisjoint | mahjong/game.py:89-96 | the four deals are disjoint and disjoint from the rest of the wall |
| GameRules.RankOrderRanked | mahjong/game.py:35-38 | `get_rank` sorts the seats by score, higher first, seat order breaking ties, and is a permutation |
| GameRules.RanksOrder | mahjong/game.py:97-99 | one seat ranks ahead of another exactly when it has more points, or as many and a lower seat |
| GameRules.RanksAreRanking | mahjong/game.py:97-99 | the ranks are that ranking |
| GameRules.RoundWind | mahjong/game.py:48 | the round wind is `27 + r // 4` with Python's negative index |
| GameRules.Doras | mahjong/game.py:51-52 | each dora is `get_dora` of its indicator |
| GameRules.CutKeepsIds | mahjong/game.py:68-73 | the cut wall has the same distinct ids |
| GameRules.SeatsDiffer | mahjong/game.py:89-96 | the dealing order visits each seat once |
| GameModel.MahjongGame.GetRank | mahjong/game.py:35-38 | the ranking is a permutation of the seats, ranked |
| GameModel.MahjongGame.constructor | mahjong/game.py:15-33 | a new table: empty wall, east round, no sticks, 250 points per seat, seat winds east to north |
| GameModel.MahjongGame.InitFromInfo | mahjong/game.py:40-65 | the table is set from a log record: round, honba, sticks, dealer, dora, fresh seats with the scores and hands, ranks by score, the indicator visible |
| GameModel.MahjongGame.NewGame | mahjong/game.py:67-100 | the wall is cut at the dice, the hand opened, each seat dealt its 13 tiles and the ranks set by the old scores |
| GameModel.MahjongGame.NewDora | mahjong/game.py:102-110 | a dora is added exactly when given or when both wall positions exist; the ura dora only when drawn from the wall |
| GameModel.MahjongGame.DeclareFuro | mahjong/game.py:112-125 | a meld code is applied exactly when it parses; chi, pon and kan then change the seat, the visible counts and the kan counts as the seat methods state |
| GameModel.MahjongGame.Claim | mahjong/game.py:116-125 | the per-kind dispatch of a parsed meld |
| GameModel.MahjongGame.CheckPon | mahjong/game.py:127-130 | a pon is offered exactly when the wall is not empty and the seat can pon |
| GameModel.MahjongGame.CheckChi | mahjong/game.py:132-135 | chi patterns are offered exactly when the wall is not empty and the seat allows them |
| GameModel.MahjongGame.CheckKan | mahjong/game.py:137-140 | kans are offered only with tiles left, as the seat allows |
| GameModel.MahjongGame.Pon | mahjong/game.py:142-144 | the seat pons and two more of the kind become visible |
| GameModel.MahjongGame.Chi | mahjong/game.py:146-150 | the seat chis and its own two tiles become visible |
| GameModel.MahjongGame.Kan | mahjong/game.py:152-158 | the seat kans, its kan count rises by one and the kind becomes fully visible |
| GameModel.MahjongGame.Draw | mahjong/game.py:160-167 | the given tile, or the wall tile at the draw position (dead wall after kans), is drawn and the wall shrinks by it; nothing when the position is off the wall |
| GameModel.MahjongGame.Discard | mahjong/game.py:169-171 | the seat discards and the kind gains one visible tile |
| GameModel.MahjongGame.CanDeclareRiichi | mahjong/game.py:173-176 | riichi is possible exactly when four tiles are left and the seat can declare |
| GameModel.MahjongGame.Riichi | mahjong/game.py:178-180 | a first riichi adds one stick and costs the seat 10 points, so points plus sticks are conserved |
| GameModel.DealRound | mahjong/game.py:89-96 | four fresh seats each hold their 13 dealt tiles |
| GameModel.PlaceSeats | mahjong/game.py:97-99 | the computed ranks rank the scores |
| GameModel.MakeSeats | mahjong/game.py:59-61 | four fresh seats hold the logged scores and hands, with seat winds counted from the dealer |
| GameModel.NewSeat | mahjong/agent.py:16-50 | a fresh seat with the score, the dealt tiles and its wind |
| Server.Plus | online_game/server.py:435-516 | adding score deltas adds their sums |
| Server.WinZeroSum | online_game/server.py:435-467 | one win's payments sum to zero |
| Server.RonTransfer | online_game/server.py:458-467 | a ron moves the payment from the discarder to the winner only |
| Server.TsumoTransfer | online_game/server.py:435-457 | a tsumo winner gains what the others pay; a non-dealer's tsumo costs the dealer twice the share plus honba |
| Server.WinsZeroSum | online_game/server.py:435-467 | several wins sum to zero |
| Server.Bonus | online_game/server.py:541-544 | paying the leftover sticks to one seat adds exactly their value |
| Server.NagashiAsWrittenCreatesPoints | online_game/server.py:491-505 | as written, a dealer's nagashi mangan takes 20 from each other seat and creates 60 points |
| Server.NagashiZeroSum | online_game/server.py:491-505 | corrected, each nagashi mangan sums to zero |
| Server.NagashiDeltaZeroSum | online_game/server.py:491-505 | so do several |
| Server.SeatSetSize | online_game/server.py:507-516 | the number of ready seats is the sum of their indicators |
| Server.TenpaiZeroSum | online_game/server.py:507-516 | the ready payments sum to zero |
| Server.NoDealerWinMeans | online_game/server.py:431-467 | the dealer keeps the deal exactly when one of the wins is the dealer's |
| Server.HandDeltaSum | online_game/server.py:423-549 | a hand's deltas sum to the sticks collected minus those left on the table |
| Server.Max | online_game/server.py:542 | the largest score |
| Server.LeaderIsArgMax | online_game/server.py:542-546 | the leader is the first seat with the largest score |
| Server.DealerBehindPlaysOn | online_game/server.py:531-549 | in the south and west rounds, a dealer who is not leading keeps the game going |
| Server.GameEnvironment.constructor | online_game/server.py:423-549 | a new environment holds the scores, no honba, no sticks, round 0 |
| Server.GameEnvironment.GameUpdate | online_game/server.py:423-549 | one hand is settled: scores gain `HandDelta`, settling a dealer's nagashi mangan with the corrected zero-sum payment; honba, round and the end test follow; leftover sticks go to the leader when the game ends; points plus sticks are conserved |
| Server.GameEnvironment.CloseGame | online_game/server.py:531-549 | the end test, and the leftover sticks paid to the leader when the game ends, conserving points plus sticks |
| Server.Pay | online_game/server.py:435-516 | one payment is added to the scores and to the deltas |
| Server.SettleWins | online_game/server.py:435-476 | the wins are settled as `HandDelta` states, and the dealer changes exactly when it did not win |
| Server.SettleDraw | online_game/server.py:478-516 | an exhaustive draw is settled as `HandDelta` states, with its dealer change |
| Server.ChiBanLeavesSuit | online_game/server.py:1076-1082 | as written, a chi of 7-8-9 called on the 7 bans kind 9, the 1 of the next suit |
| Server.ChiBanStaysInSuit | online_game/server.py:1076-1082 | corrected, the ban list gains the called kind and at most the kind three away in the same suit: above when the low end was called and the run starts below 7, below when the high end was called and the run starts above 1 |
| Server.ChiLowKind | online_game/server.py:1077 | the lowest id of a chi gives its first kind |
| Server.BannedAfterPon | online_game/server.py:1086-1087 | a pon bans only the called kind |
| Common.ArgMax | online_game/web_client/js/src/render.js:27-29 | the first index of the largest value; 0 for an empty list |
| Render.JsRem | online_game/web_client/js/src/render.js:23-25 | JavaScript's `%` truncates: its result has the dividend's sign and is smaller than the divisor |
| Render.ModIsRemainder | online_game/web_client/js/src/render.js:23-25 | `mod` is the non-negative remainder |
| Render.CeilDivBounds | online_game/web_client/js/src/render.js:31-52 | the ceiling quotient bounds |
| Render.SplitArray | online_game/web_client/js/src/render.js:31-52 | lengths outside 1..16 are refused; otherwise the rows concatenate to the input, there are ceil(n/4) of them, each of 1..4 items, non-increasing and differing by at most one |
| Render.FrameIndexLayout | online_game/web_client/js/src/render.js:158-173 | the frame is suit times ten plus number, 0 for a red five, never the face-down frame |
| Render.FrameIndexKind | online_game/web_client/js/src/render.js:158-173 | apart from red fives, two tiles share a frame exactly when they share a kind |
| Render.Frames | online_game/web_client/js/src/render.js:158-173 | the frames of a list are the frames of its tiles |
| Render.SortTiles | online_game/web_client/js/src/render.js:1025-1053 | the array is sorted in place and keeps its elements |
| Render.ParseFuro | online_game/web_client/js/src/render.js:1025-1053 | the tiles are sorted and laid out as `Layout` |
| Render.ClaimedLayout | online_game/web_client/js/src/render.js:1025-1053 | a claimed meld shows three frames with the claimed tile turned at the position facing the discarder, the others in order, and an extra for a kan |
| Render.ConcealedLayout | online_game/web_client/js/src/render.js:1025-1053 | a closed kan shows the tile between two face-down frames, with the next tile on top |
| Render.FacingPosition | online_game/web_client/js/src/render.js:1025-1053 | the turned position is 0..2 for any other seat |

## Left out

- The pickled tables are parameters, and so are the builder scripts' `__main__` loops that write them. The lemmas about look-ups assume the tables the builders would produce.
- `check_agari.py` imports the table builder of a second script (`make_agari_table_2`, not part of this model). Its look-ups are modelled against the `make_agari_table.py` definitions.
- Random dice and the wall shuffle are inputs of `GameModel.MahjongGame.NewGame`.
- Logging, `print`, `print_agari_info` and every client message are dropped. So are `Agent.search_furo`, the `display_*` methods, `Agent.is_agari` and the `get_*_feature` methods of the game.
- The numpy `int64` words of `yaku()` are unbounded integers. No value the scorer writes reaches bit 63.
- GameModel.MahjongGame.NewDora: returns false where `game.py:104-105` raises `IndexError` on a short wall.
- GameModel.MahjongGame.Draw: returns nothing where `game.py:164` raises `IndexError` on a short wall.
- GameModel.MahjongGame.DeclareFuro: returns false where `game.py:114` raises `TypeError` on a code `parse_meld` does not decode.
- AgentModel.Agent.Discard: requires the tile to be in the hand; `set.remove` raises `KeyError` otherwise.
- GameRules.RoundWind: requires `-16 <= r < 16`; any other round makes the list index raise `IndexError`.
- Utils.ParseMeld: takes a non-negative code; negative codes are not modelled.
- AgariTable.Unique: keeps first-occurrence order, where `list(set(..))` iterates in hash order. The payload order feeds the earliest-index tie-break of `yaku.py:465-475`, so a tie may pick a different payload there.
- AgentModel.MissingId: stands for the `set.pop()` of the added-kan path of `check_kan`. It returns the least missing id, where Python returns an unspecified one.
- AgentModel.Agent.constructor: takes the deal as a sequence, so the iteration order of the dealt set (the order of the counter's keys) is an input.
- AgariTable.ExplainsPackable: requires every count of the shape to be non-zero. Zero counts would push positions past the 4-bit fields. The table's patterns never hold one.
- Utils.EncodeShunzi, Utils.EncodeKezi and Utils.EncodeKanzi are modelled as written. No core file calls them. Their round trip with `parse_meld` holds only as `ShunziRoundTrip`, `KeziRoundTripKindZero` and `KanziRoundTrip` state.
- MachiTable.RemoveOneFromPtn: returns the list as written, without the end trims. `IntendedRemovals` is the corrected list; the waiting table is a parameter, and `MachiBuilt` only assumes that each of its keys is some one-tile removal of a winning shape, which both lists satisfy.
- YakuHand.RunPayloads: tries every payload before `ScoreLoop` scores them, where `yaku` scores each payload once. The outcome is the same, since rounds do not depend on one another.
- YakuScore.ChooseZeroTie: the masked argmax is modelled as written, including its pick of index 0 when every tied entry has 0 han.
- YakuHand.Yaku.CalculateYaku: modelled as written. `count_dora` adds to the counters, so a second call counts the dora again.
- The seven-pairs branch of `yaku.py:406-417` is modelled as written: it leaves the suit counts at zero, so seven pairs never score the half or full flush.

## Findings

| source | as written | input that shows it | evidently intended | confidence | as-written member | corrected member |
|---|---|---|---|---|---|---|
| mahjong/make_machi_table.py:24-41 | `ptns.append(new_ptn)` is indented inside the interior-entry branch, so a copy whose first or last entry was emptied is trimmed and then never appended | `[[1, 1, 1], [2]]`: returns `[[1, 0, 1], [2]]` and `[[1, 1, 1], [1]]` only; the two-sided wait `[[1, 1], [2]]` is dropped | append after every branch: one pattern per non-zero count | not executed; the trimming code has no other use | MachiTable.TwoSidedWaitDropped | MachiTable.IntendedCount |
| online_game/server.py:491-505 | a dealer's nagashi mangan pays the dealer 120 but takes only 20 from each other seat | `Exhausted([0], {})` with dealer 0: deltas `[120, -20, -20, -20]`, 60 points created | each other seat pays 40, so the hand sums to zero | not executed | Server.NagashiAsWrittenCreatesPoints | Server.NagashiZeroSum |
| online_game/server.py:1079-1080 | after a chi called on its low end, the guard `chi_ptn % 9 != 7` bans `chi_ptn + 3` even for a 7-8-9 run | chi of ids `[24, 28, 32]` on tile 24: bans kinds `[6, 9]`, and 9 is the 1 of the next suit | ban `chi_ptn + 3` only when it is in the same suit, `chi_ptn % 9 < 6` | not executed | Server.ChiBanLeavesSuit | Server.ChiBanStaysInSuit |
